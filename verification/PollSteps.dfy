/** Preservation of the poll pipeline's invariants: the fetcher, its source and the download
    tasks, predicate by predicate.

    The frame lemmas come first: what stays true of a worker when files are only added, when
    one task moves on, or when the cause is recorded. FetchKeeps and TaskKeeps then put the
    predicates together for one action of the fetcher and for one action of a task. */
module PollSteps {
  import opened Wrappers
  import opened Counting
  import opened Dedup
  import opened Prepare
  import opened PollPipeline
  import opened PollInvariant

  // ---------- frames ----------

  predicate FileGrows(f: FileState, g: FileState)
  {
    g.file == f.file && (f.done ==> g.done) && (GotBody(f.task) ==> GotBody(g.task))
  }

  ghost predicate Grows(s: State, t: State)
  {
    && (s.Stop() ==> t.Stop()) && (s.eos ==> t.eos) && (s.fetch.FetchDone? ==> t.fetch.FetchDone?)
    && |s.files| <= |t.files|
    && forall i :: 0 <= i < |s.files| ==> FileGrows(s.files[i], t.files[i])
  }

  lemma GoodKept(c: Config, s: State, t: State, b: FileResult)
    requires Good(c, s, b) && Grows(s, t)
    ensures Good(c, t, b)
  {
    assert FileGrows(s.files[b.index], t.files[b.index]);
  }

  lemma UnitKept(s: State, t: State, i: nat)
    requires Grows(s, t) && i < |s.files|
    ensures UnitAt(t, i) == UnitAt(s, i)
  {
    assert FileGrows(s.files[i], t.files[i]);
  }

  // One file's record changed.
  ghost predicate OneFile(s: State, t: State, fi: nat)
  {
    && fi < |s.files| == |t.files| && t.files[fi].file == s.files[fi].file
    && t.files == s.files[fi := t.files[fi]]
    && t.workers == s.workers && t.emit == s.emit && t.calls == s.calls && t.received == s.received
    && t.fetch == s.fetch && t.handed == s.handed && t.eos == s.eos
  }

  // ---------- the fetcher ----------

  lemma FetchShape(c: Config, s: State, a: FetchAction)
    requires c.Valid() && Shape(c, s) && FetchEnabled(c, s, a)
    ensures Shape(c, FetchStep(c, s, a)) && Grows(s, FetchStep(c, s, a))
  {
    var t := FetchStep(c, s, a);
    if a.HandOver? { UptoStays(c, s); }
    forall w | 0 <= w < |t.workers| ensures WorkerShape(c, t, t.workers[w], w) {
      assert WorkerShape(c, s, s.workers[w], w);
    }
  }

  lemma UptoStays(c: Config, s: State)
    requires Shape(c, s)
    ensures forall w :: 0 <= w < |s.workers| ==> (s.workers[w].upto + c.workers) % c.workers == w
  {
    forall w | 0 <= w < |s.workers| ensures (s.workers[w].upto + c.workers) % c.workers == w {
      assert WorkerShape(c, s, s.workers[w], w);
      ModStep(s.workers[w].upto, c.workers);
    }
  }

  lemma FetchFiles(c: Config, s: State, a: FetchAction)
    requires Shape(c, s) && FetchEnabled(c, s, a) && FilesOk(c, s)
    ensures FilesOk(c, FetchStep(c, s, a))
  {
  }

  lemma FetchCause(c: Config, s: State, a: FetchAction)
    requires c.Valid() && c.promptGet && Shape(c, s) && FetchEnabled(c, s, a) && CauseOk(c, s)
    ensures CauseOk(c, FetchStep(c, s, a))
  {
    var t := FetchStep(c, s, a);
    forall i | 0 <= i < |t.files| && FailureRecorded(t.files[i].task) ensures t.Stop() {
      if i < |s.files| { assert t.files[i] == s.files[i]; }
    }
  }

  lemma SumByLast<T>(s: seq<T>, x: T, f: T -> nat)
    ensures SumBy(s + [x], f) == SumBy(s, f) + f(x)
  {
    assert (s + [x])[..|s|] == s;
  }

  lemma FetchSlots(c: Config, s: State, a: FetchAction)
    requires c.Valid() && Shape(c, s) && FetchEnabled(c, s, a) && SlotsOk(c, s)
    ensures SlotsOk(c, FetchStep(c, s, a))
  {
    if a.SubmitTask? || a.SubmitSkip? {
      var f := FileState(s.fetch.file, if a.SubmitTask? then Getting else Skipped, Empty, false);
      SumByLast(s.files, f, Held);
      SumByLast(s.files, f, Pooled);
    }
  }

  lemma {:induction false} InputAhead(q: seq<nat>, from: nat, upto: nat, step: nat)
    requires InputChain(q, from, upto, step)
    ensures from <= upto
  {
    if |q| > 0 { InputAhead(q[1..], from + step, upto, step); }
  }

  lemma {:induction false} InputPush(q: seq<nat>, from: nat, upto: nat, step: nat)
    requires InputChain(q, from, upto, step)
    ensures InputChain(q + [upto], from, upto + step, step)
  {
    if |q| == 0 {
      assert (q + [upto])[1..] == [];
    } else {
      InputPush(q[1..], from + step, upto, step);
      assert (q + [upto])[1..] == q[1..] + [upto];
    }
  }

  // The worker whose turn it is expects exactly the next file.
  lemma TurnIsNext(c: Config, s: State, w: nat)
    requires Shape(c, s) && w < |s.workers| && InputOk(c, s, s.workers[w])
    ensures w == WorkerOf(c, s.handed) <==> s.workers[w].upto == s.handed
  {
    var x := s.workers[w];
    assert WorkerShape(c, s, x, w);
    if w == WorkerOf(c, s.handed) { ModWindow(s.handed, x.upto, c.workers); }
  }

  lemma FetchInputs(c: Config, s: State, a: FetchAction)
    requires c.Valid() && Shape(c, s) && FetchEnabled(c, s, a) && InputsOk(c, s)
    ensures InputsOk(c, FetchStep(c, s, a))
  {
    var t := FetchStep(c, s, a);
    forall w | 0 <= w < |t.workers| ensures InputOk(c, t, t.workers[w]) {
      assert InputOk(c, s, s.workers[w]);
      if a.HandOver? {
        TurnIsNext(c, s, w);
        if w == WorkerOf(c, s.handed) && !s.workers[w].pc.Stopped? {
          InputPush(s.workers[w].input, From(c, s.workers[w]), s.handed, c.workers);
        }
      }
    }
  }

  lemma FetchTaken(c: Config, s: State, a: FetchAction, t: State)
    requires c.Valid() && Shape(c, s) && FetchEnabled(c, s, a) && t == FetchStep(c, s, a) && Shape(c, t)
    requires AllTakenOk(c, s) && InputsOk(c, s)
    ensures AllTakenOk(c, t)
  {
    forall i | 0 <= i < |t.files| ensures TakenOk(t.files[i], i, t.workers[WorkerOf(c, i)]) {
      var x := s.workers[WorkerOf(c, i)];
      if i < |s.files| {
        assert TakenOk(s.files[i], i, x);
      } else {
        TurnIsNext(c, s, WorkerOf(c, i));
        assert InputOk(c, s, x) && WorkerShape(c, s, x, WorkerOf(c, i));
      }
    }
  }

  // ---------- workers seen from other actors ----------

  lemma WorkerKept(c: Config, s: State, t: State, x: Worker, y: Worker)
    requires WorkerOk(c, s, x) && Grows(s, t) && y.at == x.at && y.pc == x.pc && (y.upto == x.upto || !s.fetch.FetchDone?)
    ensures WorkerOk(c, t, y)
  {
    if InHand(x.pc) { assert FileGrows(s.files[x.at], t.files[x.at]); }
  }

  lemma WorkersOfFetch(c: Config, s: State, a: FetchAction, t: State)
    requires Shape(c, s) && FetchEnabled(c, s, a) && t == FetchStep(c, s, a) && Grows(s, t) && WorkersOk(c, s)
    ensures WorkersOk(c, t)
  {
    forall w | 0 <= w < |t.workers| ensures WorkerOk(c, t, t.workers[w]) {
      WorkerKept(c, s, t, s.workers[w], t.workers[w]);
    }
  }

  lemma QueuesKept(c: Config, s: State, t: State)
    requires QueuesOk(c, s) && Grows(s, t) && t.received == s.received && |t.workers| == |s.workers|
    requires forall w :: 0 <= w < |s.workers| ==>
      t.workers[w].queue == s.workers[w].queue && t.workers[w].next == s.workers[w].next && t.workers[w].at == s.workers[w].at
    ensures QueuesOk(c, t)
  {
    forall w | 0 <= w < |t.workers| ensures QueueOk(c, t, t.workers[w]) {
      assert QueueOk(c, s, s.workers[w]);
      forall i | 0 <= i < |t.workers[w].queue| ensures Good(c, t, t.workers[w].queue[i]) { GoodKept(c, s, t, s.workers[w].queue[i]); }
    }
  }

  lemma YieldedKept(c: Config, s: State, t: State, calls: seq<Call>)
    requires AllYielded(c, s, calls) && Grows(s, t)
    ensures AllYielded(c, t, calls)
  {
    forall i | 0 <= i < |calls| ensures Good(c, t, calls[i].result) { GoodKept(c, s, t, calls[i].result); }
  }

  lemma LastYieldKept(c: Config, s: State, t: State, calls: seq<Call>, i: nat, ok: bool)
    requires LastYield(c, s, calls, i, ok) && Grows(s, t)
    ensures LastYield(c, t, calls, i, ok)
  {
    YieldedKept(c, s, t, calls[..i]);
    GoodKept(c, s, t, calls[i].result);
  }

  // After a clean end no more files come.
  lemma OverKept(c: Config, s: State, t: State)
    requires Over(c, s) && Grows(s, t) && t.calls == s.calls && (s.cause.Some? ==> t.cause == s.cause)
    requires s.fetch.FetchDone? ==> |t.files| == |s.files|
    ensures Over(c, t)
  {
    if CleanEnd(c, s) {
      YieldedKept(c, s, t, s.calls);
    } else {
      var k := |s.calls| - 1;
      YieldedKept(c, s, t, s.calls[..k]);
      if s.calls[k].Yielded? { LastYieldKept(c, s, t, s.calls, k, s.calls[k].ok); }
    }
  }

  lemma CallsKept(c: Config, s: State, t: State)
    requires CallsOk(c, s) && Grows(s, t) && t.emit == s.emit && t.calls == s.calls && (s.cause.Some? ==> t.cause == s.cause)
    requires s.fetch.FetchDone? ==> |t.files| == |s.files|
    ensures CallsOk(c, t)
  {
    match s.emit
    case Recv(_) => YieldedKept(c, s, t, s.calls);
    case Deliver(b) => GoodKept(c, s, t, b); YieldedKept(c, s, t, s.calls);
    case Unreserve(i, ok) => LastYieldKept(c, s, t, s.calls, i, ok);
    case Ring(i, ok) => LastYieldKept(c, s, t, s.calls, i, ok);
    case _ => OverKept(c, s, t);
  }

  // Nobody's reservation moved.
  lemma BudgetKept(c: Config, s: State, t: State, w: nat)
    requires Shape(c, s) && Shape(c, t) && Grows(s, t) && w < |s.workers| && BytesAt(c, s, w) && BellAt(c, s, w)
    requires t.emit == s.emit && t.workers[w].queue == s.workers[w].queue && t.workers[w].pc == s.workers[w].pc
    requires t.workers[w].at == s.workers[w].at && t.workers[w].buffered == s.workers[w].buffered && t.workers[w].bell == s.workers[w].bell
    ensures BytesAt(c, t, w) && BellAt(c, t, w)
  {
    var x := s.workers[w];
    assert WorkerShape(c, s, x, w);
    forall i | 0 <= i < |s.files| ensures UnitAt(t, i) == UnitAt(s, i) { UnitKept(s, t, i); }
    assert QueueUnits(t, x.queue) == QueueUnits(s, x.queue);
    assert EmitUnits(c, t, w) == EmitUnits(c, s, w) && PcUnits(t, t.workers[w]) == PcUnits(s, x);
  }

  lemma BudgetsKept(c: Config, s: State, t: State)
    requires Shape(c, s) && Shape(c, t) && Grows(s, t) && BytesOk(c, s) && BellsOk(c, s) && t.emit == s.emit
    requires forall w :: 0 <= w < |s.workers| ==>
      t.workers[w] == s.workers[w].(input := t.workers[w].input, upto := t.workers[w].upto)
    ensures BytesOk(c, t) && BellsOk(c, t)
  {
    forall w | 0 <= w < |t.workers| ensures BytesAt(c, t, w) && BellAt(c, t, w) {
      assert t.workers[w] == s.workers[w].(input := t.workers[w].input, upto := t.workers[w].upto);
      BudgetKept(c, s, t, w);
    }
  }

  lemma FetchEffect(c: Config, s: State, a: FetchAction, t: State)
    requires Shape(c, s) && FetchEnabled(c, s, a) && t == FetchStep(c, s, a) && CauseOk(c, s)
    ensures t.received == s.received && t.emit == s.emit && t.calls == s.calls && (s.cause.Some? ==> t.cause == s.cause)
    ensures |t.workers| == |s.workers|
    ensures forall w :: 0 <= w < |s.workers| ==> t.workers[w] == s.workers[w].(input := t.workers[w].input, upto := t.workers[w].upto)
    ensures s.fetch.FetchDone? ==> |t.files| == |s.files|
  {
  }

  lemma FetchKeepsFetchSide(c: Config, s: State, a: FetchAction, t: State)
    requires c.Valid() && c.promptGet && Shape(c, s) && FetchSide(c, s) && FetchEnabled(c, s, a) && t == FetchStep(c, s, a)
    ensures Shape(c, t) && Grows(s, t) && FetchSide(c, t)
  {
    FetchShape(c, s, a);
    FetchFiles(c, s, a);
    FetchCause(c, s, a);
    FetchSlots(c, s, a);
    FetchInputs(c, s, a);
    FetchTaken(c, s, a, t);
    WorkersOfFetch(c, s, a, t);
  }

  // Steps of the fetcher and the tasks leave results, calls and reservations alone.
  ghost predicate LeavesEmitSide(s: State, t: State)
  {
    && Grows(s, t)
    && t.received == s.received && t.emit == s.emit && t.calls == s.calls && (s.cause.Some? ==> t.cause == s.cause)
    && |t.workers| == |s.workers|
    && (forall w :: 0 <= w < |s.workers| ==> t.workers[w] == s.workers[w].(input := t.workers[w].input, upto := t.workers[w].upto))
    && (s.fetch.FetchDone? ==> |t.files| == |s.files|)
  }

  lemma EmitSideKept(c: Config, s: State, t: State)
    requires Shape(c, s) && Shape(c, t) && EmitSide(c, s) && LeavesEmitSide(s, t)
    ensures EmitSide(c, t)
  {
    forall w | 0 <= w < |s.workers|
      ensures t.workers[w].queue == s.workers[w].queue && t.workers[w].next == s.workers[w].next && t.workers[w].at == s.workers[w].at
    {
      assert t.workers[w] == s.workers[w].(input := t.workers[w].input, upto := t.workers[w].upto);
    }
    QueuesKept(c, s, t);
    CallsKept(c, s, t);
    BudgetsKept(c, s, t);
  }

  lemma FetchKeeps(c: Config, s: State, a: FetchAction, t: State)
    requires Inv(c, s) && FetchEnabled(c, s, a) && t == FetchStep(c, s, a)
    ensures Inv(c, t)
  {
    FetchKeepsFetchSide(c, s, a, t);
    FetchEffect(c, s, a, t);
    EmitSideKept(c, s, t);
  }

  // ---------- download tasks ----------

  lemma TaskFrame(c: Config, s: State, fi: nat, a: TaskAction, t: State)
    requires c.Valid() && Shape(c, s) && fi < |s.files| && TaskEnabled(c, s, s.files[fi].task, a) && t == TaskStep(c, s, fi, a)
    requires FileOk(c, s.files[fi])
    ensures OneFile(s, t, fi) && FileOk(c, t.files[fi]) && FileGrows(s.files[fi], t.files[fi])
    ensures (s.cause.Some? ==> t.cause == s.cause) && (s.groupDone ==> t.groupDone)
  {
  }

  lemma OneFileGrows(c: Config, s: State, t: State, fi: nat)
    requires Shape(c, s) && OneFile(s, t, fi) && FileGrows(s.files[fi], t.files[fi]) && (s.Stop() ==> t.Stop())
    ensures Grows(s, t) && Shape(c, t)
  {
    forall w | 0 <= w < |t.workers| ensures WorkerShape(c, t, t.workers[w], w) { assert WorkerShape(c, s, s.workers[w], w); }
  }

  lemma TaskCause(c: Config, s: State, fi: nat, a: TaskAction, t: State)
    requires c.Valid() && c.promptGet && fi < |s.files| && TaskEnabled(c, s, s.files[fi].task, a) && t == TaskStep(c, s, fi, a)
    requires CauseOk(c, s)
    ensures CauseOk(c, t)
  {
    forall i | 0 <= i < |t.files| && FailureRecorded(t.files[i].task) ensures t.Stop() {
      if i != fi { assert t.files[i] == s.files[i]; }
    }
  }

  lemma TaskSlots(c: Config, s: State, fi: nat, a: TaskAction, t: State)
    requires c.Valid() && fi < |s.files| && TaskEnabled(c, s, s.files[fi].task, a) && t == TaskStep(c, s, fi, a)
    requires SlotsOk(c, s) && FileOk(c, s.files[fi])
    ensures SlotsOk(c, t)
  {
    SumByUpdate(s.files, fi, t.files[fi], Held);
    SumByUpdate(s.files, fi, t.files[fi], Pooled);
    SumByAtLeast(s.files, fi, Pooled);
  }

  lemma TaskTaken(c: Config, s: State, fi: nat, a: TaskAction, t: State)
    requires c.Valid() && Shape(c, s) && fi < |s.files| && TaskEnabled(c, s, s.files[fi].task, a) && t == TaskStep(c, s, fi, a)
    requires Shape(c, t) && AllTakenOk(c, s) && WorkersOk(c, s) && FileOk(c, s.files[fi])
    ensures AllTakenOk(c, t)
  {
    forall i | 0 <= i < |t.files| ensures TakenOk(t.files[i], i, t.workers[WorkerOf(c, i)]) {
      assert TakenOk(s.files[i], i, s.workers[WorkerOf(c, i)]);
      assert WorkerOk(c, s, s.workers[WorkerOf(c, i)]);
    }
  }

  lemma TaskKeepsFetchSide(c: Config, s: State, fi: nat, a: TaskAction, t: State)
    requires c.Valid() && c.promptGet && Shape(c, s) && FetchSide(c, s)
    requires fi < |s.files| && TaskEnabled(c, s, s.files[fi].task, a) && t == TaskStep(c, s, fi, a)
    ensures Shape(c, t) && LeavesEmitSide(s, t) && FetchSide(c, t)
  {
    TaskFrame(c, s, fi, a, t);
    OneFileGrows(c, s, t, fi);
    TaskCause(c, s, fi, a, t);
    TaskSlots(c, s, fi, a, t);
    TaskTaken(c, s, fi, a, t);
    forall w | 0 <= w < |t.workers| ensures WorkerOk(c, t, t.workers[w]) { WorkerKept(c, s, t, s.workers[w], t.workers[w]); }
    forall w | 0 <= w < |t.workers| ensures InputOk(c, t, t.workers[w]) { assert InputOk(c, s, s.workers[w]); }
  }

  lemma TaskKeeps(c: Config, s: State, fi: nat, a: TaskAction, t: State)
    requires Inv(c, s) && fi < |s.files| && TaskEnabled(c, s, s.files[fi].task, a) && t == TaskStep(c, s, fi, a)
    ensures Inv(c, t)
  {
    TaskKeepsFetchSide(c, s, fi, a, t);
    EmitSideKept(c, s, t);
  }
}

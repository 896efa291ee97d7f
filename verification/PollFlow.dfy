/** Preservation of the poll pipeline's invariants, continued: decode workers, the emit loop
    and cancellation.

    A worker's step is first described from outside (WorkerMoved, and what it may do to the
    file it holds), so that the invariants of the other actors follow from that description
    and not from the actions. Its own record, the queue it feeds, the bodies it takes and the
    byte budget are then treated action by action; WorkerKeeps and EmitKeeps put the parts
    together. */
module PollFlow {
  import opened Wrappers
  import opened Counting
  import opened Dedup
  import opened Prepare
  import opened PollPipeline
  import opened PollInvariant
  import opened PollSteps

  // ---------- a worker's step, seen from outside ----------

  // Worker w moved, and at most the body of its file and the cause changed besides.
  ghost predicate WorkerMoved(s: State, t: State, w: nat)
  {
    && w < |s.workers| == |t.workers| && t.workers == s.workers[w := t.workers[w]]
    && |t.files| == |s.files|
    && (forall i :: 0 <= i < |s.files| ==> t.files[i] == s.files[i].(body := t.files[i].body))
    && (forall i :: 0 <= i < |s.files| && i != s.workers[w].at ==> t.files[i] == s.files[i])
    && t.fetch == s.fetch && t.handed == s.handed && t.eos == s.eos && t.pool == s.pool && t.groupDone == s.groupDone
    && t.calls == s.calls && (s.cause.Some? ==> t.cause == s.cause)
    && t.workers[w].upto == s.workers[w].upto
  }

  lemma RecordMoved(s: State, t: State, w: nat, y: Worker)
    requires w < |s.workers| && t == SetWorker(s, w, y) && y.upto == s.workers[w].upto
    ensures WorkerMoved(s, t, w) && Grows(s, t)
  {
  }

  lemma LocalMoved(c: Config, s: State, w: nat, a: WorkerAction, t: State)
    requires Shape(c, s) && w < |s.workers| && WorkerEnabled(c, s, w, a) && IsLocal(a) && t == WorkerStep(c, s, w, a)
    ensures WorkerMoved(s, t, w) && Grows(s, t)
  {
    RecordMoved(s, t, w, Local(c, s.Stop(), s.workers[w], UnitAt(s, s.workers[w].at), a));
  }

  predicate Frees(a: WorkerAction) { a.DropSlot? || a.DecodeFile? }

  lemma FreeMoved(c: Config, s: State, w: nat, a: WorkerAction, t: State)
    requires Shape(c, s) && w < |s.workers| && WorkerEnabled(c, s, w, a) && Frees(a) && t == WorkerStep(c, s, w, a)
    ensures WorkerMoved(s, t, w) && Grows(s, t)
    ensures s.workers[w].at < |s.files| && s.slots > 0 && t == Free(s, s.workers[w].at).(workers := t.workers)
  {
    assert WorkerShape(c, s, s.workers[w], w);
  }

  lemma WorkerFrame(c: Config, s: State, w: nat, a: WorkerAction, t: State)
    requires Shape(c, s) && w < |s.workers| && WorkerEnabled(c, s, w, a) && t == WorkerStep(c, s, w, a)
    ensures WorkerMoved(s, t, w) && Grows(s, t)
  {
    assert WorkerShape(c, s, s.workers[w], w);
    if IsLocal(a) { LocalMoved(c, s, w, a, t); } else if Frees(a) { FreeMoved(c, s, w, a, t); }
  }

  // The first input of an idle worker is the file it expects.
  lemma TakesExpected(c: Config, s: State, w: nat)
    requires Shape(c, s) && w < |s.workers| && InputOk(c, s, s.workers[w]) && s.workers[w].pc.Take? && |s.workers[w].input| > 0
    ensures s.workers[w].input[0] == s.workers[w].at < |s.files|
  {
    assert WorkerShape(c, s, s.workers[w], w);
  }

  predicate Sends(c: Config, s: State, w: nat, a: WorkerAction)
    requires w < |s.workers|
  {
    a.SendSlow? || (a.SendTry? && HasSpace(c, s, w))
  }

  lemma SentShape(c: Config, s: State, w: nat, b: FileResult, t: State)
    requires c.Valid() && Shape(c, s) && w < |s.workers| && t == Enqueue(c, s, w, b) && b.index < |s.files|
    ensures WorkerShape(c, t, t.workers[w], w)
  {
    var x := s.workers[w];
    assert WorkerShape(c, s, x, w);
    ModStep(x.at, c.workers);
    ModStep(x.next, c.workers);
  }

  lemma UnsentShape(c: Config, s: State, w: nat, a: WorkerAction, t: State)
    requires c.Valid() && Shape(c, s) && w < |s.workers| && WorkerEnabled(c, s, w, a) && t == WorkerStep(c, s, w, a)
    requires InputOk(c, s, s.workers[w]) && WorkerMoved(s, t, w) && !Sends(c, s, w, a)
    ensures WorkerShape(c, t, t.workers[w], w)
  {
    assert WorkerShape(c, s, s.workers[w], w);
    if a.TakeNext? { TakesExpected(c, s, w); }
    hide Shape;
  }

  lemma OwnShape(c: Config, s: State, w: nat, a: WorkerAction, t: State)
    requires c.Valid() && Shape(c, s) && w < |s.workers| && WorkerEnabled(c, s, w, a) && t == WorkerStep(c, s, w, a)
    requires InputOk(c, s, s.workers[w]) && WorkerMoved(s, t, w)
    ensures WorkerShape(c, t, t.workers[w], w)
  {
    var x := s.workers[w];
    assert WorkerShape(c, s, x, w);
    if Sends(c, s, w, a) { SentShape(c, s, w, ResultOf(s, x.at, x.pc.recs), t); } else { UnsentShape(c, s, w, a, t); }
  }

  lemma WorkerEmitShape(c: Config, s: State, w: nat, a: WorkerAction, t: State)
    requires c.Valid() && Shape(c, s) && w < |s.workers| && WorkerEnabled(c, s, w, a) && t == WorkerStep(c, s, w, a)
    requires WorkerMoved(s, t, w) && QueueOk(c, s, s.workers[w])
    ensures EmitShape(t)
  {
    assert WorkerShape(c, s, s.workers[w], w);
    if s.emit.Recv? { MeetsWaiting(c, s, w); }
  }

  // An empty queue means the awaited worker holds the awaited file.
  lemma MeetsWaiting(c: Config, s: State, w: nat)
    requires Shape(c, s) && w < |s.workers| && QueueOk(c, s, s.workers[w]) && s.emit.Recv?
    ensures WorkerOf(c, s.emit.counter) == w ==> s.workers[w].next == s.emit.counter
    ensures WorkerOf(c, s.emit.counter) == w && |s.workers[w].queue| == 0 ==> s.workers[w].at == s.emit.counter
  {
    var x := s.workers[w];
    assert WorkerShape(c, s, x, w);
    if WorkerOf(c, s.emit.counter) == w { ModWindow(s.emit.counter, x.next, c.workers); }
  }

  lemma WorkerShapeKept(c: Config, s: State, w: nat, a: WorkerAction, t: State)
    requires c.Valid() && Shape(c, s) && w < |s.workers| && WorkerEnabled(c, s, w, a) && t == WorkerStep(c, s, w, a)
    requires InputOk(c, s, s.workers[w]) && QueueOk(c, s, s.workers[w])
    ensures Shape(c, t)
  {
    WorkerFrame(c, s, w, a, t);
    OwnShape(c, s, w, a, t);
    WorkerEmitShape(c, s, w, a, t);
    forall v | 0 <= v < |t.workers| ensures WorkerShape(c, t, t.workers[v], v) {
      assert WorkerShape(c, s, s.workers[v], v);
    }
  }

  // ---------- slots, causes, files ----------

  lemma BodyIsThere(c: Config, s: State, w: nat, a: WorkerAction)
    requires Shape(c, s) && w < |s.workers| && WorkerEnabled(c, s, w, a) && Frees(a)
    requires FilesOk(c, s) && WorkerOk(c, s, s.workers[w]) && AllTakenOk(c, s)
    ensures s.workers[w].at < |s.files| && s.files[s.workers[w].at].body.Landed? && GotBody(s.files[s.workers[w].at].task)
  {
    var x := s.workers[w];
    assert WorkerShape(c, s, x, w);
    assert TakenOk(s.files[x.at], x.at, s.workers[WorkerOf(c, x.at)]) && FileOk(c, s.files[x.at]);
  }

  lemma WorkerFiles(c: Config, s: State, w: nat, a: WorkerAction, t: State)
    requires Shape(c, s) && w < |s.workers| && WorkerEnabled(c, s, w, a) && t == WorkerStep(c, s, w, a)
    requires FilesOk(c, s) && WorkerOk(c, s, s.workers[w]) && AllTakenOk(c, s) && SlotsOk(c, s)
    ensures FilesOk(c, t) && SlotsOk(c, t)
  {
    if Frees(a) {
      FreeMoved(c, s, w, a, t);
      BodyIsThere(c, s, w, a);
      FreeFiles(c, s, s.workers[w].at, t);
    } else {
      FilesStand(c, s, w, a, t);
    }
  }

  lemma FreeFiles(c: Config, s: State, fi: nat, t: State)
    requires fi < |s.files| && s.slots > 0 && t == Free(s, fi).(workers := t.workers)
    requires s.files[fi].body.Landed? && GotBody(s.files[fi].task) && FilesOk(c, s) && SlotsOk(c, s)
    ensures FilesOk(c, t) && SlotsOk(c, t)
  {
    FreeSlots(c, s, fi);
    forall i | 0 <= i < |t.files| ensures FileOk(c, t.files[i]) { assert FileOk(c, s.files[i]); }
  }

  lemma FilesStand(c: Config, s: State, w: nat, a: WorkerAction, t: State)
    requires Shape(c, s) && w < |s.workers| && WorkerEnabled(c, s, w, a) && t == WorkerStep(c, s, w, a) && !Frees(a)
    ensures t.files == s.files && t.slots == s.slots && t.pool == s.pool && t.fetch == s.fetch
  {
    assert WorkerShape(c, s, s.workers[w], w);
  }

  lemma FreeSlots(c: Config, s: State, fi: nat)
    requires fi < |s.files| && s.slots > 0 && s.files[fi].body.Landed? && SlotsOk(c, s)
    ensures SlotsOk(c, Free(s, fi))
  {
    SumByUpdate(s.files, fi, Free(s, fi).files[fi], Held);
    SumByUpdate(s.files, fi, Free(s, fi).files[fi], Pooled);
  }

  lemma WorkerCause(c: Config, s: State, w: nat, a: WorkerAction, t: State)
    requires Shape(c, s) && w < |s.workers| && WorkerEnabled(c, s, w, a) && t == WorkerStep(c, s, w, a)
    requires WorkerMoved(s, t, w) && CauseOk(c, s) && WorkerOk(c, s, s.workers[w])
    ensures CauseOk(c, t)
  {
    assert WorkerShape(c, s, s.workers[w], w);
    forall i | 0 <= i < |t.files| && FailureRecorded(t.files[i].task) ensures t.Stop() {
      assert t.files[i].task == s.files[i].task;
    }
    CauseStands(c, s, w, a, t);
  }

  lemma CauseStands(c: Config, s: State, w: nat, a: WorkerAction, t: State)
    requires Shape(c, s) && w < |s.workers| && WorkerEnabled(c, s, w, a) && t == WorkerStep(c, s, w, a)
    requires WorkerMoved(s, t, w) && CauseOk(c, s) && WorkerOk(c, s, s.workers[w])
    ensures DecodeCause(c, t) && (t.emit.Join? || t.emit.Finished? <==> s.emit.Join? || s.emit.Finished?)
    ensures t.cause == Some(Closed) ==> s.cause == Some(Closed)
  {
    var x := s.workers[w];
    assert WorkerShape(c, s, x, w);
    if a.RecordFail? { assert FileInHand(c, s, x.pc, s.files[x.at]); }
    if t.cause.Some? && t.cause.value.DecodeFailed? { assert t.files[t.cause.value.fi].file == s.files[t.cause.value.fi].file; }
  }

  // ---------- the worker's own record ----------

  // A live context and a closed channel mean that the body landed.
  lemma DoneAndAliveHasBody(c: Config, s: State, i: nat)
    requires i < |s.files| && s.files[i].done && !s.Stop() && FilesOk(c, s) && CauseOk(c, s)
    ensures GotBody(s.files[i].task)
  {
    assert FileOk(c, s.files[i]) && !FailureRecorded(s.files[i].task);
  }

  lemma OwnTakes(c: Config, s: State, w: nat, a: WorkerAction, t: State)
    requires c.Valid() && Shape(c, s) && w < |s.workers| && WorkerEnabled(c, s, w, a) && t == WorkerStep(c, s, w, a)
    requires a.TakeNext? || a.TakeEnd? || a.TakeStop?
    requires InputOk(c, s, s.workers[w]) && CauseOk(c, s)
    ensures WorkerOk(c, t, t.workers[w]) && InputOk(c, t, t.workers[w]) && t.workers[w].at == s.workers[w].at
  {
    assert WorkerShape(c, s, s.workers[w], w);
    if a.TakeNext? { TakesExpected(c, s, w); }
  }

  lemma OwnInHand(c: Config, s: State, w: nat, a: WorkerAction, t: State)
    requires c.Valid() && Shape(c, s) && w < |s.workers| && WorkerEnabled(c, s, w, a) && t == WorkerStep(c, s, w, a) && IsLocal(a)
    requires !a.TakeNext? && !a.TakeEnd? && !a.TakeStop?
    requires WorkerOk(c, s, s.workers[w]) && InputOk(c, s, s.workers[w]) && CauseOk(c, s) && FilesOk(c, s)
    ensures WorkerOk(c, t, t.workers[w]) && InputOk(c, t, t.workers[w]) && t.workers[w].at == s.workers[w].at
  {
    var x := s.workers[w];
    assert WorkerShape(c, s, x, w) && FileInHand(c, s, x.pc, s.files[x.at]);
    if a.CheckCause? && !s.Stop() { DoneAndAliveHasBody(c, s, x.at); }
    hide FilesOk, CauseOk;
  }

  lemma OwnLocal(c: Config, s: State, w: nat, a: WorkerAction, t: State)
    requires c.Valid() && Shape(c, s) && w < |s.workers| && WorkerEnabled(c, s, w, a) && t == WorkerStep(c, s, w, a) && IsLocal(a)
    requires WorkerOk(c, s, s.workers[w]) && InputOk(c, s, s.workers[w]) && CauseOk(c, s) && FilesOk(c, s)
    ensures WorkerOk(c, t, t.workers[w]) && InputOk(c, t, t.workers[w])
    ensures t.workers[w].at == s.workers[w].at
  {
    if a.TakeNext? || a.TakeEnd? || a.TakeStop? { OwnTakes(c, s, w, a, t); } else { OwnInHand(c, s, w, a, t); }
  }

  lemma OwnFree(c: Config, s: State, w: nat, a: WorkerAction, t: State)
    requires c.Valid() && Shape(c, s) && w < |s.workers| && WorkerEnabled(c, s, w, a) && t == WorkerStep(c, s, w, a) && Frees(a)
    requires WorkerOk(c, s, s.workers[w]) && InputOk(c, s, s.workers[w]) && FilesOk(c, s) && AllTakenOk(c, s)
    ensures WorkerOk(c, t, t.workers[w]) && InputOk(c, t, t.workers[w])
  {
    var x := s.workers[w];
    assert WorkerShape(c, s, x, w);
    BodyIsThere(c, s, w, a);
    assert FileOk(c, s.files[x.at]);
    assert FileInHand(c, s, x.pc, s.files[x.at]);
    if a.DecodeFile? {
      assert DecodeResult(c, s.files[x.at]) == Decoded(c, s.files[x.at].file);
      assert FileInHand(c, t, t.workers[w].pc, t.files[x.at]);
    }
  }

  lemma OwnEnqueue(c: Config, s: State, w: nat, b: FileResult, t: State)
    requires c.Valid() && Shape(c, s) && w < |s.workers| && t == Enqueue(c, s, w, b) && InHand(s.workers[w].pc)
    requires InputOk(c, s, s.workers[w])
    ensures WorkerOk(c, t, t.workers[w]) && InputOk(c, t, t.workers[w])
  {
    var x := s.workers[w];
    InputAhead(x.input, From(c, x), x.upto, c.workers);
  }

  lemma OwnWaits(c: Config, s: State, w: nat, t: State)
    requires c.Valid() && Shape(c, s) && w < |s.workers| && s.workers[w].pc.Send?
    requires t == SetWorker(s, w, s.workers[w].(pc := SendWait(s.workers[w].pc.recs)))
    requires WorkerOk(c, s, s.workers[w]) && InputOk(c, s, s.workers[w])
    ensures WorkerOk(c, t, t.workers[w]) && InputOk(c, t, t.workers[w])
  {
  }

  lemma OwnFails(c: Config, s: State, w: nat, t: State)
    requires Shape(c, s) && w < |s.workers| && s.workers[w].pc.Fail? && InputOk(c, s, s.workers[w])
    requires t == SetWorker(RecordCause(s, DecodeFailed(s.workers[w].at)), w, s.workers[w].(pc := Stopped))
    ensures WorkerOk(c, t, t.workers[w]) && InputOk(c, t, t.workers[w])
  {
  }

  lemma OwnSend(c: Config, s: State, w: nat, a: WorkerAction, t: State)
    requires c.Valid() && Shape(c, s) && w < |s.workers| && WorkerEnabled(c, s, w, a) && t == WorkerStep(c, s, w, a)
    requires a.SendTry? || a.SendSlow? || a.RecordFail?
    requires WorkerOk(c, s, s.workers[w]) && InputOk(c, s, s.workers[w])
    ensures WorkerOk(c, t, t.workers[w]) && InputOk(c, t, t.workers[w])
  {
    var x := s.workers[w];
    assert WorkerShape(c, s, x, w);
    if a.RecordFail? {
      OwnFails(c, s, w, t);
    } else if a.SendSlow? || HasSpace(c, s, w) {
      OwnEnqueue(c, s, w, ResultOf(s, x.at, x.pc.recs), t);
    } else {
      OwnWaits(c, s, w, t);
    }
  }

  lemma OwnOk(c: Config, s: State, w: nat, a: WorkerAction, t: State)
    requires c.Valid() && Shape(c, s) && w < |s.workers| && WorkerEnabled(c, s, w, a) && t == WorkerStep(c, s, w, a)
    requires WorkerOk(c, s, s.workers[w]) && InputOk(c, s, s.workers[w]) && CauseOk(c, s) && FilesOk(c, s) && AllTakenOk(c, s)
    ensures WorkerOk(c, t, t.workers[w]) && InputOk(c, t, t.workers[w])
  {
    if IsLocal(a) { OwnLocal(c, s, w, a, t); } else if Frees(a) { OwnFree(c, s, w, a, t); } else { OwnSend(c, s, w, a, t); }
  }

  lemma OtherWorkers(c: Config, s: State, t: State, w: nat)
    requires Shape(c, s) && WorkerMoved(s, t, w) && Grows(s, t) && WorkersOk(c, s) && InputsOk(c, s)
    requires WorkerOk(c, t, t.workers[w]) && InputOk(c, t, t.workers[w])
    ensures WorkersOk(c, t) && InputsOk(c, t)
  {
    forall v | 0 <= v < |t.workers| ensures WorkerOk(c, t, t.workers[v]) {
      if v != w { WorkerKept(c, s, t, s.workers[v], t.workers[v]); }
    }
    forall v | 0 <= v < |t.workers| ensures InputOk(c, t, t.workers[v]) {
      assert InputOk(c, s, s.workers[v]);
    }
  }

  // ---------- bodies taken ----------

  lemma TakenOfLocal(c: Config, s: State, w: nat, a: WorkerAction, t: State, i: nat)
    requires c.Valid() && Shape(c, s) && w < |s.workers| && WorkerEnabled(c, s, w, a) && t == WorkerStep(c, s, w, a)
    requires IsLocal(a) && InputOk(c, s, s.workers[w])
    requires i < |s.files| && TakenOk(s.files[i], i, s.workers[w]) && (a.AbortRelease? || a.SendDrop? ==> i != s.workers[w].at || !s.files[i].body.Landed?)
    ensures TakenOk(t.files[i], i, t.workers[w])
  {
    assert WorkerShape(c, s, s.workers[w], w);
    if a.TakeNext? { TakesExpected(c, s, w); }
  }

  lemma TakenAfterSend(c: Config, f: FileState, i: nat, x: Worker, y: Worker)
    requires c.workers >= 1 && i % c.workers == x.at % c.workers && TakenOk(f, i, x) && InHand(x.pc) && !BeforeDecode(x.pc)
    requires i == x.at ==> f.done
    requires y.at == x.at + c.workers && y.pc.Take?
    ensures TakenOk(f, i, y)
  {
    if x.at < i < y.at { ModWindow(x.at, i, c.workers); }
  }

  lemma TakenOfOwn(c: Config, s: State, w: nat, a: WorkerAction, t: State, i: nat)
    requires c.Valid() && Shape(c, s) && w < |s.workers| && WorkerEnabled(c, s, w, a) && t == WorkerStep(c, s, w, a)
    requires WorkerMoved(s, t, w) && WorkerOk(c, s, s.workers[w]) && InputOk(c, s, s.workers[w])
    requires i < |s.files| && WorkerOf(c, i) == w && TakenOk(s.files[i], i, s.workers[w])
    ensures TakenOk(t.files[i], i, t.workers[w])
  {
    var x := s.workers[w];
    assert WorkerShape(c, s, x, w);
    if IsLocal(a) {
      TakenOfLocal(c, s, w, a, t, i);
    } else if Sends(c, s, w, a) {
      assert FileInHand(c, s, x.pc, s.files[x.at]);
      TakenAfterSend(c, s.files[i], i, x, t.workers[w]);
    } else {
      TakenOfRest(c, s, w, a, t, i);
    }
  }

  lemma TakenOfRest(c: Config, s: State, w: nat, a: WorkerAction, t: State, i: nat)
    requires Shape(c, s) && w < |s.workers| && WorkerEnabled(c, s, w, a) && t == WorkerStep(c, s, w, a)
    requires !IsLocal(a) && !Sends(c, s, w, a)
    requires i < |s.files| && TakenOk(s.files[i], i, s.workers[w])
    ensures TakenOk(t.files[i], i, t.workers[w])
  {
    assert WorkerShape(c, s, s.workers[w], w);
  }

  lemma WorkerTaken(c: Config, s: State, w: nat, a: WorkerAction, t: State)
    requires c.Valid() && Shape(c, s) && w < |s.workers| && WorkerEnabled(c, s, w, a) && t == WorkerStep(c, s, w, a)
    requires WorkerMoved(s, t, w) && Shape(c, t) && WorkerOk(c, s, s.workers[w]) && InputOk(c, s, s.workers[w]) && AllTakenOk(c, s)
    ensures AllTakenOk(c, t)
  {
    forall i | 0 <= i < |t.files| ensures TakenOk(t.files[i], i, t.workers[WorkerOf(c, i)]) {
      var v := WorkerOf(c, i);
      assert TakenOk(s.files[i], i, s.workers[v]);
      if v == w {
        TakenOfOwn(c, s, w, a, t, i);
      } else if Frees(a) {
        assert WorkerShape(c, s, s.workers[w], w);
        assert t.files[i] == s.files[i];
      } else {
        assert t.files == s.files;
      }
    }
  }

  lemma WorkerKeepsFetchSide(c: Config, s: State, w: nat, a: WorkerAction, t: State)
    requires c.Valid() && Shape(c, s) && FetchSide(c, s) && w < |s.workers| && QueueOk(c, s, s.workers[w])
    requires w < |s.workers| && WorkerEnabled(c, s, w, a) && t == WorkerStep(c, s, w, a)
    ensures Shape(c, t) && Grows(s, t) && FetchSide(c, t)
  {
    assert WorkerOk(c, s, s.workers[w]) && InputOk(c, s, s.workers[w]);
    WorkerFrame(c, s, w, a, t);
    WorkerShapeKept(c, s, w, a, t);
    WorkerFiles(c, s, w, a, t);
    WorkerCause(c, s, w, a, t);
    OwnOk(c, s, w, a, t);
    OtherWorkers(c, s, t, w);
    WorkerTaken(c, s, w, a, t);
  }

  // ---------- queues ----------

  lemma {:induction false} ChainPush(q: seq<FileResult>, next: nat, at: nat, step: nat, b: FileResult)
    requires Chain(q, next, at, step) && b.index == at
    ensures Chain(q + [b], next, at + step, step)
  {
    if |q| == 0 {
      assert (q + [b])[1..] == [];
    } else {
      ChainPush(q[1..], next + step, at, step, b);
      assert (q + [b])[1..] == q[1..] + [b];
    }
  }

  // Nothing was received: every other queue stands as it was.
  lemma QueueStands(c: Config, s: State, t: State, x: Worker, y: Worker)
    requires QueueOk(c, s, x) && Grows(s, t) && t.received == s.received
    requires y.queue == x.queue && y.next == x.next && y.at == x.at
    ensures QueueOk(c, t, y)
  {
    forall i | 0 <= i < |y.queue| ensures Good(c, t, y.queue[i]) { GoodKept(c, s, t, x.queue[i]); }
  }

  // One result was received from worker w, whose turn it was.
  lemma OthersWindow(c: Config, s: State, t: State, w: nat, v: nat)
    requires Shape(c, s) && QueuesOk(c, s) && Grows(s, t) && w < |s.workers| && v < |s.workers| && v != w
    requires s.emit.Recv? && WorkerOf(c, s.emit.counter) == w && t.received == s.received + 1
    ensures QueueOk(c, t, s.workers[v])
  {
    var x := s.workers[v];
    assert WorkerShape(c, s, x, v) && QueueOk(c, s, x);
    forall i | 0 <= i < |x.queue| ensures Good(c, t, x.queue[i]) { GoodKept(c, s, t, x.queue[i]); }
  }

  lemma ResultIsGood(c: Config, s: State, w: nat, recs: seq<Rec>)
    requires Shape(c, s) && w < |s.workers| && WorkerOk(c, s, s.workers[w])
    requires s.workers[w].pc == Send(recs) || s.workers[w].pc == SendWait(recs)
    ensures s.workers[w].at < |s.files| && Good(c, s, ResultOf(s, s.workers[w].at, recs))
  {
    assert FileInHand(c, s, s.workers[w].pc, s.files[s.workers[w].at]);
  }

  lemma EnqueueOwn(c: Config, s: State, w: nat, b: FileResult, t: State)
    requires c.Valid() && Shape(c, s) && w < |s.workers| && HasSpace(c, s, w) && QueueOk(c, s, s.workers[w])
    requires b.index == s.workers[w].at && Good(c, s, b) && t == Enqueue(c, s, w, b) && Grows(s, t)
    ensures QueueOk(c, t, t.workers[w])
    ensures c.queueCap == 0 ==> s.emit.Recv? && WorkerOf(c, s.emit.counter) == w && b.index == s.emit.counter
  {
    var x := s.workers[w];
    if c.queueCap > 0 {
      ChainPush(x.queue, x.next, x.at, c.workers, b);
      var q := t.workers[w].queue;
      forall i | 0 <= i < |q| ensures Good(c, t, q[i]) { GoodKept(c, s, t, q[i]); }
    } else {
      MeetsWaiting(c, s, w);
    }
  }

  lemma EnqueueKeeps(c: Config, s: State, w: nat, b: FileResult, t: State)
    requires c.Valid() && Shape(c, s) && w < |s.workers| && HasSpace(c, s, w) && QueuesOk(c, s) && CallsOk(c, s)
    requires b.index == s.workers[w].at && Good(c, s, b) && t == Enqueue(c, s, w, b) && Grows(s, t)
    ensures QueuesOk(c, t) && CallsOk(c, t)
  {
    assert QueueOk(c, s, s.workers[w]);
    EnqueueOwn(c, s, w, b, t);
    forall v | 0 <= v < |t.workers| ensures QueueOk(c, t, t.workers[v]) {
      if v != w {
        if c.queueCap > 0 { QueueStands(c, s, t, s.workers[v], t.workers[v]); } else { OthersWindow(c, s, t, w, v); }
      }
    }
    if c.queueCap > 0 {
      CallsKept(c, s, t);
    } else {
      GoodKept(c, s, t, b);
      YieldedKept(c, s, t, s.calls);
    }
  }

  lemma QuietQueues(c: Config, s: State, w: nat, a: WorkerAction, t: State)
    requires c.Valid() && Shape(c, s) && w < |s.workers| && WorkerEnabled(c, s, w, a) && t == WorkerStep(c, s, w, a)
    requires !Sends(c, s, w, a) && InputOk(c, s, s.workers[w])
    ensures t.workers[w].queue == s.workers[w].queue && t.workers[w].next == s.workers[w].next && t.workers[w].at == s.workers[w].at
    ensures t.emit == s.emit && t.received == s.received
  {
    assert WorkerShape(c, s, s.workers[w], w);
    if a.TakeNext? { TakesExpected(c, s, w); }
  }

  lemma WorkerQueues(c: Config, s: State, w: nat, a: WorkerAction, t: State)
    requires c.Valid() && Shape(c, s) && w < |s.workers| && WorkerEnabled(c, s, w, a) && t == WorkerStep(c, s, w, a)
    requires WorkerMoved(s, t, w) && Grows(s, t) && QueuesOk(c, s) && CallsOk(c, s) && InputOk(c, s, s.workers[w]) && WorkerOk(c, s, s.workers[w])
    ensures QueuesOk(c, t) && CallsOk(c, t)
  {
    var x := s.workers[w];
    if Sends(c, s, w, a) {
      ResultIsGood(c, s, w, x.pc.recs);
      EnqueueKeeps(c, s, w, ResultOf(s, x.at, x.pc.recs), t);
    } else {
      QuietQueues(c, s, w, a, t);
      QueuesKept(c, s, t);
      CallsKept(c, s, t);
    }
  }

  // ---------- byte budget ----------

  lemma SameUnits(s: State, t: State, q: seq<FileResult>)
    requires Grows(s, t) && forall i :: 0 <= i < |q| ==> q[i].index < |s.files|
    ensures QueueUnits(t, q) == QueueUnits(s, q)
  {
    forall i | 0 <= i < |q| ensures UnitAt(t, q[i].index) == UnitAt(s, q[i].index) { UnitKept(s, t, q[i].index); }
  }

  // The units w holds are made of the emit loop's, the queue's and the one in hand.
  lemma HeldKept(c: Config, s: State, t: State, w: nat)
    requires Shape(c, s) && Shape(c, t) && Grows(s, t) && w < |s.workers| && t.workers[w].queue == s.workers[w].queue
    requires EmitUnits(c, t, w) == EmitUnits(c, s, w) && PcUnits(t, t.workers[w]) == PcUnits(s, s.workers[w])
    ensures HeldUnits(c, t, w) == HeldUnits(c, s, w)
  {
    assert WorkerShape(c, s, s.workers[w], w);
    SameUnits(s, t, s.workers[w].queue);
  }

  lemma EmitKept(c: Config, s: State, t: State, w: nat)
    requires Shape(c, s) && Grows(s, t) && w < |s.workers| && t.emit == s.emit
    ensures EmitUnits(c, t, w) == EmitUnits(c, s, w)
  {
    if s.emit.Deliver? { UnitKept(s, t, s.emit.result.index); }
    if s.emit.Unreserve? { UnitKept(s, t, s.emit.index); }
  }

  lemma ReserveHeld(c: Config, s: State, w: nat, t: State)
    requires c.Valid() && w < |s.workers| && s.workers[w].pc.Reserve?
    requires t == SetWorker(s, w, Reserved(c, s.Stop(), s.workers[w], UnitAt(s, s.workers[w].at)))
    ensures HeldUnits(c, t, w) == HeldUnits(c, s, w) + if t.workers[w].pc.Decode? then [UnitAt(s, s.workers[w].at)] else []
    ensures EmitUnits(c, t, w) == EmitUnits(c, s, w)
  {
  }

  lemma ReserveBytesOk(c: Config, s: State, w: nat, t: State)
    requires c.Valid() && w < |s.workers| && s.workers[w].pc.Reserve? && BytesAt(c, s, w)
    requires t == SetWorker(s, w, Reserved(c, s.Stop(), s.workers[w], UnitAt(s, s.workers[w].at)))
    ensures BytesAt(c, t, w) && BellAt(c, t, w)
  {
    ReserveHeld(c, s, w, t);
    var h, u := HeldUnits(c, s, w), UnitAt(s, s.workers[w].at);
    assert h + [] == h;
    if c.byteCap > 0 && t.workers[w].pc.Decode? {
      if u == 0 { CappedWithZero(c.byteCap, h); } else { CappedAfterReserve(c.byteCap, h, u); }
    }
  }

  lemma AbortBytesOk(c: Config, s: State, w: nat, t: State)
    requires c.Valid() && Shape(c, s) && w < |s.workers| && s.workers[w].pc.Abort? && BytesAt(c, s, w)
    requires t == SetWorker(s, w, Aborted(s.workers[w], UnitAt(s, s.workers[w].at)))
    ensures BytesAt(c, t, w) && BellAt(c, t, w)
  {
    var h', u := HeldUnits(c, t, w), UnitAt(s, s.workers[w].at);
    assert HeldUnits(c, s, w) == h' + [u] + [] && h' + [] == h';
    if c.byteCap > 0 { CappedAfterRelease(c.byteCap, h', u, []); }
  }

  lemma BufferedHeld(c: Config, s: State, w: nat, b: FileResult, t: State)
    requires c.Valid() && c.queueCap > 0 && w < |s.workers| && t == Enqueue(c, s, w, b)
    requires b.index == s.workers[w].at && (s.workers[w].pc.Send? || s.workers[w].pc.SendWait?)
    ensures HeldUnits(c, t, w) == HeldUnits(c, s, w)
  {
    var x := s.workers[w];
    assert QueueUnits(s, x.queue + [b]) == QueueUnits(s, x.queue) + [UnitAt(s, b.index)];
    assert QueueUnits(t, x.queue + [b]) == QueueUnits(s, x.queue + [b]);
  }

  lemma HandedHeld(c: Config, s: State, w: nat, b: FileResult, t: State)
    requires c.Valid() && c.queueCap == 0 && w < |s.workers| && t == Enqueue(c, s, w, b) && s.workers[w].queue == []
    requires b.index == s.workers[w].at && (s.workers[w].pc.Send? || s.workers[w].pc.SendWait?)
    requires s.emit.Recv? && WorkerOf(c, b.index) == w
    ensures HeldUnits(c, t, w) == HeldUnits(c, s, w)
  {
    assert HeldUnits(c, s, w) == [UnitAt(s, b.index)];
    assert HeldUnits(c, t, w) == [UnitAt(t, b.index)];
  }

  lemma SendBytesOk(c: Config, s: State, w: nat, b: FileResult, t: State)
    requires c.Valid() && w < |s.workers| && BytesAt(c, s, w) && HasSpace(c, s, w) && QueueOk(c, s, s.workers[w])
    requires b.index == s.workers[w].at && (s.workers[w].pc.Send? || s.workers[w].pc.SendWait?) && t == Enqueue(c, s, w, b)
    requires WorkerOf(c, b.index) == w
    ensures BytesAt(c, t, w) && BellAt(c, t, w)
  {
    if c.queueCap > 0 { BufferedHeld(c, s, w, b, t); } else { HandedHeld(c, s, w, b, t); }
  }

  // Any other step of the worker holds what it held.
  lemma PlainBytesOk(c: Config, s: State, w: nat, a: WorkerAction, t: State)
    requires c.Valid() && Shape(c, s) && Shape(c, t) && Grows(s, t) && w < |s.workers| && WorkerEnabled(c, s, w, a) && t == WorkerStep(c, s, w, a)
    requires !Sends(c, s, w, a) && !a.TryReserve? && !a.AbortRelease? && InputOk(c, s, s.workers[w]) && BytesAt(c, s, w)
    ensures BytesAt(c, t, w) && BellAt(c, t, w)
  {
    var x := s.workers[w];
    assert WorkerShape(c, s, x, w);
    QuietQueues(c, s, w, a, t);
    EmitKept(c, s, t, w);
    if InHand(x.pc) { UnitKept(s, t, x.at); }
    HeldKept(c, s, t, w);
  }

  lemma OwnBudget(c: Config, s: State, w: nat, a: WorkerAction, t: State)
    requires c.Valid() && Shape(c, s) && Shape(c, t) && Grows(s, t) && w < |s.workers| && WorkerEnabled(c, s, w, a) && t == WorkerStep(c, s, w, a)
    requires QueueOk(c, s, s.workers[w]) && InputOk(c, s, s.workers[w]) && BytesAt(c, s, w)
    ensures BytesAt(c, t, w) && BellAt(c, t, w)
  {
    var x := s.workers[w];
    assert WorkerShape(c, s, x, w);
    if Sends(c, s, w, a) { SendBytesOk(c, s, w, ResultOf(s, x.at, x.pc.recs), t); }
    else if a.TryReserve? { ReserveBytesOk(c, s, w, t); }
    else if a.AbortRelease? { AbortBytesOk(c, s, w, t); }
    else { PlainBytesOk(c, s, w, a, t); }
  }

  lemma OtherBudget(c: Config, s: State, w: nat, a: WorkerAction, t: State, v: nat)
    requires c.Valid() && Shape(c, s) && Shape(c, t) && Grows(s, t) && WorkerMoved(s, t, w) && WorkerEnabled(c, s, w, a) && t == WorkerStep(c, s, w, a)
    requires v < |s.workers| && v != w && BytesAt(c, s, v) && BellAt(c, s, v) && QueueOk(c, s, s.workers[w])
    ensures BytesAt(c, t, v) && BellAt(c, t, v)
  {
    var x := s.workers[v];
    assert WorkerShape(c, s, x, v) && WorkerShape(c, s, s.workers[w], w);
    if t.emit == s.emit { EmitKept(c, s, t, v); } else { SentElsewhere(c, s, w, a, t, v); }
    if InHand(x.pc) { UnitKept(s, t, x.at); }
    HeldKept(c, s, t, v);
  }

  lemma SentElsewhere(c: Config, s: State, w: nat, a: WorkerAction, t: State, v: nat)
    requires c.Valid() && Shape(c, s) && w < |s.workers| && WorkerEnabled(c, s, w, a) && t == WorkerStep(c, s, w, a) && t.emit != s.emit
    requires v != w
    ensures EmitUnits(c, t, v) == [] == EmitUnits(c, s, v) && !s.emit.Ring?
  {
    assert WorkerShape(c, s, s.workers[w], w);
  }

  lemma WorkerBudgets(c: Config, s: State, w: nat, a: WorkerAction, t: State)
    requires c.Valid() && Shape(c, s) && Shape(c, t) && Grows(s, t) && WorkerMoved(s, t, w) && WorkerEnabled(c, s, w, a) && t == WorkerStep(c, s, w, a)
    requires QueueOk(c, s, s.workers[w]) && InputOk(c, s, s.workers[w]) && BytesOk(c, s) && BellsOk(c, s)
    ensures BytesOk(c, t) && BellsOk(c, t)
  {
    assert BytesAt(c, s, w);
    OwnBudget(c, s, w, a, t);
    forall v | 0 <= v < |t.workers| ensures BytesAt(c, t, v) && BellAt(c, t, v) {
      if v != w {
        assert BytesAt(c, s, v) && BellAt(c, s, v);
        OtherBudget(c, s, w, a, t, v);
      }
    }
  }

  lemma WorkerKeepsEmitSide(c: Config, s: State, w: nat, a: WorkerAction, t: State)
    requires c.Valid() && Shape(c, s) && Shape(c, t) && EmitSide(c, s) && w < |s.workers| && WorkerEnabled(c, s, w, a) && t == WorkerStep(c, s, w, a)
    requires InputOk(c, s, s.workers[w]) && WorkerOk(c, s, s.workers[w])
    ensures EmitSide(c, t)
  {
    assert QueueOk(c, s, s.workers[w]);
    WorkerFrame(c, s, w, a, t);
    WorkerQueues(c, s, w, a, t);
    WorkerBudgets(c, s, w, a, t);
  }

  lemma WorkerKeeps(c: Config, s: State, w: nat, a: WorkerAction, t: State)
    requires Inv(c, s) && w < |s.workers| && WorkerEnabled(c, s, w, a) && t == WorkerStep(c, s, w, a)
    ensures Inv(c, t)
  {
    assert QueueOk(c, s, s.workers[w]) && InputOk(c, s, s.workers[w]) && WorkerOk(c, s, s.workers[w]);
    WorkerKeepsFetchSide(c, s, w, a, t);
    WorkerKeepsEmitSide(c, s, w, a, t);
  }

  // ---------- the emit loop ----------

  // The emit loop and the caller touch results, reservations and the cause only.
  ghost predicate EmitMoved(s: State, t: State)
  {
    && t.files == s.files && t.fetch == s.fetch && t.handed == s.handed && t.eos == s.eos
    && t.slots == s.slots && t.pool == s.pool && t.groupDone == s.groupDone && (s.cause.Some? ==> t.cause == s.cause)
    && |t.workers| == |s.workers|
    && forall w :: 0 <= w < |s.workers| ==>
         t.workers[w] == s.workers[w].(queue := t.workers[w].queue, next := t.workers[w].next, buffered := t.workers[w].buffered, bell := t.workers[w].bell)
  }

  lemma EmitFrame(c: Config, s: State, a: EmitAction, t: State)
    requires Shape(c, s) && EmitEnabled(c, s, a) && t == EmitStep(c, s, a)
    ensures EmitMoved(s, t) && Grows(s, t)
  {
  }

  lemma ReceiveShape(c: Config, s: State, t: State)
    requires c.Valid() && Shape(c, s) && EmitEnabled(c, s, Receive) && t == EmitStep(c, s, Receive) && QueuesOk(c, s)
    ensures Shape(c, t)
  {
    var v := WorkerOf(c, s.emit.counter);
    assert WorkerShape(c, s, s.workers[v], v) && QueueOk(c, s, s.workers[v]);
    ModStep(s.workers[v].next, c.workers);
    MeetsWaiting(c, s, v);
    forall w | 0 <= w < |t.workers| ensures WorkerShape(c, t, t.workers[w], w) {
      assert WorkerShape(c, s, s.workers[w], w);
    }
  }

  lemma PlainEmitShape(c: Config, s: State, a: EmitAction, t: State)
    requires c.Valid() && Shape(c, s) && EmitEnabled(c, s, a) && t == EmitStep(c, s, a) && !a.Receive?
    ensures Shape(c, t)
  {
    forall w | 0 <= w < |t.workers| ensures WorkerShape(c, t, t.workers[w], w) {
      assert WorkerShape(c, s, s.workers[w], w);
    }
  }

  lemma EmitShapeKept(c: Config, s: State, a: EmitAction, t: State)
    requires c.Valid() && Shape(c, s) && EmitEnabled(c, s, a) && t == EmitStep(c, s, a) && QueuesOk(c, s)
    ensures Shape(c, t)
  {
    if a.Receive? { ReceiveShape(c, s, t); } else { PlainEmitShape(c, s, a, t); }
  }

  lemma FetchSideStands(c: Config, s: State, t: State)
    requires Shape(c, s) && Shape(c, t) && FetchSide(c, s) && EmitMoved(s, t) && Grows(s, t)
    requires (t.emit.Join? || t.emit.Finished? ==> t.Stop()) && (t.cause == Some(Closed) ==> t.emit.Join? || t.emit.Finished?)
    requires t.cause == s.cause || t.cause == Some(Closed) || t.cause == Some(ParentCancelled)
    ensures FetchSide(c, t)
  {
    forall i | 0 <= i < |t.files| && FailureRecorded(t.files[i].task) ensures t.Stop() {}
    forall w | 0 <= w < |t.workers| ensures WorkerOk(c, t, t.workers[w]) { WorkerKept(c, s, t, s.workers[w], t.workers[w]); }
    forall w | 0 <= w < |t.workers| ensures InputOk(c, t, t.workers[w]) { assert InputOk(c, s, s.workers[w]); }
    forall i | 0 <= i < |t.files| ensures TakenOk(t.files[i], i, t.workers[WorkerOf(c, i)]) {
      assert TakenOk(s.files[i], i, s.workers[WorkerOf(c, i)]);
    }
  }

  lemma EmitCause(c: Config, s: State, a: EmitAction, t: State)
    requires Shape(c, s) && EmitEnabled(c, s, a) && t == EmitStep(c, s, a) && CauseOk(c, s)
    ensures (t.emit.Join? || t.emit.Finished? ==> t.Stop()) && (t.cause == Some(Closed) ==> t.emit.Join? || t.emit.Finished?)
    ensures t.cause == s.cause || t.cause == Some(Closed)
  {
  }

  // ---------- what is received ----------

  lemma ReceiveQueues(c: Config, s: State, t: State)
    requires c.Valid() && Shape(c, s) && EmitEnabled(c, s, Receive) && t == EmitStep(c, s, Receive) && QueuesOk(c, s) && Grows(s, t)
    ensures QueuesOk(c, t)
    ensures t.emit.result.index == s.emit.counter && Good(c, t, t.emit.result)
  {
    var w := WorkerOf(c, s.emit.counter);
    var x := s.workers[w];
    assert QueueOk(c, s, x);
    MeetsWaiting(c, s, w);
    GoodKept(c, s, t, x.queue[0]);
    forall v | 0 <= v < |t.workers| ensures QueueOk(c, t, t.workers[v]) {
      if v != w {
        OthersWindow(c, s, t, w, v);
      } else {
        forall i | 0 <= i < |t.workers[w].queue| ensures Good(c, t, t.workers[w].queue[i]) { GoodKept(c, s, t, x.queue[i + 1]); }
      }
    }
  }

  lemma EmitQueues(c: Config, s: State, a: EmitAction, t: State)
    requires c.Valid() && Shape(c, s) && EmitEnabled(c, s, a) && t == EmitStep(c, s, a) && QueuesOk(c, s) && Grows(s, t)
    ensures QueuesOk(c, t)
  {
    if a.Receive? { ReceiveQueues(c, s, t); } else { QueuesKept(c, s, t); }
  }

  // The awaited worker has returned with an empty queue and nobody was cancelled: the fetcher
  // is through, and every file the source gave was handed over.
  lemma EndIsClean(c: Config, s: State)
    requires c.Valid() && Shape(c, s) && EmitEnabled(c, s, ReceiveEnd) && !s.Stop()
    requires QueuesOk(c, s) && WorkersOk(c, s) && InputsOk(c, s) && CauseOk(c, s) && CallsOk(c, s)
    ensures s.fetch.FetchDone? && (c.promptSource ==> s.eos) && s.emit.counter == |s.files|
  {
    var w := WorkerOf(c, s.emit.counter);
    assert QueueOk(c, s, s.workers[w]) && WorkerOk(c, s, s.workers[w]) && InputOk(c, s, s.workers[w]);
    MeetsWaiting(c, s, w);
    if s.emit.counter > 0 {
      var k := s.emit.counter - 1;
      assert s.calls[k].result.index == k && Good(c, s, s.calls[k].result);
    }
  }

  lemma EmitCalls(c: Config, s: State, a: EmitAction, t: State)
    requires c.Valid() && Shape(c, s) && EmitEnabled(c, s, a) && t == EmitStep(c, s, a) && Grows(s, t)
    requires QueuesOk(c, s) && WorkersOk(c, s) && InputsOk(c, s) && CauseOk(c, s) && CallsOk(c, s)
    ensures CallsOk(c, t)
  {
    match a
    case Receive => ReceiveQueues(c, s, t); YieldedKept(c, s, t, s.calls);
    case ReceiveStop => assert t.calls[..|t.calls| - 1] == s.calls; YieldedKept(c, s, t, s.calls);
    case ReceiveEnd =>
      YieldedKept(c, s, t, s.calls);
      if s.Stop() { assert t.calls[..|t.calls| - 1] == s.calls; } else { EndIsClean(c, s); }
    case ConsumerReturns(ok) =>
      assert t.calls[..|s.calls|] == s.calls;
      YieldedKept(c, s, t, s.calls);
      GoodKept(c, s, t, s.emit.result);
    case ReleaseBytes => AfterYield(c, s, t, s.emit.index, s.emit.ok);
    case RingBell => AfterYield(c, s, t, s.emit.index, s.emit.ok);
    case CancelAll => OverKept(c, s, t);
    case AwaitAll => OverKept(c, s, t);
  }

  lemma AfterYield(c: Config, s: State, t: State, i: nat, ok: bool)
    requires LastYield(c, s, s.calls, i, ok) && Grows(s, t) && t.calls == s.calls
    requires t.emit == EmitNext(i, ok) || t.emit == Ring(i, ok)
    ensures CallsOk(c, t)
  {
    LastYieldKept(c, s, t, s.calls, i, ok);
    if t.emit.Recv? {
      forall k | 0 <= k < |t.calls| ensures t.calls[k].Yielded? && t.calls[k].ok && t.calls[k].result.index == k && Good(c, t, t.calls[k].result) {
        if k < i { assert t.calls[..i][k] == t.calls[k]; }
      }
    }
  }

  // ---------- budgets ----------

  lemma ReceiveBudget(c: Config, s: State, t: State, w: nat)
    requires c.Valid() && Shape(c, s) && EmitEnabled(c, s, Receive) && t == EmitStep(c, s, Receive) && QueuesOk(c, s)
    requires w < |s.workers| && BytesAt(c, s, w) && BellAt(c, s, w)
    ensures BytesAt(c, t, w) && BellAt(c, t, w)
  {
    var v := WorkerOf(c, s.emit.counter);
    assert QueueOk(c, s, s.workers[v]);
    MeetsWaiting(c, s, v);
    if w == v {
      var q := s.workers[w].queue;
      assert QueueUnits(s, q) == [UnitAt(s, q[0].index)] + QueueUnits(s, q[1..]);
      assert QueueUnits(t, q[1..]) == QueueUnits(s, q[1..]);
    } else {
      assert QueueUnits(t, s.workers[w].queue) == QueueUnits(s, s.workers[w].queue);
    }
    assert HeldUnits(c, t, w) == HeldUnits(c, s, w);
  }

  lemma ReleaseEffect(c: Config, s: State, t: State, w: nat)
    requires c.Valid() && Shape(c, s) && EmitEnabled(c, s, ReleaseBytes) && t == EmitStep(c, s, ReleaseBytes) && w < |s.workers|
    ensures t.files == s.files && EmitUnits(c, t, w) == []
    ensures t.workers[w].queue == s.workers[w].queue && t.workers[w].pc == s.workers[w].pc && t.workers[w].at == s.workers[w].at
  {
  }

  lemma ReleaseHeld(c: Config, s: State, t: State, w: nat)
    requires c.Valid() && Shape(c, s) && EmitEnabled(c, s, ReleaseBytes) && t == EmitStep(c, s, ReleaseBytes) && w < |s.workers|
    ensures HeldUnits(c, s, w) ==
      if w == WorkerOf(c, s.emit.index) then [] + [UnitAt(s, s.emit.index)] + HeldUnits(c, t, w) else HeldUnits(c, t, w)
  {
    ReleaseEffect(c, s, t, w);
    assert EmitUnits(c, s, w) == if w == WorkerOf(c, s.emit.index) then [UnitAt(s, s.emit.index)] else [];
    hide EmitStep, EmitUnits;
    assert QueueUnits(t, s.workers[w].queue) == QueueUnits(s, s.workers[w].queue);
    assert PcUnits(t, t.workers[w]) == PcUnits(s, s.workers[w]);
  }

  lemma ReleaseBudget(c: Config, s: State, t: State, w: nat)
    requires c.Valid() && Shape(c, s) && EmitEnabled(c, s, ReleaseBytes) && t == EmitStep(c, s, ReleaseBytes)
    requires w < |s.workers| && BytesAt(c, s, w) && BellAt(c, s, w)
    ensures BytesAt(c, t, w) && BellAt(c, t, w)
  {
    ReleaseHeld(c, s, t, w);
    ReleaseBell(c, s, t, w);
    if w == WorkerOf(c, s.emit.index) && c.byteCap > 0 {
      var h', u := HeldUnits(c, t, w), UnitAt(s, s.emit.index);
      assert [] + h' == h';
      CappedAfterRelease(c.byteCap, [], u, h');
    }
  }

  lemma ReleaseBell(c: Config, s: State, t: State, w: nat)
    requires c.Valid() && Shape(c, s) && EmitEnabled(c, s, ReleaseBytes) && t == EmitStep(c, s, ReleaseBytes)
    requires w < |s.workers| && BellAt(c, s, w)
    ensures BellAt(c, t, w)
    ensures t.workers[w].buffered == s.workers[w].buffered - if w == WorkerOf(c, s.emit.index) then UnitAt(s, s.emit.index) else 0
  {
  }

  lemma PlainEmitHeld(c: Config, s: State, a: EmitAction, t: State, w: nat)
    requires c.Valid() && Shape(c, s) && EmitEnabled(c, s, a) && t == EmitStep(c, s, a) && !a.Receive? && !a.ReleaseBytes? && w < |s.workers|
    ensures EmitUnits(c, t, w) == EmitUnits(c, s, w) && t.files == s.files
    ensures t.workers[w] == s.workers[w].(bell := t.workers[w].bell) && (s.workers[w].bell ==> t.workers[w].bell)
    ensures s.emit.Ring? && WorkerOf(c, s.emit.index) == w ==> t.workers[w].bell || (t.emit.Ring? && WorkerOf(c, t.emit.index) == w)
  {
  }

  lemma PlainEmitBudget(c: Config, s: State, a: EmitAction, t: State, w: nat)
    requires c.Valid() && Shape(c, s) && EmitEnabled(c, s, a) && t == EmitStep(c, s, a) && !a.Receive? && !a.ReleaseBytes?
    requires w < |s.workers| && BytesAt(c, s, w) && BellAt(c, s, w)
    ensures BytesAt(c, t, w) && BellAt(c, t, w)
  {
    PlainEmitHeld(c, s, a, t, w);
    hide EmitUnits, Shape, EmitEnabled, EmitStep, SumBy;
    assert QueueUnits(t, s.workers[w].queue) == QueueUnits(s, s.workers[w].queue);
    assert HeldUnits(c, t, w) == HeldUnits(c, s, w);
  }

  lemma EmitKeepsEmitSide(c: Config, s: State, a: EmitAction, t: State)
    requires c.Valid() && Shape(c, s) && EmitEnabled(c, s, a) && t == EmitStep(c, s, a) && Grows(s, t)
    requires EmitSide(c, s) && WorkersOk(c, s) && InputsOk(c, s) && CauseOk(c, s)
    ensures Shape(c, t) && EmitSide(c, t)
  {
    EmitShapeKept(c, s, a, t);
    EmitQueues(c, s, a, t);
    EmitCalls(c, s, a, t);
    forall w | 0 <= w < |t.workers| ensures BytesAt(c, t, w) && BellAt(c, t, w) {
      assert BytesAt(c, s, w) && BellAt(c, s, w);
      if a.Receive? { ReceiveBudget(c, s, t, w); }
      else if a.ReleaseBytes? { ReleaseBudget(c, s, t, w); }
      else { PlainEmitBudget(c, s, a, t, w); }
    }
  }

  lemma EmitKeeps(c: Config, s: State, a: EmitAction, t: State)
    requires Inv(c, s) && EmitEnabled(c, s, a) && t == EmitStep(c, s, a)
    ensures Inv(c, t)
  {
    EmitFrame(c, s, a, t);
    EmitKeepsEmitSide(c, s, a, t);
    EmitCause(c, s, a, t);
    FetchSideStands(c, s, t);
  }

  lemma CancelKeeps(c: Config, s: State, t: State)
    requires Inv(c, s) && !s.Stop() && t == s.(cause := Some(ParentCancelled))
    ensures Inv(c, t)
  {
    CancelShape(c, s, t);
    FetchSideStands(c, s, t);
    EmitSideKept(c, s, t);
  }

  lemma CancelShape(c: Config, s: State, t: State)
    requires Shape(c, s) && !s.Stop() && t == s.(cause := Some(ParentCancelled))
    ensures Shape(c, t) && EmitMoved(s, t) && LeavesEmitSide(s, t)
  {
    forall w | 0 <= w < |t.workers| ensures WorkerShape(c, t, t.workers[w], w) { assert WorkerShape(c, s, s.workers[w], w); }
  }
}

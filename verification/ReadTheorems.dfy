/** Main results about every run of the read pipeline. */
module ReadTheorems {
  import opened Wrappers
  import opened Sorting
  import opened Dedup
  import opened Prepare
  import opened ReadPipeline
  import opened Counting
  import opened ReadInvariant
  import opened ReadSteps
  import opened ReadFlow
  import opened ReadEmit

  // ---------- the invariant holds in every reachable state ----------

  lemma InitParts(c: Config)
    requires c.Valid()
    ensures Shape(c, Init(c)) && PartsOk(c, Init(c))
    ensures SumBy(Init(c).parts, PartHeld) == 0 && SumBy(Init(c).parts, PartPool) == 0
  {
    var s := Init(c);
    forall w | 0 <= w < |s.workers| ensures s.workers[w].at % c.workers == w {
      SmallMod(w, c.workers);
    }
    forall p | 0 <= p < |s.parts| ensures PartOk(c, p, s.parts[p]) {
      SumByZero(s.parts[p].tasks, MarkedN);
    }
    forall p | 0 <= p < |s.parts| ensures PartHeld(s.parts[p]) == 0 && PartPool(s.parts[p]) == 0 {
      SumByZero(s.parts[p].tasks, HoldsN);
      SumByZero(s.parts[p].bodies, LandedN);
      SumByZero(s.parts[p].tasks, InPoolN);
    }
    SumByZero(s.parts, PartHeld);
    SumByZero(s.parts, PartPool);
  }

  lemma InitWorkers(c: Config)
    requires c.Valid() && Shape(c, Init(c))
    ensures WorkersOk(c, Init(c)) && AllTakenOk(c, Init(c)) && QueuesOk(c, Init(c))
  {
    var s := Init(c);
    forall w | 0 <= w < |s.workers|
      ensures WorkerOk(c, s, s.workers[w])
      ensures Chain(s.workers[w].queue, s.workers[w].next, s.workers[w].at, c.workers)
    {
    }
    forall p | 0 <= p < |s.parts| ensures TakenOk(c, s.parts[p], p, s.workers[WorkerOf(c, p)]) {
      ModBelow(p, c.workers);
    }
  }

  lemma InitBytes(c: Config)
    requires c.Valid() && Shape(c, Init(c))
    ensures BytesOk(c, Init(c)) && BellsOk(c, Init(c))
  {
    var s := Init(c);
    forall w | 0 <= w < |s.workers| ensures HeldUnits(c, s, w) == [] {
    }
  }

  lemma InitHolds(c: Config)
    requires c.Valid()
    ensures Inv(c, Init(c))
  {
    InitParts(c);
    InitWorkers(c);
    InitBytes(c);
  }

  lemma SmallMod(a: nat, m: nat)
    requires a < m
    ensures a % m == a
  {
  }

  lemma ModBelow(a: nat, m: nat)
    requires m >= 1
    ensures a % m <= a
  {
    if a < m { SmallMod(a, m); }
  }

  lemma FetchKeeps(c: Config, s: State, a: FetchAction)
    requires Inv(c, s) && FetchEnabled(c, s, a)
    ensures Inv(c, FetchStep(c, s, a))
  {
    var s' := FetchStep(c, s, a);
    PartsOfFetch(c, s, a);
    FetchOfFetch(c, s, a);
    CauseOfFetch(c, s, a);
    SlotsOfFetch(c, s, a);
    FetchGrows(c, s, a);
    WorkersOfOthers(c, s, s');
    TakenOfFetch(c, s, a);
    QueuesOfSame(c, s, s');
    CallsOfSame(c, s, s');
    BytesOfQuiet(c, s, s');
    BellsOfSame(c, s, s');
  }

  // Fetcher, tasks and the caller do not move any byte reservation.
  lemma BytesOfQuiet(c: Config, s: State, s': State)
    requires c.workers >= 1 && Shape(c, s) && Shape(c, s') && BytesOk(c, s)
    requires s'.workers == s.workers && s'.emit == s.emit
    ensures BytesOk(c, s')
  {
    forall w | 0 <= w < |s'.workers| ensures HeldUnits(c, s', w) == HeldUnits(c, s, w) {
    }
  }

  lemma TaskKeeps(c: Config, s: State, pi: nat, fi: nat, a: TaskAction)
    requires Inv(c, s) && pi < |s.parts| && fi < |s.parts[pi].tasks|
    requires TaskEnabled(c, s, s.parts[pi].tasks[fi], a)
    ensures Inv(c, TaskStep(c, s, pi, fi, a))
  {
    var s' := TaskStep(c, s, pi, fi, a);
    PartsOfTask(c, s, pi, fi, a);
    TaskFrameHolds(c, s, pi, fi, a);
    assert PartOk(c, pi, s.parts[pi]);
    SlotsOfTask(c, s, pi, fi, a);
    FetchOfTask(c, s, s', pi, fi);
    CauseOfTask(c, s, pi, fi, a);
    TaskGrows(c, s, pi, fi, a);
    WorkersOfOthers(c, s, s');
    TakenOfTask(c, s, s', pi, fi);
    QueuesOfSame(c, s, s');
    CallsOfSame(c, s, s');
    BytesOfQuiet(c, s, s');
    BellsOfSame(c, s, s');
  }

  lemma QueuesOfWorker(c: Config, s: State, w: nat, a: WorkerAction)
    requires c.Valid() && Shape(c, s) && QueuesOk(c, s) && WorkersOk(c, s) && CallsOk(c, s) && w < |s.workers|
    requires WorkerEnabled(c, s, w, a)
    ensures QueuesOk(c, WorkerStep(c, s, w, a)) && CallsOk(c, WorkerStep(c, s, w, a))
  {
    var x, s' := s.workers[w], WorkerStep(c, s, w, a);
    assert WorkerShape(c, x, w);
    if (a.SendTry? && HasSpace(c, s, w)) || a.SendSlow? {
      assert WorkerOk(c, s, x);
      BatchIsGood(c, x, x.pc.recs);
      var b := MakeBatch(c, x.at, x.pc.recs);
      QueuesOfEnqueue(c, s, w, b);
      if c.queueCap == 0 {
        SpaceMeets(c, s, w);
        CallsOfHandOff(c, s, s', b);
      } else {
        CallsOfSame(c, s, s');
      }
    } else {
      OnlyPcMoves(c, s, w, a);
      QueuesOfSame(c, s, s');
      CallsOfSame(c, s, s');
    }
  }

  // Short of handing over a batch, a worker leaves queues and emission alone.
  lemma OnlyPcMoves(c: Config, s: State, w: nat, a: WorkerAction)
    requires c.Valid() && Shape(c, s) && w < |s.workers| && WorkerEnabled(c, s, w, a)
    requires !((a.SendTry? && HasSpace(c, s, w)) || a.SendSlow?)
    ensures var s' := WorkerStep(c, s, w, a);
      && s'.received == s.received && s'.emit == s.emit && s'.calls == s.calls && |s'.workers| == |s.workers|
      && (s.cause.Some? ==> s'.cause == s.cause)
      && (forall v :: 0 <= v < |s.workers| ==>
            (s'.workers[v].queue == s.workers[v].queue && s'.workers[v].next == s.workers[v].next &&
             s'.workers[v].at == s.workers[v].at))
  {
    assert WorkerShape(c, s.workers[w], w);
  }

  lemma BytesOfAllWorkers(c: Config, s: State, w: nat, a: WorkerAction)
    requires c.Valid() && Shape(c, s) && QueuesOk(c, s) && BytesOk(c, s) && w < |s.workers| && WorkerEnabled(c, s, w, a)
    requires Shape(c, WorkerStep(c, s, w, a))
    ensures BytesOk(c, WorkerStep(c, s, w, a))
  {
    var s' := WorkerStep(c, s, w, a);
    BytesFromEach(c, s);
    BytesFromEach(c, s');
    BytesOfWorker(c, s, w, a);
    assert WorkerShape(c, s.workers[w], w);
    forall v | 0 <= v < |s'.workers| ensures BytesAt(c, s', v) {
      if v != w {
        HandOffIsMine(c, s, w, a);
        BytesOfOtherWorker(c, s, s', w, v);
      }
    }
  }

  lemma HandOffIsMine(c: Config, s: State, w: nat, a: WorkerAction)
    requires c.Valid() && Shape(c, s) && QueuesOk(c, s) && w < |s.workers| && WorkerEnabled(c, s, w, a)
    ensures var s' := WorkerStep(c, s, w, a);
      s'.emit == s.emit || (s.emit.Recv? && s'.emit.Deliver? && WorkerOf(c, s'.emit.batch.index) == w)
  {
    assert WorkerShape(c, s.workers[w], w);
  }

  lemma TrueCauseOfWorker(c: Config, s: State, w: nat, a: WorkerAction)
    requires c.Valid() && Shape(c, s) && CauseTrue(c, s) && WorkersOk(c, s) && w < |s.workers| && WorkerEnabled(c, s, w, a)
    ensures CauseTrue(c, WorkerStep(c, s, w, a))
  {
    assert WorkerOk(c, s, s.workers[w]) && WorkerShape(c, s.workers[w], w);
  }

  lemma WorkerKeeps(c: Config, s: State, w: nat, a: WorkerAction)
    requires Inv(c, s) && w < |s.workers| && WorkerEnabled(c, s, w, a)
    ensures Inv(c, WorkerStep(c, s, w, a))
  {
    var s' := WorkerStep(c, s, w, a);
    ShapeOfWorker(c, s, w, a);
    PartsOfWorker(c, s, w, a);
    WorkerFrameHolds(c, s, w, a);
    FetchOfOthers(c, s, s');
    HandOffIsMine(c, s, w, a);
    TrueCauseOfWorker(c, s, w, a);
    CauseOfOthers(c, s, s');
    SlotsOfWorker(c, s, w, a);
    WorkersOfWorker(c, s, w, a);
    TakenOfWorker(c, s, w, a);
    QueuesOfWorker(c, s, w, a);
    BytesOfAllWorkers(c, s, w, a);
    BellsOfWorker(c, s, w, a, s');
  }

  lemma EmitLeavesLoops(c: Config, s: State, a: EmitAction)
    requires c.Valid() && Shape(c, s) && EmitEnabled(c, s, a)
    ensures var s' := EmitStep(c, s, a);
      |s'.workers| == |s.workers| && s'.slots == s.slots &&
      (forall w :: 0 <= w < |s.workers| ==> s'.workers[w].at == s.workers[w].at && s'.workers[w].pc == s.workers[w].pc) &&
      (!a.Receive? ==> s'.received == s.received && forall w :: 0 <= w < |s.workers| ==>
        s'.workers[w].queue == s.workers[w].queue && s'.workers[w].next == s.workers[w].next)
  {
  }

  lemma OthersKeepFetchSide(c: Config, s: State, s': State)
    requires c.Valid() && Shape(c, s) && Shape(c, s') && PartsOk(c, s) && FetchOk(c, s) && CauseOk(c, s) && SlotsOk(c, s)
    requires SameTasks(s, s') && s'.parts == s.parts && s'.slots == s.slots
    requires (s'.emit.Join? || s'.emit.Finished? ==> s'.Stop()) && CauseTrue(c, s')
    ensures PartsOk(c, s') && FetchOk(c, s') && CauseOk(c, s') && SlotsOk(c, s')
  {
    FetchOfOthers(c, s, s');
    CauseOfOthers(c, s, s');
  }

  lemma OthersKeepLoops(c: Config, s: State, s': State)
    requires c.Valid() && Shape(c, s) && Shape(c, s') && WorkersOk(c, s) && AllTakenOk(c, s)
    requires SameTasks(s, s') && s'.parts == s.parts && |s'.workers| == |s.workers|
    requires forall w :: 0 <= w < |s.workers| ==> s'.workers[w].at == s.workers[w].at && s'.workers[w].pc == s.workers[w].pc
    ensures WorkersOk(c, s') && AllTakenOk(c, s')
  {
    OthersGrow(s, s');
    WorkersOfOthers(c, s, s');
    TakenOfEmit(c, s, s');
  }

  lemma BytesOfEmitAll(c: Config, s: State, a: EmitAction)
    requires c.Valid() && Shape(c, s) && QueuesOk(c, s) && BytesOk(c, s) && EmitEnabled(c, s, a)
    requires Shape(c, EmitStep(c, s, a))
    ensures BytesOk(c, EmitStep(c, s, a))
  {
    var s' := EmitStep(c, s, a);
    EmitLeavesLoops(c, s, a);
    BytesFromEach(c, s);
    BytesFromEach(c, s');
    forall w | 0 <= w < |s'.workers| ensures BytesAt(c, s', w) {
      BytesOfEmit(c, s, a, w);
    }
  }

  lemma StopsBeforeJoin(c: Config, s: State, a: EmitAction)
    requires c.Valid() && Shape(c, s) && CauseOk(c, s) && EmitEnabled(c, s, a)
    ensures var s' := EmitStep(c, s, a); s'.emit.Join? || s'.emit.Finished? ==> s'.Stop()
    ensures CauseTrue(c, EmitStep(c, s, a))
  {
  }

  lemma EmitKeeps(c: Config, s: State, a: EmitAction)
    requires Inv(c, s) && EmitEnabled(c, s, a)
    ensures Inv(c, EmitStep(c, s, a))
  {
    var s' := EmitStep(c, s, a);
    ShapeOfEmit(c, s, a);
    EmitFrameHolds(c, s, a);
    EmitLeavesLoops(c, s, a);
    StopsBeforeJoin(c, s, a);
    OthersKeepFetchSide(c, s, s');
    OthersKeepLoops(c, s, s');
    if a.Receive? { QueuesOfReceive(c, s); } else { QueuesOfSame(c, s, s'); }
    CallsOfEmit(c, s, a);
    BytesOfEmitAll(c, s, a);
    BellsOfEmit(c, s, a, s');
  }

  lemma CancelShape(c: Config, s: State, s': State)
    requires c.Valid() && Shape(c, s) && CauseOk(c, s) && s.cause.None? && s' == s.(cause := Some(ParentCancelled))
    ensures Shape(c, s') && SameTasks(s, s') && CauseTrue(c, s')
  {
  }

  lemma CancelKeeps(c: Config, s: State, s': State)
    requires Inv(c, s) && s.cause.None? && s' == s.(cause := Some(ParentCancelled))
    ensures Inv(c, s')
  {
    CancelShape(c, s, s');
    OthersKeepFetchSide(c, s, s');
    OthersKeepLoops(c, s, s');
    QueuesOfSame(c, s, s');
    CallsOfSame(c, s, s');
    BytesOfQuiet(c, s, s');
    BellsOfSame(c, s, s');
  }

  /** Every step of every actor keeps the invariant. */
  lemma StepKeepsInv(c: Config, s: State, a: Action)
    requires Inv(c, s) && Enabled(c, s, a)
    ensures Inv(c, Apply(c, s, a))
  {
    match a
    case ByFetcher(f) => FetchKeeps(c, s, f);
    case ByTask(pi, fi, t) => TaskKeeps(c, s, pi, fi, t);
    case ByWorker(w, d) => WorkerKeeps(c, s, w, d);
    case ByEmit(e) => EmitKeeps(c, s, e);
    case ParentCancel => CancelKeeps(c, s, s.(cause := Some(ParentCancelled)));
  }

  // ---------- runs ----------

  ghost predicate Step(c: Config, s: State, a: Action, t: State)
    requires c.workers >= 1
  {
    Shape(c, s) && Enabled(c, s, a) && t == Apply(c, s, a)
  }

  ghost predicate Next(c: Config, s: State, t: State)
    requires c.workers >= 1
  {
    exists a :: Step(c, s, a, t)
  }

  // A run: the states it passes through.
  ghost predicate IsRun(c: Config, run: seq<State>)
    requires c.Valid()
  {
    && |run| > 0 && run[0] == Init(c)
    && forall i :: 0 <= i < |run| - 1 ==> Next(c, run[i], run[i + 1])
  }

  ghost predicate Reachable(c: Config, s: State)
    requires c.Valid()
  {
    exists run :: IsRun(c, run) && run[|run| - 1] == s
  }

  lemma NextKeepsInv(c: Config, s: State, t: State)
    requires Inv(c, s) && Next(c, s, t)
    ensures Inv(c, t)
  {
    var a :| Step(c, s, a, t);
    StepKeepsInv(c, s, a);
  }

  lemma {:induction false} RunKeepsInv(c: Config, run: seq<State>, i: nat)
    requires c.Valid() && IsRun(c, run) && i < |run|
    ensures Inv(c, run[i])
  {
    if i == 0 {
      InitHolds(c);
    } else {
      RunKeepsInv(c, run, i - 1);
      assert Next(c, run[i - 1], run[i - 1 + 1]);
      NextKeepsInv(c, run[i - 1], run[i]);
    }
  }

  lemma InitReachable(c: Config)
    requires c.Valid()
    ensures Reachable(c, Init(c))
  {
    var run := [Init(c)];
    assert IsRun(c, run) && run[|run| - 1] == Init(c);
  }

  lemma ReachableStep(c: Config, s: State, a: Action, t: State)
    requires c.Valid() && Reachable(c, s) && Step(c, s, a, t)
    ensures Reachable(c, t)
  {
    var run :| IsRun(c, run) && run[|run| - 1] == s;
    var longer := run + [t];
    forall i | 0 <= i < |longer| - 1 ensures Next(c, longer[i], longer[i + 1]) {
      if i == |run| - 1 { assert Next(c, s, t); } else { assert Next(c, run[i], run[i + 1]); }
    }
    assert IsRun(c, longer) && longer[|longer| - 1] == t;
  }

  lemma ReachableHolds(c: Config, s: State)
    requires c.Valid() && Reachable(c, s)
    ensures Inv(c, s)
  {
    var run :| IsRun(c, run) && run[|run| - 1] == s;
    RunKeepsInv(c, run, |run| - 1);
  }

  // The first cause sticks, and no call is taken back.
  predicate Extends(s: State, t: State)
  {
    (s.cause.Some? ==> t.cause == s.cause) && s.calls <= t.calls
  }

  lemma FetchExtends(c: Config, s: State, a: FetchAction)
    requires c.workers >= 1 && Shape(c, s) && FetchEnabled(c, s, a)
    ensures Extends(s, FetchStep(c, s, a))
  {
  }

  lemma TaskExtends(c: Config, s: State, pi: nat, fi: nat, a: TaskAction)
    requires c.workers >= 1 && Shape(c, s) && TaskEnabled(c, s, TaskAt(s, pi, fi), a)
    ensures Extends(s, TaskStep(c, s, pi, fi, a))
  {
  }

  lemma WorkerExtends(c: Config, s: State, w: nat, a: WorkerAction)
    requires c.workers >= 1 && Shape(c, s) && w < |s.workers| && WorkerEnabled(c, s, w, a)
    ensures Extends(s, WorkerStep(c, s, w, a))
  {
  }

  lemma EmitExtends(c: Config, s: State, a: EmitAction)
    requires c.workers >= 1 && Shape(c, s) && EmitEnabled(c, s, a)
    ensures Extends(s, EmitStep(c, s, a))
  {
  }

  lemma StepExtends(c: Config, s: State, t: State)
    requires c.workers >= 1 && Next(c, s, t)
    ensures Extends(s, t)
  {
    var a :| Step(c, s, a, t);
    hide Extends;
    match a
    case ByFetcher(f) => FetchExtends(c, s, f);
    case ByTask(pi, fi, b) => TaskExtends(c, s, pi, fi, b);
    case ByWorker(w, d) => WorkerExtends(c, s, w, d);
    case ByEmit(b) => EmitExtends(c, s, b);
    case ParentCancel => CancelExtends(s, t);
  }

  lemma CancelExtends(s: State, t: State)
    requires s.cause.None? && t == s.(cause := Some(ParentCancelled))
    ensures Extends(s, t)
  {
  }

  predicate ExtendsAt(run: seq<State>, k: nat) { 0 < k < |run| ==> Extends(run[k - 1], run[k]) }

  lemma RunTakes(c: Config, run: seq<State>, k: nat)
    requires c.Valid() && IsRun(c, run) && 0 < k < |run|
    ensures Next(c, run[k - 1], run[k])
  {
    assert Next(c, run[k - 1], run[k - 1 + 1]);
  }

  lemma RunExtends(c: Config, run: seq<State>, k: nat)
    requires c.Valid() && IsRun(c, run)
    ensures ExtendsAt(run, k)
  {
    if 0 < k < |run| {
      RunTakes(c, run, k);
      StepExtends(c, run[k - 1], run[k]);
    }
  }

  lemma {:induction false} ExtendsAll(run: seq<State>, i: nat, j: nat)
    requires i <= j < |run| && forall k: nat :: ExtendsAt(run, k)
    ensures Extends(run[i], run[j])
  {
    if i < j {
      ExtendsAll(run, i, j - 1);
      assert ExtendsAt(run, j);
    }
  }

  /** The first cause sticks, whoever fails later, and no call is taken back. */
  lemma FirstCauseSticks(c: Config, run: seq<State>, i: nat, j: nat)
    requires c.Valid() && IsRun(c, run) && i <= j < |run|
    ensures run[i].cause.Some? ==> run[j].cause == run[i].cause
    ensures run[i].calls <= run[j].calls
  {
    forall k: nat ensures ExtendsAt(run, k) { RunExtends(c, run, k); }
    ExtendsAll(run, i, j);
  }

  // ---------- refinement of the sequential read ----------

  // The batches handed over so far, in order of the calls.
  function Yields(calls: seq<Call>): seq<Batch>
  {
    if |calls| == 0 then []
    else
      var p, last := Yields(calls[..|calls| - 1]), calls[|calls| - 1];
      if last.Yielded? then p + [last.batch] else p
  }

  predicate ConsumerBroke(calls: seq<Call>)
  {
    exists i :: 0 <= i < |calls| && calls[i].Yielded? && !calls[i].ok
  }

  predicate Failed(calls: seq<Call>)
  {
    exists i :: 0 <= i < |calls| && calls[i].Errored?
  }

  // Consecutive partitions from 0, each complete.
  ghost predicate InOrder(c: Config, calls: seq<Call>)
  {
    forall i :: 0 <= i < |calls| ==> calls[i].Yielded? && calls[i].batch.index == i && Good(c, calls[i].batch)
  }

  lemma {:induction false} InOrderYields(c: Config, calls: seq<Call>)
    requires InOrder(c, calls)
    ensures |Yields(calls)| == |calls| && forall i :: 0 <= i < |calls| ==> Yields(calls)[i] == calls[i].batch
  {
    if |calls| > 0 {
      InOrderYields(c, calls[..|calls| - 1]);
    }
  }

  lemma {:induction false} SequentialPrefix(c: Config, from: nat, b: seq<Batch>)
    requires from + |b| <= |c.parts|
    requires forall i :: 0 <= i < |b| ==> IsBatch(c, from + i, b[i])
    ensures b <= SequentialRead(c, from)
    ensures |b| == |c.parts| - from ==> b == SequentialRead(c, from)
    decreases |b|
  {
    if |b| > 0 {
      assert IsBatch(c, from + 0, b[0]);
      var rest := b[1..];
      forall i | 0 <= i < |rest| ensures IsBatch(c, from + 1 + i, rest[i]) {
        assert IsBatch(c, from + (i + 1), b[i + 1]);
      }
      SequentialPrefix(c, from + 1, rest);
      assert b == [b[0]] + rest;
    }
  }

  predicate IsBatch(c: Config, p: nat, b: Batch)
  {
    p < |c.parts| && Decodable(c, c.Files(p)) && b == PartitionResult(c, p)
  }

  // The calls of any state: an in-order run of yields, possibly one final error.
  lemma CallShape(c: Config, s: State)
    requires CallsOk(c, s) && EmitShape(c, s)
    ensures |s.calls| > 0 ==> InOrder(c, s.calls[..|s.calls| - 1])
    ensures forall i :: 0 <= i < |s.calls| - 1 ==> s.calls[i].Yielded? && s.calls[i].ok
    ensures |s.calls| == 0 || s.calls[|s.calls| - 1].Errored? || InOrder(c, s.calls)
    ensures InOrder(c, s.calls) ==> |s.calls| <= |c.parts|
    ensures |s.calls| > 0 && s.calls[|s.calls| - 1].Errored? ==> |s.calls| <= |c.parts|
  {
    match s.emit
    case Unreserve(i, ok) => LastYieldShape(c, s.calls, i, ok);
    case Ring(i, ok) => LastYieldShape(c, s.calls, i, ok);
    case Recv(_) => YieldedShape(c, s.calls);
    case Deliver(_) => YieldedShape(c, s.calls);
    case _ =>
      var k := |s.calls| - 1;
      YieldedShape(c, s.calls[..k]);
      assert forall i :: 0 <= i < k ==> s.calls[..k][i] == s.calls[i];
      if s.calls[k].Yielded? { LastYieldShape(c, s.calls, k, s.calls[k].ok); }
  }

  lemma YieldedShape(c: Config, calls: seq<Call>)
    requires AllYielded(c, calls)
    ensures InOrder(c, calls) && forall i :: 0 <= i < |calls| ==> calls[i].ok
    ensures |calls| > 0 ==> InOrder(c, calls[..|calls| - 1])
  {
  }

  lemma LastYieldShape(c: Config, calls: seq<Call>, k: nat, ok: bool)
    requires LastYield(c, calls, k, ok)
    ensures InOrder(c, calls) && InOrder(c, calls[..k]) && forall i :: 0 <= i < k ==> calls[i].ok
  {
    assert forall i :: 0 <= i < k ==> calls[..k][i] == calls[i];
  }

  /** The pipeline refines the sequential read: in every reachable state of every
      interleaving, what was handed over is a prefix of it; nothing is called after an
      error or after the consumer said stop; and a finished iteration that neither
      failed nor was broken off has handed over all of it, partition for partition. */
  lemma RefinesSequentialRead(c: Config, s: State)
    requires c.Valid() && Reachable(c, s) && c.promptGet
    ensures Yields(s.calls) <= SequentialRead(c)
    ensures forall i :: 0 <= i < |s.calls| - 1 ==> s.calls[i].Yielded? && s.calls[i].ok
    ensures s.emit.Finished? && !Failed(s.calls) && !ConsumerBroke(s.calls) ==>
      Yields(s.calls) == SequentialRead(c) && |Yields(s.calls)| == |c.parts|
    ensures s.emit.Finished? && Failed(s.calls) ==> s.cause == Some(s.calls[|s.calls| - 1].cause)
  {
    ReachableHolds(c, s);
    CallShape(c, s);
    YieldsArePrefix(c, s);
    if s.emit.Finished? {
      FinishedMeans(c, s);
    }
  }

  lemma InOrderIsPrefix(c: Config, ys: seq<Call>)
    requires InOrder(c, ys) && c.promptGet && |ys| <= |c.parts|
    ensures Yields(ys) <= SequentialRead(c)
    ensures |ys| == |c.parts| ==> Yields(ys) == SequentialRead(c)
  {
    InOrderYields(c, ys);
    var b := Yields(ys);
    forall i | 0 <= i < |b| ensures IsBatch(c, 0 + i, b[i]) {
      assert Good(c, ys[i].batch);
    }
    SequentialPrefix(c, 0, b);
  }

  lemma YieldsArePrefix(c: Config, s: State)
    requires CallsOk(c, s) && EmitShape(c, s) && c.promptGet
    ensures Yields(s.calls) <= SequentialRead(c)
    ensures InOrder(c, s.calls) && |s.calls| == |c.parts| ==> Yields(s.calls) == SequentialRead(c) && |Yields(s.calls)| == |c.parts|
  {
    CallShape(c, s);
    var calls := s.calls;
    var ys := if |calls| > 0 && calls[|calls| - 1].Errored? then calls[..|calls| - 1] else calls;
    InOrderYields(c, ys);
    InOrderIsPrefix(c, ys);
    assert Yields(calls) == Yields(ys);
  }

  lemma FinishedMeans(c: Config, s: State)
    requires Inv(c, s) && s.emit.Finished?
    ensures |s.calls| > 0
    ensures Failed(s.calls) ==> s.calls[|s.calls| - 1].Errored? && s.cause == Some(s.calls[|s.calls| - 1].cause)
    ensures !Failed(s.calls) && !ConsumerBroke(s.calls) ==> InOrder(c, s.calls) && |s.calls| == |c.parts|
  {
    assert Over(c, s);
    CallShape(c, s);
    var k := |s.calls| - 1;
    if s.calls[k].Yielded? {
      assert LastYield(c, s.calls, k, s.calls[k].ok);
    }
  }

  /** No partial partition: a batch is handed over only when every one of its files was
      downloaded and decoded. */
  lemma NoPartialPartition(c: Config, s: State, i: nat)
    requires c.Valid() && Reachable(c, s) && c.promptGet && i < |s.calls| && s.calls[i].Yielded?
    ensures var b := s.calls[i].batch;
      b.index == i && i < |c.parts| && b.files == c.Files(i) && Decodable(c, b.files) &&
      b.records == SortAndDedup(AllRecs(c, b.files), c.mode)
  {
    ReachableHolds(c, s);
    YieldedIsGood(c, s, i);
  }

  lemma YieldedIsGood(c: Config, s: State, i: nat)
    requires CallsOk(c, s) && EmitShape(c, s) && i < |s.calls| && s.calls[i].Yielded?
    ensures s.calls[i].batch.index == i && Good(c, s.calls[i].batch)
  {
    CallShape(c, s);
    var k := |s.calls| - 1;
    assert i < k ==> s.calls[..k][i] == s.calls[i];
  }

  /** The byte budget of a worker: exact at all times, and over the cap only while a
      single unit is held. */
  lemma BudgetIsExact(c: Config, s: State, w: nat)
    requires c.Valid() && Reachable(c, s) && c.byteCap > 0 && w < c.workers
    ensures Shape(c, s)
    ensures s.workers[w].buffered == SumBy(HeldUnits(c, s, w), Id)
    ensures s.workers[w].buffered <= c.byteCap || SumBy(HeldUnits(c, s, w), PositiveN) == 1
  {
    ReachableHolds(c, s);
    BytesFromEach(c, s);
    assert BytesAt(c, s, w);
  }
}

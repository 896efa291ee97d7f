/** What the GET hypothesis is for: without it a read can succeed with its records missing.

    Every file in turn comes back with a context error that nobody records. What is left then
    drifts: only decode workers and the emit loop move, no body is there, and every partition is
    handed over hollow. The hypothesis is needed unless there is nothing to lose. */
module ReadLoss {
  import opened Wrappers
  import opened Sorting
  import opened Dedup
  import opened Prepare
  import opened ReadPipeline
  import opened Counting
  import opened ReadInvariant
  import opened ReadSteps
  import opened ReadFlow
  import opened ReadTheorems
  import opened ReadProgress
  import opened ReadLiveness

  lemma Advance(c: Config, s: State, a: Action) returns (t: State)
    requires c.Valid() && Reachable(c, s) && Enabled(c, s, a)
    ensures Shape(c, s) && t == Apply(c, s, a) && Shape(c, t) && Reachable(c, t) && Measure(c, t) < Measure(c, s)
  {
    ReachableHolds(c, s);
    t := Apply(c, s, a);
    StepDecreases(c, s, a);
    ReachableStep(c, s, a, t);
    StepKeepsInv(c, s, a);
  }

  lemma ReachableShape(c: Config, s: State)
    requires c.Valid() && Reachable(c, s)
    ensures Shape(c, s)
  {
    ReachableHolds(c, s);
  }

  // ---------- losing files ----------

  // The loops have not begun, and nobody is cancelled.
  ghost predicate Untouched(c: Config, s: State)
    requires c.Valid()
  {
    s.workers == Init(c).workers && s.emit == Recv(0) && s.received == 0 && s.calls == [] && s.cause.None?
  }

  predicate Fetched(fetch: Fetch, p: nat, f: nat) { fetch.Drain? || Before(fetch, p, f) }

  // Every file asked for so far came back with a context error that nobody recorded.
  ghost predicate Lossy(c: Config, s: State)
    requires c.Valid()
  {
    && Reachable(c, s) && Shape(c, s) && Untouched(c, s) && s.slots == 0 && s.pool == 0
    && (s.fetch.Acquire? || s.fetch.Drain?)
    && forall p, f :: 0 <= p < |s.parts| && 0 <= f < |s.parts[p].tasks| ==>
         LostAt(s.parts[p], f, Fetched(s.fetch, p, f))
  }

  predicate LostAt(ps: PartState, f: nat, fetched: bool)
    requires f < |ps.tasks|
  {
    f < |ps.bodies| && ps.bodies[f].Empty? && ps.tasks[f] == if fetched then Ended(true) else Unsubmitted
  }

  // One task moved to x; no body landed.
  ghost predicate TaskMoved(s: State, t: State, pi: nat, fi: nat, x: Task)
  {
    && |t.parts| == |s.parts| && pi < |s.parts| && fi < |s.parts[pi].tasks|
    && (forall p :: 0 <= p < |s.parts| ==> t.parts[p].bodies == s.parts[p].bodies && |t.parts[p].tasks| == |s.parts[p].tasks|)
    && (forall p, f :: 0 <= p < |s.parts| && 0 <= f < |s.parts[p].tasks| ==>
          t.parts[p].tasks[f] == if p == pi && f == fi then x else s.parts[p].tasks[f])
  }

  // The loops and the fetcher stand still.
  predicate SameElse(s: State, t: State)
  {
    t.workers == s.workers && t.emit == s.emit && t.received == s.received && t.calls == s.calls && t.cause == s.cause && t.fetch == s.fetch
  }

  lemma LoseSubmit(c: Config, s: State) returns (t: State)
    requires c.Valid() && Lossy(c, s) && s.fetch.Acquire?
    ensures Reachable(c, t) && Shape(c, t) && Measure(c, t) < Measure(c, s) && TaskMoved(s, t, s.fetch.pi, s.fetch.fi, Getting)
    ensures t.fetch == FetchNext(c, s.fetch.pi, s.fetch.fi) && SameElse(s, t.(fetch := s.fetch)) && t.slots == 1 && t.pool == 1
    ensures t.parts == s.parts[s.fetch.pi := t.parts[s.fetch.pi]] && t.parts[s.fetch.pi].completed == s.parts[s.fetch.pi].completed
  {
    t := Advance(c, s, ByFetcher(AcquireSlot));
    t := Advance(c, t, ByFetcher(SubmitTask));
  }

  predicate Losing(t: Task, a: TaskAction)
  {
    match a
    case GetCtx => t.Getting?
    case ReleaseSlot => t == FailRelease(false)
    case MarkFailed => t.FailMark?
    case CloseDone => t.Closing?
    case ReturnTask => t.Returning?
    case _ => false
  }

  // What such a step does.
  predicate Moved(s: State, t: State, pi: nat, fi: nat, a: TaskAction)
    requires pi < |s.parts| && fi < |s.parts[pi].tasks|
  {
    && |t.parts| == |s.parts| && t.parts == s.parts[pi := t.parts[pi]] && fi < |t.parts[pi].tasks|
    && t.slots == (if a.ReleaseSlot? then s.slots - 1 else s.slots)
    && t.pool == (if a.ReturnTask? then s.pool - 1 else s.pool)
    && t.parts[pi].completed == (if a.MarkFailed? then s.parts[pi].completed + 1 else s.parts[pi].completed)
    && match a
       case GetCtx => t.parts[pi].tasks[fi] == FailRelease(false)
       case ReleaseSlot => t.parts[pi].tasks[fi] == FailMark
       case MarkFailed => t.parts[pi].tasks[fi] == Closing(true) || t.parts[pi].tasks[fi] == Returning(true)
       case CloseDone => s.parts[pi].tasks[fi].Closing? && t.parts[pi].tasks[fi] == Returning(s.parts[pi].tasks[fi].failed)
       case ReturnTask => s.parts[pi].tasks[fi].Returning? && t.parts[pi].tasks[fi] == Ended(s.parts[pi].tasks[fi].failed) && (s.parts[pi].tasks[fi].failed ==> t.groupDone)
       case _ => true
  }

  lemma LosingMoves(c: Config, s: State, r: State, pi: nat, fi: nat, a: TaskAction)
    requires Shape(c, r) && pi < |r.parts| && fi < |r.parts[pi].tasks| && TaskMoved(s, r, pi, fi, r.parts[pi].tasks[fi])
    requires TaskEnabled(c, r, r.parts[pi].tasks[fi], a) && Losing(r.parts[pi].tasks[fi], a) && r.parts[pi].bodies[fi].Empty?
    ensures SameElse(r, TaskStep(c, r, pi, fi, a)) && TaskMoved(s, TaskStep(c, r, pi, fi, a), pi, fi, TaskStep(c, r, pi, fi, a).parts[pi].tasks[fi])
    ensures Moved(r, TaskStep(c, r, pi, fi, a), pi, fi, a)
  {
    var t := TaskStep(c, r, pi, fi, a);
    assert t.parts[pi].bodies == r.parts[pi].bodies;
    assert |t.parts| == |r.parts| && t.parts == r.parts[pi := t.parts[pi]];
    assert t.parts[pi].tasks == r.parts[pi].tasks[fi := t.parts[pi].tasks[fi]];
  }

  // The task of a lost file, step by step.
  lemma LoseStep(c: Config, s: State, r: State, pi: nat, fi: nat, a: TaskAction) returns (t: State)
    requires c.Valid() && Reachable(c, r) && Shape(c, r) && pi < |r.parts| && fi < |r.parts[pi].tasks|
    requires TaskMoved(s, r, pi, fi, r.parts[pi].tasks[fi]) && r.parts[pi].bodies[fi].Empty?
    requires TaskEnabled(c, r, r.parts[pi].tasks[fi], a) && Losing(r.parts[pi].tasks[fi], a)
    ensures Moved(r, t, pi, fi, a) && Reachable(c, t) && Shape(c, t) && Measure(c, t) < Measure(c, r)
    ensures SameElse(r, t) && TaskMoved(s, t, pi, fi, t.parts[pi].tasks[fi]) && t.parts[pi].bodies[fi] == r.parts[pi].bodies[fi]
  {
    LosingMoves(c, s, r, pi, fi, a);
    t := Advance(c, r, ByTask(pi, fi, a));
  }

  // From the failed GET to the mark.
  lemma LoseGet(c: Config, s: State, r: State, pi: nat, fi: nat) returns (t: State)
    requires c.Valid() && !c.promptGet && Reachable(c, r) && Shape(c, r) && TaskMoved(s, r, pi, fi, Getting) && r.parts[pi].bodies[fi].Empty? && r.slots == 1
    ensures Reachable(c, t) && Shape(c, t) && Measure(c, t) < Measure(c, r) && SameElse(r, t) && TaskMoved(s, t, pi, fi, FailMark) && t.parts[pi].bodies[fi].Empty?
    ensures t.slots == 0 && t.pool == r.pool && t.parts == r.parts[pi := t.parts[pi]] && t.parts[pi].completed == r.parts[pi].completed
  {
    hide Reachable, Measure, Shape;
    t := LoseStep(c, s, r, pi, fi, GetCtx);
    t := LoseStep(c, s, t, pi, fi, ReleaseSlot);
  }

  lemma LoseMark(c: Config, s: State, r: State, pi: nat, fi: nat) returns (t: State)
    requires c.Valid() && Reachable(c, r) && Shape(c, r) && TaskMoved(s, r, pi, fi, FailMark) && r.parts[pi].bodies[fi].Empty? && r.pool > 0
    ensures Reachable(c, t) && Shape(c, t) && Measure(c, t) < Measure(c, r) && SameElse(r, t) && TaskMoved(s, t, pi, fi, Ended(true)) && t.groupDone
    ensures t.slots == r.slots && t.pool == r.pool - 1 && t.parts == r.parts[pi := t.parts[pi]] && t.parts[pi].completed == r.parts[pi].completed + 1
  {
    hide Reachable, Measure, Shape;
    t := LoseStep(c, s, r, pi, fi, MarkFailed);
    if t.parts[pi].tasks[fi].Closing? { t := LoseStep(c, s, t, pi, fi, CloseDone); }
    t := LoseStep(c, s, t, pi, fi, ReturnTask);
  }

  lemma LossyShape(c: Config, s: State)
    requires c.Valid() && Lossy(c, s) && s.fetch.Acquire?
    ensures s.slots == 0 && s.pool == 0 && s.fetch.pi < |s.parts| && s.fetch.fi < |s.parts[s.fetch.pi].tasks|
    ensures LostAt(s.parts[s.fetch.pi], s.fetch.fi, false)
  {
    assert LostAt(s.parts[s.fetch.pi], s.fetch.fi, Fetched(s.fetch, s.fetch.pi, s.fetch.fi));
  }

  lemma FreshBody(s: State, u: State, pi: nat, fi: nat)
    requires TaskMoved(s, u, pi, fi, Getting) && LostAt(s.parts[pi], fi, false)
    ensures pi < |u.parts| && fi < |u.parts[pi].bodies| && u.parts[pi].bodies[fi].Empty?
  {
  }

  lemma LoseFile(c: Config, s: State) returns (t: State)
    requires c.Valid() && !c.promptGet && Lossy(c, s) && s.fetch.Acquire?
    ensures Lossy(c, t) && t.fetch == FetchNext(c, s.fetch.pi, s.fetch.fi) && t.groupDone && Measure(c, t) < Measure(c, s)
    ensures |t.parts| == |s.parts| && t.parts == s.parts[s.fetch.pi := t.parts[s.fetch.pi]] && t.parts[s.fetch.pi].completed == s.parts[s.fetch.pi].completed + 1
  {
    hide Lossy, Reachable, Measure, TaskMoved, Shape, LostAt;
    LossyShape(c, s);
    var pi, fi := s.fetch.pi, s.fetch.fi;
    var u := LoseSubmit(c, s);
    FreshBody(s, u, pi, fi);
    var v := LoseGet(c, s, u, pi, fi);
    t := LoseMark(c, s, v, pi, fi);
    StillLossy(c, s, t);
  }

  lemma NextFetched(c: Config, pi: nat, fi: nat, p: nat, f: nat)
    requires pi < |c.parts| && fi < |c.Files(pi)| && p < |c.parts| && f < |c.Files(p)|
    ensures Fetched(FetchNext(c, pi, fi), p, f) <==> Fetched(Acquire(pi, fi), p, f) || (p == pi && f == fi)
  {
  }

  lemma StillLossy(c: Config, s: State, t: State)
    requires c.Valid() && Lossy(c, s) && s.fetch.Acquire? && Reachable(c, t) && Shape(c, t)
    requires TaskMoved(s, t, s.fetch.pi, s.fetch.fi, Ended(true)) && SameElse(s, t.(fetch := s.fetch))
    requires t.fetch == FetchNext(c, s.fetch.pi, s.fetch.fi) && t.slots == 0 && t.pool == 0
    ensures Lossy(c, t)
  {
    hide Reachable;
    forall p, f | 0 <= p < |t.parts| && 0 <= f < |t.parts[p].tasks| ensures LostAt(t.parts[p], f, Fetched(t.fetch, p, f)) {
      assert LostAt(s.parts[p], f, Fetched(s.fetch, p, f));
      NextFetched(c, s.fetch.pi, s.fetch.fi, p, f);
    }
  }

  // Every file of every partition.
  lemma {:induction false} LoseAll(c: Config, s: State) returns (t: State)
    requires c.Valid() && !c.promptGet && Lossy(c, s)
    ensures Lossy(c, t) && t.fetch.Drain?
    decreases Measure(c, s)
  {
    hide Lossy, Reachable, Measure;
    if s.fetch.Drain? {
      t := s;
    } else {
      LossyFetches(c, s);
      t := LoseFile(c, s);
      t := LoseAll(c, t);
    }
  }

  lemma LossyFetches(c: Config, s: State)
    requires c.Valid() && Lossy(c, s)
    ensures s.fetch.Acquire? || s.fetch.Drain?
  {
  }

  lemma InitLossy(c: Config)
    requires c.Valid()
    ensures Lossy(c, Init(c)) && Init(c).fetch == Acquire(0, 0)
  {
    InitReachable(c);
    ReachableShape(c, Init(c));
    forall p, f | 0 <= p < |c.parts| && 0 <= f < |c.Files(p)| ensures LostAt(Init(c).parts[p], f, Fetched(Acquire(0, 0), p, f)) {}
  }

  // ---------- drifting on with nothing to download ----------

  predicate Idle(t: Task) { t.Unsubmitted? || t.Skipped? || t.Ended? }

  // The fetcher is through, no task runs and no body is there.
  ghost predicate Emptied(s: State)
  {
    && s.fetch.FetchDone?
    && forall p, f :: 0 <= p < |s.parts| && 0 <= f < |s.parts[p].tasks| ==> IdleAt(s.parts[p], f)
  }

  predicate IdleAt(ps: PartState, f: nat)
    requires f < |ps.tasks|
  {
    Idle(ps.tasks[f]) && f < |ps.bodies| && ps.bodies[f].Empty?
  }

  // Nobody is failing, and the consumer has taken all it was given.
  ghost predicate Smooth(s: State)
  {
    && s.cause.None?
    && (forall w :: 0 <= w < |s.workers| ==> !s.workers[w].pc.Abort? && !s.workers[w].pc.Fail?)
    && (forall i :: 0 <= i < |s.calls| ==> s.calls[i].Yielded? && s.calls[i].ok)
    && match s.emit
       case Recv(_) => true
       case Deliver(_) => true
       case Unreserve(_, ok) => ok
       case Ring(_, ok) => ok
       case Close => true
       case _ => false
  }

  ghost predicate Drifting(c: Config, s: State) { Shape(c, s) && Emptied(s) && Smooth(s) }

  // Only the decode workers and the emit loop move.
  lemma DriftWorker(c: Config, s: State, w: nat, d: WorkerAction)
    requires c.Valid() && Drifting(c, s) && w < |s.workers| && WorkerEnabled(c, s, w, d)
    ensures WorkerStep(c, s, w, d).parts == s.parts && WorkerStep(c, s, w, d).fetch == s.fetch && Smooth(WorkerStep(c, s, w, d))
  {
    assert WorkerShape(c, s.workers[w], w);
    if d.DecodeNext? && s.workers[w].pc.fi < |c.Files(s.workers[w].at)| { assert IdleAt(s.parts[s.workers[w].at], s.workers[w].pc.fi); }
  }

  lemma DriftEmit(c: Config, s: State, e: EmitAction)
    requires c.Valid() && Drifting(c, s) && EmitEnabled(c, s, e) && !s.emit.Close? && (e.ConsumerReturns? ==> e.ok)
    ensures EmitStep(c, s, e).parts == s.parts && EmitStep(c, s, e).fetch == s.fetch && Smooth(EmitStep(c, s, e))
  {
  }

  lemma NoTaskRuns(s: State, pi: nat, fi: nat)
    requires Emptied(s)
    ensures Idle(TaskAt(s, pi, fi))
  {
    assert pi < |s.parts| && fi < |s.parts[pi].tasks| ==> IdleAt(s.parts[pi], fi);
  }

  lemma DriftStep(c: Config, s: State, a: Action, t: State)
    requires c.Valid() && Drifting(c, s) && !s.emit.Close? && Ordinary(a) && Enabled(c, s, a) && t == Apply(c, s, a) && Shape(c, t)
    ensures Drifting(c, t) && t.parts == s.parts
  {
    match a
    case ByFetcher(f) =>
    case ByTask(pi, fi, b) => NoTaskRuns(s, pi, fi);
    case ByWorker(w, d) => DriftWorker(c, s, w, d);
    case ByEmit(e) => DriftEmit(c, s, e);
    case ParentCancel =>
  }

  // ---------- hollow batches ----------

  predicate HollowPc(pc: WorkerPc)
  {
    match pc
    case Decode(_, recs) => recs == []
    case Send(recs) => recs == []
    case SendWait(recs) => recs == []
    case _ => true
  }

  // A partition handed over without a record.
  predicate HollowBatch(c: Config, b: Batch) { b.index < |c.parts| && b == MakeBatch(c, b.index, []) }

  ghost predicate HollowWorker(c: Config, x: Worker)
  {
    HollowPc(x.pc) && forall i :: 0 <= i < |x.queue| ==> HollowBatch(c, x.queue[i])
  }

  ghost predicate Hollow(c: Config, s: State)
  {
    && (forall w :: 0 <= w < |s.workers| ==> HollowWorker(c, s.workers[w]))
    && (s.emit.Deliver? ==> HollowBatch(c, s.emit.batch))
    && (forall i :: 0 <= i < |s.calls| && s.calls[i].Yielded? ==> HollowBatch(c, s.calls[i].batch))
  }

  // No body holds a record.
  ghost predicate Bland(c: Config, s: State)
  {
    forall p, f :: 0 <= p < |s.parts| && 0 <= f < |s.parts[p].bodies| && s.parts[p].bodies[f].Landed? ==>
      c.decode(s.parts[p].bodies[f].body) == Some([])
  }

  lemma NothingSorts(mode: Mode)
    ensures SortAndDedup([], mode) == []
  {
  }

  lemma HollowDecode(c: Config, s: State, w: nat)
    requires c.Valid() && Shape(c, s) && Hollow(c, s) && Bland(c, s) && w < |s.workers| && WorkerEnabled(c, s, w, DecodeNext)
    ensures Hollow(c, DecodeStep(c, s, w))
  {
    NothingSorts(c.mode);
    assert WorkerShape(c, s.workers[w], w) && HollowWorker(c, s.workers[w]);
    hide SortAndDedup;
  }

  // Worker w moved, and may have handed its batch over.
  lemma HollowKept(c: Config, s: State, t: State, w: nat)
    requires Hollow(c, s) && w < |s.workers| == |t.workers| && t.workers == s.workers[w := t.workers[w]] && HollowWorker(c, t.workers[w])
    requires t.calls == s.calls && (t.emit == s.emit || (t.emit.Deliver? && HollowBatch(c, t.emit.batch)))
    ensures Hollow(c, t)
  {
  }

  lemma HollowSend(c: Config, s: State, w: nat, b: Batch)
    requires c.Valid() && Hollow(c, s) && w < |s.workers| && HollowBatch(c, b)
    ensures Hollow(c, Enqueue(c, s, w, b))
  {
    assert HollowWorker(c, s.workers[w]);
    HollowKept(c, s, Enqueue(c, s, w, b), w);
  }

  lemma HollowOfWorker(c: Config, s: State, w: nat, d: WorkerAction)
    requires c.Valid() && Shape(c, s) && Hollow(c, s) && Bland(c, s) && w < |s.workers| && WorkerEnabled(c, s, w, d)
    ensures Hollow(c, WorkerStep(c, s, w, d))
  {
    var x := s.workers[w];
    assert WorkerShape(c, x, w) && HollowWorker(c, x);
    if d.DecodeNext? {
      HollowDecode(c, s, w);
    } else if (d.SendTry? && HasSpace(c, s, w)) || d.SendSlow? {
      HollowSend(c, s, w, MakeBatch(c, x.at, x.pc.recs));
    } else {
      HollowOfQuiet(c, s, w, d);
    }
  }

  lemma HollowOfQuiet(c: Config, s: State, w: nat, d: WorkerAction)
    requires c.Valid() && Shape(c, s) && Hollow(c, s) && w < |s.workers| && WorkerEnabled(c, s, w, d)
    requires IsLocal(d) || d.RecordFail? || (d.SendTry? && !HasSpace(c, s, w))
    ensures Hollow(c, WorkerStep(c, s, w, d))
  {
    var x, t := s.workers[w], WorkerStep(c, s, w, d);
    assert WorkerShape(c, x, w) && HollowWorker(c, x);
    assert HollowPc(t.workers[w].pc) && t.workers[w].queue == x.queue;
    HollowKept(c, s, t, w);
  }

  lemma HollowOfEmit(c: Config, s: State, e: EmitAction)
    requires c.Valid() && Shape(c, s) && Hollow(c, s) && EmitEnabled(c, s, e)
    ensures Hollow(c, EmitStep(c, s, e))
  {
    if e.Receive? {
      var x := s.workers[WorkerOf(c, s.emit.pi)];
      assert HollowWorker(c, x);
      assert forall i :: 0 <= i < |x.queue[1..]| ==> x.queue[1..][i] == x.queue[i + 1];
    }
  }

  lemma HollowOfFetch(c: Config, s: State, f: FetchAction)
    requires c.Valid() && Shape(c, s) && Hollow(c, s) && FetchEnabled(c, s, f)
    ensures Hollow(c, FetchStep(c, s, f))
  {
  }

  lemma HollowOfTask(c: Config, s: State, pi: nat, fi: nat, b: TaskAction)
    requires c.Valid() && Shape(c, s) && Hollow(c, s) && pi < |s.parts| && fi < |s.parts[pi].tasks| && TaskEnabled(c, s, s.parts[pi].tasks[fi], b)
    ensures Hollow(c, TaskStep(c, s, pi, fi, b))
  {
  }

  lemma HollowStep(c: Config, s: State, a: Action)
    requires c.Valid() && Shape(c, s) && Hollow(c, s) && Bland(c, s) && Enabled(c, s, a)
    ensures Hollow(c, Apply(c, s, a))
  {
    hide Bland, FetchStep, TaskStep, WorkerStep, EmitStep, HollowWorker, HollowBatch;
    match a
    case ByFetcher(f) => HollowOfFetch(c, s, f);
    case ByTask(pi, fi, b) => HollowOfTask(c, s, pi, fi, b);
    case ByWorker(w, d) => HollowOfWorker(c, s, w, d);
    case ByEmit(e) => HollowOfEmit(c, s, e);
    case ParentCancel =>
  }

  // ---------- a read that comes back empty ----------

  ghost predicate AllDone(s: State) { forall p :: 0 <= p < |s.parts| ==> s.parts[p].done }

  lemma LossyIsDone(c: Config, s: State)
    requires c.Valid() && Inv(c, s) && Lossy(c, s) && s.fetch.Drain?
    ensures AllDone(s)
  {
    forall p | 0 <= p < |s.parts| ensures s.parts[p].done {
      var ps := s.parts[p];
      forall f | 0 <= f < |ps.tasks| ensures ps.tasks[f] == Ended(true) { assert LostAt(ps, f, Fetched(s.fetch, p, f)); }
      AllMarkedIsFull(ps.tasks);
      assert PartOk(c, p, ps);
    }
  }

  lemma UntouchedDrifts(c: Config, s: State)
    requires c.Valid() && Shape(c, s) && Untouched(c, s) && Emptied(s)
    ensures Drifting(c, s) && Hollow(c, s)
  {
  }

  lemma StartDrift(c: Config) returns (s: State)
    requires c.Valid() && !c.promptGet
    ensures Reachable(c, s) && Drifting(c, s) && Hollow(c, s) && AllDone(s)
  {
    InitLossy(c);
    var r := LoseAll(c, Init(c));
    ReachableHolds(c, r);
    LossyIsDone(c, r);
    s := Advance(c, r, ByFetcher(DrainDone));
    hide Inv, Reachable;
    forall p, f | 0 <= p < |s.parts| && 0 <= f < |s.parts[p].tasks| ensures IdleAt(s.parts[p], f) {
      assert LostAt(r.parts[p], f, Fetched(r.fetch, p, f));
    }
    UntouchedDrifts(c, s);
  }

  lemma DriftMoves(c: Config, s: State)
    requires c.Valid() && Inv(c, s) && Drifting(c, s) && AllDone(s)
    ensures CanMove(c, s)
  {
    StuckWaits(c, s);
  }

  lemma EmptiedIsBland(c: Config, s: State)
    requires Shape(c, s) && Emptied(s)
    ensures Bland(c, s)
  {
    forall p, f | 0 <= p < |s.parts| && 0 <= f < |s.parts[p].bodies| ensures !s.parts[p].bodies[f].Landed? { assert IdleAt(s.parts[p], f); }
  }

  lemma {:induction false} DriftsOn(c: Config, s: State) returns (t: State)
    requires c.Valid() && Reachable(c, s) && Drifting(c, s) && Hollow(c, s) && AllDone(s)
    ensures Reachable(c, t) && Drifting(c, t) && Hollow(c, t) && t.emit.Close?
    decreases Measure(c, s)
  {
    if s.emit.Close? {
      t := s;
    } else {
      ReachableHolds(c, s);
      DriftMoves(c, s);
      var a :| Ordinary(a) && Enabled(c, s, a);
      t := Advance(c, s, a);
      EmptiedIsBland(c, s);
      hide Inv, Reachable, Measure, Apply, Hollow;
      DriftStep(c, s, a, t);
      HollowStep(c, s, a);
      t := DriftsOn(c, t);
    }
  }

  // The i-th call handed over partition i, without a record.
  predicate HollowCall(c: Config, k: Call, i: nat)
  {
    i < |c.parts| && k == Yielded(MakeBatch(c, i, []), true)
  }

  lemma HollowEnd(c: Config, s: State)
    requires c.Valid() && Inv(c, s) && Drifting(c, s) && Hollow(c, s) && s.emit.Close?
    ensures |s.calls| == |c.parts| && forall i :: 0 <= i < |s.calls| ==> HollowCall(c, s.calls[i], i)
  {
    assert Over(c, s);
    CallShape(c, s);
    var k := |s.calls| - 1;
    assert LastYield(c, s.calls, k, s.calls[k].ok);
    forall i | 0 <= i < |s.calls| ensures HollowCall(c, s.calls[i], i) {
      assert s.calls[i].Yielded? && s.calls[i].batch.index == i;
    }
  }

  // ---------- when faithfulness needs the hypothesis ----------

  // Everything ever handed over is a prefix of the sequential read.
  ghost predicate Faithful(c: Config)
    requires c.Valid()
  {
    forall s :: Reachable(c, s) ==> Yields(s.calls) <= SequentialRead(c)
  }

  // Every file decodes and holds no record.
  predicate NothingToLose(c: Config)
  {
    forall p, f :: 0 <= p < |c.parts| && 0 <= f < |c.Files(p)| ==> FileRecs(c, c.Files(p)[f]) == Some([])
  }

  lemma {:induction false} NoRecords(c: Config, files: seq<FileRef>)
    requires Decodable(c, files)
    ensures AllRecs(c, files) == [] <==> forall f :: 0 <= f < |files| ==> FileRecs(c, files[f]) == Some([])
  {
    if files != [] {
      var n := |files| - 1;
      assert files == files[..n] + [files[n]];
      assert forall f :: 0 <= f < n ==> files[..n][f] == files[f];
      NoRecords(c, files[..n]);
    }
  }

  lemma SomethingStays(s: seq<Rec>, mode: Mode)
    ensures SortAndDedup(s, mode) == [] <==> s == []
  {
    NothingSorts(mode);
    if s != [] && mode != NoKeys {
      KeyLeIsTotalPreorder();
      SortIsSorted(s, ByKey());
      assert |Sort(s, ByKey())| == |multiset(s)|;
    }
  }

  // A hollow batch is the right one exactly if the partition decodes to no records.
  lemma HollowIsRight(c: Config, p: nat)
    requires p < |c.parts|
    ensures IsBatch(c, p, MakeBatch(c, p, [])) <==> forall f :: 0 <= f < |c.Files(p)| ==> FileRecs(c, c.Files(p)[f]) == Some([])
  {
    if Decodable(c, c.Files(p)) {
      NoRecords(c, c.Files(p));
      SomethingStays(AllRecs(c, c.Files(p)), c.mode);
    }
  }

  lemma NothingLost(c: Config, s: State)
    requires c.Valid() && NothingToLose(c) && Reachable(c, s)
    ensures Hollow(c, s)
  {
    var run :| IsRun(c, run) && run[|run| - 1] == s;
    HollowRun(c, run, |run| - 1);
  }

  lemma {:induction false} HollowRun(c: Config, run: seq<State>, i: nat)
    requires c.Valid() && NothingToLose(c) && IsRun(c, run) && i < |run|
    ensures Hollow(c, run[i])
  {
    hide Inv, Hollow, Next, NothingToLose;
    if i == 0 {
      InitHollow(c);
    } else {
      HollowRun(c, run, i - 1);
      assert Next(c, run[i - 1], run[i - 1 + 1]);
      RunKeepsInv(c, run, i - 1);
      HollowNext(c, run[i - 1], run[i]);
    }
  }

  lemma InitHollow(c: Config)
    requires c.Valid()
    ensures Hollow(c, Init(c))
  {
  }

  lemma HollowNext(c: Config, s: State, t: State)
    requires c.Valid() && NothingToLose(c) && Inv(c, s) && Hollow(c, s) && Next(c, s, t)
    ensures Hollow(c, t)
  {
    hide Inv, Hollow, Apply, Enabled, NothingToLose, Bland;
    BodiesAreBland(c, s);
    var a :| Step(c, s, a, t);
    HollowStep(c, s, a);
  }

  lemma BodiesAreBland(c: Config, s: State)
    requires Inv(c, s) && NothingToLose(c)
    ensures Bland(c, s)
  {
    hide FetchOk, CauseOk, SlotsOk, WorkersOk, AllTakenOk, QueuesOk, CallsOk, BytesOk, BellsOk;
    forall p, f | 0 <= p < |s.parts| && 0 <= f < |s.parts[p].bodies| && s.parts[p].bodies[f].Landed?
      ensures c.decode(s.parts[p].bodies[f].body) == Some([])
    {
      assert PartOk(c, p, s.parts[p]);
      assert BodyOk(c, p, f, s.parts[p].tasks[f], s.parts[p].bodies[f]);
      assert FileRecs(c, c.Files(p)[f]) == Some([]);
    }
  }

  lemma {:induction false} YieldsOfCalls(calls: seq<Call>)
    requires forall i :: 0 <= i < |calls| ==> calls[i].Yielded?
    ensures |Yields(calls)| == |calls| && forall i :: 0 <= i < |calls| ==> Yields(calls)[i] == calls[i].batch
  {
    if calls != [] { YieldsOfCalls(calls[..|calls| - 1]); }
  }

  // Hollow calls for partitions 0, 1, ... are right when there is nothing to lose.
  lemma HollowCallsAreRight(c: Config, ys: seq<Call>)
    requires NothingToLose(c) && |ys| <= |c.parts|
    requires forall i :: 0 <= i < |ys| ==> ys[i].Yielded? && ys[i].batch.index == i && HollowBatch(c, ys[i].batch)
    ensures Yields(ys) <= SequentialRead(c)
  {
    YieldsOfCalls(ys);
    forall i | 0 <= i < |ys| ensures IsBatch(c, 0 + i, Yields(ys)[i]) { HollowIsRight(c, i); }
    hide Yields, IsBatch, SequentialRead;
    SequentialPrefix(c, 0, Yields(ys));
  }

  // The calls that gave a batch.
  function Batches(calls: seq<Call>): seq<Call>
  {
    if |calls| > 0 && calls[|calls| - 1].Errored? then calls[..|calls| - 1] else calls
  }

  lemma BatchesAreHollow(c: Config, s: State)
    requires Inv(c, s) && Hollow(c, s)
    ensures |Batches(s.calls)| <= |c.parts|
    ensures forall i :: 0 <= i < |Batches(s.calls)| ==>
      Batches(s.calls)[i].Yielded? && Batches(s.calls)[i].batch.index == i && HollowBatch(c, Batches(s.calls)[i].batch)
  {
    CallShape(c, s);
    hide Inv;
    var ys := Batches(s.calls);
    forall i | 0 <= i < |ys| ensures ys[i].Yielded? && ys[i].batch.index == i && HollowBatch(c, ys[i].batch) {
      assert ys[i] == s.calls[i] && InOrder(c, ys);
    }
  }

  lemma HollowYieldsAreRight(c: Config, s: State)
    requires c.Valid() && NothingToLose(c) && Reachable(c, s)
    ensures Yields(s.calls) <= SequentialRead(c)
  {
    hide Reachable, NothingToLose, Inv, Hollow, SequentialRead, HollowBatch;
    ReachableHolds(c, s);
    NothingLost(c, s);
    BatchesAreHollow(c, s);
    HollowCallsAreRight(c, Batches(s.calls));
    assert Yields(s.calls) == Yields(Batches(s.calls));
  }

  lemma {:induction false} SequentialAt(c: Config, from: nat, i: nat)
    requires from <= |c.parts| && i < |SequentialRead(c, from)|
    ensures IsBatch(c, from + i, SequentialRead(c, from)[i])
    decreases i
  {
    if i > 0 { SequentialAt(c, from + 1, i - 1); }
  }
}

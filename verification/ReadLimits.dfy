/** What the progress of a read rests on: the body-slot floor, as far as the read gets, and the
    GET hypothesis, as soon as there is a second file.

    A partition that is never fully downloaded is a wall. Ordinary steps from before it keep
    everything calm, the measure says that they end, and they cannot end in the final state; so
    they end where nobody can move. */
module ReadLimits {
  import opened Wrappers
  import opened Dedup
  import opened Prepare
  import opened ReadPipeline
  import opened Counting
  import opened ReadInvariant
  import opened ReadSteps
  import opened ReadFlow
  import opened ReadTheorems
  import opened ReadProgress
  import opened ReadLiveness
  import opened ReadLoss

  // ---------- the floor ----------

  // Partition p has not been fully downloaded, and its worker has not got past it.
  ghost predicate Blocked(c: Config, s: State, p: nat)
    requires Shape(c, s) && c.workers >= 1
  {
    p < |c.parts| && NotFull(s, p) && NotPast(s.workers[WorkerOf(c, p)], p)
  }

  predicate NotFull(s: State, p: nat)
    requires p < |s.parts|
  {
    s.Stop() || s.parts[p].completed < |s.parts[p].tasks|
  }

  predicate NotPast(x: Worker, p: nat)
  {
    x.at <= p && (x.at == p ==> x.pc.Wait? || x.pc.Check? || x.pc.Stopped?)
  }

  // All files landed and none taken: they hold that many slots at once.
  lemma FullCountHoldsSlots(c: Config, s: State, p: nat)
    requires Shape(c, s) && PartsOk(c, s) && CauseOk(c, s) && SlotsOk(c, s) && c.promptGet && !s.Stop() && p < |s.parts|
    requires s.parts[p].completed == |s.parts[p].tasks|
    requires forall f :: 0 <= f < |s.parts[p].bodies| ==> !s.parts[p].bodies[f].Taken?
    ensures |c.Files(p)| <= c.bodyCap
  {
    var ps := s.parts[p];
    assert PartOk(c, p, ps);
    SumByBound(ps.tasks, MarkedN);
    forall f | 0 <= f < |ps.bodies| ensures LandedN(ps.bodies[f]) == 1 {
      assert MarkedN(ps.tasks[f]) == 1 && !FailureRecorded(ps.tasks[f]);
      assert BodyOk(c, p, f, ps.tasks[f], ps.bodies[f]);
    }
    AllLandedCount(ps.bodies);
    SumByAtLeast(s.parts, p, PartHeld);
  }

  lemma {:induction false} AllLandedCount(b: seq<BodySlot>)
    requires forall f :: 0 <= f < |b| ==> LandedN(b[f]) == 1
    ensures SumBy(b, LandedN) == |b|
  {
    if |b| > 0 { AllLandedCount(b[..|b| - 1]); }
  }

  // `done` is closed only on a full count.
  lemma DoneNeedsFullCount(c: Config, s: State, s': State, p: nat)
    requires Shape(c, s) && PartsOk(c, s) && p < |s.parts| && s.parts[p].completed < |s.parts[p].tasks|
    requires SameTasks(s, s') || s'.parts == s.parts
    ensures !s'.parts[p].done
  {
    assert PartOk(c, p, s.parts[p]);
  }

  lemma DoneOfTask(c: Config, s: State, pi: nat, fi: nat, a: TaskAction, p: nat)
    requires Shape(c, s) && PartsOk(c, s) && p < |s.parts| && s.parts[p].completed < |s.parts[p].tasks|
    requires pi < |s.parts| && fi < |s.parts[pi].tasks| && TaskEnabled(c, s, s.parts[pi].tasks[fi], a)
    ensures !TaskStep(c, s, pi, fi, a).parts[p].done
  {
    assert PartOk(c, p, s.parts[p]);
  }

  lemma DoneOfFetch(c: Config, s: State, a: FetchAction, p: nat)
    requires Shape(c, s) && PartsOk(c, s) && p < |s.parts| && s.parts[p].completed < |s.parts[p].tasks|
    requires FetchEnabled(c, s, a)
    ensures !FetchStep(c, s, a).parts[p].done
  {
    assert PartOk(c, p, s.parts[p]);
  }

  lemma StaysUndone(c: Config, s: State, a: Action, p: nat)
    requires c.Valid() && Shape(c, s) && PartsOk(c, s) && Enabled(c, s, a)
    requires p < |s.parts| && s.parts[p].completed < |s.parts[p].tasks|
    ensures !Apply(c, s, a).parts[p].done
  {
    match a
    case ByFetcher(f) => DoneOfFetch(c, s, f, p);
    case ByTask(pi, fi, t) => DoneOfTask(c, s, pi, fi, t, p);
    case ByWorker(w, d) => WorkerFrameHolds(c, s, w, d); DoneNeedsFullCount(c, s, WorkerStep(c, s, w, d), p);
    case ByEmit(e) => EmitFrameHolds(c, s, e); DoneNeedsFullCount(c, s, EmitStep(c, s, e), p);
    case ParentCancel => DoneNeedsFullCount(c, s, Apply(c, s, a), p);
  }

  // An oversized partition that is not done is not full either.
  lemma UndoneIsNotFull(c: Config, t: State, p: nat)
    requires Inv(c, t) && Oversized(c, p) && c.promptGet
    requires !t.parts[p].done && NotPast(t.workers[WorkerOf(c, p)], p)
    ensures NotFull(t, p)
  {
    var x := t.workers[WorkerOf(c, p)];
    if !t.Stop() && t.parts[p].completed >= |t.parts[p].tasks| {
      assert TakenOk(c, t.parts[p], p, x) && WorkerOk(c, t, x) && PartOk(c, p, t.parts[p]);
      SumByBound(t.parts[p].tasks, MarkedN);
      FullCountHoldsSlots(c, t, p);
    }
  }

  lemma StopStays(c: Config, s: State, a: Action)
    requires Inv(c, s) && Enabled(c, s, a)
    ensures s.Stop() ==> Apply(c, s, a).Stop()
  {
    match a
    case ByWorker(w, d) => WorkerFrameHolds(c, s, w, d);
    case ByEmit(e) => EmitFrameHolds(c, s, e);
    case ByTask(pi, fi, t) => TaskFrameHolds(c, s, pi, fi, t);
    case _ =>
  }

  // The worker of p stays in front of p: leaving Check alive needs `done`.
  lemma WorkerStaysBefore(c: Config, s: State, w: nat, d: WorkerAction, p: nat)
    requires c.Valid() && Shape(c, s) && PartsOk(c, s) && WorkersOk(c, s) && Blocked(c, s, p)
    requires w < |s.workers| && WorkerEnabled(c, s, w, d)
    ensures NotPast(WorkerStep(c, s, w, d).workers[WorkerOf(c, p)], p)
  {
    var v := WorkerOf(c, p);
    var x := s.workers[w];
    assert WorkerOk(c, s, x) && WorkerShape(c, x, w) && PartOk(c, p, s.parts[p]);
    if w == v && x.at < p {
      ModGap(x.at, p, c.workers);
    }
  }

  lemma StaysBefore(c: Config, s: State, a: Action, p: nat)
    requires c.Valid() && Shape(c, s) && PartsOk(c, s) && WorkersOk(c, s) && Enabled(c, s, a) && Blocked(c, s, p)
    ensures NotPast(Apply(c, s, a).workers[WorkerOf(c, p)], p)
  {
    match a
    case ByWorker(w, d) => WorkerStaysBefore(c, s, w, d, p);
    case ByEmit(e) => EmitLeavesLoops(c, s, e);
    case ByTask(pi, fi, t) => TaskFrameHolds(c, s, pi, fi, t);
    case _ =>
  }

  lemma BlockedStep(c: Config, s: State, t: State, p: nat)
    requires Inv(c, s) && Next(c, s, t) && Inv(c, t) && Blocked(c, s, p) && Oversized(c, p) && c.promptGet
    ensures Blocked(c, t, p)
  {
    var a :| Step(c, s, a, t);
    StaysBefore(c, s, a, p);
    StopStays(c, s, a);
    if !s.Stop() {
      StaysUndone(c, s, a, p);
      UndoneIsNotFull(c, t, p);
    }
  }

  lemma ModGap(a: nat, b: nat, m: nat)
    requires m >= 1 && a % m == b % m && a < b
    ensures a + m <= b
  {
    if b < a + m { ModWindow(a, b, m); }
  }

  lemma InitBlocked(c: Config, p: nat)
    requires c.Valid() && p < |c.parts| && Shape(c, Init(c))
    ensures Blocked(c, Init(c), p)
  {
    ModBelow(p, c.workers);
  }

  lemma InvShape(c: Config, s: State)
    requires Inv(c, s)
    ensures c.Valid() && Shape(c, s)
  {
  }

  lemma {:induction false} BlockedForever(c: Config, run: seq<State>, i: nat, p: nat)
    requires c.Valid() && IsRun(c, run) && i < |run| && Oversized(c, p) && c.promptGet
    ensures Inv(c, run[i]) && Blocked(c, run[i], p)
  {
    RunKeepsInv(c, run, i);
    hide Inv, Blocked, Oversized;
    if i == 0 {
      InvShape(c, run[0]);
      InitBlocked(c, p);
    } else {
      BlockedForever(c, run, i - 1, p);
      assert Next(c, run[i - 1], run[i - 1 + 1]);
      BlockedStep(c, run[i - 1], run[i], p);
    }
  }

  // What the worker of p has not got past was not received either.
  lemma BlockedIsBehind(c: Config, s: State, p: nat)
    requires c.Valid() && Shape(c, s) && QueuesOk(c, s) && p < |c.parts| && NotPast(s.workers[WorkerOf(c, p)], p)
    ensures s.received <= p
  {
    var x := s.workers[WorkerOf(c, p)];
    assert Chain(x.queue, x.next, x.at, c.workers);
    ChainAhead(x.queue, x.next, x.at, c.workers);
  }

  /** A partition with more files than body slots is never handed over, nor any after it. */
  lemma OversizedIsNeverRead(c: Config, s: State, p: nat)
    requires c.Valid() && Reachable(c, s) && Oversized(c, p) && c.promptGet
    ensures Inv(c, s) && Blocked(c, s, p) && s.received <= p
  {
    var run :| IsRun(c, run) && run[|run| - 1] == s;
    BlockedForever(c, run, |run| - 1, p);
    BlockedIsBehind(c, s, p);
  }

  // Nothing has failed, been cancelled or been broken off.
  ghost predicate Calm(c: Config, s: State)
    requires Shape(c, s)
  {
    && !s.Stop()
    && (forall p, f :: 0 <= p < |s.parts| && 0 <= f < |s.parts[p].tasks| ==>
          !s.parts[p].tasks[f].FailRelease? && !s.parts[p].tasks[f].FailRecord?)
    && match s.emit
       case Recv(_) => true
       case Deliver(_) => true
       case Unreserve(_, ok) => ok
       case Ring(_, ok) => ok
       case _ => false
  }

  lemma CalmFetch(c: Config, s: State, f: FetchAction)
    requires Shape(c, s) && FetchEnabled(c, s, f) && Calm(c, s) && Shape(c, FetchStep(c, s, f))
    ensures Calm(c, FetchStep(c, s, f))
  {
  }

  lemma CalmTask(c: Config, s: State, pi: nat, fi: nat, t: TaskAction)
    requires Inv(c, s) && pi < |s.parts| && fi < |s.parts[pi].tasks| && TaskEnabled(c, s, s.parts[pi].tasks[fi], t)
    requires !t.GetHard? && !t.GetCtx? && Calm(c, s) && Shape(c, TaskStep(c, s, pi, fi, t))
    ensures Calm(c, TaskStep(c, s, pi, fi, t))
  {
    TaskFrameHolds(c, s, pi, fi, t);
    var s' := TaskStep(c, s, pi, fi, t);
    forall p, f | 0 <= p < |s'.parts| && 0 <= f < |s'.parts[p].tasks|
      ensures !s'.parts[p].tasks[f].FailRelease? && !s'.parts[p].tasks[f].FailRecord?
    {
      assert (p != pi || f != fi) ==> s'.parts[p].tasks[f] == s.parts[p].tasks[f];
    }
  }

  lemma CalmWorker(c: Config, s: State, w: nat, d: WorkerAction, s': State)
    requires Inv(c, s) && w < |s.workers| && WorkerEnabled(c, s, w, d) && Calm(c, s)
    requires !s.workers[w].pc.Fail? && s' == WorkerStep(c, s, w, d) && Shape(c, s')
    ensures Calm(c, s')
  {
    WorkerFrameHolds(c, s, w, d);
    HandOffIsMine(c, s, w, d);
    CalmHandOff(c, s, w, d, s');
  }

  lemma CalmHandOff(c: Config, s: State, w: nat, d: WorkerAction, s': State)
    requires c.workers >= 1 && Shape(c, s) && Shape(c, s') && Calm(c, s) && w < |s.workers| && WorkerEnabled(c, s, w, d)
    requires s' == WorkerStep(c, s, w, d) && !s.workers[w].pc.Fail? && SameTasks(s, s')
    ensures Calm(c, s')
  {
    assert WorkerShape(c, s.workers[w], w);
  }

  // Each file of the partition holds a slot, for its download or for its body.
  lemma {:induction false} HeldEach(tasks: seq<Task>, bodies: seq<BodySlot>)
    requires |tasks| == |bodies| && forall f :: 0 <= f < |tasks| ==> HoldsN(tasks[f]) + LandedN(bodies[f]) >= 1
    ensures SumBy(tasks, HoldsN) + SumBy(bodies, LandedN) >= |tasks|
  {
    if |tasks| > 0 { HeldEach(tasks[..|tasks| - 1], bodies[..|bodies| - 1]); }
  }

  lemma FileHolds(c: Config, s: State, p: nat, f: nat)
    requires Inv(c, s) && Calm(c, s) && Blocked(c, s, p) && c.promptGet && f < |s.parts[p].tasks| && !s.parts[p].tasks[f].Unsubmitted?
    ensures HoldsN(s.parts[p].tasks[f]) + LandedN(s.parts[p].bodies[f]) >= 1
  {
    hide FetchOk, SlotsOk, QueuesOk, CallsOk, BytesOk, BellsOk;
    var x := s.workers[WorkerOf(c, p)];
    assert TakenOk(c, s.parts[p], p, x) && WorkerOk(c, s, x) && PartOk(c, p, s.parts[p]);
    assert BodyOk(c, p, f, s.parts[p].tasks[f], s.parts[p].bodies[f]);
    assert !FailureRecorded(s.parts[p].tasks[f]);
  }

  // Behind a wall nothing is downloaded.
  lemma LaterIsNotDone(c: Config, s: State, p: nat, q: nat)
    requires Inv(c, s) && Calm(c, s) && Blocked(c, s, p) && Oversized(c, p) && c.promptGet && p < q < |s.parts|
    ensures !s.parts[q].done
  {
    if s.parts[q].done {
      assert PartOk(c, q, s.parts[q]);
      FullMeansMarked(s.parts[q].tasks, 0);
      assert !FromHere(s.fetch, q, 0);
      forall f | 0 <= f < |s.parts[p].tasks| ensures HoldsN(s.parts[p].tasks[f]) + LandedN(s.parts[p].bodies[f]) >= 1 {
        assert Before(s.fetch, p, f) || s.fetch.Drain? || s.fetch.FetchDone?;
        FileHolds(c, s, p, f);
      }
      HeldEach(s.parts[p].tasks, s.parts[p].bodies);
      SumByAtLeast(s.parts, p, PartHeld);
      assert false;
    }
  }

  lemma NoDecodeFails(c: Config, s: State, p: nat, w: nat)
    requires Inv(c, s) && Calm(c, s) && Blocked(c, s, p) && Wall(c, p) && c.promptGet && w < |s.workers|
    ensures !s.workers[w].pc.Fail?
  {
    hide Inv, Shape, Calm, Oversized;
    FailMeans(c, s, w);
    if s.workers[w].pc.Fail? && s.workers[w].at > p { LaterIsNotDone(c, s, p, s.workers[w].at); }
  }

  lemma FailMeans(c: Config, s: State, w: nat)
    requires Inv(c, s) && c.promptGet && w < |s.workers|
    ensures |s.parts| == |c.parts| && s.workers[w].at % c.workers == w
    ensures s.workers[w].pc.Fail? ==> s.workers[w].at < |c.parts| && s.parts[s.workers[w].at].done && !Decodable(c, c.Files(s.workers[w].at))
  {
    hide PartsOk, FetchOk, CauseOk, SlotsOk, AllTakenOk, QueuesOk, CallsOk, BytesOk, BellsOk;
    assert WorkerOk(c, s, s.workers[w]) && WorkerShape(c, s.workers[w], w);
  }

  lemma CalmEmit(c: Config, s: State, e: EmitAction, s': State, p: nat)
    requires Inv(c, s) && EmitEnabled(c, s, e) && Calm(c, s) && (e.ConsumerReturns? ==> e.ok)
    requires s' == EmitStep(c, s, e) && Shape(c, s') && s.received <= p < |c.parts|
    ensures Calm(c, s')
  {
    EmitFrameHolds(c, s, e);
  }

  lemma CalmStep(c: Config, s: State, a: Action, p: nat)
    requires Inv(c, s) && Enabled(c, s, a) && Ordinary(a) && Calm(c, s) && c.promptGet && Wall(c, p) && Blocked(c, s, p)
    requires s.received <= p
    ensures Inv(c, Apply(c, s, a)) && Calm(c, Apply(c, s, a))
  {
    hide PartsOk, FetchOk, CauseOk, SlotsOk, WorkersOk, AllTakenOk, QueuesOk, CallsOk, BytesOk, BellsOk;
    StepKeepsInv(c, s, a);
    match a
    case ByFetcher(f) => CalmFetch(c, s, f);
    case ByTask(pi, fi, t) => CalmTask(c, s, pi, fi, t);
    case ByWorker(w, d) => NoDecodeFails(c, s, p, w); CalmWorker(c, s, w, d, Apply(c, s, a));
    case ByEmit(e) => CalmEmit(c, s, e, Apply(c, s, a), p);
    case ParentCancel =>
  }

  // Run on, ordinary step after ordinary step; the measure says this ends, and it cannot
  // end in the final state.
  lemma {:induction false} RunsIntoTheWall(c: Config, s: State, p: nat) returns (e: State)
    requires c.Valid() && Reachable(c, s) && Wall(c, p) && c.promptGet
    requires Inv(c, s) && Calm(c, s)
    ensures Reachable(c, e) && Inv(c, e) && Calm(c, e) && !CanMove(c, e)
    decreases Measure(c, s)
  {
    hide PartsOk, FetchOk, CauseOk, SlotsOk, WorkersOk, AllTakenOk, QueuesOk, CallsOk, BytesOk, BellsOk;
    if CanMove(c, s) {
      var a :| Ordinary(a) && Enabled(c, s, a);
      OversizedIsNeverRead(c, s, p);
      CalmStep(c, s, a, p);
      StepDecreases(c, s, a);
      ReachableStep(c, s, a, Apply(c, s, a));
      e := RunsIntoTheWall(c, Apply(c, s, a), p);
    } else {
      e := s;
    }
  }

  ghost predicate NeverStuckAnywhere(c: Config)
    requires c.Valid()
  {
    forall s :: Reachable(c, s) && !s.emit.Finished? ==> CanMove(c, s)
  }

  lemma WallExists(c: Config, p: nat) returns (e: State)
    requires c.Valid() && Wall(c, p) && c.promptGet
    ensures Reachable(c, e) && !e.Stop() && !e.emit.Finished? && !CanMove(c, e)
  {
    hide PartsOk, FetchOk, CauseOk, SlotsOk, WorkersOk, AllTakenOk, QueuesOk, CallsOk, BytesOk, BellsOk;
    InitReachable(c);
    InitHolds(c);
    e := RunsIntoTheWall(c, Init(c), p);
    CalmIsLive(c, e);
  }

  lemma CalmIsLive(c: Config, s: State)
    requires Shape(c, s) && Calm(c, s)
    ensures !s.Stop() && !s.emit.Finished?
  {
  }

  lemma FlooredOrWall(c: Config)
    ensures (forall p :: 0 <= p < |c.parts| ==> Decodable(c, c.Files(p))) ==> (c.Floored() <==> Passable(c))
  {
    if c.Floored() {
      FlooredIsPassable(c);
    } else if forall p :: 0 <= p < |c.parts| ==> Decodable(c, c.Files(p)) {
      var p :| 0 <= p < |c.parts| && |c.parts[p].files| > c.bodyCap;
      assert Wall(c, p);
    }
  }

  // ---------- without the GET hypothesis ----------

  predicate OneFile(c: Config) { |c.parts| == 1 && |c.parts[0].files| == 1 }

  // One file was lost and cancelled the group; the fetcher passes the others over.
  ghost predicate Skipping(c: Config, s: State, p: nat)
    requires c.Valid()
  {
    && Reachable(c, s) && Shape(c, s) && Untouched(c, s) && s.groupDone && s.pool == 0
    && !s.fetch.AcquireWait? && !s.fetch.Submit?
    && p < |s.parts| && s.parts[p].completed < |s.parts[p].tasks|
    && forall q, f :: 0 <= q < |s.parts| && 0 <= f < |s.parts[q].tasks| ==> IdleAt(s.parts[q], f)
  }

  lemma SkipByCancel(c: Config, s: State, p: nat) returns (t: State)
    requires c.Valid() && Skipping(c, s, p) && s.fetch.Acquire? && s.slots < c.bodyCap
    ensures Skipping(c, t, p) && Measure(c, t) < Measure(c, s)
  {
    var u := Advance(c, s, ByFetcher(AcquireSlot));
    t := Advance(c, u, ByFetcher(SubmitSkip));
    hide Reachable, Measure, Init;
    StillIdle(s, t, s.fetch.pi, s.fetch.fi);
  }

  lemma SkipByStop(c: Config, s: State, p: nat) returns (t: State)
    requires c.Valid() && Skipping(c, s, p) && s.fetch.Acquire? && s.slots >= c.bodyCap
    ensures Skipping(c, t, p) && Measure(c, t) < Measure(c, s)
  {
    t := Advance(c, s, ByFetcher(AcquireFull));
    t := Advance(c, t, ByFetcher(AcquireStop));
    hide Reachable, Measure, Init, IdleAt;
  }

  lemma StillIdle(s: State, t: State, pi: nat, fi: nat)
    requires pi < |s.parts| && fi < |s.parts[pi].tasks| && t.parts == SetTask(s.parts, pi, fi, Skipped)
    requires forall q, f :: 0 <= q < |s.parts| && 0 <= f < |s.parts[q].tasks| ==> IdleAt(s.parts[q], f)
    ensures forall q, f :: 0 <= q < |t.parts| && 0 <= f < |t.parts[q].tasks| ==> IdleAt(t.parts[q], f)
  {
    forall q, f | 0 <= q < |t.parts| && 0 <= f < |t.parts[q].tasks| ensures IdleAt(t.parts[q], f) { assert IdleAt(s.parts[q], f); }
  }

  lemma {:induction false} SkipAll(c: Config, s: State, p: nat) returns (t: State)
    requires c.Valid() && Skipping(c, s, p)
    ensures Skipping(c, t, p) && t.fetch.FetchDone?
    decreases Measure(c, s)
  {
    if s.fetch.FetchDone? {
      t := s;
    } else if s.fetch.Drain? {
      t := Advance(c, s, ByFetcher(DrainDone));
    } else {
      if s.slots < c.bodyCap { t := SkipByCancel(c, s, p); } else { t := SkipByStop(c, s, p); }
      hide Skipping, Measure;
      t := SkipAll(c, t, p);
    }
  }

  lemma StartSkipping(c: Config) returns (s: State, p: nat)
    requires c.Valid() && !c.promptGet && !OneFile(c)
    ensures Skipping(c, s, p)
  {
    InitLossy(c);
    s := LoseFile(c, Init(c));
    p := if |c.parts[0].files| == 1 then 1 else 0;
    hide Reachable, Measure;
    forall q, f | 0 <= q < |s.parts| && 0 <= f < |s.parts[q].tasks| ensures IdleAt(s.parts[q], f) {
      assert LostAt(s.parts[q], f, Fetched(s.fetch, q, f));
    }
  }

  // Drifting towards partition p, which will never be done.
  ghost predicate DriftsTo(c: Config, s: State, p: nat)
    requires c.Valid()
  {
    && Inv(c, s) && Reachable(c, s) && Drifting(c, s) && Blocked(c, s, p) && s.received <= p
    && !s.emit.Close? && s.parts[p].completed < |s.parts[p].tasks|
  }

  lemma SkippedDrifts(c: Config, s: State, p: nat)
    requires c.Valid() && Skipping(c, s, p) && s.fetch.FetchDone?
    ensures DriftsTo(c, s, p)
  {
    ReachableHolds(c, s);
    hide Inv, Reachable;
    UntouchedDrifts(c, s);
    ModBelow(p, c.workers);
  }

  lemma DriftStaysBehind(c: Config, s: State, a: Action, t: State, p: nat)
    requires c.Valid() && DriftsTo(c, s, p) && Ordinary(a) && Enabled(c, s, a) && t == Apply(c, s, a) && Reachable(c, t) && Shape(c, t)
    ensures DriftsTo(c, t, p)
  {
    DriftStep(c, s, a, t);
    StaysBefore(c, s, a, p);
    ReachableHolds(c, t);
    BlockedIsBehind(c, t, p);
    StaysOpen(c, s, a, t, p);
  }

  lemma StaysOpen(c: Config, s: State, a: Action, t: State, p: nat)
    requires c.Valid() && Shape(c, s) && Drifting(c, s) && s.received <= p < |c.parts| && !s.emit.Close?
    requires Ordinary(a) && Enabled(c, s, a) && t == Apply(c, s, a)
    ensures !t.emit.Close?
  {
    if a.ByWorker? { assert WorkerShape(c, s.workers[a.w], a.w); }
  }

  lemma {:induction false} DriftsIntoTheWall(c: Config, s: State, p: nat) returns (e: State)
    requires c.Valid() && DriftsTo(c, s, p)
    ensures DriftsTo(c, e, p) && !CanMove(c, e)
    decreases Measure(c, s)
  {
    hide DriftsTo, Inv, Reachable, Measure, Apply;
    DriftsLive(c, s, p);
    if CanMove(c, s) {
      var a :| Ordinary(a) && Enabled(c, s, a);
      e := Advance(c, s, a);
      DriftStaysBehind(c, s, a, e, p);
      e := DriftsIntoTheWall(c, e, p);
    } else {
      e := s;
    }
  }

  lemma DriftsLive(c: Config, s: State, p: nat)
    requires c.Valid() && DriftsTo(c, s, p)
    ensures Reachable(c, s) && Shape(c, s) && !s.Stop() && !s.emit.Finished?
  {
  }

  // ---------- a single file ----------

  // The group is cancelled only by a task that returned.
  ghost predicate GroupOk(s: State)
  {
    s.groupDone ==> exists p, f :: 0 <= p < |s.parts| && 0 <= f < |s.parts[p].tasks| && s.parts[p].tasks[f].Ended?
  }

  lemma GroupStep(c: Config, s: State, a: Action)
    requires Inv(c, s) && Enabled(c, s, a) && GroupOk(s)
    ensures GroupOk(Apply(c, s, a))
  {
    match a
    case ByFetcher(f) => GroupOfFetch(c, s, f);
    case ByTask(pi, fi, t) => GroupOfTask(c, s, pi, fi, t);
    case ByWorker(w, d) => WorkerFrameHolds(c, s, w, d); GroupKept(s, Apply(c, s, a));
    case ByEmit(e) => EmitFrameHolds(c, s, e); GroupKept(s, Apply(c, s, a));
    case ParentCancel =>
  }

  lemma GroupKept(s: State, t: State)
    requires GroupOk(s) && SameTasks(s, t) && t.groupDone == s.groupDone
    ensures GroupOk(t)
  {
  }

  lemma GroupOfFetch(c: Config, s: State, a: FetchAction)
    requires Shape(c, s) && FetchOk(c, s) && FetchEnabled(c, s, a) && GroupOk(s)
    ensures GroupOk(FetchStep(c, s, a))
  {
    var t := FetchStep(c, s, a);
    if s.groupDone {
      var p, f :| 0 <= p < |s.parts| && 0 <= f < |s.parts[p].tasks| && s.parts[p].tasks[f].Ended?;
      if s.fetch.Submit? { assert FromHere(s.fetch, s.fetch.pi, s.fetch.fi); }
      assert t.parts[p].tasks[f].Ended?;
    }
  }

  lemma GroupOfTask(c: Config, s: State, pi: nat, fi: nat, a: TaskAction)
    requires Shape(c, s) && pi < |s.parts| && fi < |s.parts[pi].tasks| && TaskEnabled(c, s, s.parts[pi].tasks[fi], a) && GroupOk(s)
    ensures GroupOk(TaskStep(c, s, pi, fi, a))
  {
    var t := TaskStep(c, s, pi, fi, a);
    if a.ReturnTask? {
      assert t.parts[pi].tasks[fi].Ended?;
    } else if s.groupDone {
      var p, f :| 0 <= p < |s.parts| && 0 <= f < |s.parts[p].tasks| && s.parts[p].tasks[f].Ended?;
      assert t.parts[p].tasks[f].Ended?;
    }
  }

  lemma {:induction false} GroupRun(c: Config, run: seq<State>, i: nat)
    requires c.Valid() && IsRun(c, run) && i < |run|
    ensures GroupOk(run[i])
  {
    if i > 0 {
      GroupRun(c, run, i - 1);
      assert Next(c, run[i - 1], run[i - 1 + 1]);
      var a :| Step(c, run[i - 1], a, run[i]);
      RunKeepsInv(c, run, i - 1);
      hide Inv, GroupOk;
      GroupStep(c, run[i - 1], a);
    }
  }

  // The one file is downloading, or about to.
  lemma OneFileMoves(c: Config, s: State)
    requires OneFile(c) && Inv(c, s) && GroupOk(s) && !s.Stop() && s.emit.Recv? && !s.parts[s.emit.pi].done
    ensures CanMove(c, s)
  {
    if s.pool > 0 {
      BusyPoolMoves(c, s);
    } else {
      hide WorkersOk, AllTakenOk, QueuesOk, CallsOk, BytesOk, BellsOk;
      IdlePoolTasks(s, 0, 0);
      assert PartOk(c, 0, s.parts[0]) && BodyOk(c, 0, 0, s.parts[0].tasks[0], s.parts[0].bodies[0]);
      var ps := s.parts[0];
      assert ps.tasks == [ps.tasks[0]] && ps.bodies == [ps.bodies[0]] && s.parts == [ps];
      if ps.tasks[0].Ended? { AllMarkedIsFull(ps.tasks); assert false; }
      assert !s.groupDone;
      assert ps.tasks[0].Unsubmitted?;
      SumByZero(ps.tasks, HoldsN);
      SumByZero(ps.bodies, LandedN);
      SumByZero(s.parts, PartHeld);
      match s.fetch
      case Acquire(_, _) => Moves(c, s, ByFetcher(AcquireSlot));
      case AcquireWait(_, _) => Moves(c, s, ByFetcher(AcquireSlow));
      case Submit(_, _) => Moves(c, s, ByFetcher(SubmitTask));
      case _ => assert false;
    }
  }

  lemma OneFileNeverStuck(c: Config, s: State)
    requires c.Valid() && OneFile(c) && Reachable(c, s) && !s.emit.Finished?
    ensures CanMove(c, s)
  {
    ReachableHolds(c, s);
    StuckWaits(c, s);
    var run :| IsRun(c, run) && run[|run| - 1] == s;
    GroupRun(c, run, |run| - 1);
    if s.emit.Recv? && !s.Stop() && !s.parts[s.emit.pi].done { OneFileMoves(c, s); }
  }
}

/** No deadlock, while every partition that the read gets to fits the body slots. */
module ReadLiveness {
  import opened Dedup
  import opened Prepare
  import opened ReadPipeline
  import opened Counting
  import opened ReadInvariant
  import opened ReadSteps
  import opened ReadFlow
  import opened ReadEmit
  import opened ReadTheorems
  import opened ReadProgress

  // ---------- partitions that do not fit ----------

  predicate Oversized(c: Config, p: nat)
  {
    p < |c.parts| && |c.Files(p)| > c.bodyCap
  }

  predicate DecodableBefore(c: Config, p: nat)
  {
    forall q :: 0 <= q < p && q < |c.parts| ==> Decodable(c, c.Files(q))
  }

  // The read gets to partition p, and cannot hold it.
  predicate Wall(c: Config, p: nat) { Oversized(c, p) && DecodableBefore(c, p) }

  // Every partition too large for the body slots lies behind one that does not decode.
  predicate Passable(c: Config) { forall p :: 0 <= p < |c.parts| ==> !Wall(c, p) }

  lemma FlooredIsPassable(c: Config)
    requires c.Floored()
    ensures Passable(c)
  {
  }

  // What the emit loop has passed decodes.
  lemma ReceivedDecodes(c: Config, s: State)
    requires Shape(c, s) && CallsOk(c, s) && c.promptGet && s.emit.Recv?
    ensures DecodableBefore(c, s.emit.pi)
  {
    forall q | 0 <= q < s.emit.pi ensures Decodable(c, c.Files(q)) { assert Good(c, s.calls[q].batch); }
  }

  // ---------- what can move ----------

  // Actions that are not an outside event: no failing GET, no cancellation, no break.
  predicate Ordinary(a: Action)
  {
    match a
    case ByTask(_, _, t) => !t.GetHard? && !t.GetCtx?
    case ByEmit(ConsumerReturns(ok)) => ok
    case ParentCancel => false
    case _ => true
  }

  ghost predicate CanMove(c: Config, s: State)
    requires c.workers >= 1
  {
    exists a :: Ordinary(a) && Enabled(c, s, a)
  }

  lemma Moves(c: Config, s: State, a: Action)
    requires c.workers >= 1 && Ordinary(a) && Enabled(c, s, a)
    ensures CanMove(c, s)
  {
  }

  // ---------- tasks never block ----------

  lemma TaskMoves(c: Config, s: State, p: nat, f: nat)
    requires c.Valid() && Shape(c, s) && SlotsOk(c, s) && p < |s.parts| && f < |s.parts[p].tasks|
    requires InPoolN(s.parts[p].tasks[f]) == 1
    ensures CanMove(c, s)
  {
    TaskCounted(s, p, f);
    var t := s.parts[p].tasks[f];
    var a := match t
      case Getting => GetOk
      case FailRelease(_) => ReleaseSlot
      case FailRecord => RecordErr
      case FailMark => MarkFailed
      case Closing(_) => CloseDone
      case _ => ReturnTask;
    Moves(c, s, ByTask(p, f, a));
  }

  lemma BusyPoolMoves(c: Config, s: State)
    requires c.Valid() && Shape(c, s) && SlotsOk(c, s) && s.pool > 0
    ensures CanMove(c, s)
  {
    var p := PositiveSumHasOne(s.parts, PartPool);
    var f := PositiveSumHasOne(s.parts[p].tasks, InPoolN);
    TaskMoves(c, s, p, f);
  }

  lemma IdlePoolTasks(s: State, p: nat, f: nat)
    requires SumBy(s.parts, PartPool) == 0 && p < |s.parts| && f < |s.parts[p].tasks|
    ensures InPoolN(s.parts[p].tasks[f]) == 0
  {
    SumByAtLeast(s.parts, p, PartPool);
    SumByAtLeast(s.parts[p].tasks, f, InPoolN);
  }

  // A slot given back is one that is held: the blocking receive never waits.
  lemma SlotIsThere(c: Config, s: State, w: nat)
    requires Shape(c, s) && SlotsOk(c, s) && w < |s.workers| && GivesUpSlot(s, s.workers[w])
    ensures s.slots > 0
  {
    var x := s.workers[w];
    SumByAtLeast(s.parts[x.at].bodies, x.pc.fi, LandedN);
    SumByAtLeast(s.parts, x.at, PartHeld);
  }

  // ---------- after the context is cancelled everyone can leave ----------

  lemma StoppedWorkerMoves(c: Config, s: State, w: nat)
    requires c.Valid() && Shape(c, s) && SlotsOk(c, s) && s.Stop() && w < |s.workers| && !s.workers[w].pc.Stopped?
    ensures CanMove(c, s)
  {
    if GivesUpSlot(s, s.workers[w]) { SlotIsThere(c, s, w); }
    var a := match s.workers[w].pc
      case Wait => Wake case Check => CheckCause case Reserve => TryReserve case Park => ParkStop
      case Decode(_, _) => DecodeNext case Send(_) => SendTry case SendWait(_) => SendDrop
      case Abort(_) => AbortRelease case Fail => RecordFail case Stopped => Wake;
    Moves(c, s, ByWorker(w, a));
  }

  lemma StoppedFetcherMoves(c: Config, s: State)
    requires c.Valid() && Shape(c, s) && SlotsOk(c, s) && s.Stop() && !s.fetch.FetchDone?
    ensures CanMove(c, s)
  {
    if s.fetch.Drain? && s.pool > 0 {
      BusyPoolMoves(c, s);
    } else {
      var a := match s.fetch
        case Acquire(_, _) => if s.slots < c.bodyCap then AcquireSlot else AcquireFull
        case AcquireWait(_, _) => AcquireStop
        case Submit(_, _) => SubmitSkip
        case _ => DrainDone;
      Moves(c, s, ByFetcher(a));
    }
  }

  // ---------- the heart: the emit loop waits on a live pipeline ----------

  lemma {:induction false} ChainAhead(q: seq<Batch>, next: nat, at: nat, step: nat)
    requires Chain(q, next, at, step)
    ensures at >= next
  {
    if |q| > 0 { ChainAhead(q[1..], next + step, at, step); }
  }

  // A partition whose batch the emit loop already took is downloaded and decoded.
  lemma ReceivedIsDone(c: Config, s: State, p: nat)
    requires c.Valid() && Shape(c, s) && QueuesOk(c, s) && AllTakenOk(c, s) && p < s.received && p < |s.parts|
    ensures s.parts[p].done && forall f :: 0 <= f < |s.parts[p].bodies| ==> !s.parts[p].bodies[f].Landed?
  {
    var w := WorkerOf(c, p);
    var x := s.workers[w];
    assert Chain(x.queue, x.next, x.at, c.workers);
    ChainAhead(x.queue, x.next, x.at, c.workers);
    assert TakenOk(c, s.parts[p], p, x);
  }

  lemma QuietPartHolds(c: Config, s: State, p: nat, k: nat)
    requires c.Valid() && Shape(c, s) && PartsOk(c, s) && p < |s.parts| && k <= |s.parts[p].tasks|
    requires forall f :: 0 <= f < |s.parts[p].tasks| ==> HoldsN(s.parts[p].tasks[f]) == 0
    requires forall f :: k <= f < |s.parts[p].tasks| ==> !s.parts[p].bodies[f].Landed?
    ensures PartHeld(s.parts[p]) <= k
  {
    assert PartOk(c, p, s.parts[p]);
    SumByZero(s.parts[p].tasks, HoldsN);
    SumByPrefixBound(s.parts[p].bodies, k, LandedN);
  }

  // With no task running and a live context, a task is either unsubmitted or has
  // delivered its body.
  lemma IdleTask(c: Config, s: State, p: nat, f: nat)
    requires c.Valid() && Shape(c, s) && PartsOk(c, s) && FetchOk(c, s) && CauseOk(c, s) && SlotsOk(c, s) && c.promptGet
    requires !s.Stop() && s.pool == 0 && p < |s.parts| && f < |s.parts[p].tasks|
    ensures s.parts[p].tasks[f].Unsubmitted? || s.parts[p].tasks[f] == Ended(false)
    ensures HoldsN(s.parts[p].tasks[f]) == 0
    ensures s.parts[p].tasks[f].Unsubmitted? ==> !s.parts[p].bodies[f].Landed?
  {
    IdlePoolTasks(s, p, f);
    assert !FailureRecorded(s.parts[p].tasks[f]);
    assert PartOk(c, p, s.parts[p]);
    assert BodyOk(c, p, f, s.parts[p].tasks[f], s.parts[p].bodies[f]);
  }

  // An open partition with no task running still has a file to submit.
  lemma OpenPartHasUnsubmitted(c: Config, s: State, p: nat) returns (f: nat)
    requires c.Valid() && Shape(c, s) && PartsOk(c, s) && FetchOk(c, s) && CauseOk(c, s) && SlotsOk(c, s) && c.promptGet
    requires !s.Stop() && s.pool == 0 && p < |s.parts| && !s.parts[p].done
    ensures f < |s.parts[p].tasks| && s.parts[p].tasks[f].Unsubmitted?
  {
    var ps := s.parts[p];
    assert PartOk(c, p, ps);
    forall g | 0 <= g < |ps.tasks| ensures ps.tasks[g].Unsubmitted? || ps.tasks[g] == Ended(false) {
      IdleTask(c, s, p, g);
    }
    if g :| 0 <= g < |ps.tasks| && ps.tasks[g].Unsubmitted? {
      f := g;
    } else {
      AllMarkedIsFull(ps.tasks);
      assert false;
    }
  }

  lemma {:induction false} AllMarkedIsFull(tasks: seq<Task>)
    requires forall f :: 0 <= f < |tasks| ==> Marked(tasks[f])
    ensures SumBy(tasks, MarkedN) == |tasks|
  {
    if |tasks| > 0 { AllMarkedIsFull(tasks[..|tasks| - 1]); }
  }

  // The fetcher parked on a full slot channel, while the emit loop waits for the very
  // partition being fetched: the slots held are files of this one partition.
  lemma ParkedFetcherHasSlot(c: Config, s: State)
    requires Inv(c, s) && c.promptGet && Passable(c)
    requires !s.Stop() && s.pool == 0 && s.emit.Recv? && s.fetch.AcquireWait? && s.fetch.pi == s.emit.pi
    ensures s.slots < c.bodyCap
  {
    var p, k := s.fetch.pi, s.fetch.fi;
    forall q | 0 <= q < |s.parts| && q != p ensures PartHeld(s.parts[q]) == 0 {
      forall f | 0 <= f < |s.parts[q].tasks|
        ensures HoldsN(s.parts[q].tasks[f]) == 0 && !s.parts[q].bodies[f].Landed?
      {
        IdleTask(c, s, q, f);
        if q < p { ReceivedIsDone(c, s, q); } else { assert FromHere(s.fetch, q, f); }
      }
      QuietPartHolds(c, s, q, 0);
    }
    SumByOnly(s.parts, p, PartHeld);
    forall f | 0 <= f < |s.parts[p].tasks|
      ensures HoldsN(s.parts[p].tasks[f]) == 0 && (f >= k ==> !s.parts[p].bodies[f].Landed?)
    {
      IdleTask(c, s, p, f);
      if f >= k { assert FromHere(s.fetch, p, f); }
    }
    QuietPartHolds(c, s, p, k);
    ReceivedDecodes(c, s);
    assert !Wall(c, p);
  }

  lemma FetchSideMoves(c: Config, s: State)
    requires Inv(c, s) && c.promptGet && Passable(c)
    requires !s.Stop() && s.emit.Recv? && !s.parts[s.emit.pi].done
    ensures CanMove(c, s)
  {
    if s.pool > 0 {
      BusyPoolMoves(c, s);
      return;
    }
    var p := s.emit.pi;
    var f := OpenPartHasUnsubmitted(c, s, p);
    assert !s.fetch.Drain? && !s.fetch.FetchDone?;
    if s.fetch.Submit? {
      Moves(c, s, ByFetcher(SubmitTask));
    } else if s.fetch.Acquire? {
      Moves(c, s, ByFetcher(if s.slots < c.bodyCap then AcquireSlot else AcquireFull));
    } else {
      assert !Before(s.fetch, p, f);
      if s.fetch.pi < p {
        ReceivedIsDone(c, s, s.fetch.pi);
        assert PartOk(c, s.fetch.pi, s.parts[s.fetch.pi]);
        DoneHasNoGetting(c, s.fetch.pi, s.parts[s.fetch.pi], s.fetch.fi);
        assert FromHere(s.fetch, s.fetch.pi, s.fetch.fi);
        assert false;
      }
      ParkedFetcherHasSlot(c, s);
      Moves(c, s, ByFetcher(AcquireSlow));
    }
  }

  lemma AwaitedWorkerMoves(c: Config, s: State, w: nat)
    requires Inv(c, s) && !s.Stop() && s.emit.Recv? && w == WorkerOf(c, s.emit.pi) && |s.workers[w].queue| == 0
    ensures CanMove(c, s) || !s.parts[s.emit.pi].done
  {
    var x := s.workers[w];
    RendezvousMeets(c, s, w);
    assert WorkerOk(c, s, x);
    if GivesUpSlot(s, x) { SlotIsThere(c, s, w); }
    match x.pc
    case Stopped => assert false;
    case Wait =>
      if s.parts[x.at].done { Moves(c, s, ByWorker(w, Wake)); }
    case Park =>
      EmptyBudgetRings(c, s, w);
      Moves(c, s, ByWorker(w, ParkWake));
    case Check => Moves(c, s, ByWorker(w, CheckCause));
    case Reserve => Moves(c, s, ByWorker(w, TryReserve));
    case Decode(_, _) => Moves(c, s, ByWorker(w, DecodeNext));
    case Send(_) => Moves(c, s, ByWorker(w, SendTry));
    case SendWait(_) => Moves(c, s, ByWorker(w, SendSlow));
    case Abort(_) => Moves(c, s, ByWorker(w, AbortRelease));
    case Fail => Moves(c, s, ByWorker(w, RecordFail));
  }

  // Parked with nothing held: the predicate holds, so the bell was rung.
  lemma EmptyBudgetRings(c: Config, s: State, w: nat)
    requires c.Valid() && Shape(c, s) && BytesOk(c, s) && BellsOk(c, s) && w < |s.workers|
    requires s.emit.Recv? && |s.workers[w].queue| == 0 && s.workers[w].pc.Park?
    ensures s.workers[w].bell
  {
    HeldIs(c, s, w);
    assert HeldUnits(c, s, w) == [];
    BytesFromEach(c, s);
    assert BytesAt(c, s, w);
    assert Fits(s.workers[w].buffered, Unit(c, s.workers[w].at), c.byteCap);
  }

  // Whoever is stuck waits for a partition that is not downloaded.
  lemma StuckWaits(c: Config, s: State)
    requires Inv(c, s) && !s.emit.Finished?
    ensures CanMove(c, s) || (s.emit.Recv? && !s.Stop() && !s.parts[s.emit.pi].done)
  {
    match s.emit
    case Recv(pi) =>
      var w := WorkerOf(c, pi);
      if s.Stop() { Moves(c, s, ByEmit(ReceiveStop)); }
      else if |s.workers[w].queue| > 0 { Moves(c, s, ByEmit(Receive)); }
      else { AwaitedWorkerMoves(c, s, w); }
    case Deliver(_) => Moves(c, s, ByEmit(ConsumerReturns(true)));
    case Unreserve(_, _) => Moves(c, s, ByEmit(ReleaseBytes));
    case Ring(_, _) => Moves(c, s, ByEmit(RingBell));
    case Close => Moves(c, s, ByEmit(CancelAll));
    case Join =>
      if w :| 0 <= w < |s.workers| && !s.workers[w].pc.Stopped? { StoppedWorkerMoves(c, s, w); }
      else if !s.fetch.FetchDone? { StoppedFetcherMoves(c, s); }
      else { Moves(c, s, ByEmit(AwaitAll)); }
    case Finished =>
  }

  /** No deadlock: whatever happened before, some actor can take an ordinary step. */
  lemma NeverStuck(c: Config, s: State)
    requires c.Valid() && Reachable(c, s) && c.promptGet && Passable(c) && !s.emit.Finished?
    ensures CanMove(c, s)
  {
    ReachableHolds(c, s);
    StuckWaits(c, s);
    if s.emit.Recv? && !s.Stop() && !s.parts[s.emit.pi].done { FetchSideMoves(c, s); }
  }

  // ---------- slots come back ----------

  lemma {:induction false} FullMeansMarked(tasks: seq<Task>, f: nat)
    requires SumBy(tasks, MarkedN) == |tasks| && f < |tasks|
    ensures Marked(tasks[f])
  {
    SumByBound(tasks, MarkedN);
    assert MarkedN(tasks[f]) == 1;
  }

  lemma ReceivedHoldsNothing(c: Config, s: State, p: nat)
    requires c.Valid() && Shape(c, s) && PartsOk(c, s) && QueuesOk(c, s) && AllTakenOk(c, s) && p < s.received && p < |s.parts|
    ensures PartHeld(s.parts[p]) == 0
    ensures forall f :: 0 <= f < |s.parts[p].tasks| ==> !s.parts[p].tasks[f].Unsubmitted?
  {
    ReceivedIsDone(c, s, p);
    var ps := s.parts[p];
    assert PartOk(c, p, ps);
    forall f | 0 <= f < |ps.tasks| ensures Marked(ps.tasks[f]) { FullMeansMarked(ps.tasks, f); }
    SumByZero(ps.tasks, HoldsN);
    SumByZero(ps.bodies, LandedN);
  }

  /** No slot is given back twice: whoever is about to give one back, by a receive that would
      block on an empty channel, finds at least his own in it, and never waits. */
  lemma ReleaseNeverWaits(c: Config, s: State)
    requires c.Valid() && Reachable(c, s)
    ensures forall p, f :: 0 <= p < |s.parts| && 0 <= f < |s.parts[p].tasks| && s.parts[p].tasks[f].FailRelease? ==> s.slots > 0
    ensures forall w :: 0 <= w < |s.workers| && GivesUpSlot(s, s.workers[w]) ==> s.slots > 0
  {
    ReachableHolds(c, s);
    hide PartsOk, FetchOk, CauseOk, WorkersOk, AllTakenOk, QueuesOk, CallsOk, BytesOk, BellsOk;
    forall p, f | 0 <= p < |s.parts| && 0 <= f < |s.parts[p].tasks| && s.parts[p].tasks[f].FailRelease? ensures s.slots > 0 {
      SumByAtLeast(s.parts[p].tasks, f, HoldsN);
      SumByAtLeast(s.parts, p, PartHeld);
    }
    forall w | 0 <= w < |s.workers| && GivesUpSlot(s, s.workers[w]) ensures s.slots > 0 { SlotIsThere(c, s, w); }
  }

  /** Every body slot comes back: when all partitions have been handed over, none is held. */
  lemma EverySlotReturns(c: Config, s: State)
    requires c.Valid() && Reachable(c, s) && s.received == |c.parts|
    ensures s.slots == 0
  {
    ReachableHolds(c, s);
    forall p | 0 <= p < |s.parts| ensures PartHeld(s.parts[p]) == 0 { ReceivedHoldsNothing(c, s, p); }
    SumByZero(s.parts, PartHeld);
    if s.fetch.Submit? {
      SubmitsUnsubmitted(c, s);
      ReceivedHoldsNothing(c, s, s.fetch.pi);
      assert false;
    }
  }

  lemma SubmitsUnsubmitted(c: Config, s: State)
    requires Shape(c, s) && FetchOk(c, s) && s.fetch.Submit?
    ensures s.parts[s.fetch.pi].tasks[s.fetch.fi].Unsubmitted?
  {
    assert FromHere(s.fetch, s.fetch.pi, s.fetch.fi);
  }
}

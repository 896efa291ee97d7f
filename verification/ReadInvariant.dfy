/** What every step of the read pipeline keeps. */
module ReadInvariant {
  import opened Wrappers
  import opened Counting
  import opened Dedup
  import opened Prepare
  import opened ReadPipeline

  // ---------- per partition: completion and bodies ----------

  predicate Marked(t: Task) { t.Closing? || t.Returning? || t.Ended? }

  predicate MarkedOk(t: Task) { Marked(t) && !t.failed }

  function MarkedN(t: Task): nat { if Marked(t) then 1 else 0 }

  function HoldsN(t: Task): nat { if t.Getting? || t.FailRelease? || t.Skipped? then 1 else 0 }

  function InPoolN(t: Task): nat { if t.Unsubmitted? || t.Skipped? || t.Ended? then 0 else 1 }

  function LandedN(b: BodySlot): nat { if b.Landed? then 1 else 0 }

  function PartHeld(ps: PartState): nat { SumBy(ps.tasks, HoldsN) + SumBy(ps.bodies, LandedN) }

  function PartPool(ps: PartState): nat { SumBy(ps.tasks, InPoolN) }

  ghost predicate PartOk(c: Config, p: nat, ps: PartState)
    requires p < |c.parts|
  {
    && |ps.tasks| == |ps.bodies| == |c.Files(p)|
    && ps.completed == SumBy(ps.tasks, MarkedN)
    && (ps.done ==> ps.completed == |ps.tasks|)
    // `done` is closed once: the one task about to close it exists exactly when the
    // count is full and the channel still open.
    && (forall f :: 0 <= f < |ps.tasks| && ps.tasks[f].Closing? ==> ps.completed == |ps.tasks| && !ps.done)
    && (forall f, g :: 0 <= f < |ps.tasks| && 0 <= g < |ps.tasks| && ps.tasks[f].Closing? && ps.tasks[g].Closing? ==> f == g)
    && (ps.completed == |ps.tasks| && !ps.done ==> exists f :: 0 <= f < |ps.tasks| && ps.tasks[f].Closing?)
    && (forall f :: 0 <= f < |ps.tasks| ==> BodyOk(c, p, f, ps.tasks[f], ps.bodies[f]))
  }

  ghost predicate BodyOk(c: Config, p: nat, f: nat, t: Task, b: BodySlot)
    requires p < |c.parts| && f < |c.Files(p)|
  {
    && (b.Empty? <==> !MarkedOk(t))
    && (b.Landed? ==> b.body == c.content(c.Files(p)[f].s3Key))
  }

  ghost predicate PartsOk(c: Config, s: State)
    requires Shape(c, s)
  {
    forall p :: 0 <= p < |s.parts| ==> PartOk(c, p, s.parts[p])
  }

  // ---------- the fetcher ----------

  predicate Before(fetch: Fetch, p: nat, f: nat)
  {
    match fetch
    case Drain => false
    case FetchDone => false
    case _ => p < fetch.pi || (p == fetch.pi && f < fetch.fi)
  }

  predicate FromHere(fetch: Fetch, p: nat, f: nat)
  {
    match fetch
    case Drain => false
    case FetchDone => false
    case _ => p > fetch.pi || (p == fetch.pi && f >= fetch.fi)
  }

  ghost predicate FetchOk(c: Config, s: State)
    requires Shape(c, s)
  {
    && (forall p, f :: 0 <= p < |s.parts| && 0 <= f < |s.parts[p].tasks| ==>
          (Before(s.fetch, p, f) ==> !s.parts[p].tasks[f].Unsubmitted?) &&
          (FromHere(s.fetch, p, f) ==> s.parts[p].tasks[f].Unsubmitted?) &&
          ((s.fetch.Drain? || s.fetch.FetchDone?) && s.parts[p].tasks[f].Unsubmitted? ==> s.GroupStop()) &&
          (s.parts[p].tasks[f].Skipped? ==> s.GroupStop()))
    && (s.fetch.FetchDone? ==> s.pool == 0)
  }

  // ---------- every failure has recorded its cause ----------

  predicate FailureRecorded(t: Task)
  {
    t.Skipped? || t.FailMark? || (t.FailRelease? && !t.hard) || (Marked(t) && t.failed)
  }

  ghost predicate CauseOk(c: Config, s: State)
    requires Shape(c, s)
  {
    && (c.promptGet && s.groupDone ==> s.Stop())
    && (c.promptGet && !s.Stop() ==>
          forall p, f :: 0 <= p < |s.parts| && 0 <= f < |s.parts[p].tasks| ==> !FailureRecorded(s.parts[p].tasks[f]))
    && (s.emit.Join? || s.emit.Finished? ==> s.Stop())
    && CauseTrue(c, s)
  }

  // A recorded decode failure is a partition that does not decode, and the internal
  // shutdown cause appears only once the emit loop has ended.
  ghost predicate CauseTrue(c: Config, s: State)
  {
    match s.cause
    case Some(DecodeFailed(p)) => c.promptGet ==> p < |c.parts| && !Decodable(c, c.Files(p))
    case Some(Closed) => s.emit.Join? || s.emit.Finished?
    case _ => true
  }

  // ---------- slots and pool ----------

  ghost predicate SlotsOk(c: Config, s: State)
  {
    && s.slots == SumBy(s.parts, PartHeld) + (if s.fetch.Submit? then 1 else 0)
    && s.slots <= c.bodyCap
    && s.pool == SumBy(s.parts, PartPool)
    && s.pool <= c.poolCap
  }

  // ---------- decode workers ----------

  predicate PastCheck(pc: WorkerPc) { pc.Reserve? || pc.Park? || pc.Decode? || pc.Send? || pc.SendWait? }

  predicate Undecoded(pc: WorkerPc) { pc.Wait? || pc.Check? || pc.Reserve? || pc.Park? }

  predicate AllFetched(ps: PartState)
  {
    forall f :: 0 <= f < |ps.tasks| ==> MarkedOk(ps.tasks[f])
  }

  ghost predicate WorkerOk(c: Config, s: State, x: Worker)
    requires Shape(c, s)
  {
    && (x.pc.Stopped? && x.at < |c.parts| ==> s.Stop())
    && (x.pc.Abort? && !x.pc.err ==> s.Stop())
    && (x.pc.Check? && x.at < |c.parts| ==> s.Stop() || s.parts[x.at].done)
    && ((x.pc.Abort? || x.pc.Fail?) && x.at < |c.parts| ==> s.parts[x.at].done)
    && (PastCheck(x.pc) && x.at < |c.parts| ==> s.parts[x.at].done && (c.promptGet ==> AllFetched(s.parts[x.at])))
    && (c.promptGet ==> ProgressOk(c, x))
  }

  ghost predicate ProgressOk(c: Config, x: Worker)
  {
    x.at < |c.parts| ==>
    match x.pc
    case Decode(fi, recs) =>
      fi <= |c.Files(x.at)| && Decodable(c, c.Files(x.at)[..fi]) && recs == AllRecs(c, c.Files(x.at)[..fi])
    case Send(recs) => IsResult(c, x.at, recs)
    case SendWait(recs) => IsResult(c, x.at, recs)
    case Abort(err) => err ==> !Decodable(c, c.Files(x.at))
    case Fail => !Decodable(c, c.Files(x.at))
    case _ => true
  }

  predicate IsResult(c: Config, p: nat, recs: seq<Rec>)
    requires p < |c.parts|
  {
    Decodable(c, c.Files(p)) && recs == SortAndDedup(AllRecs(c, c.Files(p)), c.mode)
  }

  ghost predicate WorkersOk(c: Config, s: State)
    requires Shape(c, s)
  {
    forall w :: 0 <= w < |s.workers| ==> WorkerOk(c, s, s.workers[w])
  }

  // Which bodies of partition p its worker has already taken.
  ghost predicate TakenOk(c: Config, ps: PartState, p: nat, x: Worker)
  {
    && (p < x.at ==> ps.done && forall f :: 0 <= f < |ps.bodies| ==> !ps.bodies[f].Landed?)
    && (p > x.at || (p == x.at && Undecoded(x.pc)) ==> forall f :: 0 <= f < |ps.bodies| ==> !ps.bodies[f].Taken?)
    && (p == x.at && x.pc.Decode? ==>
          forall f :: 0 <= f < |ps.bodies| ==> if f < x.pc.fi then !ps.bodies[f].Landed? else !ps.bodies[f].Taken?)
    && (p == x.at && (x.pc.Send? || x.pc.SendWait?) ==> forall f :: 0 <= f < |ps.bodies| ==> !ps.bodies[f].Landed?)
  }

  ghost predicate AllTakenOk(c: Config, s: State)
    requires Shape(c, s) && c.workers >= 1
  {
    forall p :: 0 <= p < |s.parts| ==> TakenOk(c, s.parts[p], p, s.workers[WorkerOf(c, p)])
  }

  // ---------- queues and emission ----------

  // The queue holds consecutive results of this worker, from `next` up to `at`.
  ghost predicate Chain(q: seq<Batch>, next: nat, at: nat, step: nat)
  {
    if |q| == 0 then next == at else q[0].index == next && Chain(q[1..], next + step, at, step)
  }

  ghost predicate Good(c: Config, b: Batch)
  {
    b.index < |c.parts| && (c.promptGet ==> Decodable(c, c.Files(b.index)) && b == PartitionResult(c, b.index))
  }

  ghost predicate QueuesOk(c: Config, s: State)
  {
    && (forall w :: 0 <= w < |s.workers| ==>
          Chain(s.workers[w].queue, s.workers[w].next, s.workers[w].at, c.workers) &&
          s.received <= s.workers[w].next < s.received + c.workers &&
          (c.queueCap == 0 ==> |s.workers[w].queue| == 0))
    && (forall w, i :: 0 <= w < |s.workers| && 0 <= i < |s.workers[w].queue| ==> Good(c, s.workers[w].queue[i]))
  }

  ghost predicate AllYielded(c: Config, calls: seq<Call>)
  {
    forall i :: 0 <= i < |calls| ==> calls[i].Yielded? && calls[i].ok && calls[i].batch.index == i && Good(c, calls[i].batch)
  }

  // Success calls in order, then at most one final call that ends the iteration.
  ghost predicate CallsOk(c: Config, s: State)
  {
    match s.emit
    case Recv(pi) => |s.calls| == pi && AllYielded(c, s.calls)
    case Deliver(b) => Good(c, b) && |s.calls| == b.index && AllYielded(c, s.calls)
    case Unreserve(i, ok) => LastYield(c, s.calls, i, ok)
    case Ring(i, ok) => LastYield(c, s.calls, i, ok)
    case _ => Over(c, s)
  }

  ghost predicate LastYield(c: Config, calls: seq<Call>, i: nat, ok: bool)
  {
    && i < |c.parts| && |calls| == i + 1 && AllYielded(c, calls[..i])
    && calls[i].Yielded? && calls[i].ok == ok && calls[i].batch.index == i && Good(c, calls[i].batch)
  }

  ghost predicate Over(c: Config, s: State)
  {
    && |s.calls| > 0 && AllYielded(c, s.calls[..|s.calls| - 1])
    && match s.calls[|s.calls| - 1]
       case Errored(cause) => s.cause == Some(cause) && |s.calls| <= |c.parts|
       case Yielded(b, ok) => LastYield(c, s.calls, |s.calls| - 1, ok) && (ok ==> |s.calls| == |c.parts|)
  }

  // ---------- byte budget ----------

  function QueueUnits(c: Config, q: seq<Batch>): seq<nat>
    requires forall i :: 0 <= i < |q| ==> q[i].index < |c.parts|
  {
    seq(|q|, i requires 0 <= i < |q| => Unit(c, q[i].index))
  }

  // Reserved and not yet released by worker w, oldest first: the batch the emit loop
  // is handing over, the queue, the partition being decoded or sent.
  function HeldUnits(c: Config, s: State, w: nat): seq<nat>
    requires c.workers >= 1 && Shape(c, s) && w < |s.workers|
  {
    var x := s.workers[w];
    EmitUnits(c, s, w) + QueueUnits(c, x.queue) +
    (if x.pc.Decode? || x.pc.Send? || x.pc.SendWait? || x.pc.Abort? then [Unit(c, x.at)] else [])
  }

  function EmitUnits(c: Config, s: State, w: nat): seq<nat>
    requires c.workers >= 1 && Shape(c, s)
  {
    if s.emit.Deliver? && WorkerOf(c, s.emit.batch.index) == w then [Unit(c, s.emit.batch.index)]
    else if s.emit.Unreserve? && WorkerOf(c, s.emit.index) == w then [Unit(c, s.emit.index)]
    else []
  }

  ghost predicate BytesOk(c: Config, s: State)
    requires c.workers >= 1 && Shape(c, s)
  {
    c.byteCap > 0 ==> forall w :: 0 <= w < |s.workers| ==>
      var h := HeldUnits(c, s, w);
      && s.workers[w].buffered == SumBy(h, Id)
      && (SumBy(h, Id) <= c.byteCap || SumBy(h, PositiveN) == 1)
  }

  // No lost wake-up: a parked worker whose predicate holds has a token in its bell, or
  // the emit loop is between the decrement and the ring.
  ghost predicate BellsOk(c: Config, s: State)
    requires c.workers >= 1 && Shape(c, s)
  {
    forall w :: 0 <= w < |s.workers| && s.workers[w].pc.Park? ==>
      && c.byteCap > 0 && Unit(c, s.workers[w].at) > 0
      && (s.workers[w].bell || !Fits(s.workers[w].buffered, Unit(c, s.workers[w].at), c.byteCap) ||
          (s.emit.Ring? && WorkerOf(c, s.emit.index) == w))
  }

  ghost predicate Inv(c: Config, s: State)
  {
    && c.Valid() && Shape(c, s)
    && PartsOk(c, s) && FetchOk(c, s) && CauseOk(c, s) && SlotsOk(c, s)
    && WorkersOk(c, s) && AllTakenOk(c, s) && QueuesOk(c, s) && CallsOk(c, s)
    && BytesOk(c, s) && BellsOk(c, s)
  }
}

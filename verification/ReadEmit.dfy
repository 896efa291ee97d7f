/** Preservation of the read pipeline's invariants, continued: what flows from the workers to
    the emit loop.

    Queues hold the results of consecutive partitions of their worker, so what is received
    comes in partition order. The byte budget is the sum of the units held by the worker, by
    its queue and by the emit loop. A parked worker that would be admitted always has a token
    in its bell. */
module ReadEmit {
  import opened Dedup
  import opened Prepare
  import opened ReadPipeline
  import opened Counting
  import opened ReadInvariant
  import opened ReadSteps

  // ---------- queues ----------

  lemma QueuesOfSame(c: Config, s: State, s': State)
    requires QueuesOk(c, s) && s'.received == s.received && |s'.workers| == |s.workers|
    requires forall w :: 0 <= w < |s.workers| ==>
      s'.workers[w].queue == s.workers[w].queue && s'.workers[w].next == s.workers[w].next && s'.workers[w].at == s.workers[w].at
    ensures QueuesOk(c, s')
  {
    forall w | 0 <= w < |s'.workers| ensures Chain(s'.workers[w].queue, s'.workers[w].next, s'.workers[w].at, c.workers) {
      assert s'.workers[w].queue == s.workers[w].queue;
    }
  }

  lemma {:induction false} ChainPush(q: seq<Batch>, next: nat, at: nat, step: nat, b: Batch)
    requires Chain(q, next, at, step) && b.index == at
    ensures Chain(q + [b], next, at + step, step)
  {
    if |q| == 0 {
      assert (q + [b])[1..] == [];
    } else {
      ChainPush(q[1..], next + step, at, step, b);
      assert (q + [b])[1..] == q[1..] + [b];
    }
  }

  lemma BatchIsGood(c: Config, x: Worker, recs: seq<Rec>)
    requires x.at < |c.parts| && (x.pc == Send(recs) || x.pc == SendWait(recs)) && (c.promptGet ==> ProgressOk(c, x))
    ensures Good(c, MakeBatch(c, x.at, recs))
  {
  }

  // Counting one more received batch keeps every other worker's window.
  lemma WindowMoves(c: Config, s: State, w: nat, v: nat)
    requires c.Valid() && Shape(c, s) && QueuesOk(c, s) && w < |s.workers| && v < |s.workers| && v != w
    requires s.emit.Recv? && WorkerOf(c, s.emit.pi) == w
    ensures s.received + 1 <= s.workers[v].next < s.received + 1 + c.workers
  {
    assert WorkerShape(c, s.workers[v], v);
    assert s.received <= s.workers[v].next < s.received + c.workers;
  }

  lemma QueuesOfEnqueue(c: Config, s: State, w: nat, b: Batch)
    requires c.Valid() && Shape(c, s) && QueuesOk(c, s) && w < |s.workers| && HasSpace(c, s, w)
    requires b.index == s.workers[w].at < |c.parts| && Good(c, b)
    ensures QueuesOk(c, Enqueue(c, s, w, b))
  {
    if c.queueCap > 0 { QueuesOfBuffered(c, s, w, b); } else { QueuesOfRendezvous(c, s, w, b); }
  }

  lemma QueuesOfBuffered(c: Config, s: State, w: nat, b: Batch)
    requires c.Valid() && Shape(c, s) && QueuesOk(c, s) && w < |s.workers| && HasSpace(c, s, w)
    requires b.index == s.workers[w].at < |c.parts| && Good(c, b) && c.queueCap > 0
    ensures QueuesOk(c, Enqueue(c, s, w, b))
  {
    var x, s' := s.workers[w], Enqueue(c, s, w, b);
    assert Chain(x.queue, x.next, x.at, c.workers);
    ChainPush(x.queue, x.next, x.at, c.workers, b);
    forall v, i | 0 <= v < |s'.workers| && 0 <= i < |s'.workers[v].queue| ensures Good(c, s'.workers[v].queue[i]) {
      if v != w { assert s'.workers[v] == s.workers[v]; }
    }
  }

  lemma QueuesOfRendezvous(c: Config, s: State, w: nat, b: Batch)
    requires c.Valid() && Shape(c, s) && QueuesOk(c, s) && w < |s.workers| && HasSpace(c, s, w)
    requires b.index == s.workers[w].at < |c.parts| && c.queueCap == 0
    ensures QueuesOk(c, Enqueue(c, s, w, b))
  {
    var s' := Enqueue(c, s, w, b);
    assert Chain(s.workers[w].queue, s.workers[w].next, s.workers[w].at, c.workers);
    SpaceMeets(c, s, w);
    RendezvousMeets(c, s, w);
    forall v | 0 <= v < |s'.workers|
      ensures Chain(s'.workers[v].queue, s'.workers[v].next, s'.workers[v].at, c.workers)
      ensures s'.received <= s'.workers[v].next < s'.received + c.workers && |s'.workers[v].queue| == 0
    {
      assert |s.workers[v].queue| == 0;
      if v != w { assert s'.workers[v] == s.workers[v]; WindowMoves(c, s, w, v); }
    }
  }

  lemma QueuesOfReceive(c: Config, s: State)
    requires c.Valid() && Shape(c, s) && QueuesOk(c, s) && EmitEnabled(c, s, Receive)
    ensures QueuesOk(c, EmitStep(c, s, Receive))
    ensures var b := EmitStep(c, s, Receive).emit.batch; b.index == s.emit.pi && Good(c, b)
  {
    var w, s' := WorkerOf(c, s.emit.pi), EmitStep(c, s, Receive);
    var x := s.workers[w];
    assert Chain(x.queue, x.next, x.at, c.workers);
    RendezvousMeets(c, s, w);
    assert Good(c, x.queue[0]);
    assert c.queueCap > 0;
    forall v | 0 <= v < |s'.workers|
      ensures Chain(s'.workers[v].queue, s'.workers[v].next, s'.workers[v].at, c.workers)
      ensures s'.received <= s'.workers[v].next < s'.received + c.workers
    {
      if v != w { assert s'.workers[v] == s.workers[v]; WindowMoves(c, s, w, v); }
    }
    forall v, i | 0 <= v < |s'.workers| && 0 <= i < |s'.workers[v].queue| ensures Good(c, s'.workers[v].queue[i]) {
      if v != w { assert s'.workers[v] == s.workers[v]; } else { assert Good(c, x.queue[i + 1]); }
    }
  }

  // ---------- emission order ----------

  lemma CallsOfSame(c: Config, s: State, s': State)
    requires CallsOk(c, s) && s'.emit == s.emit && s'.calls == s.calls && (s.cause.Some? ==> s'.cause == s.cause)
    ensures CallsOk(c, s')
  {
  }

  lemma CallsOfHandOff(c: Config, s: State, s': State, b: Batch)
    requires CallsOk(c, s) && s.emit.Recv? && b.index == s.emit.pi && Good(c, b)
    requires s'.emit == Deliver(b) && s'.calls == s.calls
    ensures CallsOk(c, s')
  {
  }

  lemma CallsOfEmit(c: Config, s: State, a: EmitAction)
    requires c.Valid() && Shape(c, s) && QueuesOk(c, s) && CallsOk(c, s) && EmitEnabled(c, s, a)
    ensures CallsOk(c, EmitStep(c, s, a))
  {
    var s' := EmitStep(c, s, a);
    match a
    case Receive => QueuesOfReceive(c, s); CallsOfHandOff(c, s, s', s'.emit.batch);
    case ReceiveStop => CallsOfStop(c, s, s');
    case ConsumerReturns(ok) => CallsOfYield(c, s, ok, s');
    case ReleaseBytes => AfterYield(c, s, s.emit.index, s.emit.ok, s');
    case RingBell => AfterYield(c, s, s.emit.index, s.emit.ok, s');
    case CancelAll =>
    case AwaitAll =>
  }

  lemma CallsOfStop(c: Config, s: State, s': State)
    requires c.Valid() && Shape(c, s) && CallsOk(c, s) && EmitEnabled(c, s, ReceiveStop) && s' == EmitStep(c, s, ReceiveStop)
    ensures CallsOk(c, s')
  {
    assert s'.calls[..|s'.calls| - 1] == s.calls;
  }

  lemma CallsOfYield(c: Config, s: State, ok: bool, s': State)
    requires c.Valid() && Shape(c, s) && CallsOk(c, s) && EmitEnabled(c, s, ConsumerReturns(ok)) && s' == EmitStep(c, s, ConsumerReturns(ok))
    ensures CallsOk(c, s')
  {
    assert s'.calls[..|s.calls|] == s.calls;
  }

  lemma AfterYield(c: Config, s: State, i: nat, ok: bool, s': State)
    requires LastYield(c, s.calls, i, ok) && s'.calls == s.calls
    requires s'.emit == EmitNext(c, i, ok) || s'.emit == Ring(i, ok)
    ensures CallsOk(c, s')
  {
  }

  // ---------- byte budget ----------

  ghost predicate BytesAt(c: Config, s: State, w: nat)
    requires c.workers >= 1 && Shape(c, s) && w < |s.workers|
  {
    c.byteCap > 0 ==>
      && s.workers[w].buffered == SumBy(HeldUnits(c, s, w), Id)
      && Capped(c.byteCap, HeldUnits(c, s, w))
  }

  lemma BytesFromEach(c: Config, s: State)
    requires c.workers >= 1 && Shape(c, s)
    ensures BytesOk(c, s) <==> forall w :: 0 <= w < |s.workers| ==> BytesAt(c, s, w)
  {
    if forall w :: 0 <= w < |s.workers| ==> BytesAt(c, s, w) {
      forall w | 0 <= w < |s.workers| && c.byteCap > 0
        ensures s.workers[w].buffered == SumBy(HeldUnits(c, s, w), Id)
        ensures SumBy(HeldUnits(c, s, w), Id) <= c.byteCap || SumBy(HeldUnits(c, s, w), PositiveN) == 1
      {
        assert BytesAt(c, s, w);
      }
    }
  }

  lemma BytesUnmoved(c: Config, s: State, s': State, w: nat)
    requires c.workers >= 1 && Shape(c, s) && Shape(c, s') && w < |s.workers| && BytesAt(c, s, w)
    requires s'.workers[w].buffered == s.workers[w].buffered && HeldUnits(c, s', w) == HeldUnits(c, s, w)
    ensures BytesAt(c, s', w)
  {
  }

  function PcUnits(c: Config, x: Worker): seq<nat>
  {
    if x.at < |c.parts| && (x.pc.Decode? || x.pc.Send? || x.pc.SendWait? || x.pc.Abort?) then [Unit(c, x.at)] else []
  }

  lemma HeldIs(c: Config, s: State, w: nat)
    requires c.workers >= 1 && Shape(c, s) && w < |s.workers|
    ensures HeldUnits(c, s, w) == EmitUnits(c, s, w) + QueueUnits(c, s.workers[w].queue) + PcUnits(c, s.workers[w])
  {
    assert WorkerShape(c, s.workers[w], w);
  }

  lemma ReserveHeld(c: Config, s: State, w: nat, s': State)
    requires c.Valid() && Shape(c, s) && Shape(c, s') && w < |s.workers| && s.workers[w].pc.Reserve? && s.workers[w].at < |c.parts|
    requires s' == SetWorker(s, w, Reserved(c, s.Stop(), s.workers[w]))
    ensures HeldUnits(c, s', w) == HeldUnits(c, s, w) + if s'.workers[w].pc.Decode? then [Unit(c, s.workers[w].at)] else []
  {
    HeldIs(c, s, w);
    HeldIs(c, s', w);
  }

  lemma BytesOfReserve(c: Config, s: State, w: nat)
    requires c.Valid() && Shape(c, s) && w < |s.workers| && s.workers[w].pc.Reserve? && BytesAt(c, s, w)
    requires s.workers[w].at < |c.parts|
    requires Shape(c, SetWorker(s, w, Reserved(c, s.Stop(), s.workers[w])))
    ensures BytesAt(c, SetWorker(s, w, Reserved(c, s.Stop(), s.workers[w])), w)
  {
    var s' := SetWorker(s, w, Reserved(c, s.Stop(), s.workers[w]));
    ReserveHeld(c, s, w, s');
    hide HeldUnits, Shape;
    var h, u := HeldUnits(c, s, w), Unit(c, s.workers[w].at);
    assert h + [] == h;
    if c.byteCap > 0 && s'.workers[w].pc.Decode? {
      if u == 0 { CappedWithZero(c.byteCap, h); } else { CappedAfterReserve(c.byteCap, h, u); }
    }
  }

  lemma BytesOfAbort(c: Config, s: State, w: nat)
    requires c.Valid() && Shape(c, s) && w < |s.workers| && s.workers[w].pc.Abort? && BytesAt(c, s, w)
    requires s.workers[w].at < |c.parts|
    requires Shape(c, SetWorker(s, w, Aborted(c, s.workers[w], s.workers[w].pc.err)))
    ensures BytesAt(c, SetWorker(s, w, Aborted(c, s.workers[w], s.workers[w].pc.err)), w)
  {
    var x := s.workers[w];
    var s' := SetWorker(s, w, Aborted(c, x, x.pc.err));
    HeldIs(c, s, w);
    HeldIs(c, s', w);
    var h', u := HeldUnits(c, s', w), Unit(c, x.at);
    assert HeldUnits(c, s, w) == h' + [u] + [] && h' + [] == h';
    if c.byteCap > 0 { CappedAfterRelease(c.byteCap, h', u, []); }
  }

  lemma BytesOfEnqueue(c: Config, s: State, w: nat, b: Batch)
    requires c.Valid() && Shape(c, s) && w < |s.workers| && BytesAt(c, s, w) && HasSpace(c, s, w) && QueuesOk(c, s)
    requires b.index == s.workers[w].at < |c.parts| && (s.workers[w].pc.Send? || s.workers[w].pc.SendWait?)
    requires Shape(c, Enqueue(c, s, w, b))
    ensures BytesAt(c, Enqueue(c, s, w, b), w)
  {
    var x, s' := s.workers[w], Enqueue(c, s, w, b);
    HeldIs(c, s, w);
    HeldIs(c, s', w);
    if c.queueCap > 0 {
      assert QueueUnits(c, x.queue + [b]) == QueueUnits(c, x.queue) + [Unit(c, b.index)];
    } else {
      SpaceMeets(c, s, w);
    }
    assert HeldUnits(c, s', w) == HeldUnits(c, s, w);
    BytesUnmoved(c, s, s', w);
  }

  // A worker's step leaves the other workers' holdings alone.
  lemma BytesOfOtherWorker(c: Config, s: State, s': State, w: nat, v: nat)
    requires c.Valid() && Shape(c, s) && Shape(c, s') && w < |s.workers| && v < |s.workers| && v != w
    requires s'.workers[v] == s.workers[v] && BytesAt(c, s, v)
    requires s'.emit == s.emit || (s.emit.Recv? && s'.emit.Deliver? && WorkerOf(c, s'.emit.batch.index) == w)
    ensures BytesAt(c, s', v)
  {
    assert EmitUnits(c, s', v) == EmitUnits(c, s, v);
    BytesUnmoved(c, s, s', v);
  }

  lemma BytesOfMove(c: Config, s: State, w: nat, s': State)
    requires c.Valid() && Shape(c, s) && Shape(c, s') && w < |s.workers| && BytesAt(c, s, w)
    requires s'.emit == s.emit && s'.workers[w].queue == s.workers[w].queue && s'.workers[w].buffered == s.workers[w].buffered
    requires PcUnits(c, s'.workers[w]) == PcUnits(c, s.workers[w])
    ensures BytesAt(c, s', w)
  {
    HeldIs(c, s, w);
    HeldIs(c, s', w);
    BytesUnmoved(c, s, s', w);
  }

  lemma BytesOfWorker(c: Config, s: State, w: nat, a: WorkerAction)
    requires c.Valid() && Shape(c, s) && QueuesOk(c, s) && w < |s.workers| && WorkerEnabled(c, s, w, a)
    requires BytesAt(c, s, w) && Shape(c, WorkerStep(c, s, w, a))
    ensures BytesAt(c, WorkerStep(c, s, w, a), w)
  {
    var x, s' := s.workers[w], WorkerStep(c, s, w, a);
    assert WorkerShape(c, x, w);
    if (a.SendTry? && HasSpace(c, s, w)) || a.SendSlow? {
      BytesOfEnqueue(c, s, w, MakeBatch(c, x.at, x.pc.recs));
    } else if a.TryReserve? {
      BytesOfReserve(c, s, w);
    } else if a.AbortRelease? {
      BytesOfAbort(c, s, w);
    } else {
      PlainMove(c, s, w, a, s');
      BytesOfMove(c, s, w, s');
    }
  }

  lemma PlainMove(c: Config, s: State, w: nat, a: WorkerAction, s': State)
    requires c.Valid() && Shape(c, s) && w < |s.workers| && WorkerEnabled(c, s, w, a) && s' == WorkerStep(c, s, w, a)
    requires !(a.SendTry? && HasSpace(c, s, w)) && !a.SendSlow? && !a.TryReserve? && !a.AbortRelease?
    ensures |s'.workers| == |s.workers| && s'.emit == s.emit && PcUnits(c, s'.workers[w]) == PcUnits(c, s.workers[w])
    ensures s'.workers[w].queue == s.workers[w].queue && s'.workers[w].buffered == s.workers[w].buffered
  {
    assert WorkerShape(c, s.workers[w], w);
  }

  lemma BytesOfReceive(c: Config, s: State, w: nat)
    requires c.Valid() && Shape(c, s) && QueuesOk(c, s) && w < |s.workers| && EmitEnabled(c, s, Receive) && BytesAt(c, s, w)
    requires Shape(c, EmitStep(c, s, Receive))
    ensures BytesAt(c, EmitStep(c, s, Receive), w)
  {
    var s' := EmitStep(c, s, Receive);
    QueuesOfReceive(c, s);
    HeldIs(c, s, w);
    HeldIs(c, s', w);
    if w == WorkerOf(c, s.emit.pi) {
      var q := s.workers[w].queue;
      assert QueueUnits(c, q) == [Unit(c, q[0].index)] + QueueUnits(c, q[1..]);
    }
    BytesUnmoved(c, s, s', w);
  }

  lemma ReleaseHeld(c: Config, s: State, w: nat, s': State)
    requires c.Valid() && Shape(c, s) && w < |s.workers| && s.emit.Unreserve? && s' == EmitStep(c, s, ReleaseBytes) && Shape(c, s')
    ensures HeldUnits(c, s, w) ==
      if w == WorkerOf(c, s.emit.index) then [] + [Unit(c, s.emit.index)] + HeldUnits(c, s', w) else HeldUnits(c, s', w)
  {
    HeldIs(c, s, w);
    HeldIs(c, s', w);
    hide Unit;
  }

  lemma ReleaseBuffered(c: Config, s: State, w: nat, s': State)
    requires c.Valid() && Shape(c, s) && w < |s.workers| && s.emit.Unreserve? && s' == EmitStep(c, s, ReleaseBytes)
    ensures |s'.workers| == |s.workers|
    ensures s'.workers[w].buffered == s.workers[w].buffered - if w == WorkerOf(c, s.emit.index) then Unit(c, s.emit.index) else 0
  {
  }

  lemma BytesOfRelease(c: Config, s: State, w: nat)
    requires c.Valid() && Shape(c, s) && w < |s.workers| && s.emit.Unreserve? && BytesAt(c, s, w)
    requires Shape(c, EmitStep(c, s, ReleaseBytes))
    ensures BytesAt(c, EmitStep(c, s, ReleaseBytes), w)
  {
    var s' := EmitStep(c, s, ReleaseBytes);
    ReleaseHeld(c, s, w, s');
    ReleaseBuffered(c, s, w, s');
    hide EmitStep, HeldUnits;
    if w == WorkerOf(c, s.emit.index) && c.byteCap > 0 {
      var h', u := HeldUnits(c, s', w), Unit(c, s.emit.index);
      assert [] + h' == h';
      CappedAfterRelease(c.byteCap, [], u, h');
    }
  }

  lemma BytesOfEmit(c: Config, s: State, a: EmitAction, w: nat)
    requires c.Valid() && Shape(c, s) && QueuesOk(c, s) && w < |s.workers| && EmitEnabled(c, s, a) && BytesAt(c, s, w)
    requires Shape(c, EmitStep(c, s, a))
    ensures BytesAt(c, EmitStep(c, s, a), w)
  {
    match a
    case Receive => BytesOfReceive(c, s, w);
    case ReleaseBytes => BytesOfRelease(c, s, w);
    case _ =>
      var s' := EmitStep(c, s, a);
      assert EmitUnits(c, s', w) == EmitUnits(c, s, w);
      HeldIs(c, s, w);
      HeldIs(c, s', w);
      BytesUnmoved(c, s, s', w);
  }

  // ---------- bells ----------

  lemma BellsOfSame(c: Config, s: State, s': State)
    requires c.workers >= 1 && Shape(c, s) && Shape(c, s') && BellsOk(c, s)
    requires s'.workers == s.workers && s'.emit == s.emit
    ensures BellsOk(c, s')
  {
  }

  lemma BellsOfWorker(c: Config, s: State, w: nat, a: WorkerAction, s': State)
    requires c.Valid() && Shape(c, s) && BellsOk(c, s) && w < |s.workers| && WorkerEnabled(c, s, w, a)
    requires s' == WorkerStep(c, s, w, a) && Shape(c, s')
    ensures BellsOk(c, s')
  {
    assert WorkerShape(c, s.workers[w], w);
    ParksByReserve(c, s, w, a, s');
    hide WorkerStep, Reserved;
    forall v | 0 <= v < |s'.workers| && s'.workers[v].pc.Park?
      ensures c.byteCap > 0 && Unit(c, s'.workers[v].at) > 0
      ensures s'.workers[v].bell || !Fits(s'.workers[v].buffered, Unit(c, s'.workers[v].at), c.byteCap) ||
        (s'.emit.Ring? && WorkerOf(c, s'.emit.index) == v)
    {
      if v != w { assert s'.workers[v] == s.workers[v]; }
    }
  }

  // A worker comes to be parked only by a reservation that does not fit.
  lemma ParksByReserve(c: Config, s: State, w: nat, a: WorkerAction, s': State)
    requires c.Valid() && Shape(c, s) && w < |s.workers| && WorkerEnabled(c, s, w, a) && s' == WorkerStep(c, s, w, a)
    requires s.workers[w].at < |c.parts| || s.workers[w].pc.Stopped?
    ensures s'.workers == s.workers[w := s'.workers[w]]
    ensures s.emit.Ring? ==> s'.emit == s.emit
    ensures s'.workers[w].pc.Park? ==>
      s'.workers[w].at < |c.parts| && c.byteCap > 0 && Unit(c, s'.workers[w].at) > 0 && !Fits(s'.workers[w].buffered, Unit(c, s'.workers[w].at), c.byteCap)
  {
    assert WorkerShape(c, s.workers[w], w);
  }

  lemma BellsOfEmit(c: Config, s: State, a: EmitAction, s': State)
    requires c.Valid() && Shape(c, s) && BellsOk(c, s) && EmitEnabled(c, s, a)
    requires s' == EmitStep(c, s, a) && Shape(c, s')
    ensures BellsOk(c, s')
  {
    forall v | 0 <= v < |s'.workers| && s'.workers[v].pc.Park?
      ensures c.byteCap > 0 && Unit(c, s'.workers[v].at) > 0
      ensures s'.workers[v].bell || !Fits(s'.workers[v].buffered, Unit(c, s'.workers[v].at), c.byteCap) ||
        (s'.emit.Ring? && WorkerOf(c, s'.emit.index) == v)
    {
      assert s.workers[v].pc.Park? && s'.workers[v].at == s.workers[v].at;
    }
  }
}

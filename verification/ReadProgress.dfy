/** The read pipeline cannot get stuck, and every run of it ends. */
module ReadProgress {
  import opened Dedup
  import opened Prepare
  import opened ReadPipeline
  import opened Counting
  import opened ReadInvariant
  import opened ReadSteps
  import opened ReadFlow
  import opened ReadEmit
  import opened ReadTheorems

  // ---------- a measure that every step decreases ----------

  function TaskWeight(t: Task): nat
  {
    match t
    case Unsubmitted => 10
    case Skipped => 0
    case Getting => 6
    case FailRelease(_) => 5
    case FailRecord => 4
    case FailMark => 3
    case Closing(_) => 2
    case Returning(_) => 1
    case Ended(_) => 0
  }

  function PartWeight(p: PartState): nat { SumBy(p.tasks, TaskWeight) }

  function FetchWeight(f: Fetch): nat
  {
    match f
    case Acquire(_, _) => 3
    case AcquireWait(_, _) => 2
    case Submit(_, _) => 1
    case Drain => 1
    case FetchDone => 0
  }

  // Work left for a worker that has yet to start on partition `at`.
  function LoopWeight(c: Config, at: nat): nat
    requires c.workers >= 1
    decreases |c.parts| - at
  {
    if at >= |c.parts| then 0 else 11 + |c.Files(at)| + LoopWeight(c, at + c.workers)
  }

  function PcWeight(c: Config, x: Worker): nat
    requires c.workers >= 1
  {
    if x.at >= |c.parts| then 0
    else
      var rest, files := LoopWeight(c, x.at + c.workers), |c.Files(x.at)|;
      match x.pc
      case Wait => rest + files + 11
      case Check => rest + files + 10
      case Reserve => rest + files + 9
      case Park => rest + files + 8
      case Decode(fi, _) => rest + 7 + (if fi <= files then files - fi else 0)
      case Send(_) => rest + 6
      case SendWait(_) => rest + 5
      case Abort(_) => 4
      case Fail => 1
      case Stopped => 0
  }

  // A pending bell pays for one more trip through the reservation loop.
  function WorkerWeight(c: Config): Worker -> nat
    requires c.workers >= 1
  {
    (x: Worker) => PcWeight(c, x) + if x.bell then 2 else 0
  }

  function EmitWeight(c: Config, e: Emit): nat
  {
    match e
    case Recv(i) => 10 + Left(c, i)
    case Deliver(b) => 9 + Left(c, b.index)
    case Unreserve(i, _) => 8 + Left(c, i)
    case Ring(i, _) => 7 + Left(c, i)
    case Close => 2
    case Join => 1
    case Finished => 0
  }

  function Left(c: Config, i: nat): nat { if i < |c.parts| then 6 * (|c.parts| - i) else 0 }

  function Measure(c: Config, s: State): nat
    requires c.workers >= 1
  {
    SumBy(s.parts, PartWeight) + FetchWeight(s.fetch) + SumBy(s.workers, WorkerWeight(c)) +
    EmitWeight(c, s.emit) + (if s.Stop() then 0 else 1)
  }

  lemma TaskWeightUpdate(parts: seq<PartState>, q: seq<PartState>, p: nat, f: nat, t: Task)
    requires p < |parts| && f < |parts[p].tasks| && |q| == |parts|
    requires q == parts[p := q[p]] && q[p].tasks == parts[p].tasks[f := t]
    ensures SumBy(q, PartWeight) + TaskWeight(parts[p].tasks[f]) == SumBy(parts, PartWeight) + TaskWeight(t)
  {
    SumByUpdate(parts[p].tasks, f, t, TaskWeight);
    SumByUpdate(parts, p, q[p], PartWeight);
  }

  lemma FetchDecreases(c: Config, s: State, a: FetchAction)
    requires c.Valid() && Shape(c, s) && FetchOk(c, s) && FetchEnabled(c, s, a)
    ensures Measure(c, FetchStep(c, s, a)) < Measure(c, s)
  {
    if a.SubmitTask? || a.SubmitSkip? {
      assert FromHere(s.fetch, s.fetch.pi, s.fetch.fi);
      TaskWeightUpdate(s.parts, FetchStep(c, s, a).parts, s.fetch.pi, s.fetch.fi, if a.SubmitTask? then Getting else Skipped);
    }
  }

  lemma TaskDecreases(c: Config, s: State, pi: nat, fi: nat, a: TaskAction)
    requires c.Valid() && Shape(c, s) && pi < |s.parts| && fi < |s.parts[pi].tasks|
    requires TaskEnabled(c, s, s.parts[pi].tasks[fi], a)
    ensures Measure(c, TaskStep(c, s, pi, fi, a)) < Measure(c, s)
  {
    var s' := TaskStep(c, s, pi, fi, a);
    TaskWeightUpdate(s.parts, s'.parts, pi, fi, s'.parts[pi].tasks[fi]);
  }

  lemma WorkerWeightUpdate(c: Config, s: State, w: nat, y: Worker)
    requires c.workers >= 1 && w < |s.workers|
    ensures SumBy(s.workers[w := y], WorkerWeight(c)) + WorkerWeight(c)(s.workers[w]) ==
      SumBy(s.workers, WorkerWeight(c)) + WorkerWeight(c)(y)
  {
    SumByUpdate(s.workers, w, y, WorkerWeight(c));
  }

  lemma BodiesWeighNothing(parts: seq<PartState>, p: nat, bodies: seq<BodySlot>)
    requires p < |parts|
    ensures SumBy(parts[p := parts[p].(bodies := bodies)], PartWeight) == SumBy(parts, PartWeight)
  {
    SumByUpdate(parts, p, parts[p].(bodies := bodies), PartWeight);
  }

  lemma LocalDecreases(c: Config, x: Worker, w: nat, stop: bool, a: WorkerAction)
    requires c.Valid() && WorkerShape(c, x, w) && IsLocal(a) && x.at < |c.parts|
    requires match a
      case Wake => x.pc.Wait? case CheckCause => x.pc.Check? case TryReserve => x.pc.Reserve?
      case ParkWake => x.pc.Park? && x.bell case ParkStop => x.pc.Park? case SendDrop => x.pc.SendWait?
      case AbortRelease => x.pc.Abort? case _ => false
    ensures WorkerWeight(c)(Local(c, stop, x, a)) < WorkerWeight(c)(x)
  {
  }

  lemma LoopDecreases(c: Config, x: Worker)
    requires c.Valid() && x.at < |c.parts| && (x.pc.Send? || x.pc.SendWait?)
    ensures PcWeight(c, WorkerLoop(c, x)) <= LoopWeight(c, x.at + c.workers) < PcWeight(c, x)
  {
  }

  // One worker and the emit loop moved; together they got lighter.
  lemma LighterPair(c: Config, s: State, s': State, w: nat)
    requires c.workers >= 1 && w < |s.workers| == |s'.workers| && s'.workers == s.workers[w := s'.workers[w]]
    requires SumBy(s'.parts, PartWeight) == SumBy(s.parts, PartWeight) && s'.fetch == s.fetch
    requires s.Stop() ==> s'.Stop()
    requires WorkerWeight(c)(s'.workers[w]) + EmitWeight(c, s'.emit) < WorkerWeight(c)(s.workers[w]) + EmitWeight(c, s.emit)
    ensures Measure(c, s') < Measure(c, s)
  {
    WorkerWeightUpdate(c, s, w, s'.workers[w]);
  }

  lemma SendDecreases(c: Config, s: State, w: nat, b: Batch)
    requires c.Valid() && w < |s.workers| && (s.workers[w].pc.Send? || s.workers[w].pc.SendWait?)
    requires b.index == s.workers[w].at < |c.parts| && (c.queueCap == 0 ==> s.emit.Recv? && s.emit.pi == b.index)
    ensures Measure(c, Enqueue(c, s, w, b)) < Measure(c, s)
  {
    LoopDecreases(c, s.workers[w]);
    LighterPair(c, s, Enqueue(c, s, w, b), w);
  }

  lemma DecodeLighter(c: Config, x: Worker, y: Worker)
    requires c.workers >= 1 && x.at < |c.parts| && x.pc.Decode? && x.pc.fi <= |c.Files(x.at)| && y == x.(pc := y.pc)
    requires y.pc.Send? || y.pc == Abort(true) || (y.pc.Decode? && y.pc.fi == x.pc.fi + 1 <= |c.Files(x.at)|)
    ensures WorkerWeight(c)(y) < WorkerWeight(c)(x)
  {
  }

  lemma DecodeDecreases(c: Config, s: State, w: nat)
    requires c.Valid() && Shape(c, s) && w < |s.workers| && WorkerEnabled(c, s, w, DecodeNext)
    ensures Measure(c, DecodeStep(c, s, w)) < Measure(c, s)
  {
    var x, s' := s.workers[w], DecodeStep(c, s, w);
    assert WorkerShape(c, x, w);
    DecodeLighter(c, x, s'.workers[w]);
    if s'.parts != s.parts {
      BodiesWeighNothing(s.parts, x.at, s'.parts[x.at].bodies);
      assert s'.parts == s.parts[x.at := s.parts[x.at].(bodies := s'.parts[x.at].bodies)];
    }
    LighterPair(c, s, s', w);
  }

  lemma QuietWorkerDecreases(c: Config, s: State, w: nat, a: WorkerAction)
    requires c.Valid() && Shape(c, s) && w < |s.workers| && WorkerEnabled(c, s, w, a)
    requires IsLocal(a) || a.RecordFail? || (a.SendTry? && !HasSpace(c, s, w))
    ensures Measure(c, WorkerStep(c, s, w, a)) < Measure(c, s)
  {
    var x := s.workers[w];
    assert WorkerShape(c, x, w);
    if IsLocal(a) {
      LocalDecreases(c, x, w, s.Stop(), a);
      LighterPair(c, s, SetWorker(s, w, Local(c, s.Stop(), x, a)), w);
    } else {
      var y := if a.RecordFail? then x.(pc := Stopped) else x.(pc := SendWait(x.pc.recs));
      assert WorkerWeight(c)(y) < WorkerWeight(c)(x);
      LighterPair(c, s, WorkerStep(c, s, w, a), w);
    }
  }

  lemma WorkerDecreases(c: Config, s: State, w: nat, a: WorkerAction)
    requires Inv(c, s) && w < |s.workers| && WorkerEnabled(c, s, w, a)
    ensures Measure(c, WorkerStep(c, s, w, a)) < Measure(c, s)
  {
    if (a.SendTry? && HasSpace(c, s, w)) || a.SendSlow? {
      assert WorkerShape(c, s.workers[w], w);
      SpaceMeets(c, s, w);
      SendDecreases(c, s, w, MakeBatch(c, s.workers[w].at, s.workers[w].pc.recs));
    } else if a.DecodeNext? {
      DecodeDecreases(c, s, w);
    } else {
      QuietWorkerDecreases(c, s, w, a);
    }
  }

  lemma RingLighter(c: Config, s: State, index: nat, ok: bool, x: Worker)
    requires c.workers >= 1 && index < |c.parts|
    ensures WorkerWeight(c)(x.(bell := true)) + EmitWeight(c, EmitNext(c, index, ok)) < WorkerWeight(c)(x) + EmitWeight(c, Ring(index, ok))
    ensures EmitWeight(c, EmitNext(c, index, ok)) < EmitWeight(c, Unreserve(index, ok))
  {
  }

  lemma ReceiveDecreases(c: Config, s: State, s': State)
    requires c.Valid() && Shape(c, s) && QueuesOk(c, s) && EmitEnabled(c, s, Receive) && s' == EmitStep(c, s, Receive)
    ensures Measure(c, s') < Measure(c, s)
  {
    QueuesOfReceive(c, s);
    LighterPair(c, s, s', WorkerOf(c, s.emit.pi));
  }

  lemma EmitOnlyLighter(c: Config, s: State, s': State)
    requires c.workers >= 1 && s'.workers == s.workers && s'.parts == s.parts && s'.fetch == s.fetch
    requires (s.Stop() ==> s'.Stop()) && EmitWeight(c, s'.emit) < EmitWeight(c, s.emit)
    ensures Measure(c, s') < Measure(c, s)
  {
  }

  lemma ReleaseDecreases(c: Config, s: State, s': State)
    requires c.Valid() && Shape(c, s) && s.emit.Unreserve? && s' == EmitStep(c, s, ReleaseBytes)
    ensures Measure(c, s') < Measure(c, s)
  {
    var w := WorkerOf(c, s.emit.index);
    var x := s.workers[w];
    RingLighter(c, s, s.emit.index, s.emit.ok, x);
    if Unit(c, s.emit.index) == 0 {
      EmitOnlyLighter(c, s, s');
    } else {
      assert PcWeight(c, x.(buffered := x.buffered - Unit(c, s.emit.index))) == PcWeight(c, x);
      LighterPair(c, s, s', w);
    }
  }

  lemma RingDecreases(c: Config, s: State, s': State)
    requires c.Valid() && Shape(c, s) && s.emit.Ring? && s' == EmitStep(c, s, RingBell)
    ensures Measure(c, s') < Measure(c, s)
  {
    var w := WorkerOf(c, s.emit.index);
    RingLighter(c, s, s.emit.index, s.emit.ok, s.workers[w]);
    LighterPair(c, s, s', w);
  }

  lemma PlainEmitDecreases(c: Config, s: State, a: EmitAction)
    requires c.Valid() && Shape(c, s) && EmitEnabled(c, s, a) && !a.Receive? && !a.ReleaseBytes? && !a.RingBell?
    ensures Measure(c, EmitStep(c, s, a)) < Measure(c, s)
  {
    EmitOnlyLighter(c, s, EmitStep(c, s, a));
  }

  lemma EmitDecreases(c: Config, s: State, a: EmitAction)
    requires Inv(c, s) && EmitEnabled(c, s, a)
    ensures Measure(c, EmitStep(c, s, a)) < Measure(c, s)
  {
    match a
    case Receive => ReceiveDecreases(c, s, EmitStep(c, s, a));
    case ReleaseBytes => ReleaseDecreases(c, s, EmitStep(c, s, a));
    case RingBell => RingDecreases(c, s, EmitStep(c, s, a));
    case _ => PlainEmitDecreases(c, s, a);
  }

  lemma StepDecreases(c: Config, s: State, a: Action)
    requires Inv(c, s) && Enabled(c, s, a)
    ensures Measure(c, Apply(c, s, a)) < Measure(c, s)
  {
    match a
    case ByFetcher(f) => FetchDecreases(c, s, f);
    case ByTask(pi, fi, t) => TaskDecreases(c, s, pi, fi, t);
    case ByWorker(w, d) => WorkerDecreases(c, s, w, d);
    case ByEmit(e) => EmitDecreases(c, s, e);
    case ParentCancel =>
  }

  lemma NextDecreases(c: Config, s: State, t: State)
    requires Inv(c, s) && Next(c, s, t)
    ensures Measure(c, t) < Measure(c, s)
  {
    var a :| Step(c, s, a, t);
    StepDecreases(c, s, a);
  }

  lemma {:induction false} RunDescends(c: Config, run: seq<State>, i: nat)
    requires c.Valid() && IsRun(c, run) && i < |run|
    ensures Measure(c, run[i]) + i <= Measure(c, Init(c))
  {
    if i > 0 {
      RunDescends(c, run, i - 1);
      RunStepDecreases(c, run, i - 1);
    }
  }

  lemma RunStepDecreases(c: Config, run: seq<State>, i: nat)
    requires c.Valid() && IsRun(c, run) && i + 1 < |run|
    ensures Measure(c, run[i + 1]) < Measure(c, run[i])
  {
    RunKeepsInv(c, run, i);
    assert Next(c, run[i], run[i + 1]);
    NextDecreases(c, run[i], run[i + 1]);
  }

  /** Every run ends: no run of a configuration, whatever the interleaving, the failures
      and the cancellation, is longer than a bound fixed by the configuration. */
  lemma EveryRunEnds(c: Config, run: seq<State>)
    requires c.Valid() && IsRun(c, run)
    ensures |run| <= Measure(c, Init(c)) + 1
  {
    RunDescends(c, run, |run| - 1);
  }
}

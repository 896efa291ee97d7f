/** How long a poll can run: between two answers of its source only boundedly many steps happen,
    so that the number of steps is bounded by the number of files that the source gave. */
module PollProgress {
  import opened Counting
  import opened Prepare
  import opened PollPipeline
  import opened PollTheorems

  // ---------- a weight that every step lowers, but for a new file ----------

  function TaskWeight(f: FileState): nat
  {
    match f.task
    case Skipped => 0
    case Getting => 5
    case FailRelease(_) => 4
    case FailRecord => 3
    case Closing(_) => 2
    case Returning(_) => 1
    case Ended(_) => 0
  }

  function FetchWeight(f: Fetch): nat
  {
    match f
    case Pull => 2
    case Acquire(_) => 25
    case AcquireWait(_) => 24
    case Submit(_) => 23
    case Hand => 17
    case Drain => 1
    case FetchDone => 0
  }

  function PcWeight(pc: WorkerPc): nat
  {
    match pc
    case Take => 1
    case Wait => 14
    case Check => 13
    case Reserve => 12
    case Park => 11
    case Drop => 1
    case Decode => 10
    case Send(_) => 9
    case SendWait(_) => 8
    case Abort(_) => 4
    case Fail => 1
    case Stopped => 0
  }

  // A file that waits for the worker, a result that waits for the emit loop, and a bell that
  // pays for one more trip through the reservation loop.
  function WorkerWeight(x: Worker): nat
  {
    PcWeight(x.pc) + 14 * |x.input| + 6 * |x.queue| + if x.bell then 2 else 0
  }

  function EmitWeight(e: Emit): nat
  {
    match e
    case Recv(_) => 3
    case Deliver(_) => 8
    case Unreserve(_, _) => 7
    case Ring(_, _) => 6
    case Close => 2
    case Join => 1
    case Finished => 0
  }

  function Weight(s: State): nat
  {
    SumBy(s.files, TaskWeight) + FetchWeight(s.fetch) + SumBy(s.workers, WorkerWeight) + EmitWeight(s.emit) + if s.Stop() then 0 else 1
  }

  // Files asked for so far; one more than were given once the last answer was no file.
  function Asked(s: State): nat { |s.files| + if s.fetch.Pull? || s.fetch.Hand? then 0 else 1 }

  lemma SubmitLightens(c: Config, s: State, a: FetchAction, t: State)
    requires Shape(c, s) && FetchEnabled(c, s, a) && (a.SubmitTask? || a.SubmitSkip?) && t == FetchStep(c, s, a)
    ensures Weight(t) < Weight(s) && Asked(t) == Asked(s)
  {
    hide Shape;
    SumByAppend(s.files, [t.files[|s.files|]], TaskWeight);
    assert [t.files[|s.files|]][..0] == [];
  }

  lemma HandLightens(c: Config, s: State, t: State)
    requires Shape(c, s) && FetchEnabled(c, s, HandOver) && t == FetchStep(c, s, HandOver)
    ensures Weight(t) < Weight(s) && Asked(t) == Asked(s)
  {
    var w := WorkerOf(c, s.handed);
    SumByUpdate(s.workers, w, t.workers[w], WorkerWeight);
  }

  lemma FetchLightens(c: Config, s: State, a: FetchAction)
    requires Shape(c, s) && FetchEnabled(c, s, a)
    ensures Weight(FetchStep(c, s, a)) < Weight(s) + if a.SourceYields? then 24 else 0
    ensures Asked(FetchStep(c, s, a)) >= Asked(s) + if a.SourceYields? then 1 else 0
  {
    if a.SubmitTask? || a.SubmitSkip? { SubmitLightens(c, s, a, FetchStep(c, s, a)); }
    else if a.HandOver? { HandLightens(c, s, FetchStep(c, s, a)); }
    else { hide SumBy; }
  }

  lemma TaskLightens(c: Config, s: State, fi: nat, a: TaskAction)
    requires fi < |s.files| && TaskEnabled(c, s, s.files[fi].task, a)
    ensures Weight(TaskStep(c, s, fi, a)) < Weight(s) && Asked(TaskStep(c, s, fi, a)) == Asked(s)
  {
    SumByUpdate(s.files, fi, TaskStep(c, s, fi, a).files[fi], TaskWeight);
  }

  // One worker moved, and the emit loop may have.
  lemma PairLightens(s: State, t: State, w: nat)
    requires w < |s.workers| == |t.workers| && t.workers == s.workers[w := t.workers[w]]
    requires t.fetch == s.fetch && SumBy(t.files, TaskWeight) == SumBy(s.files, TaskWeight) && |t.files| == |s.files| && (s.Stop() ==> t.Stop())
    requires WorkerWeight(t.workers[w]) + EmitWeight(t.emit) < WorkerWeight(s.workers[w]) + EmitWeight(s.emit)
    ensures Weight(t) < Weight(s) && Asked(t) == Asked(s)
  {
    SumByUpdate(s.workers, w, t.workers[w], WorkerWeight);
  }

  lemma FreeWeighsNothing(s: State, fi: nat)
    requires fi < |s.files| && s.slots > 0
    ensures SumBy(Free(s, fi).files, TaskWeight) == SumBy(s.files, TaskWeight)
  {
    SumByUpdate(s.files, fi, Free(s, fi).files[fi], TaskWeight);
  }

  lemma LocalLightens(c: Config, x: Worker, u: nat, stop: bool, a: WorkerAction)
    requires match a
      case TakeNext => x.pc.Take? && |x.input| > 0 case TakeEnd => x.pc.Take? case TakeStop => x.pc.Take?
      case Wake => x.pc.Wait? case CheckCause => x.pc.Check? case TryReserve => x.pc.Reserve?
      case ParkWake => x.pc.Park? && x.bell case ParkStop => x.pc.Park? case SendDrop => x.pc.SendWait?
      case AbortRelease => x.pc.Abort? case _ => false
    ensures WorkerWeight(Local(c, stop, x, u, a)) < WorkerWeight(x)
  {
  }

  lemma SendLightens(c: Config, s: State, w: nat, b: FileResult)
    requires w < |s.workers| && (s.workers[w].pc.Send? || s.workers[w].pc.SendWait?) && (c.queueCap == 0 ==> s.emit.Recv?)
    ensures Weight(Enqueue(c, s, w, b)) < Weight(s) && Asked(Enqueue(c, s, w, b)) == Asked(s)
  {
    PairLightens(s, Enqueue(c, s, w, b), w);
  }

  lemma WorkerLightens(c: Config, s: State, w: nat, a: WorkerAction)
    requires Shape(c, s) && w < |s.workers| && WorkerEnabled(c, s, w, a)
    ensures Weight(WorkerStep(c, s, w, a)) < Weight(s) && Asked(WorkerStep(c, s, w, a)) == Asked(s)
  {
    var x, t := s.workers[w], WorkerStep(c, s, w, a);
    assert WorkerShape(c, s, x, w);
    hide Weight, Asked;
    if IsLocal(a) {
      LocalLightens(c, x, UnitAt(s, x.at), s.Stop(), a);
      PairLightens(s, t, w);
    } else if (a.SendTry? && HasSpace(c, s, w)) || a.SendSlow? {
      SendLightens(c, s, w, ResultOf(s, x.at, x.pc.recs));
    } else {
      PlainLightens(c, s, w, a);
    }
  }

  lemma PlainLightens(c: Config, s: State, w: nat, a: WorkerAction)
    requires Shape(c, s) && w < |s.workers| && WorkerEnabled(c, s, w, a)
    requires a.DropSlot? || a.DecodeFile? || a.RecordFail? || (a.SendTry? && !HasSpace(c, s, w))
    ensures Weight(WorkerStep(c, s, w, a)) < Weight(s) && Asked(WorkerStep(c, s, w, a)) == Asked(s)
  {
    assert WorkerShape(c, s, s.workers[w], w);
    if a.DropSlot? || a.DecodeFile? { FreeWeighsNothing(s, s.workers[w].at); }
    PairLightens(s, WorkerStep(c, s, w, a), w);
  }

  lemma EmitLightens(c: Config, s: State, a: EmitAction)
    requires Shape(c, s) && EmitEnabled(c, s, a)
    ensures Weight(EmitStep(c, s, a)) < Weight(s) && Asked(EmitStep(c, s, a)) == Asked(s)
  {
    var t := EmitStep(c, s, a);
    if a.Receive? {
      PairLightens(s, t, WorkerOf(c, s.emit.counter));
    } else if a.ReleaseBytes? || a.RingBell? {
      PairLightens(s, t, WorkerOf(c, s.emit.index));
    }
  }

  predicate GetsFile(a: Action) { a.ByFetcher? && a.f.SourceYields? }

  /** Every step but the arrival of a file lowers the weight. */
  lemma StepLightens(c: Config, s: State, a: Action)
    requires Shape(c, s) && Enabled(c, s, a)
    ensures Weight(Apply(c, s, a)) < Weight(s) + if GetsFile(a) then 24 else 0
    ensures Asked(Apply(c, s, a)) >= Asked(s) + if GetsFile(a) then 1 else 0
  {
    match a
    case ByFetcher(f) => FetchLightens(c, s, f);
    case ByTask(fi, b) => TaskLightens(c, s, fi, b);
    case ByWorker(w, d) => WorkerLightens(c, s, w, d);
    case ByEmit(e) => EmitLightens(c, s, e);
    case ParentCancel =>
  }

  lemma InitWeight(c: Config)
    requires c.Valid()
    ensures Weight(Init(c)) == c.workers + 6
  {
    SumByOnes(Init(c).workers);
  }

  lemma {:induction false} SumByOnes(ws: seq<Worker>)
    requires forall w :: 0 <= w < |ws| ==> WorkerWeight(ws[w]) == 1
    ensures SumBy(ws, WorkerWeight) == |ws|
  {
    if ws != [] { SumByOnes(ws[..|ws| - 1]); }
  }

  lemma NextLightens(c: Config, s: State, t: State)
    requires Next(c, s, t)
    ensures Weight(t) + 1 <= Weight(s) + 24 * (Asked(t) - Asked(s))
  {
    hide Weight, Asked, Apply, Enabled;
    var a :| Step(c, s, a, t);
    StepLightens(c, s, a);
  }

  lemma {:induction false} RunLightens(c: Config, run: seq<State>, i: nat)
    requires c.Valid() && IsRun(c, run) && i < |run|
    ensures i + Weight(run[i]) <= Weight(Init(c)) + 24 * Asked(run[i])
  {
    hide Weight, Asked, Next;
    if i > 0 {
      RunLightens(c, run, i - 1);
      assert Next(c, run[i - 1], run[i - 1 + 1]);
      NextLightens(c, run[i - 1], run[i]);
    }
  }

  /** A poll takes at most 24 steps for each file that its source gave, and a few more: whatever
      the interleaving, it does not run on while its source is silent. */
  lemma RunIsBounded(c: Config, run: seq<State>)
    requires c.Valid() && IsRun(c, run)
    ensures |run| <= 24 * |run[|run| - 1].files| + c.workers + 31
  {
    RunLightens(c, run, |run| - 1);
    InitWeight(c);
  }
}

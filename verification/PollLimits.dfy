/** What the poll pipeline's two hypotheses are for. */
module PollLimits {
  // Each is shown necessary: completeness of a clean end rests on both, freedom from deadlock on
  // the one about GETs.

  import opened Wrappers
  import opened Counting
  import opened Dedup
  import opened Prepare
  import opened PollPipeline
  import opened PollInvariant
  import opened PollTheorems

  lemma Advance(c: Config, s: State, a: Action) returns (t: State)
    requires c.Valid() && Reachable(c, s) && Shape(c, s) && Enabled(c, s, a)
    ensures t == Apply(c, s, a) && Reachable(c, t)
  {
    t := Apply(c, s, a);
    ReachableStep(c, s, a, t);
  }

  lemma InitReachable(c: Config)
    requires c.Valid()
    ensures Reachable(c, Init(c)) && Shape(c, Init(c))
  {
    InitShape(c);
    var run := [Init(c)];
    assert IsRun(c, run) && run[|run| - 1] == Init(c);
  }

  // ---------- states of a pipeline that was given at most one file ----------

  // Nothing was received, called or recorded.
  function Early(files: seq<FileState>, fetch: Fetch, handed: nat, eos: bool, slots: nat, pool: nat, workers: seq<Worker>, groupDone: bool): State
  {
    State(files, fetch, handed, eos, slots, pool, workers, Recv(0), 0, None, groupDone, [])
  }

  // Worker w has its place in the round-robin, at most file 0 in hand, and sent nothing.
  predicate InPlace(c: Config, x: Worker, w: nat)
  {
    && c.workers >= 1 && x.at % c.workers == w && x.next % c.workers == w && x.upto % c.workers == w && x.queue == []
    && (InHand(x.pc) ==> x.at == 0) && (x.input == [] || x.input == [0])
  }

  ghost predicate AllInPlace(c: Config, ws: seq<Worker>)
  {
    |ws| == c.workers && forall w :: 0 <= w < |ws| ==> InPlace(c, ws[w], w)
  }

  lemma EarlyShape(c: Config, s: State)
    requires c.Valid() && AllInPlace(c, s.workers) && s.emit == Recv(0) && s.received == 0
    requires |s.files| == 1 && s.handed <= 1 && (s.fetch.Hand? ==> s.handed == 0)
    requires s.fetch.Pull? || s.fetch.Acquire? || s.fetch.AcquireWait? || s.fetch.Submit? ==> s.handed == 1
    ensures Shape(c, s)
  {
    forall w | 0 <= w < |s.workers| ensures WorkerShape(c, s, s.workers[w], w) { assert InPlace(c, s.workers[w], w); }
  }

  function Waiting(c: Config): seq<Worker>
    requires c.Valid()
  {
    Init(c).workers
  }

  lemma WaitingInPlace(c: Config)
    requires c.Valid()
    ensures AllInPlace(c, Waiting(c))
  {
    forall w | 0 <= w < c.workers ensures InPlace(c, Waiting(c)[w], w) { SmallMod(w, c.workers); }
  }

  function Given(file: FileRef, task: Task, done: bool): seq<FileState> { [FileState(file, task, Empty, done)] }

  // The source gives a file, and its download is submitted.
  lemma GiveOne(c: Config, file: FileRef) returns (s: State)
    requires c.Valid()
    ensures s == Early(Given(file, Getting, false), Hand, 0, false, 1, 1, Waiting(c), false) && Reachable(c, s) && Shape(c, s)
  {
    InitReachable(c);
    WaitingInPlace(c);
    s := Advance(c, Init(c), ByFetcher(SourceYields(file)));
    s := Advance(c, s, ByFetcher(AcquireSlot));
    s := Advance(c, s, ByFetcher(SubmitTask));
    hide AllInPlace, Reachable;
    EarlyShape(c, s);
  }

  // Its GET comes back with a context error that nobody records: the slot goes back, the
  // channel closes without a body, and the group is cancelled.
  lemma LoseIt(c: Config, file: FileRef, fetch: Fetch, handed: nat, ws: seq<Worker>) returns (t: State)
    requires c.Valid() && !c.promptGet && AllInPlace(c, ws) && handed <= 1 && fetch == (if handed == 0 then Hand else Pull)
    requires Reachable(c, Early(Given(file, Getting, false), fetch, handed, false, 1, 1, ws, false))
    ensures t == Early(Given(file, Ended(true), true), fetch, handed, false, 0, 0, ws, true) && Reachable(c, t) && Shape(c, t)
  {
    hide Reachable, AllInPlace, Shape;
    t := Early(Given(file, Getting, false), fetch, handed, false, 1, 1, ws, false);
    t := LostStep(c, t, GetFails(false));
    t := LostStep(c, t, ReleaseSlot);
    t := LostStep(c, t, CloseDone);
    t := LostStep(c, t, ReturnTask);
    EarlyShape(c, t);
  }

  lemma LostStep(c: Config, s: State, a: TaskAction) returns (t: State)
    requires c.Valid() && Reachable(c, s) && AllInPlace(c, s.workers) && s.emit == Recv(0) && s.received == 0 && |s.files| == 1 && s.handed <= 1
    requires s.fetch == if s.handed == 0 then Hand else Pull
    requires TaskEnabled(c, s, s.files[0].task, a)
    ensures t == TaskStep(c, s, 0, a) && Reachable(c, t)
  {
    EarlyShape(c, s);
    t := Advance(c, s, ByTask(0, a));
  }

  // ---------- silence ----------

  // The end is silent though the source was only interrupted.
  ghost predicate EndsSilently(c: Config, s: State)
    requires c.Valid()
  {
    Reachable(c, s) && PollTheorems.Ended(s) && !Failed(s.calls) && !ConsumerBroke(s.calls) && !s.eos
  }

  lemma EarlySourceErrorEndsSilently(c: Config) returns (s: State)
    requires c.Valid() && !c.promptSource
    ensures EndsSilently(c, s)
  {
    InitReachable(c);
    SmallMod(0, c.workers);
    s := Advance(c, Init(c), ByFetcher(SourceFails(false)));
    s := Advance(c, s, ByFetcher(DrainDone));
    s := Advance(c, s, ByWorker(0, TakeEnd));
    s := Advance(c, s, ByEmit(ReceiveEnd));
  }

  /** One early context error from a GET, and the poll ends with a file given and none handed
      over, without an error. */
  lemma EarlyGetErrorEndsSilently(c: Config, file: FileRef) returns (s: State)
    requires c.Valid() && !c.promptGet
    ensures EndsSilently(c, s) && |s.files| == 1 && s.calls == []
  {
    WaitingInPlace(c);
    SmallMod(0, c.workers);
    s := GiveOne(c, file);
    s := LoseIt(c, file, Hand, 0, Waiting(c));
    s := Advance(c, s, ByFetcher(HandStop));
    EarlyShape(c, s);
    s := Advance(c, s, ByFetcher(DrainDone));
    EarlyShape(c, s);
    s := Advance(c, s, ByWorker(0, TakeEnd));
    WorkerInPlace(c, Waiting(c), 0, Waiting(c)[0].(pc := Stopped));
    EarlyShape(c, s);
    s := Advance(c, s, ByEmit(ReceiveEnd));
  }

  lemma WorkerInPlace(c: Config, ws: seq<Worker>, w: nat, x: Worker)
    requires AllInPlace(c, ws) && w < |ws| && InPlace(c, x, w)
    ensures AllInPlace(c, ws[w := x])
  {
  }

  /** The two hypotheses are exactly what a clean end rests on, for every configuration. */
  lemma PromptIsExactlyNeeded(c: Config)
    requires c.Valid()
    ensures c.promptSource && c.promptGet <==> forall s :: !EndsSilently(c, s)
  {
    if c.promptSource && c.promptGet {
      forall s ensures !EndsSilently(c, s) {
        if EndsSilently(c, s) {
          CleanEndIsComplete(c, s);
          assert false;
        }
      }
    } else if !c.promptSource {
      var s := EarlySourceErrorEndsSilently(c);
    } else {
      var s := EarlyGetErrorEndsSilently(c, FileRef(0, "", "", 0, 0, 0, 0));
    }
  }

  // ---------- hanging ----------

  // Worker 0 holds a file without a body, and waits for a slot to give back that is not held.
  ghost predicate Hung(s: State)
  {
    && s.fetch.FetchDone? && s.slots == 0 && (forall i :: 0 <= i < |s.files| ==> s.files[i].task.Ended?)
    && |s.workers| > 0 && s.workers[0].pc.Decode? && !s.emit.Finished?
  }

  lemma HungWorker(c: Config, s: State, w: nat, d: WorkerAction)
    requires Hung(s) && Shape(c, s) && w < |s.workers| && WorkerEnabled(c, s, w, d)
    ensures Hung(WorkerStep(c, s, w, d))
  {
    assert WorkerShape(c, s, s.workers[w], w);
  }

  lemma HungEmit(c: Config, s: State, e: EmitAction)
    requires Hung(s) && Shape(c, s) && EmitEnabled(c, s, e)
    ensures Hung(EmitStep(c, s, e))
  {
  }

  /** Whoever hangs so hangs for good: whatever happens then, the cancellation of the caller's
      context included, the iteration does not finish. */
  lemma HungForGood(c: Config, s: State, t: State)
    requires Hung(s) && Next(c, s, t)
    ensures Hung(t)
  {
    var a :| Step(c, s, a, t);
    match a
    case ByFetcher(f) =>
    case ByTask(fi, b) =>
    case ByWorker(w, d) => HungWorker(c, s, w, d);
    case ByEmit(b) => HungEmit(c, s, b);
    case ParentCancel =>
  }

  function NoRows(): FileRef { FileRef(0, "", "", 0, 0, 0, 0) }

  // The workers when file 0 has reached worker 0, which is at pc with it; others stop up to n.
  function Handed(c: Config, pc: WorkerPc, n: nat): seq<Worker>
    requires c.workers >= 1
  {
    seq(c.workers, w requires 0 <= w < c.workers =>
      if w == 0 then Worker(0, pc, if pc.Take? then [0] else [], c.workers, [], 0, false, 0)
      else Worker(w, if w < n then Stopped else Take, [], w, [], 0, false, w))
  }

  lemma HandedInPlace(c: Config, pc: WorkerPc, n: nat)
    requires c.workers >= 1
    ensures AllInPlace(c, Handed(c, pc, n))
  {
    forall w | 0 <= w < c.workers ensures InPlace(c, Handed(c, pc, n)[w], w) { SmallMod(w, c.workers); }
  }

  // The lost file is with worker 0, at pc, and the fetcher is through.
  function Lone(c: Config, pc: WorkerPc, n: nat): State
    requires c.workers >= 1
  {
    Early(Given(NoRows(), Ended(true), true), FetchDone, 1, true, 0, 0, Handed(c, pc, n), true)
  }

  lemma LoneShape(c: Config, pc: WorkerPc, n: nat)
    requires c.Valid()
    ensures Shape(c, Lone(c, pc, n))
  {
    HandedInPlace(c, pc, n);
    EarlyShape(c, Lone(c, pc, n));
  }

  lemma HandLostFile(c: Config)
    requires c.Valid() && !c.promptGet
    ensures Reachable(c, Lone(c, Take, 1))
  {
    SmallMod(0, c.workers);
    HandedInPlace(c, Take, 1);
    var s := GiveOne(c, NoRows());
    s := Advance(c, s, ByFetcher(HandOver));
    assert s.workers[0] == Handed(c, Take, 1)[0];
    assert forall w :: 1 <= w < c.workers ==> s.workers[w] == Handed(c, Take, 1)[w];
    assert s.workers == Handed(c, Take, 1);
    s := LoseIt(c, NoRows(), Pull, 1, Handed(c, Take, 1));
    s := Advance(c, s, ByFetcher(SourceEnds));
    EarlyShape(c, s);
    s := Advance(c, s, ByFetcher(DrainDone));
  }

  // Worker 0 goes on with the file.
  lemma LoneStep(c: Config, before: WorkerPc, after: WorkerPc, d: WorkerAction)
    requires c.Valid() && Reachable(c, Lone(c, before, 1))
    requires (before == Take && after == Wait && d == TakeNext) || (before == Wait && after == Check && d == Wake) ||
             (before == Check && after == Reserve && d == CheckCause) || (before == Reserve && after == Decode && d == TryReserve)
    ensures Reachable(c, Lone(c, after, 1))
  {
    LoneShape(c, before, 1);
    var s := Lone(c, before, 1);
    var t := Advance(c, s, ByWorker(0, d));
    hide Reachable, Shape;
    assert t.workers[0] == Handed(c, after, 1)[0];
    assert forall w :: 1 <= w < c.workers ==> t.workers[w] == Handed(c, after, 1)[w];
    assert t.workers == Handed(c, after, 1);
  }

  lemma {:induction false} OthersStop(c: Config, n: nat)
    requires c.Valid() && 1 <= n <= c.workers && Reachable(c, Lone(c, Decode, 1))
    ensures Reachable(c, Lone(c, Decode, n))
  {
    if n > 1 {
      OthersStop(c, n - 1);
      LoneShape(c, Decode, n - 1);
      var t := Advance(c, Lone(c, Decode, n - 1), ByWorker(n - 1, TakeEnd));
      hide Reachable, Shape;
      assert t.workers == Handed(c, Decode, n);
    }
  }

  /** Without the GET hypothesis, for every configuration, one early context error can hang the
      pipeline: nobody can move, and the caller's cancellation does not help. */
  lemma EarlyGetErrorHangs(c: Config) returns (s: State)
    requires c.Valid() && !c.promptGet
    ensures Reachable(c, s) && Shape(c, s) && Hung(s) && !CanMove(c, s) && !WaitsForSource(s)
  {
    hide Reachable, Shape, CanMove, Hung, Lone, WaitsForSource;
    HandLostFile(c);
    LoneStep(c, Take, Wait, TakeNext);
    LoneStep(c, Wait, Check, Wake);
    LoneStep(c, Check, Reserve, CheckCause);
    LoneStep(c, Reserve, Decode, TryReserve);
    OthersStop(c, c.workers);
    s := Lone(c, Decode, c.workers);
    LoneShape(c, Decode, c.workers);
    LoneHangs(c);
    NobodyMoves(c);
  }

  lemma LoneHangs(c: Config)
    requires c.Valid()
    ensures Hung(Lone(c, Decode, c.workers)) && !WaitsForSource(Lone(c, Decode, c.workers))
  {
  }

  lemma NobodyMoves(c: Config)
    requires c.Valid() && Shape(c, Lone(c, Decode, c.workers))
    ensures !CanMove(c, Lone(c, Decode, c.workers))
  {
    SmallMod(0, c.workers);
  }

  // Some actor can take an ordinary step, or the pipeline waits for its source, or is done.
  ghost predicate NeverStuckAnywhere(c: Config)
    requires c.Valid()
  {
    forall s :: Reachable(c, s) && Shape(c, s) && !s.emit.Finished? ==> CanMove(c, s) || WaitsForSource(s)
  }

  /** Freedom from deadlock rests on the GET hypothesis and on nothing else. */
  lemma NeverStuckExactly(c: Config)
    requires c.Valid()
    ensures NeverStuckAnywhere(c) <==> c.promptGet
  {
    if c.promptGet {
      forall s | Reachable(c, s) && Shape(c, s) && !s.emit.Finished? ensures CanMove(c, s) || WaitsForSource(s) { NeverStuck(c, s); }
    } else {
      var s := EarlyGetErrorHangs(c);
    }
  }
}

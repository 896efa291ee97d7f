/** Main results about every run of the poll pipeline. */
module PollTheorems {
  import opened Wrappers
  import opened Counting
  import opened Dedup
  import opened Prepare
  import opened PollPipeline
  import opened PollInvariant
  import opened PollSteps
  import opened PollFlow

  // ---------- runs ----------

  lemma InitHolds(c: Config)
    requires c.Valid() && c.promptGet
    ensures Inv(c, Init(c))
  {
    var s := Init(c);
    forall w | 0 <= w < |s.workers| ensures WorkerShape(c, s, s.workers[w], w) { SmallMod(w, c.workers); }
    forall w | 0 <= w < |s.workers| ensures BytesAt(c, s, w) { assert HeldUnits(c, s, w) == []; }
  }

  lemma SmallMod(a: nat, m: nat)
    requires a < m
    ensures a % m == a
  {
  }

  lemma InitShape(c: Config)
    requires c.Valid()
    ensures Shape(c, Init(c))
  {
    var s := Init(c);
    forall w | 0 <= w < |s.workers| ensures WorkerShape(c, s, s.workers[w], w) { SmallMod(w, c.workers); }
  }

  ghost predicate Step(c: Config, s: State, a: Action, t: State)
  {
    Shape(c, s) && Enabled(c, s, a) && t == Apply(c, s, a)
  }

  ghost predicate Next(c: Config, s: State, t: State)
  {
    exists a :: Step(c, s, a, t)
  }

  ghost predicate IsRun(c: Config, run: seq<State>)
    requires c.Valid()
  {
    && |run| > 0 && run[0] == Init(c)
    && forall i :: 0 <= i < |run| - 1 ==> Next(c, run[i], run[i + 1])
  }

  ghost predicate Reachable(c: Config, s: State)
    requires c.Valid()
  {
    exists run :: IsRun(c, run) && run[|run| - 1] == s
  }

  lemma StepKeepsInv(c: Config, s: State, t: State)
    requires Inv(c, s) && Next(c, s, t)
    ensures Inv(c, t)
  {
    var a :| Step(c, s, a, t);
    match a
    case ByFetcher(f) => FetchKeeps(c, s, f, t);
    case ByTask(fi, b) => TaskKeeps(c, s, fi, b, t);
    case ByWorker(w, d) => WorkerKeeps(c, s, w, d, t);
    case ByEmit(b) => EmitKeeps(c, s, b, t);
    case ParentCancel => CancelKeeps(c, s, t);
  }

  lemma {:induction false} RunKeepsInv(c: Config, run: seq<State>, i: nat)
    requires c.Valid() && c.promptGet && IsRun(c, run) && i < |run|
    ensures Inv(c, run[i])
  {
    if i == 0 {
      InitHolds(c);
    } else {
      RunKeepsInv(c, run, i - 1);
      assert Next(c, run[i - 1], run[i - 1 + 1]);
      StepKeepsInv(c, run[i - 1], run[i]);
    }
  }

  lemma ReachableHolds(c: Config, s: State)
    requires c.Valid() && c.promptGet && Reachable(c, s)
    ensures Inv(c, s)
  {
    var run :| IsRun(c, run) && run[|run| - 1] == s;
    RunKeepsInv(c, run, |run| - 1);
  }

  lemma ReachableStep(c: Config, s: State, a: Action, t: State)
    requires c.Valid() && Reachable(c, s) && Step(c, s, a, t)
    ensures Reachable(c, t)
  {
    var run :| IsRun(c, run) && run[|run| - 1] == s;
    var longer := run + [t];
    forall i | 0 <= i < |longer| - 1 ensures Next(c, longer[i], longer[i + 1]) {
      if i == |run| - 1 { assert Next(c, s, t); } else { assert Next(c, run[i], run[i + 1]); }
    }
    assert IsRun(c, longer) && longer[|longer| - 1] == t;
  }

  // The first cause sticks, and no call is taken back.
  predicate Extends(s: State, t: State)
  {
    (s.cause.Some? ==> t.cause == s.cause) && s.calls <= t.calls
  }

  lemma FetchExtends(c: Config, s: State, a: FetchAction)
    requires c.workers >= 1 && Shape(c, s) && FetchEnabled(c, s, a)
    ensures Extends(s, FetchStep(c, s, a))
  {
  }

  lemma TaskExtends(c: Config, s: State, fi: nat, a: TaskAction)
    requires c.workers >= 1 && Shape(c, s) && fi < |s.files| && TaskEnabled(c, s, s.files[fi].task, a)
    ensures Extends(s, TaskStep(c, s, fi, a))
  {
  }

  lemma WorkerExtends(c: Config, s: State, w: nat, a: WorkerAction)
    requires c.workers >= 1 && Shape(c, s) && w < |s.workers| && WorkerEnabled(c, s, w, a)
    ensures Extends(s, WorkerStep(c, s, w, a))
  {
  }

  lemma EmitExtends(c: Config, s: State, a: EmitAction)
    requires c.workers >= 1 && Shape(c, s) && EmitEnabled(c, s, a)
    ensures Extends(s, EmitStep(c, s, a))
  {
  }

  lemma StepExtends(c: Config, s: State, t: State)
    requires Next(c, s, t)
    ensures Extends(s, t)
  {
    var a :| Step(c, s, a, t);
    hide Extends;
    match a
    case ByFetcher(f) => FetchExtends(c, s, f);
    case ByTask(fi, b) => TaskExtends(c, s, fi, b);
    case ByWorker(w, d) => WorkerExtends(c, s, w, d);
    case ByEmit(b) => EmitExtends(c, s, b);
    case ParentCancel => CancelExtends(s, t);
  }

  lemma CancelExtends(s: State, t: State)
    requires s.cause.None? && t == s.(cause := Some(ParentCancelled))
    ensures Extends(s, t)
  {
  }

  predicate ExtendsAt(run: seq<State>, k: nat) { 0 < k < |run| ==> Extends(run[k - 1], run[k]) }

  lemma RunTakes(c: Config, run: seq<State>, k: nat)
    requires c.Valid() && IsRun(c, run) && 0 < k < |run|
    ensures Next(c, run[k - 1], run[k])
  {
    assert Next(c, run[k - 1], run[k - 1 + 1]);
  }

  lemma RunExtends(c: Config, run: seq<State>, k: nat)
    requires c.Valid() && IsRun(c, run)
    ensures ExtendsAt(run, k)
  {
    if 0 < k < |run| {
      RunTakes(c, run, k);
      StepExtends(c, run[k - 1], run[k]);
    }
  }

  lemma {:induction false} ExtendsAll(run: seq<State>, i: nat, j: nat)
    requires i <= j < |run| && forall k: nat :: ExtendsAt(run, k)
    ensures Extends(run[i], run[j])
  {
    if i < j {
      ExtendsAll(run, i, j - 1);
      assert ExtendsAt(run, j);
    }
  }

  /** The first cause sticks, whoever fails later, and no call is taken back. */
  lemma FirstCauseSticks(c: Config, run: seq<State>, i: nat, j: nat)
    requires c.Valid() && IsRun(c, run) && i <= j < |run|
    ensures run[i].cause.Some? ==> run[j].cause == run[i].cause
    ensures run[i].calls <= run[j].calls
  {
    forall k: nat ensures ExtendsAt(run, k) { RunExtends(c, run, k); }
    ExtendsAll(run, i, j);
  }

  // ---------- the sequential program ----------

  // Fetch and decode file after file, stopping before the first that does not decode.
  function SequentialPoll(c: Config, files: seq<FileRef>, from: nat := 0): seq<FileResult>
    requires from <= |files|
    decreases |files| - from
  {
    if from == |files| || Decoded(c, files[from]).None? then []
    else [FileResult(from, files[from], Decoded(c, files[from]).value)] + SequentialPoll(c, files, from + 1)
  }

  function Given(s: State): seq<FileRef> { seq(|s.files|, i requires 0 <= i < |s.files| => s.files[i].file) }

  function Yields(calls: seq<Call>): seq<FileResult>
  {
    if calls == [] then []
    else
      var rest, last := Yields(calls[..|calls| - 1]), calls[|calls| - 1];
      if last.Yielded? then rest + [last.result] else rest
  }

  // The results 0, 1, ... of the given files.
  ghost predicate InOrder(c: Config, s: State, rs: seq<FileResult>)
  {
    forall i :: 0 <= i < |rs| ==> rs[i].index == i && Good(c, s, rs[i])
  }

  lemma {:induction false} YieldsOfAll(c: Config, s: State, calls: seq<Call>)
    requires AllYielded(c, s, calls)
    ensures InOrder(c, s, Yields(calls)) && |Yields(calls)| == |calls|
  {
    if calls != [] {
      var n := |calls| - 1;
      forall i | 0 <= i < n ensures calls[..n][i] == calls[i] {}
      YieldsOfAll(c, s, calls[..n]);
      assert calls[n].Yielded? && calls[n].result.index == n && Good(c, s, calls[n].result);
    }
  }

  lemma LastYieldInOrder(c: Config, s: State, i: nat, ok: bool)
    requires LastYield(c, s, s.calls, i, ok)
    ensures InOrder(c, s, Yields(s.calls))
  {
    YieldsOfAll(c, s, s.calls[..i]);
    assert s.calls[..|s.calls| - 1] == s.calls[..i];
  }

  lemma YieldsInOrder(c: Config, s: State)
    requires CallsOk(c, s)
    ensures InOrder(c, s, Yields(s.calls))
  {
    match s.emit
    case Recv(_) => YieldsOfAll(c, s, s.calls);
    case Deliver(_) => YieldsOfAll(c, s, s.calls);
    case Unreserve(i, ok) => LastYieldInOrder(c, s, i, ok);
    case Ring(i, ok) => LastYieldInOrder(c, s, i, ok);
    case _ =>
      if CleanEnd(c, s) {
        YieldsOfAll(c, s, s.calls);
      } else {
        var k := |s.calls| - 1;
        if s.calls[k].Yielded? { LastYieldInOrder(c, s, k, s.calls[k].ok); } else { YieldsOfAll(c, s, s.calls[..k]); }
      }
  }

  lemma {:induction false} InOrderIsPrefix(c: Config, s: State, rs: seq<FileResult>, from: nat)
    requires InOrder(c, s, rs) && from <= |rs|
    ensures |rs| <= |s.files| && rs[from..] <= SequentialPoll(c, Given(s), from)
    decreases |rs| - from
  {
    if |rs| > 0 { assert Good(c, s, rs[|rs| - 1]); }
    if from < |rs| {
      assert Good(c, s, rs[from]) && rs[from].index == from;
      InOrderIsPrefix(c, s, rs, from + 1);
      assert rs[from..] == [rs[from]] + rs[from + 1..];
    }
  }

  lemma {:induction false} SequentialBound(c: Config, files: seq<FileRef>, from: nat)
    requires from <= |files|
    ensures |SequentialPoll(c, files, from)| <= |files| - from
    decreases |files| - from
  {
    if from < |files| { SequentialBound(c, files, from + 1); }
  }

  /** The emissions are, at any time, a prefix of the sequential program's on the files the
      source has given: source order, every file decoded, none skipped or repeated. */
  lemma RefinesSequentialPoll(c: Config, s: State)
    requires c.Valid() && c.promptGet && Reachable(c, s)
    ensures Yields(s.calls) <= SequentialPoll(c, Given(s))
  {
    ReachableHolds(c, s);
    var rs := Yields(s.calls);
    YieldsInOrder(c, s);
    InOrderIsPrefix(c, s, rs, 0);
    assert rs[0..] == rs;
  }

  predicate Failed(calls: seq<Call>) { exists i :: 0 <= i < |calls| && calls[i].Errored? }

  predicate ConsumerBroke(calls: seq<Call>) { exists i :: 0 <= i < |calls| && calls[i].Yielded? && !calls[i].ok }

  predicate Ended(s: State) { s.emit.Close? || s.emit.Join? || s.emit.Finished? }

  lemma OverIsClean(c: Config, s: State)
    requires Over(c, s) && !Failed(s.calls) && !ConsumerBroke(s.calls)
    ensures CleanEnd(c, s)
  {
    if |s.calls| > 0 {
      var last := s.calls[|s.calls| - 1];
      assert last.Yielded? && last.ok;
    }
  }

  /** An end without an error call and without a break of the consumer is complete: every file
      the source gave was emitted, and a prompt source had come to its own end. */
  lemma CleanEndIsComplete(c: Config, s: State)
    requires c.Valid() && c.promptGet && Reachable(c, s) && Ended(s) && !Failed(s.calls) && !ConsumerBroke(s.calls)
    ensures Yields(s.calls) == SequentialPoll(c, Given(s)) && |Yields(s.calls)| == |s.files|
    ensures c.promptSource ==> s.eos
  {
    ReachableCalls(c, s);
    OverIsClean(c, s);
    YieldsOfAll(c, s, s.calls);
    RefinesSequentialPoll(c, s);
    SequentialBound(c, Given(s), 0);
  }

  lemma ReachableCalls(c: Config, s: State)
    requires c.Valid() && c.promptGet && Reachable(c, s)
    ensures CallsOk(c, s)
  {
    ReachableHolds(c, s);
  }

  /** emitOne gets at most one error, as its last call, with the recorded cause; and after it
      returns false it is not called again. */
  lemma CallShape(c: Config, s: State, i: nat)
    requires c.Valid() && c.promptGet && Reachable(c, s) && i < |s.calls|
    ensures s.calls[i].Errored? || !s.calls[i].ok ==> i == |s.calls| - 1
    ensures s.calls[i].Errored? ==> Ended(s) && s.cause == Some(s.calls[i].cause)
  {
    ReachableCalls(c, s);
    EarlierIsFine(c, s, i);
  }

  lemma EarlierIsFine(c: Config, s: State, i: nat)
    requires CallsOk(c, s) && i < |s.calls|
    ensures s.calls[i].Errored? || !s.calls[i].ok ==> i == |s.calls| - 1
    ensures s.calls[i].Errored? ==> Ended(s) && s.cause == Some(s.calls[i].cause)
  {
    var k := |s.calls| - 1;
    if i < k { assert s.calls[..k][i] == s.calls[i]; }
    match s.emit
    case Unreserve(j, ok) => assert j == k;
    case Ring(j, ok) => assert j == k;
    case _ =>
  }

  /** A decode failure that is recorded is a true one. */
  lemma DecodeFailureIsTrue(c: Config, s: State, fi: nat)
    requires c.Valid() && c.promptGet && Reachable(c, s) && s.cause == Some(DecodeFailed(fi))
    ensures fi < |s.files| && Decoded(c, s.files[fi].file).None?
  {
    ReachableHolds(c, s);
  }

  /** With a byte cap, the worker's count is exactly what it reserved and did not yet get
      back, and it exceeds the cap only when one single file does. */
  lemma BudgetIsExact(c: Config, s: State, w: nat)
    requires c.Valid() && c.promptGet && Reachable(c, s) && c.byteCap > 0 && w < c.workers
    ensures w < |s.workers| && s.workers[w].buffered == SumBy(HeldUnits(c, s, w), Id)
    ensures w < |s.workers| && (s.workers[w].buffered <= c.byteCap || SumBy(HeldUnits(c, s, w), PositiveN) == 1)
  {
    ReachableHolds(c, s);
    assert BytesAt(c, s, w);
  }

  /** A worker at its reservation starts to decode exactly if its count is back at zero or has
      room for the file's size, and then counts it; without a budget, or for a file of no size,
      exactly if the context is alive. */
  lemma AdmittedExactly(c: Config, s: State, w: nat)
    requires Shape(c, s) && w < |s.workers| && WorkerEnabled(c, s, w, TryReserve)
    ensures s.workers[w].at < |s.files| && |WorkerStep(c, s, w, TryReserve).workers| == |s.workers|
    ensures var x, y, size := s.workers[w], WorkerStep(c, s, w, TryReserve).workers[w], s.files[s.workers[w].at].file.uncompressedSize;
      if c.byteCap > 0 && size > 0 then
        (y.pc.Decode? <==> x.buffered <= 0 || x.buffered + size <= c.byteCap) && y.buffered == x.buffered + if y.pc.Decode? then size else 0
      else (y.pc.Decode? <==> !s.Stop()) && y.buffered == x.buffered
  {
  }

  // ---------- no deadlock ----------

  // No outside event: no failing GET, no cancellation, no break, nothing new from the source.
  predicate Ordinary(s: State, a: Action)
  {
    match a
    case ByFetcher(f) => !f.SourceYields? && !f.SourceEnds? && (f.SourceFails? ==> !f.hard && s.Stop())
    case ByTask(_, t) => !t.GetFails?
    case ByEmit(ConsumerReturns(ok)) => ok
    case ParentCancel => false
    case _ => true
  }

  ghost predicate CanMove(c: Config, s: State)
    requires Shape(c, s)
  {
    exists a :: Ordinary(s, a) && Enabled(c, s, a)
  }

  lemma Moves(c: Config, s: State, a: Action)
    requires Shape(c, s) && Ordinary(s, a) && Enabled(c, s, a)
    ensures CanMove(c, s)
  {
  }

  lemma TaskMoves(c: Config, s: State, f: nat)
    requires Shape(c, s) && SlotsOk(c, s) && f < |s.files| && Pooled(s.files[f]) == 1
    ensures CanMove(c, s)
  {
    SumByAtLeast(s.files, f, Held);
    SumByAtLeast(s.files, f, Pooled);
    var a := match s.files[f].task
      case Getting => GetOk
      case FailRelease(_) => ReleaseSlot
      case FailRecord => RecordErr
      case Closing(_) => CloseDone
      case _ => ReturnTask;
    Moves(c, s, ByTask(f, a));
  }

  lemma BusyPoolMoves(c: Config, s: State)
    requires Shape(c, s) && SlotsOk(c, s) && s.pool > 0
    ensures CanMove(c, s)
  {
    var f := PositiveSumHasOne(s.files, Pooled);
    TaskMoves(c, s, f);
  }

  // A worker about to free its file's slot can.
  lemma SlotIsThere(c: Config, s: State, w: nat)
    requires Shape(c, s) && FilesOk(c, s) && SlotsOk(c, s) && WorkersOk(c, s) && AllTakenOk(c, s) && w < |s.workers|
    requires s.workers[w].pc.Drop? || s.workers[w].pc.Decode?
    ensures s.slots > 0
  {
    var x := s.workers[w];
    assert WorkerShape(c, s, x, w) && WorkerOk(c, s, x);
    assert TakenOk(s.files[x.at], x.at, s.workers[WorkerOf(c, x.at)]) && FileOk(c, s.files[x.at]);
    SumByAtLeast(s.files, x.at, Held);
  }

  // After the context is cancelled everyone can leave.
  lemma StoppedWorkerMoves(c: Config, s: State, w: nat)
    requires Shape(c, s) && FilesOk(c, s) && SlotsOk(c, s) && WorkersOk(c, s) && AllTakenOk(c, s)
    requires s.Stop() && w < |s.workers| && !s.workers[w].pc.Stopped?
    ensures CanMove(c, s)
  {
    assert WorkerShape(c, s, s.workers[w], w);
    if s.workers[w].pc.Drop? || s.workers[w].pc.Decode? { SlotIsThere(c, s, w); }
    var a := match s.workers[w].pc
      case Take => TakeStop case Wait => Wake case Check => CheckCause case Reserve => TryReserve case Park => ParkStop
      case Drop => DropSlot case Decode => DecodeFile case Send(_) => SendTry case SendWait(_) => SendDrop
      case Abort(_) => AbortRelease case Fail => RecordFail case Stopped => Wake;
    Moves(c, s, ByWorker(w, a));
  }

  lemma StoppedFetcherMoves(c: Config, s: State)
    requires c.Valid() && Shape(c, s) && SlotsOk(c, s) && s.Stop() && !s.fetch.FetchDone?
    ensures CanMove(c, s)
  {
    if s.fetch.Drain? && s.pool > 0 {
      BusyPoolMoves(c, s);
    } else {
      var a := match s.fetch
        case Pull => SourceFails(false)
        case Acquire(_) => if s.slots < c.bodyCap then AcquireSlot else AcquireFull
        case AcquireWait(_) => AcquireStop
        case Submit(_) => SubmitSkip
        case Hand => HandStop
        case _ => DrainDone;
      Moves(c, s, ByFetcher(a));
    }
  }

  // ---------- the emit loop waits on a live pipeline ----------

  lemma {:induction false} ChainAhead(q: seq<FileResult>, next: nat, at: nat, step: nat)
    requires Chain(q, next, at, step)
    ensures next <= at
  {
    if |q| > 0 { ChainAhead(q[1..], next + step, at, step); }
  }

  // What was received had been handed to a worker.
  lemma ReceivedWasHanded(c: Config, s: State)
    requires c.Valid() && Shape(c, s) && QueuesOk(c, s) && InputsOk(c, s)
    ensures s.received <= s.handed
  {
    var v := WorkerOf(c, s.handed);
    var x := s.workers[v];
    assert QueueOk(c, s, x) && InputOk(c, s, x);
    TurnIsNext(c, s, v);
    ChainAhead(x.queue, x.next, x.at, c.workers);
  }

  // A received file holds no slot any more.
  lemma ReceivedHoldsNothing(c: Config, s: State, i: nat)
    requires c.Valid() && Shape(c, s) && FilesOk(c, s) && AllTakenOk(c, s) && QueuesOk(c, s) && i < s.received && i < |s.files|
    ensures Held(s.files[i]) == 0
  {
    var x := s.workers[WorkerOf(c, i)];
    assert QueueOk(c, s, x);
    assert WorkerShape(c, s, x, WorkerOf(c, i));
    ChainAhead(x.queue, x.next, x.at, c.workers);
    assert TakenOk(s.files[i], i, x) && FileOk(c, s.files[i]);
  }

  lemma NothingHeld(c: Config, s: State)
    requires c.Valid() && Shape(c, s) && FilesOk(c, s) && AllTakenOk(c, s) && QueuesOk(c, s) && SlotsOk(c, s)
    requires s.received == |s.files|
    ensures s.slots == if s.fetch.Submit? then 1 else 0
  {
    forall i | 0 <= i < |s.files| ensures Held(s.files[i]) == 0 { ReceivedHoldsNothing(c, s, i); }
    SumByZero(s.files, Held);
  }

  // Everything the source gave was handed over, and the next file is being asked for.
  predicate WaitsForSource(s: State) { s.fetch.Pull? && s.received == |s.files| }

  // The awaited worker has nothing to take, and everything handed over was received.
  lemma FetcherMoves(c: Config, s: State, w: nat)
    requires c.Valid() && Shape(c, s) && FilesOk(c, s) && SlotsOk(c, s) && AllTakenOk(c, s) && QueuesOk(c, s) && InputsOk(c, s)
    requires s.emit.Recv? && w == WorkerOf(c, s.emit.counter) && |s.workers[w].queue| == 0
    requires s.workers[w].pc.Take? && |s.workers[w].input| == 0 && !s.fetch.FetchDone?
    ensures CanMove(c, s) || WaitsForSource(s)
  {
    var x := s.workers[w];
    assert QueueOk(c, s, x) && InputOk(c, s, x);
    MeetsWaiting(c, s, w);
    ReceivedWasHanded(c, s);
    assert s.received == s.handed == x.upto;
    match s.fetch
    case Pull =>
    case Acquire(_) => Moves(c, s, ByFetcher(if s.slots < c.bodyCap then AcquireSlot else AcquireFull));
    case AcquireWait(_) => NothingHeld(c, s); Moves(c, s, ByFetcher(AcquireSlow));
    case Submit(_) => if s.pool < c.poolCap { Moves(c, s, ByFetcher(SubmitTask)); } else { BusyPoolMoves(c, s); }
    case Hand => Moves(c, s, ByFetcher(HandOver));
    case Drain => if s.pool == 0 { Moves(c, s, ByFetcher(DrainDone)); } else { BusyPoolMoves(c, s); }
    case FetchDone =>
  }

  // Parked with nothing held: the predicate holds, so the bell was rung.
  lemma EmptyBudgetRings(c: Config, s: State, w: nat)
    requires c.Valid() && BytesOk(c, s) && BellsOk(c, s) && w < |s.workers|
    requires s.emit.Recv? && |s.workers[w].queue| == 0 && s.workers[w].pc.Park?
    ensures s.workers[w].bell
  {
    assert HeldUnits(c, s, w) == [];
    assert BytesAt(c, s, w) && BellAt(c, s, w);
  }

  lemma AwaitedWorkerMoves(c: Config, s: State, w: nat)
    requires Inv(c, s) && !s.Stop() && s.emit.Recv? && w == WorkerOf(c, s.emit.counter) && |s.workers[w].queue| == 0
    requires !s.workers[w].pc.Take?
    ensures CanMove(c, s)
  {
    var x := s.workers[w];
    assert WorkerShape(c, s, x, w) && WorkerOk(c, s, x);
    match x.pc
    case Stopped => Moves(c, s, ByEmit(ReceiveEnd));
    case Take =>
    case Wait => if s.files[x.at].done { Moves(c, s, ByWorker(w, Wake)); } else { UndoneMoves(c, s, x.at); }
    case Check => Moves(c, s, ByWorker(w, CheckCause));
    case Reserve => Moves(c, s, ByWorker(w, TryReserve));
    case Park => EmptyBudgetRings(c, s, w); Moves(c, s, ByWorker(w, ParkWake));
    case Drop => SlotIsThere(c, s, w); Moves(c, s, ByWorker(w, DropSlot));
    case Decode => SlotIsThere(c, s, w); Moves(c, s, ByWorker(w, DecodeFile));
    case Send(_) => Moves(c, s, ByWorker(w, SendTry));
    case SendWait(_) => Moves(c, s, ByWorker(w, SendSlow));
    case Abort(_) => Moves(c, s, ByWorker(w, AbortRelease));
    case Fail => Moves(c, s, ByWorker(w, RecordFail));
  }

  lemma UndoneMoves(c: Config, s: State, i: nat)
    requires Shape(c, s) && FilesOk(c, s) && SlotsOk(c, s) && CauseOk(c, s) && i < |s.files| && !s.Stop() && !s.files[i].done
    ensures CanMove(c, s)
  {
    assert FileOk(c, s.files[i]) && !FailureRecorded(s.files[i].task);
    TaskMoves(c, s, i);
  }

  lemma RecvMoves(c: Config, s: State)
    requires Inv(c, s) && s.emit.Recv?
    ensures CanMove(c, s) || WaitsForSource(s)
  {
    var w := WorkerOf(c, s.emit.counter);
    var x := s.workers[w];
    if s.Stop() { Moves(c, s, ByEmit(ReceiveStop)); }
    else if |x.queue| > 0 { Moves(c, s, ByEmit(Receive)); }
    else if !x.pc.Take? { AwaitedWorkerMoves(c, s, w); }
    else if |x.input| > 0 { Moves(c, s, ByWorker(w, TakeNext)); }
    else if s.fetch.FetchDone? { Moves(c, s, ByWorker(w, TakeEnd)); }
    else { FetcherMoves(c, s, w); }
  }

  /** No deadlock, with a body-slot cap of one or more and the GET hypothesis: until the end
      some actor can take an ordinary step, or else every file the source gave has been
      handed over and the pipeline waits for the source. */
  lemma NeverStuck(c: Config, s: State)
    requires c.Valid() && c.promptGet && Reachable(c, s) && !s.emit.Finished?
    ensures Shape(c, s)
    ensures CanMove(c, s) || WaitsForSource(s)
  {
    ReachableHolds(c, s);
    match s.emit
    case Recv(_) => RecvMoves(c, s);
    case Deliver(_) => Moves(c, s, ByEmit(ConsumerReturns(true)));
    case Unreserve(_, _) => Moves(c, s, ByEmit(ReleaseBytes));
    case Ring(_, _) => Moves(c, s, ByEmit(RingBell));
    case Close => Moves(c, s, ByEmit(CancelAll));
    case Join =>
      if w :| 0 <= w < |s.workers| && !s.workers[w].pc.Stopped? { StoppedWorkerMoves(c, s, w); }
      else if !s.fetch.FetchDone? { StoppedFetcherMoves(c, s); }
      else { Moves(c, s, ByEmit(AwaitAll)); }
    case Finished =>
  }

  /** Every body slot comes back, once. */
  lemma EverySlotReturns(c: Config, s: State)
    requires c.Valid() && c.promptGet && Reachable(c, s) && s.received == |s.files|
    ensures s.slots == if s.fetch.Submit? then 1 else 0
  {
    ReachableHolds(c, s);
    NothingHeld(c, s);
  }
}

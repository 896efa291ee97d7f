/** `pollFetchAndDecodeIter` (poll.go): the fetch/decode pipeline at file grain, over a source
    of unknown length, as a transition system. One action is one atomic effect of one actor:
    the fetcher with its source, a download task, a decode worker, the emit loop, or the
    caller's cancellation. */
module PollPipeline {
  import opened Wrappers
  import opened Dedup
  import opened Prepare

  type Body = seq<nat>

  datatype Config = Config(
    workers: nat,            // W, decode workers
    queueCap: nat,           // decodeAheadFiles; 0 is an unbuffered hand-off
    byteCap: int,            // decodeAheadBytes; <= 0 disables the budget
    poolCap: nat,
    bodyCap: nat,
    content: string -> Body,
    decode: Body -> Option<seq<Rec>>,
    // Hypothesis PROMPT_SOURCE: a poll of the source returns a context-class error only when
    // the pipeline's own context is already cancelled.
    promptSource: bool,
    // Hypothesis PROMPT_GET: the same of a GET.
    promptGet: bool)
  {
    predicate Valid() { workers >= 1 && poolCap >= 1 && bodyCap >= 1 }

    function InputCap(): nat { if queueCap > 1 then queueCap else 1 }
  }

  function Unit(f: FileRef): nat { if f.uncompressedSize > 0 then f.uncompressedSize else 0 }

  datatype FileResult = FileResult(index: nat, file: FileRef, records: seq<Rec>)

  datatype Cause = SourceFailed | GetFailed(fi: nat) | DecodeFailed(fi: nat) | ParentCancelled | Closed

  datatype BodySlot = Empty | Landed(body: Body) | Taken

  datatype Task =
    | Skipped                  // pool.Submit gave up; the body slot stays taken
    | Getting
    | FailRelease(hard: bool)  // about to release the body slot
    | FailRecord               // about to recordHardErr
    | Closing(failed: bool)    // about to close(done)
    | Returning(failed: bool)  // about to give back the pool slot
    | Ended(failed: bool)

  datatype FileState = FileState(file: FileRef, task: Task, body: BodySlot, done: bool)

  datatype Fetch =
    | Pull                     // asking the source for the next file
    | Acquire(file: FileRef)
    | AcquireWait(file: FileRef)
    | Submit(file: FileRef)
    | Hand                     // the last file goes to its worker's input
    | Drain                    // g.Wait
    | FetchDone                // and every input is closed

  datatype WorkerPc =
    | Take
    | Wait
    | Check                    // woken; about to read context.Cause
    | Reserve
    | Park
    | Drop                     // no budget; about to release the slot and drop the body
    | Decode
    | Send(recs: seq<Rec>)
    | SendWait(recs: seq<Rec>)
    | Abort(err: bool)         // about to release its own reservation and return
    | Fail                     // about to recordHardErr
    | Stopped                  // returned; its queue is closed

  datatype Worker = Worker(
    at: nat,                   // the file in hand, or the next one to take
    pc: WorkerPc,
    input: seq<nat>,
    upto: nat,                 // history: the next file the fetcher hands to this worker
    queue: seq<FileResult>,
    buffered: int,
    bell: bool,
    next: nat)                 // history: index of the result the emit loop takes next from here

  datatype Emit =
    | Recv(counter: nat)
    | Deliver(result: FileResult)
    | Unreserve(index: nat, ok: bool)
    | Ring(index: nat, ok: bool)
    | Close
    | Join
    | Finished

  datatype Call = Yielded(result: FileResult, ok: bool) | Errored(cause: Cause)

  datatype State = State(
    files: seq<FileState>,     // files the source gave, from the moment their slot was theirs
    fetch: Fetch,
    handed: nat,               // how many files reached an input
    eos: bool,                 // history: the source came to its own end
    slots: nat,
    pool: nat,
    workers: seq<Worker>,
    emit: Emit,
    received: nat,             // history: results taken from queues so far
    cause: Option<Cause>,
    groupDone: bool,
    calls: seq<Call>)
  {
    predicate Stop() { cause.Some? }
    predicate GroupStop() { groupDone || cause.Some? }
  }

  datatype FetchAction =
    | SourceYields(file: FileRef) | SourceEnds | SourceFails(hard: bool)
    | AcquireSlot | AcquireFull | AcquireSlow | AcquireStop | SubmitTask | SubmitSkip | HandOver | HandStop | DrainDone

  datatype TaskAction = GetOk | GetFails(hard: bool) | ReleaseSlot | RecordErr | CloseDone | ReturnTask

  datatype WorkerAction =
    | TakeNext | TakeEnd | TakeStop | Wake | CheckCause | TryReserve | ParkWake | ParkStop | DropSlot | DecodeFile
    | SendTry | SendSlow | SendDrop | AbortRelease | RecordFail

  datatype EmitAction = Receive | ReceiveStop | ReceiveEnd | ConsumerReturns(ok: bool) | ReleaseBytes | RingBell | CancelAll | AwaitAll

  datatype Action =
    | ByFetcher(f: FetchAction)
    | ByTask(fi: nat, t: TaskAction)
    | ByWorker(w: nat, d: WorkerAction)
    | ByEmit(e: EmitAction)
    | ParentCancel

  function WorkerOf(c: Config, index: nat): nat
    requires c.workers >= 1
  {
    index % c.workers
  }

  function RecordCause(s: State, cause: Cause): State
  {
    if s.cause.None? then s.(cause := Some(cause)) else s
  }

  function SetWorker(s: State, w: nat, x: Worker): State
    requires w < |s.workers|
  {
    s.(workers := s.workers[w := x])
  }

  function SetTask(s: State, fi: nat, t: Task): State
    requires fi < |s.files|
  {
    s.(files := s.files[fi := s.files[fi].(task := t)])
  }

  predicate InHand(pc: WorkerPc) { !pc.Take? && !pc.Stopped? }

  // Every index used by the next step is in range.
  predicate Shape(c: Config, s: State)
  {
    && c.workers >= 1 && |s.workers| == c.workers
    && (forall w :: 0 <= w < |s.workers| ==> WorkerShape(c, s, s.workers[w], w))
    && s.handed <= |s.files| <= s.handed + 1
    && (s.fetch.Hand? ==> |s.files| == s.handed + 1)
    && (s.fetch.Pull? || s.fetch.Acquire? || s.fetch.AcquireWait? || s.fetch.Submit? ==> |s.files| == s.handed)
    && EmitShape(s)
  }

  predicate WorkerShape(c: Config, s: State, x: Worker, w: nat)
  {
    && c.workers >= 1 && x.at % c.workers == w && x.next % c.workers == w && x.upto % c.workers == w
    && (InHand(x.pc) ==> x.at < |s.files|)
    && (forall i :: 0 <= i < |x.queue| ==> x.queue[i].index < |s.files|)
    && (forall i :: 0 <= i < |x.input| ==> x.input[i] < |s.files|)
  }

  predicate EmitShape(s: State)
  {
    match s.emit
    case Recv(i) => s.received == i
    case Deliver(b) => b.index < |s.files| && s.received == b.index + 1
    case Unreserve(i, _) => i < |s.files| && s.received == i + 1
    case Ring(i, _) => i < |s.files| && s.received == i + 1
    case _ => true
  }

  // ---------- the fetcher ----------

  predicate FetchEnabled(c: Config, s: State, a: FetchAction)
    requires Shape(c, s)
  {
    match a
    case SourceYields(_) => s.fetch.Pull?
    case SourceEnds => s.fetch.Pull?
    case SourceFails(hard) => s.fetch.Pull? && (!hard && c.promptSource ==> s.Stop())
    case AcquireSlot => s.fetch.Acquire? && s.slots < c.bodyCap
    case AcquireFull => s.fetch.Acquire? && s.slots >= c.bodyCap
    case AcquireSlow => s.fetch.AcquireWait? && s.slots < c.bodyCap
    case AcquireStop => s.fetch.AcquireWait? && s.GroupStop()
    case SubmitTask => s.fetch.Submit? && s.pool < c.poolCap
    case SubmitSkip => s.fetch.Submit? && s.GroupStop()
    case HandOver => s.fetch.Hand? && |s.workers[WorkerOf(c, s.handed)].input| < c.InputCap()
    case HandStop => s.fetch.Hand? && s.GroupStop()
    case DrainDone => s.fetch.Drain? && s.pool == 0
  }

  function FetchStep(c: Config, s: State, a: FetchAction): State
    requires Shape(c, s) && FetchEnabled(c, s, a)
  {
    match a
    case SourceYields(f) => s.(fetch := Acquire(f))
    case SourceEnds => s.(fetch := Drain, eos := true)
    case SourceFails(hard) => (if hard then RecordCause(s, SourceFailed) else s).(fetch := Drain)
    case AcquireSlot => s.(fetch := Submit(s.fetch.file), slots := s.slots + 1)
    case AcquireFull => s.(fetch := AcquireWait(s.fetch.file))
    case AcquireSlow => s.(fetch := Submit(s.fetch.file), slots := s.slots + 1)
    case AcquireStop => s.(fetch := Drain)
    case SubmitTask => s.(fetch := Hand, pool := s.pool + 1, files := s.files + [FileState(s.fetch.file, Getting, Empty, false)])
    case SubmitSkip => s.(fetch := Hand, files := s.files + [FileState(s.fetch.file, Skipped, Empty, false)])
    case HandOver =>
      var w := WorkerOf(c, s.handed);
      var x := s.workers[w];
      SetWorker(s, w, x.(input := x.input + [s.handed], upto := x.upto + c.workers)).(fetch := Pull, handed := s.handed + 1)
    case HandStop => s.(fetch := Drain)
    case DrainDone => s.(fetch := FetchDone)
  }

  // ---------- a download task ----------

  predicate TaskEnabled(c: Config, s: State, t: Task, a: TaskAction)
  {
    match a
    case GetOk => t.Getting?
    case GetFails(hard) => t.Getting? && (!hard && c.promptGet ==> s.Stop())
    case ReleaseSlot => t.FailRelease? && s.slots > 0
    case RecordErr => t.FailRecord?
    case CloseDone => t.Closing?
    case ReturnTask => t.Returning? && s.pool > 0
  }

  function TaskStep(c: Config, s: State, fi: nat, a: TaskAction): State
    requires fi < |s.files| && TaskEnabled(c, s, s.files[fi].task, a)
  {
    var f := s.files[fi];
    match a
    case GetOk => s.(files := s.files[fi := f.(task := Closing(false), body := Landed(c.content(f.file.s3Key)))])
    case GetFails(hard) => SetTask(s, fi, FailRelease(hard))
    case ReleaseSlot => SetTask(s, fi, if f.task.hard then FailRecord else Closing(true)).(slots := s.slots - 1)
    case RecordErr => SetTask(RecordCause(s, GetFailed(fi)), fi, Closing(true))
    case CloseDone => s.(files := s.files[fi := f.(task := Returning(f.task.failed), done := true)])
    case ReturnTask =>
      SetTask(s, fi, Ended(f.task.failed)).(pool := s.pool - 1, groupDone := s.groupDone || f.task.failed)
  }

  // ---------- a decode worker ----------

  predicate HasSpace(c: Config, s: State, w: nat)
    requires w < |s.workers|
  {
    if c.queueCap > 0 then |s.workers[w].queue| < c.queueCap
    else c.workers >= 1 && s.emit.Recv? && s.emit.counter % c.workers == w
  }

  predicate Fits(c: Config, x: Worker, unit: int)
  {
    x.buffered <= 0 || x.buffered + unit <= c.byteCap
  }

  predicate WorkerEnabled(c: Config, s: State, w: nat, a: WorkerAction)
    requires Shape(c, s) && w < |s.workers|
  {
    var x := s.workers[w];
    match a
    case TakeNext => x.pc.Take? && |x.input| > 0
    case TakeEnd => x.pc.Take? && |x.input| == 0 && s.fetch.FetchDone?
    case TakeStop => x.pc.Take? && s.Stop()
    case Wake => x.pc.Wait? && (s.Stop() || s.files[x.at].done)
    case CheckCause => x.pc.Check?
    case TryReserve => x.pc.Reserve?
    case ParkWake => x.pc.Park? && x.bell
    case ParkStop => x.pc.Park? && s.Stop()
    case DropSlot => x.pc.Drop? && s.slots > 0
    case DecodeFile => x.pc.Decode? && s.slots > 0
    case SendTry => x.pc.Send?
    case SendSlow => x.pc.SendWait? && HasSpace(c, s, w)
    case SendDrop => x.pc.SendWait? && s.Stop()
    case AbortRelease => x.pc.Abort?
    case RecordFail => x.pc.Fail?
  }

  // One trip through reserveBytes' loop, for a file of this size.
  function Reserved(c: Config, stop: bool, x: Worker, u: nat): Worker
  {
    if c.byteCap <= 0 || u == 0 then x.(pc := if stop then Drop else Decode)
    else if Fits(c, x, u) then x.(pc := Decode, buffered := x.buffered + u)
    else x.(pc := if stop then Drop else Park)
  }

  function Aborted(x: Worker, u: nat): Worker
  {
    var y := x.(pc := if x.pc.Abort? && x.pc.err then Fail else Stopped);
    if u == 0 then y else y.(buffered := x.buffered - u, bell := true)
  }

  // Actions that change nothing but the worker's own record.
  predicate IsLocal(a: WorkerAction)
  {
    !a.DropSlot? && !a.DecodeFile? && !a.SendTry? && !a.SendSlow? && !a.RecordFail?
  }

  function Local(c: Config, stop: bool, x: Worker, u: nat, a: WorkerAction): Worker
  {
    match a
    case TakeNext => if |x.input| > 0 then x.(pc := Wait, at := x.input[0], input := x.input[1..]) else x
    case TakeEnd => x.(pc := Stopped)
    case TakeStop => x.(pc := Stopped)
    case Wake => x.(pc := Check)
    case CheckCause => x.(pc := if stop then Stopped else Reserve)
    case TryReserve => Reserved(c, stop, x, u)
    case ParkWake => x.(pc := Reserve, bell := false)
    case ParkStop => x.(pc := Drop)
    case SendDrop => x.(pc := Abort(false))
    case AbortRelease => Aborted(x, u)
    case _ => x
  }

  function UnitAt(s: State, at: nat): nat { if at < |s.files| then Unit(s.files[at].file) else 0 }

  // The body goes, and its slot comes back.
  function Free(s: State, fi: nat): State
    requires fi < |s.files| && s.slots > 0
  {
    s.(files := s.files[fi := s.files[fi].(body := Taken)], slots := s.slots - 1)
  }

  function DecodeResult(c: Config, f: FileState): Option<seq<Rec>>
  {
    if f.body.Landed? then c.decode(f.body.body) else None
  }

  // The result leaves the worker: into the buffer, or straight to the waiting receiver.
  function Enqueue(c: Config, s: State, w: nat, b: FileResult): State
    requires w < |s.workers|
  {
    var x := s.workers[w].(at := s.workers[w].at + c.workers, pc := Take);
    if c.queueCap > 0 then SetWorker(s, w, x.(queue := x.queue + [b]))
    else SetWorker(s, w, x.(next := x.next + c.workers)).(emit := Deliver(b), received := s.received + 1)
  }

  function ResultOf(s: State, fi: nat, recs: seq<Rec>): FileResult
    requires fi < |s.files|
  {
    FileResult(fi, s.files[fi].file, recs)
  }

  function WorkerStep(c: Config, s: State, w: nat, a: WorkerAction): State
    requires Shape(c, s) && w < |s.workers| && WorkerEnabled(c, s, w, a)
  {
    var x := s.workers[w];
    assert WorkerShape(c, s, x, w);
    match a
    case DropSlot => SetWorker(Free(s, x.at), w, x.(pc := Stopped))
    case DecodeFile =>
      var r := DecodeResult(c, s.files[x.at]);
      SetWorker(Free(s, x.at), w, x.(pc := if r.Some? then Send(r.value) else Abort(true)))
    case SendTry =>
      if HasSpace(c, s, w) then Enqueue(c, s, w, ResultOf(s, x.at, x.pc.recs)) else SetWorker(s, w, x.(pc := SendWait(x.pc.recs)))
    case SendSlow => Enqueue(c, s, w, ResultOf(s, x.at, x.pc.recs))
    case RecordFail => SetWorker(RecordCause(s, DecodeFailed(x.at)), w, x.(pc := Stopped))
    case _ => SetWorker(s, w, Local(c, s.Stop(), x, UnitAt(s, x.at), a))
  }

  // ---------- the emit loop ----------

  predicate EmitEnabled(c: Config, s: State, a: EmitAction)
    requires Shape(c, s)
  {
    match a
    case Receive => s.emit.Recv? && |s.workers[WorkerOf(c, s.emit.counter)].queue| > 0
    case ReceiveStop => s.emit.Recv? && s.Stop()
    case ReceiveEnd => s.emit.Recv? && |s.workers[WorkerOf(c, s.emit.counter)].queue| == 0 && s.workers[WorkerOf(c, s.emit.counter)].pc.Stopped?
    case ConsumerReturns(_) => s.emit.Deliver?
    case ReleaseBytes => s.emit.Unreserve?
    case RingBell => s.emit.Ring?
    case CancelAll => s.emit.Close?
    case AwaitAll => s.emit.Join? && s.fetch.FetchDone? && forall w :: 0 <= w < |s.workers| ==> s.workers[w].pc.Stopped?
  }

  function EmitNext(index: nat, ok: bool): Emit { if ok then Recv(index + 1) else Close }

  function EmitStep(c: Config, s: State, a: EmitAction): State
    requires Shape(c, s) && EmitEnabled(c, s, a)
  {
    match a
    case Receive =>
      var w := WorkerOf(c, s.emit.counter);
      var x := s.workers[w];
      SetWorker(s, w, x.(queue := x.queue[1..], next := x.next + c.workers))
        .(emit := Deliver(x.queue[0]), received := s.received + 1)
    case ReceiveStop => s.(emit := Close, calls := s.calls + [Errored(s.cause.value)])
    case ReceiveEnd => s.(emit := Close, calls := if s.Stop() then s.calls + [Errored(s.cause.value)] else s.calls)
    case ConsumerReturns(ok) =>
      s.(emit := Unreserve(s.emit.result.index, ok), calls := s.calls + [Yielded(s.emit.result, ok)])
    case ReleaseBytes =>
      var w := WorkerOf(c, s.emit.index);
      var u := UnitAt(s, s.emit.index);
      if u == 0 then s.(emit := EmitNext(s.emit.index, s.emit.ok))
      else SetWorker(s, w, s.workers[w].(buffered := s.workers[w].buffered - u)).(emit := Ring(s.emit.index, s.emit.ok))
    case RingBell =>
      var w := WorkerOf(c, s.emit.index);
      SetWorker(s, w, s.workers[w].(bell := true)).(emit := EmitNext(s.emit.index, s.emit.ok))
    case CancelAll => RecordCause(s, Closed).(emit := Join)
    case AwaitAll => s.(emit := Finished)
  }

  // ---------- all together ----------

  predicate Enabled(c: Config, s: State, a: Action)
    requires Shape(c, s)
  {
    match a
    case ByFetcher(f) => FetchEnabled(c, s, f)
    case ByTask(fi, t) => fi < |s.files| && TaskEnabled(c, s, s.files[fi].task, t)
    case ByWorker(w, d) => w < |s.workers| && WorkerEnabled(c, s, w, d)
    case ByEmit(e) => EmitEnabled(c, s, e)
    case ParentCancel => !s.Stop()
  }

  function Apply(c: Config, s: State, a: Action): State
    requires Shape(c, s) && Enabled(c, s, a)
  {
    match a
    case ByFetcher(f) => FetchStep(c, s, f)
    case ByTask(fi, t) => TaskStep(c, s, fi, t)
    case ByWorker(w, d) => WorkerStep(c, s, w, d)
    case ByEmit(e) => EmitStep(c, s, e)
    case ParentCancel => s.(cause := Some(ParentCancelled))
  }

  function Init(c: Config): State
    requires c.Valid()
  {
    State([], Pull, 0, false, 0, 0,
          seq(c.workers, w requires 0 <= w < c.workers => Worker(w, Take, [], w, [], 0, false, w)),
          Recv(0), 0, None, false, [])
  }
}

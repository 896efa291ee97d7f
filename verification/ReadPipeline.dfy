/** `readFetchAndDecodeIter` (read.go), with the primitives of iter_pipeline_shared.go and
    pool.go, as a transition system.

    Actors: the fetcher, one download task per file, W decode workers, the emit loop and
    the caller's cancellation. One action is one atomic effect of one actor: a channel
    operation, a critical section, a store, or the return of a GET or of the consumer's
    callback. Blocking is "no action of this actor is enabled". */
module ReadPipeline {
  import opened Wrappers
  import opened Dedup
  import opened Prepare

  type Body = seq<nat>

  datatype Config = Config(
    parts: seq<Partition>,
    workers: nat,           // W, decode workers
    queueCap: nat,          // decodeAheadPartitions; 0 is an unbuffered hand-off
    byteCap: int,           // decodeAheadBytes; <= 0 disables the budget
    poolCap: nat,           // worker-pool slots
    bodyCap: nat,           // body slots
    mode: Mode,
    content: string -> Body,                 // what S3 holds under a key
    decode: Body -> Option<seq<Rec>>,        // the parquet decoder
    // Hypothesis PROMPT_GET: a GET returns a context-class error only when the
    // pipeline's own context is already cancelled.
    promptGet: bool)
  {
    function Files(p: nat): seq<FileRef>
      requires p < |parts|
    {
      parts[p].files
    }

    predicate Valid()
    {
      && workers >= 1 && poolCap >= 1 && bodyCap >= 1 && |parts| >= 1
      && forall p :: 0 <= p < |parts| ==> |parts[p].files| >= 1
    }

    // The floor that read.go puts under the body-slot cap.
    predicate Floored()
    {
      forall p :: 0 <= p < |parts| ==> |parts[p].files| <= bodyCap
    }
  }

  // ---------- the sequential program the pipeline must refine ----------

  function FileRecs(c: Config, f: FileRef): Option<seq<Rec>> { c.decode(c.content(f.s3Key)) }

  predicate Decodable(c: Config, files: seq<FileRef>)
  {
    forall i :: 0 <= i < |files| ==> FileRecs(c, files[i]).Some?
  }

  function AllRecs(c: Config, files: seq<FileRef>): seq<Rec>
    requires Decodable(c, files)
  {
    if |files| == 0 then []
    else AllRecs(c, files[..|files| - 1]) + FileRecs(c, files[|files| - 1]).value
  }

  datatype Batch = Batch(index: nat, partitionKey: string, records: seq<Rec>, version: int, files: seq<FileRef>)

  // Fetch every file of the partition, decode, sort and dedup.
  function PartitionResult(c: Config, p: nat): Batch
    requires p < |c.parts| && Decodable(c, c.Files(p))
  {
    Batch(p, c.parts[p].key, SortAndDedup(AllRecs(c, c.Files(p)), c.mode), c.parts[p].version, c.Files(p))
  }

  // What a sequential reader hands over: partition by partition in order, stopping
  // before the first one that does not decode.
  function SequentialRead(c: Config, from: nat := 0): seq<Batch>
    requires from <= |c.parts|
    decreases |c.parts| - from
  {
    if from == |c.parts| || !Decodable(c, c.Files(from)) then []
    else [PartitionResult(c, from)] + SequentialRead(c, from + 1)
  }

  function Uncompressed(files: seq<FileRef>): int
  {
    if |files| == 0 then 0
    else Uncompressed(files[..|files| - 1]) + files[|files| - 1].uncompressedSize
  }

  // Bytes a partition counts against its worker's budget.
  function Unit(c: Config, p: nat): nat
    requires p < |c.parts|
  {
    if Uncompressed(c.Files(p)) > 0 then Uncompressed(c.Files(p)) else 0
  }

  // ---------- state ----------

  datatype Cause = GetFailed(part: nat, file: nat) | DecodeFailed(at: nat) | ParentCancelled | Closed

  datatype BodySlot = Empty | Landed(body: Body) | Taken

  // A download task by program counter. Fail*: the deferred cleanup of a failed GET.
  datatype Task =
    | Unsubmitted
    | Skipped                     // pool.Submit gave up; the body slot stays taken
    | Getting
    | FailRelease(hard: bool)     // about to release the body slot
    | FailRecord                  // about to recordHardErr
    | FailMark                    // about to markComplete(nil)
    | Closing(failed: bool)       // last file: about to close(done)
    | Returning(failed: bool)     // about to give back the pool slot
    | Ended(failed: bool)

  datatype PartState = PartState(tasks: seq<Task>, bodies: seq<BodySlot>, completed: nat, done: bool)

  datatype Fetch =
    | Acquire(pi: nat, fi: nat)       // non-blocking attempt on a body slot
    | AcquireWait(pi: nat, fi: nat)   // parked on the slot channel or the context
    | Submit(pi: nat, fi: nat)
    | Drain                           // g.Wait
    | FetchDone

  datatype WorkerPc =
    | Wait
    | Check                           // woken; about to read context.Cause
    | Reserve
    | Park
    | Decode(fi: nat, recs: seq<Rec>)
    | Send(recs: seq<Rec>)            // non-blocking attempt
    | SendWait(recs: seq<Rec>)
    | Abort(err: bool)                // about to release its own reservation and return
    | Fail                            // about to recordHardErr
    | Stopped

  datatype Worker = Worker(
    at: nat,            // partition being worked on: the loop variable pi
    pc: WorkerPc,
    queue: seq<Batch>,
    buffered: int,      // bufferedBytes
    bell: bool,         // releaseSig holds a token
    next: nat)          // history: index of the batch the emit loop takes next from here

  datatype Emit =
    | Recv(pi: nat)
    | Deliver(batch: Batch)
    | Unreserve(index: nat, ok: bool)
    | Ring(index: nat, ok: bool)
    | Close
    | Join
    | Finished

  // The calls made to emitOne, with what a success call returned.
  datatype Call = Yielded(batch: Batch, ok: bool) | Errored(cause: Cause)

  datatype State = State(
    parts: seq<PartState>,
    fetch: Fetch,
    slots: nat,
    pool: nat,
    workers: seq<Worker>,
    emit: Emit,
    received: nat,         // history: batches taken from queues so far
    cause: Option<Cause>,  // context.Cause(state.ctx)
    groupDone: bool,       // the pool group's own context
    calls: seq<Call>)
  {
    predicate Stop() { cause.Some? }
    predicate GroupStop() { groupDone || cause.Some? }
  }

  // ---------- actions ----------

  datatype FetchAction = AcquireSlot | AcquireFull | AcquireSlow | AcquireStop | SubmitTask | SubmitSkip | DrainDone

  datatype TaskAction = GetOk | GetHard | GetCtx | ReleaseSlot | RecordErr | MarkFailed | CloseDone | ReturnTask

  datatype WorkerAction =
    | Wake | CheckCause | TryReserve | ParkWake | ParkStop | DecodeNext
    | SendTry | SendSlow | SendDrop | AbortRelease | RecordFail

  datatype EmitAction = Receive | ReceiveStop | ConsumerReturns(ok: bool) | ReleaseBytes | RingBell | CancelAll | AwaitAll

  datatype Action =
    | ByFetcher(f: FetchAction)
    | ByTask(pi: nat, fi: nat, t: TaskAction)
    | ByWorker(w: nat, d: WorkerAction)
    | ByEmit(e: EmitAction)
    | ParentCancel

  function FetchNext(c: Config, pi: nat, fi: nat): Fetch
    requires pi < |c.parts|
  {
    if fi + 1 < |c.Files(pi)| then Acquire(pi, fi + 1)
    else if pi + 1 < |c.parts| then Acquire(pi + 1, 0)
    else Drain
  }

  function TaskAt(s: State, pi: nat, fi: nat): Task
  {
    if pi < |s.parts| && fi < |s.parts[pi].tasks| then s.parts[pi].tasks[fi] else Unsubmitted
  }

  function SetTask(parts: seq<PartState>, pi: nat, fi: nat, t: Task): seq<PartState>
    requires pi < |parts| && fi < |parts[pi].tasks|
  {
    parts[pi := parts[pi].(tasks := parts[pi].tasks[fi := t])]
  }

  // markComplete's critical section; the task that completes the count closes `done`.
  function MarkComplete(p: PartState, fi: nat, body: BodySlot, failed: bool): PartState
    requires fi < |p.tasks| == |p.bodies|
  {
    PartState(
      p.tasks[fi := if p.completed + 1 == |p.tasks| then Closing(failed) else Returning(failed)],
      p.bodies[fi := body],
      p.completed + 1,
      p.done)
  }

  // cancel(cause): the first cause sticks.
  function RecordCause(s: State, cause: Cause): State
  {
    if s.cause.None? then s.(cause := Some(cause)) else s
  }

  predicate HasSpace(c: Config, s: State, w: nat)
    requires w < |s.workers|
  {
    if c.queueCap > 0 then |s.workers[w].queue| < c.queueCap
    else c.workers >= 1 && s.emit.Recv? && s.emit.pi % c.workers == w   // rendezvous: the receiver must be waiting
  }

  function SetWorker(s: State, w: nat, x: Worker): State
    requires w < |s.workers|
  {
    s.(workers := s.workers[w := x])
  }

  function WorkerLoop(c: Config, x: Worker): Worker
  {
    var at := x.at + c.workers;
    x.(at := at, pc := if at < |c.parts| then Wait else Stopped)
  }

  // The batch leaves the worker: into the buffer, or straight to the waiting receiver.
  function Enqueue(c: Config, s: State, w: nat, b: Batch): State
    requires w < |s.workers|
  {
    var x := WorkerLoop(c, s.workers[w]);
    if c.queueCap > 0 then SetWorker(s, w, x.(queue := x.queue + [b]))
    else SetWorker(s, w, x.(next := x.next + c.workers)).(emit := Deliver(b), received := s.received + 1)
  }

  // reserveBytes admits this many bytes; a lone unit always.
  predicate Fits(buffered: int, unit: int, byteCap: int)
  {
    buffered <= 0 || buffered + unit <= byteCap
  }

  function EmitNext(c: Config, index: nat, ok: bool): Emit
  {
    if ok && index + 1 < |c.parts| then Recv(index + 1) else Close
  }

  function WorkerOf(c: Config, index: nat): nat
    requires c.workers >= 1
  {
    index % c.workers
  }

  predicate FetchEnabled(c: Config, s: State, a: FetchAction)
  {
    match a
    case AcquireSlot => s.fetch.Acquire? && s.slots < c.bodyCap
    case AcquireFull => s.fetch.Acquire? && s.slots >= c.bodyCap
    case AcquireSlow => s.fetch.AcquireWait? && s.slots < c.bodyCap
    case AcquireStop => s.fetch.AcquireWait? && s.GroupStop()
    case SubmitTask => s.fetch.Submit? && s.pool < c.poolCap
    case SubmitSkip => s.fetch.Submit? && s.GroupStop()
    case DrainDone => s.fetch.Drain? && s.pool == 0
  }

  predicate TaskEnabled(c: Config, s: State, t: Task, a: TaskAction)
  {
    match a
    case GetOk => t.Getting?
    case GetHard => t.Getting?
    case GetCtx => t.Getting? && (c.promptGet ==> s.Stop())
    case ReleaseSlot => t.FailRelease? && s.slots > 0
    case RecordErr => t.FailRecord?
    case MarkFailed => t.FailMark?
    case CloseDone => t.Closing?
    case ReturnTask => t.Returning? && s.pool > 0
  }

  // The next body landed: its slot goes back, by a receive that blocks on an empty channel.
  predicate GivesUpSlot(s: State, x: Worker)
  {
    x.pc.Decode? && x.at < |s.parts| && x.pc.fi < |s.parts[x.at].bodies| && s.parts[x.at].bodies[x.pc.fi].Landed?
  }

  predicate WorkerEnabled(c: Config, s: State, w: nat, a: WorkerAction)
    requires w < |s.workers|
  {
    var x := s.workers[w];
    match a
    case Wake => x.pc.Wait? && (s.Stop() || (x.at < |s.parts| && s.parts[x.at].done))
    case CheckCause => x.pc.Check?
    case TryReserve => x.pc.Reserve?
    case ParkWake => x.pc.Park? && x.bell
    case ParkStop => x.pc.Park? && s.Stop()
    case DecodeNext => x.pc.Decode? && (GivesUpSlot(s, x) ==> s.slots > 0)
    case SendTry => x.pc.Send?
    case SendSlow => x.pc.SendWait? && HasSpace(c, s, w)
    case SendDrop => x.pc.SendWait? && s.Stop()
    case AbortRelease => x.pc.Abort?
    case RecordFail => x.pc.Fail?
  }

  predicate EmitEnabled(c: Config, s: State, a: EmitAction)
    requires c.workers >= 1
  {
    match a
    case Receive => s.emit.Recv? && WorkerOf(c, s.emit.pi) < |s.workers| && |s.workers[WorkerOf(c, s.emit.pi)].queue| > 0
    case ReceiveStop => s.emit.Recv? && s.Stop()
    case ConsumerReturns(ok) => s.emit.Deliver?
    case ReleaseBytes => s.emit.Unreserve?
    case RingBell => s.emit.Ring?
    case CancelAll => s.emit.Close?
    case AwaitAll => s.emit.Join? && s.fetch.FetchDone? && forall w :: 0 <= w < |s.workers| ==> s.workers[w].pc.Stopped?
  }

  predicate Enabled(c: Config, s: State, a: Action)
    requires c.workers >= 1
  {
    match a
    case ByFetcher(f) => FetchEnabled(c, s, f)
    case ByTask(pi, fi, t) => TaskEnabled(c, s, TaskAt(s, pi, fi), t)
    case ByWorker(w, d) => w < |s.workers| && WorkerEnabled(c, s, w, d)
    case ByEmit(e) => EmitEnabled(c, s, e)
    case ParentCancel => !s.Stop()
  }

  // Every program counter points into the arrays it will use.
  predicate Shape(c: Config, s: State)
  {
    && |s.parts| == |c.parts| && |s.workers| == c.workers
    && (forall p :: 0 <= p < |s.parts| ==>
          |s.parts[p].tasks| == |s.parts[p].bodies| == |c.Files(p)|)
    && (s.fetch.Acquire? || s.fetch.AcquireWait? || s.fetch.Submit? ==>
          s.fetch.pi < |c.parts| && s.fetch.fi < |c.Files(s.fetch.pi)|)
    && (forall w :: 0 <= w < |s.workers| ==> WorkerShape(c, s.workers[w], w))
    && EmitShape(c, s)
  }

  predicate WorkerShape(c: Config, x: Worker, w: nat)
  {
    && c.workers >= 1 && x.at % c.workers == w && x.next % c.workers == w
    && (!x.pc.Stopped? ==> x.at < |c.parts|)
    && (x.pc.Decode? ==> x.at < |c.parts| && x.pc.fi <= |c.Files(x.at)|)
    && (forall i :: 0 <= i < |x.queue| ==> x.queue[i].index < |c.parts|)
  }

  predicate EmitShape(c: Config, s: State)
  {
    match s.emit
    case Recv(pi) => pi < |c.parts| && s.received == pi
    case Deliver(b) => b.index < |c.parts| && s.received == b.index + 1
    case Unreserve(i, _) => i < |c.parts| && s.received == i + 1
    case Ring(i, _) => i < |c.parts| && s.received == i + 1
    case _ => true
  }

  function FetchStep(c: Config, s: State, a: FetchAction): State
    requires Shape(c, s) && FetchEnabled(c, s, a)
  {
    match a
    case AcquireSlot => s.(fetch := Submit(s.fetch.pi, s.fetch.fi), slots := s.slots + 1)
    case AcquireFull => s.(fetch := AcquireWait(s.fetch.pi, s.fetch.fi))
    case AcquireSlow => s.(fetch := Submit(s.fetch.pi, s.fetch.fi), slots := s.slots + 1)
    case AcquireStop => s.(fetch := Drain)
    case SubmitTask =>
      s.(fetch := FetchNext(c, s.fetch.pi, s.fetch.fi), pool := s.pool + 1,
         parts := SetTask(s.parts, s.fetch.pi, s.fetch.fi, Getting))
    case SubmitSkip =>
      s.(fetch := FetchNext(c, s.fetch.pi, s.fetch.fi),
         parts := SetTask(s.parts, s.fetch.pi, s.fetch.fi, Skipped))
    case DrainDone => s.(fetch := FetchDone)
  }

  function TaskStep(c: Config, s: State, pi: nat, fi: nat, a: TaskAction): State
    requires Shape(c, s) && pi < |s.parts| && fi < |s.parts[pi].tasks|
    requires TaskEnabled(c, s, s.parts[pi].tasks[fi], a)
  {
    var t := s.parts[pi].tasks[fi];
    match a
    case GetOk =>
      s.(parts := s.parts[pi := MarkComplete(s.parts[pi], fi, Landed(c.content(c.Files(pi)[fi].s3Key)), false)])
    case GetHard => s.(parts := SetTask(s.parts, pi, fi, FailRelease(true)))
    case GetCtx => s.(parts := SetTask(s.parts, pi, fi, FailRelease(false)))
    case ReleaseSlot =>
      s.(slots := s.slots - 1, parts := SetTask(s.parts, pi, fi, if t.hard then FailRecord else FailMark))
    case RecordErr =>
      RecordCause(s, GetFailed(pi, fi)).(parts := SetTask(s.parts, pi, fi, FailMark))
    case MarkFailed =>
      s.(parts := s.parts[pi := MarkComplete(s.parts[pi], fi, Empty, true)])
    case CloseDone => s.(parts := CloseChannel(s.parts, pi, fi, t.failed))
    case ReturnTask =>
      s.(pool := s.pool - 1, groupDone := s.groupDone || t.failed,
         parts := SetTask(s.parts, pi, fi, Ended(t.failed)))
  }

  function CloseChannel(parts: seq<PartState>, pi: nat, fi: nat, failed: bool): seq<PartState>
    requires pi < |parts| && fi < |parts[pi].tasks|
  {
    parts[pi := parts[pi].(tasks := parts[pi].tasks[fi := Returning(failed)], done := true)]
  }

  // One trip through reserveBytes' loop.
  function Reserved(c: Config, stop: bool, x: Worker): Worker
    requires x.at < |c.parts|
  {
    var u := Unit(c, x.at);
    if c.byteCap <= 0 || u == 0 then x.(pc := if stop then Stopped else Decode(0, []))
    else if Fits(x.buffered, u, c.byteCap) then x.(pc := Decode(0, []), buffered := x.buffered + u)
    else x.(pc := if stop then Stopped else Park)
  }

  function Aborted(c: Config, x: Worker, err: bool): Worker
    requires x.at < |c.parts|
  {
    var y := x.(pc := if err then Fail else Stopped);
    if Unit(c, x.at) == 0 then y else y.(buffered := x.buffered - Unit(c, x.at), bell := true)
  }

  // Actions that change nothing but the worker's own record.
  predicate IsLocal(a: WorkerAction)
  {
    !a.DecodeNext? && !a.SendTry? && !a.SendSlow? && !a.RecordFail?
  }

  function Local(c: Config, stop: bool, x: Worker, a: WorkerAction): Worker
    requires x.at < |c.parts|
  {
    match a
    case Wake => x.(pc := Check)
    case CheckCause => x.(pc := if stop then Stopped else Reserve)
    case TryReserve => Reserved(c, stop, x)
    case ParkWake => x.(pc := Reserve, bell := false)
    case ParkStop => x.(pc := Stopped)
    case SendDrop => x.(pc := Abort(false))
    case AbortRelease => Aborted(c, x, x.pc.Abort? && x.pc.err)
    case _ => x
  }

  function WorkerStep(c: Config, s: State, w: nat, a: WorkerAction): State
    requires c.workers >= 1 && Shape(c, s) && w < |s.workers| && WorkerEnabled(c, s, w, a)
  {
    var x := s.workers[w];
    match a
    case DecodeNext => DecodeStep(c, s, w)
    case SendTry =>
      if HasSpace(c, s, w) then Enqueue(c, s, w, MakeBatch(c, x.at, x.pc.recs))
      else SetWorker(s, w, x.(pc := SendWait(x.pc.recs)))
    case SendSlow => Enqueue(c, s, w, MakeBatch(c, x.at, x.pc.recs))
    case RecordFail => SetWorker(RecordCause(s, DecodeFailed(x.at)), w, x.(pc := Stopped))
    case _ => SetWorker(s, w, Local(c, s.Stop(), x, a))
  }

  function EmitStep(c: Config, s: State, a: EmitAction): State
    requires c.workers >= 1 && Shape(c, s) && EmitEnabled(c, s, a)
  {
    match a
    case Receive =>
      var w := WorkerOf(c, s.emit.pi);
      var x := s.workers[w];
      SetWorker(s, w, x.(queue := x.queue[1..], next := x.next + c.workers))
        .(emit := Deliver(x.queue[0]), received := s.received + 1)
    case ReceiveStop => s.(emit := Close, calls := s.calls + [Errored(s.cause.value)])
    case ConsumerReturns(ok) =>
      s.(emit := Unreserve(s.emit.batch.index, ok), calls := s.calls + [Yielded(s.emit.batch, ok)])
    case ReleaseBytes =>
      var w := WorkerOf(c, s.emit.index);
      var u := Unit(c, s.emit.index);
      if u == 0 then s.(emit := EmitNext(c, s.emit.index, s.emit.ok))
      else SetWorker(s, w, s.workers[w].(buffered := s.workers[w].buffered - u)).(emit := Ring(s.emit.index, s.emit.ok))
    case RingBell =>
      var w := WorkerOf(c, s.emit.index);
      SetWorker(s, w, s.workers[w].(bell := true)).(emit := EmitNext(c, s.emit.index, s.emit.ok))
    case CancelAll => RecordCause(s, Closed).(emit := Join)
    case AwaitAll => s.(emit := Finished)
  }

  function Apply(c: Config, s: State, a: Action): State
    requires c.workers >= 1 && Shape(c, s) && Enabled(c, s, a)
  {
    match a
    case ByFetcher(f) => FetchStep(c, s, f)
    case ByTask(pi, fi, t) => TaskStep(c, s, pi, fi, t)
    case ByWorker(w, d) => WorkerStep(c, s, w, d)
    case ByEmit(e) => EmitStep(c, s, e)
    case ParentCancel => s.(cause := Some(ParentCancelled))
  }

  function MakeBatch(c: Config, p: nat, recs: seq<Rec>): Batch
    requires p < |c.parts|
  {
    Batch(p, c.parts[p].key, recs, c.parts[p].version, c.Files(p))
  }

  // One iteration of decodePartition's loop; after the last file, sort and dedup.
  function DecodeStep(c: Config, s: State, w: nat): State
    requires Shape(c, s) && w < |s.workers| && WorkerEnabled(c, s, w, DecodeNext)
  {
    var x := s.workers[w];
    var p, fi := x.at, x.pc.fi;
    if fi == |c.Files(p)| then
      SetWorker(s, w, x.(pc := Send(SortAndDedup(x.pc.recs, c.mode))))
    else if !s.parts[p].bodies[fi].Landed? then
      SetWorker(s, w, x.(pc := Decode(fi + 1, x.pc.recs)))
    else
      var r := c.decode(s.parts[p].bodies[fi].body);
      var s' := s.(parts := s.parts[p := s.parts[p].(bodies := s.parts[p].bodies[fi := Taken])],
                   slots := s.slots - 1);
      SetWorker(s', w, x.(pc := if r.Some? then Decode(fi + 1, x.pc.recs + r.value) else Abort(true)))
  }

  function InitPart(p: Partition): PartState
  {
    PartState(seq(|p.files|, i => Unsubmitted), seq(|p.files|, i => Empty), 0, false)
  }

  function Init(c: Config): State
    requires c.Valid()
  {
    State(
      seq(|c.parts|, i requires 0 <= i < |c.parts| => InitPart(c.parts[i])),
      Acquire(0, 0), 0, 0,
      seq(c.workers, w requires 0 <= w < c.workers => Worker(w, if w < |c.parts| then Wait else Stopped, [], 0, false, w)),
      Recv(0), 0, None, false, [])
  }
}

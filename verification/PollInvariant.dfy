/** What every step of the poll pipeline keeps, under the PROMPT_GET hypothesis. */
module PollInvariant {
  import opened Wrappers
  import opened Dedup
  import opened Prepare
  import opened PollPipeline
  import opened Counting

  // ---------- files ----------

  predicate GotBody(t: Task) { (t.Closing? || t.Returning? || t.Ended?) && !t.failed }

  ghost predicate FileOk(c: Config, f: FileState)
  {
    && (f.body.Empty? <==> !GotBody(f.task))
    && (f.body.Landed? ==> f.body.body == c.content(f.file.s3Key))
    && (f.done <==> f.task.Returning? || f.task.Ended?)
  }

  ghost predicate FilesOk(c: Config, s: State)
  {
    forall i :: 0 <= i < |s.files| ==> FileOk(c, s.files[i])
  }

  function Decoded(c: Config, f: FileRef): Option<seq<Rec>> { c.decode(c.content(f.s3Key)) }

  // ---------- every failure has recorded its cause ----------

  predicate FailureRecorded(t: Task)
  {
    t.Skipped? || (t.FailRelease? && !t.hard) || ((t.Closing? || t.Returning? || t.Ended?) && t.failed)
  }

  ghost predicate CauseOk(c: Config, s: State)
  {
    && (s.groupDone ==> s.Stop())
    && (s.eos ==> s.fetch.Drain? || s.fetch.FetchDone?)
    && (forall i :: 0 <= i < |s.files| && FailureRecorded(s.files[i].task) ==> s.Stop())
    && ((s.fetch.Drain? || s.fetch.FetchDone?) && |s.files| != s.handed ==> s.Stop())
    && ((s.fetch.Drain? || s.fetch.FetchDone?) && !s.eos && c.promptSource ==> s.Stop())
    && (s.emit.Join? || s.emit.Finished? ==> s.Stop())
    && (s.cause == Some(Closed) ==> s.emit.Join? || s.emit.Finished?)
    && DecodeCause(c, s)
  }

  ghost predicate DecodeCause(c: Config, s: State)
  {
    s.cause.Some? && s.cause.value.DecodeFailed? ==>
      s.cause.value.fi < |s.files| && Decoded(c, s.files[s.cause.value.fi].file).None?
  }

  // ---------- slots and pool ----------

  function Held(f: FileState): nat
  {
    (if f.task.Getting? || f.task.FailRelease? || f.task.Skipped? then 1 else 0) + (if f.body.Landed? then 1 else 0)
  }

  function Pooled(f: FileState): nat { if f.task.Skipped? || f.task.Ended? then 0 else 1 }

  ghost predicate SlotsOk(c: Config, s: State)
  {
    && s.slots == SumBy(s.files, Held) + (if s.fetch.Submit? then 1 else 0)
    && s.slots <= c.bodyCap
    && s.pool == SumBy(s.files, Pooled) && s.pool <= c.poolCap
    && (s.fetch.FetchDone? ==> s.pool == 0)
  }

  // ---------- workers ----------

  predicate BeforeDecode(pc: WorkerPc)
  {
    pc.Take? || pc.Wait? || pc.Check? || pc.Reserve? || pc.Park? || pc.Drop? || pc.Decode?
  }

  predicate PastCheck(pc: WorkerPc) { InHand(pc) && !pc.Wait? && !pc.Check? }

  ghost predicate WorkerOk(c: Config, s: State, x: Worker)
  {
    && (x.pc.Stopped? ==> s.Stop() || ((c.promptSource ==> s.eos) && s.fetch.FetchDone? && x.at == x.upto))
    && (x.pc.Drop? || (x.pc.Abort? && !x.pc.err) ==> s.Stop())
    && (InHand(x.pc) ==> x.at < |s.files| && FileInHand(c, s, x.pc, s.files[x.at]))
  }

  ghost predicate FileInHand(c: Config, s: State, pc: WorkerPc, f: FileState)
  {
    && (pc.Check? ==> s.Stop() || f.done)
    && (PastCheck(pc) ==> GotBody(f.task) && f.done)
    && (pc.Send? ==> Decoded(c, f.file) == Some(pc.recs))
    && (pc.SendWait? ==> Decoded(c, f.file) == Some(pc.recs))
    && ((pc.Abort? && pc.err) || pc.Fail? ==> Decoded(c, f.file).None?)
  }

  ghost predicate WorkersOk(c: Config, s: State)
  {
    forall w :: 0 <= w < |s.workers| ==> WorkerOk(c, s, s.workers[w])
  }

  // Whether the body of file i has been consumed, as its worker x sees it.
  ghost predicate TakenOk(f: FileState, i: nat, x: Worker)
  {
    && (i < x.at ==> !f.body.Landed? && f.done)
    && (i > x.at || (i == x.at && BeforeDecode(x.pc)) ==> !f.body.Taken?)
    && (i == x.at && InHand(x.pc) && !BeforeDecode(x.pc) ==> !f.body.Landed?)
  }

  ghost predicate AllTakenOk(c: Config, s: State)
    requires Shape(c, s)
  {
    forall i :: 0 <= i < |s.files| ==> TakenOk(s.files[i], i, s.workers[WorkerOf(c, i)])
  }

  // ---------- inputs, queues, emission ----------

  // Consecutive files of one worker, from `from` up to `upto`.
  ghost predicate InputChain(q: seq<nat>, from: nat, upto: nat, step: nat)
  {
    if |q| == 0 then from == upto else q[0] == from && InputChain(q[1..], from + step, upto, step)
  }

  function From(c: Config, x: Worker): nat { if InHand(x.pc) then x.at + c.workers else x.at }

  ghost predicate InputOk(c: Config, s: State, x: Worker)
  {
    && s.handed <= x.upto < s.handed + c.workers && x.at <= x.upto
    && (!x.pc.Stopped? ==> InputChain(x.input, From(c, x), x.upto, c.workers))
  }

  ghost predicate InputsOk(c: Config, s: State)
  {
    forall w :: 0 <= w < |s.workers| ==> InputOk(c, s, s.workers[w])
  }

  ghost predicate Chain(q: seq<FileResult>, next: nat, at: nat, step: nat)
  {
    if |q| == 0 then next == at else q[0].index == next && Chain(q[1..], next + step, at, step)
  }

  // The result is the sequential one: this file, fetched and decoded.
  ghost predicate Good(c: Config, s: State, b: FileResult)
  {
    b.index < |s.files| && b.file == s.files[b.index].file && Decoded(c, b.file) == Some(b.records)
  }

  ghost predicate QueueOk(c: Config, s: State, x: Worker)
  {
    && Chain(x.queue, x.next, x.at, c.workers)
    && s.received <= x.next < s.received + c.workers
    && (c.queueCap == 0 ==> |x.queue| == 0)
    && forall i :: 0 <= i < |x.queue| ==> Good(c, s, x.queue[i])
  }

  ghost predicate QueuesOk(c: Config, s: State)
  {
    forall w :: 0 <= w < |s.workers| ==> QueueOk(c, s, s.workers[w])
  }

  ghost predicate AllYielded(c: Config, s: State, calls: seq<Call>)
  {
    forall i :: 0 <= i < |calls| ==> calls[i].Yielded? && calls[i].ok && calls[i].result.index == i && Good(c, s, calls[i].result)
  }

  ghost predicate LastYield(c: Config, s: State, calls: seq<Call>, i: nat, ok: bool)
  {
    && |calls| == i + 1 && AllYielded(c, s, calls[..i])
    && calls[i].Yielded? && calls[i].ok == ok && calls[i].result.index == i && Good(c, s, calls[i].result)
  }

  // A clean end: every file the source gave was handed over, and a prompt source ended.
  ghost predicate CleanEnd(c: Config, s: State)
  {
    s.fetch.FetchDone? && (c.promptSource ==> s.eos) && AllYielded(c, s, s.calls) && |s.calls| == |s.files|
  }

  ghost predicate Over(c: Config, s: State)
  {
    || CleanEnd(c, s)
    || (|s.calls| > 0 && AllYielded(c, s, s.calls[..|s.calls| - 1]) &&
        match s.calls[|s.calls| - 1]
        case Errored(cause) => s.cause == Some(cause)
        case Yielded(_, ok) => LastYield(c, s, s.calls, |s.calls| - 1, ok) && !ok)
  }

  ghost predicate CallsOk(c: Config, s: State)
  {
    match s.emit
    case Recv(i) => |s.calls| == i && AllYielded(c, s, s.calls)
    case Deliver(b) => Good(c, s, b) && |s.calls| == b.index && AllYielded(c, s, s.calls)
    case Unreserve(i, ok) => LastYield(c, s, s.calls, i, ok)
    case Ring(i, ok) => LastYield(c, s, s.calls, i, ok)
    case _ => Over(c, s)
  }

  // ---------- byte budget ----------

  function QueueUnits(s: State, q: seq<FileResult>): seq<nat>
  {
    seq(|q|, i requires 0 <= i < |q| => UnitAt(s, q[i].index))
  }

  function EmitUnits(c: Config, s: State, w: nat): seq<nat>
    requires c.workers >= 1
  {
    if s.emit.Deliver? && WorkerOf(c, s.emit.result.index) == w then [UnitAt(s, s.emit.result.index)]
    else if s.emit.Unreserve? && WorkerOf(c, s.emit.index) == w then [UnitAt(s, s.emit.index)]
    else []
  }

  function PcUnits(s: State, x: Worker): seq<nat>
  {
    if x.pc.Decode? || x.pc.Send? || x.pc.SendWait? || x.pc.Abort? then [UnitAt(s, x.at)] else []
  }

  // Reserved and not yet released by worker w, oldest first.
  function HeldUnits(c: Config, s: State, w: nat): seq<nat>
    requires c.workers >= 1 && w < |s.workers|
  {
    EmitUnits(c, s, w) + QueueUnits(s, s.workers[w].queue) + PcUnits(s, s.workers[w])
  }

  ghost predicate BytesAt(c: Config, s: State, w: nat)
    requires c.workers >= 1 && w < |s.workers|
  {
    c.byteCap > 0 ==>
      && s.workers[w].buffered == SumBy(HeldUnits(c, s, w), Id)
      && (SumBy(HeldUnits(c, s, w), Id) <= c.byteCap || SumBy(HeldUnits(c, s, w), PositiveN) == 1)
  }

  ghost predicate BytesOk(c: Config, s: State)
    requires c.workers >= 1
  {
    forall w :: 0 <= w < |s.workers| ==> BytesAt(c, s, w)
  }

  // No lost wake-up.
  ghost predicate BellAt(c: Config, s: State, w: nat)
    requires c.workers >= 1 && w < |s.workers|
  {
    var x := s.workers[w];
    x.pc.Park? ==>
      && c.byteCap > 0 && UnitAt(s, x.at) > 0
      && (x.bell || !Fits(c, x, UnitAt(s, x.at)) || (s.emit.Ring? && WorkerOf(c, s.emit.index) == w))
  }

  ghost predicate BellsOk(c: Config, s: State)
    requires c.workers >= 1
  {
    forall w :: 0 <= w < |s.workers| ==> BellAt(c, s, w)
  }

  ghost predicate FetchSide(c: Config, s: State)
    requires Shape(c, s)
  {
    FilesOk(c, s) && CauseOk(c, s) && SlotsOk(c, s) && WorkersOk(c, s) && AllTakenOk(c, s) && InputsOk(c, s)
  }

  ghost predicate EmitSide(c: Config, s: State)
    requires Shape(c, s)
  {
    QueuesOk(c, s) && CallsOk(c, s) && BytesOk(c, s) && BellsOk(c, s)
  }

  ghost predicate Inv(c: Config, s: State)
  {
    c.Valid() && c.promptGet && Shape(c, s) && FetchSide(c, s) && EmitSide(c, s)
  }
}

/** The read pipeline's objects and loops. */
module ReadPrimitives {
  // In the code's own form; contracts are stated over the transition system's functions where
  // it has one for what is computed.

  import opened Wrappers
  import opened Sorting
  import opened Dedup
  import opened Prepare
  import opened ReadPipeline

  // ---------- bodySlots ----------

  class BodySlots {
    const capacity: nat
    var taken: nat     // tokens in slotCh

    ghost predicate Valid() reads this { taken <= capacity }

    constructor (cap: nat)
      requires cap > 0
      ensures Valid() && capacity == cap && taken == 0
    {
      capacity, taken := cap, 0;
    }

    // The non-blocking send of acquire.
    method TryAcquire() returns (ok: bool)
      requires Valid()
      modifies this
      ensures Valid() && ok == (old(taken) < capacity)
      ensures taken == if ok then old(taken) + 1 else old(taken)
    {
      ok := taken < capacity;
      if ok { taken := taken + 1; }
    }

    // The receive blocks on an empty channel, so callers must hold a slot.
    method Release()
      requires Valid() && taken > 0
      modifies this
      ensures Valid() && taken == old(taken) - 1
    {
      taken := taken - 1;
    }
  }

  // ---------- workerState ----------

  // What happens to a parked worker: the emit loop releases bytes and rings, or the context ends.
  datatype Wakeup = Released(bytes: int) | ContextDone

  function ReleasedBy(events: seq<Wakeup>): int
  {
    if events == [] then 0
    else
      var e := events[|events| - 1];
      ReleasedBy(events[..|events| - 1]) + if e.Released? then e.bytes else 0
  }

  datatype Reservation = Reserved | Cancelled | StillParked

  class WorkerState {
    var buffered: int
    var bell: bool

    /** reserveBytes, against the wake-ups that reach it. Without a budget, or for an empty unit, it only reads the context.
        Otherwise it reserves at the first moment at which the count is back at zero or has
        room for the unit, and not before, even on a cancelled context; a cancellation ends the wait, and does not let it begin. */
    method ReserveBytes(unit: int, byteCap: int, stopped: bool, events: seq<Wakeup>) returns (r: Reservation, used: nat)
      modifies this
      ensures used <= |events|
      ensures unit <= 0 || byteCap <= 0 ==> r == (if stopped then Cancelled else Reserved) && used == 0 && buffered == old(buffered)
      ensures unit > 0 && byteCap > 0 ==>
        && (forall j :: 0 <= j < used ==> old(buffered) - ReleasedBy(events[..j]) > 0 && old(buffered) - ReleasedBy(events[..j]) + unit > byteCap)
        && (r.Reserved? <==> old(buffered) - ReleasedBy(events[..used]) <= 0 || old(buffered) - ReleasedBy(events[..used]) + unit <= byteCap)
        && buffered == old(buffered) - ReleasedBy(events[..used]) + if r.Reserved? then unit else 0
      ensures unit > 0 && byteCap > 0 && !r.Reserved? ==>
        && (r.Cancelled? <==> stopped || (used > 0 && events[used - 1].ContextDone?))
        && (stopped ==> used == 0)
        && (r.StillParked? ==> used == |events|)
    {
      used := 0;
      if byteCap <= 0 || unit <= 0 { return if stopped then Cancelled else Reserved, used; }
      while true
        invariant used <= |events| && buffered == old(buffered) - ReleasedBy(events[..used])
        invariant forall j :: 0 <= j < used ==> !Fits(old(buffered) - ReleasedBy(events[..j]), unit, byteCap)
        invariant used > 0 ==> !stopped && events[used - 1].Released?
        decreases |events| - used
      {
        if Fits(buffered, unit, byteCap) {
          buffered := buffered + unit;
          return Reserved, used;
        }
        if stopped { return Cancelled, used; }
        if used == |events| { return StillParked, used; }
        var e := events[used];
        assert events[..used + 1][..used] == events[..used];
        used := used + 1;
        match e
        case ContextDone => return Cancelled, used;
        case Released(bytes) => buffered, bell := buffered - bytes, false;
      }
    }

    /** releaseBytes: the bell holds at most one token, so a ring on a ringing bell is lost
        without losing the wake-up. */
    method ReleaseBytes(unit: int)
      modifies this
      ensures buffered == if unit > 0 then old(buffered) - unit else old(buffered)
      ensures bell == (unit > 0 || old(bell))
    {
      if unit <= 0 { return; }
      buffered := buffered - unit;
      bell := true;
    }
  }

  // ---------- partState ----------

  class PartProgress {
    const bodies: array<BodySlot>
    var completed: nat
    var done: bool

    constructor (files: nat)
      ensures fresh(bodies) && bodies.Length == files && completed == 0 && !done
      ensures forall i :: 0 <= i < files ==> bodies[i] == Empty
    {
      bodies := new BodySlot[files](i => Empty);
      completed, done := 0, false;
    }

    /** markComplete: it closes `done` on the mark that completes the count, and on no other. */
    method MarkComplete(fi: nat, body: BodySlot)
      requires fi < bodies.Length && completed < bodies.Length
      modifies this, bodies
      ensures bodies[..] == old(bodies[..])[fi := body] && completed == old(completed) + 1
      ensures done == (old(done) || completed == bodies.Length)
    {
      bodies[fi] := body;
      completed := completed + 1;
      if completed == bodies.Length { done := true; }
    }

    // ---------- decodePartition ----------

    /** decodePartition: body by body, giving up each body and its slot whether or not it
        decodes, then sort and dedup. */
    method DecodePartition(slots: BodySlots, decode: Body -> Option<seq<Rec>>, mode: Mode)
        returns (r: Option<seq<Rec>>, at: nat)
      requires slots.Valid() && Landings(bodies[..]) <= slots.taken
      modifies bodies, slots
      ensures slots.Valid() && at <= bodies.Length
      ensures r == (match Parsed(decode, old(bodies[..])) case None => None case Some(recs) => Some(SortAndDedup(recs, mode)))
      ensures r.Some? ==> at == bodies.Length
      ensures slots.taken == old(slots.taken) - Landings(old(bodies[..])[..at])
      ensures forall i :: 0 <= i < bodies.Length ==>
                bodies[i] == if i < at && old(bodies[i]).Landed? then Taken else old(bodies[i])
    {
      var out: seq<Rec> := [];
      ghost var was := bodies[..];
      at := 0;
      while at < bodies.Length
        invariant at <= bodies.Length && slots.Valid()
        invariant forall i :: 0 <= i < bodies.Length ==> bodies[i] == if i < at && was[i].Landed? then Taken else was[i]
        invariant Parsed(decode, was[..at]) == Some(out)
        invariant slots.taken == old(slots.taken) - Landings(was[..at])
      {
        var body := bodies[at];
        assert was[..at + 1][..at] == was[..at] && body == was[at];
        LandingsSplit(was, at + 1);
        ParsedFails(decode, was, at + 1);
        at := at + 1;
        if !body.Landed? { continue; }
        var recs := decode(body.body);
        bodies[at - 1] := Taken;
        slots.Release();
        if recs.None? { return None, at; }
        out := out + recs.value;
      }
      assert was[..at] == was;
      r := Some(SortAndDedup(out, mode));
    }
  }

  function Landings(bodies: seq<BodySlot>): nat
  {
    if bodies == [] then 0 else Landings(bodies[..|bodies| - 1]) + if bodies[|bodies| - 1].Landed? then 1 else 0
  }

  // The records of the landed bodies in order, unless one does not decode.
  function Parsed(decode: Body -> Option<seq<Rec>>, bodies: seq<BodySlot>): Option<seq<Rec>>
  {
    if bodies == [] then Some([])
    else
      match Parsed(decode, bodies[..|bodies| - 1])
      case None => None
      case Some(recs) =>
        var b := bodies[|bodies| - 1];
        if !b.Landed? then Some(recs)
        else match decode(b.body)
             case None => None
             case Some(more) => Some(recs + more)
  }

  lemma {:induction false} LandingsSplit(bodies: seq<BodySlot>, n: nat)
    requires n <= |bodies|
    ensures Landings(bodies[..n]) <= Landings(bodies)
    decreases |bodies|
  {
    if n < |bodies| {
      LandingsSplit(bodies[..|bodies| - 1], n);
      assert bodies[..|bodies| - 1][..n] == bodies[..n];
    } else {
      assert bodies[..n] == bodies;
    }
  }

  lemma {:induction false} ParsedFails(decode: Body -> Option<seq<Rec>>, bodies: seq<BodySlot>, n: nat)
    requires n <= |bodies|
    ensures Parsed(decode, bodies[..n]).None? ==> Parsed(decode, bodies).None?
    decreases |bodies|
  {
    if n < |bodies| {
      ParsedFails(decode, bodies[..|bodies| - 1], n);
      assert bodies[..|bodies| - 1][..n] == bodies[..n];
    } else {
      assert bodies[..n] == bodies;
    }
  }

  /** With every body landed, decodePartition yields the partition's result of the
      sequential read, and fails exactly when that read would. */
  lemma {:induction false} AllLandedIsPartition(c: Config, files: seq<FileRef>, bodies: seq<BodySlot>)
    requires |bodies| == |files| && forall i :: 0 <= i < |files| ==> bodies[i] == Landed(c.content(files[i].s3Key))
    ensures Parsed(c.decode, bodies) == if Decodable(c, files) then Some(AllRecs(c, files)) else None
  {
    if files != [] {
      var n := |files| - 1;
      AllLandedIsPartition(c, files[..n], bodies[..n]);
      assert Decodable(c, files) <==> Decodable(c, files[..n]) && FileRecs(c, files[n]).Some? by {
        assert forall i :: 0 <= i < n ==> files[..n][i] == files[i];
      }
    }
  }

  // ---------- small loops ----------

  /** fileRefStats: its byte count is the unit the budget works with. */
  method FileRefStats(files: seq<FileRef>) returns (uncompressed: int, rows: int)
    ensures uncompressed == Uncompressed(files)
    ensures rows == TotalRows(files)
  {
    uncompressed, rows := 0, 0;
    for i := 0 to |files|
      invariant uncompressed == Uncompressed(files[..i]) && rows == TotalRows(files[..i])
    {
      assert files[..i + 1][..i] == files[..i];
      uncompressed, rows := uncompressed + files[i].uncompressedSize, rows + files[i].recordCount;
    }
    assert files[..|files|] == files;
  }

  function TotalRows(files: seq<FileRef>): int
  {
    if files == [] then 0 else TotalRows(files[..|files| - 1]) + files[|files| - 1].recordCount
  }

  /** The two totals are sums: over any two lists of files laid end to end they add up, and a
      single file counts with its own size and record count. */
  lemma {:induction false} StatsAreSums(a: seq<FileRef>, b: seq<FileRef>)
    ensures Uncompressed(a + b) == Uncompressed(a) + Uncompressed(b) && TotalRows(a + b) == TotalRows(a) + TotalRows(b)
    ensures forall f: FileRef :: Uncompressed([f]) == f.uncompressedSize && TotalRows([f]) == f.recordCount
  {
    if b == [] {
      assert a + b == a;
      forall f: FileRef ensures Uncompressed([f]) == f.uncompressedSize && TotalRows([f]) == f.recordCount { assert [f][..0] == []; }
    } else {
      var n := |b| - 1;
      StatsAreSums(a, b[..n]);
      assert (a + b)[..|a + b| - 1] == a + b[..n];
    }
  }

  /** The admission test in the pipeline: a worker at its reservation starts to decode exactly
      if its count is back at zero or has room for the sizes of the partition's files, and then
      counts them; without a budget, or for files of no size, exactly if the context is alive. */
  lemma AdmittedExactly(c: Config, s: State, w: nat)
    requires c.workers >= 1 && Shape(c, s) && w < |s.workers| && WorkerEnabled(c, s, w, TryReserve)
    ensures s.workers[w].at < |c.parts| && |WorkerStep(c, s, w, TryReserve).workers| == |s.workers|
    ensures var x, y, size := s.workers[w], WorkerStep(c, s, w, TryReserve).workers[w], Uncompressed(c.Files(s.workers[w].at));
      if c.byteCap > 0 && size > 0 then
        (y.pc.Decode? <==> x.buffered <= 0 || x.buffered + size <= c.byteCap) && y.buffered == x.buffered + if y.pc.Decode? then size else 0
      else (y.pc.Decode? <==> !s.Stop()) && y.buffered == x.buffered
  {
  }

  // What FetchAhead asks for: a positive setting, or else as many slots as the pool has.
  function BaseCap(fetchAhead: int, poolMax: nat): int
  {
    if fetchAhead <= 0 then poolMax else fetchAhead
  }

  /** The body-slot cap: the caller's setting or the pool's size, raised to the largest
      partition and no further. The configuration that results satisfies Floored. */
  method BodyCap(fetchAhead: int, poolMax: nat, parts: seq<Partition>) returns (cap: int)
    ensures forall p :: 0 <= p < |parts| ==> |parts[p].files| <= cap
    ensures cap >= BaseCap(fetchAhead, poolMax)
    ensures cap == BaseCap(fetchAhead, poolMax) || exists p :: 0 <= p < |parts| && |parts[p].files| == cap
  {
    cap := if fetchAhead <= 0 then poolMax else fetchAhead;
    for i := 0 to |parts|
      invariant forall p :: 0 <= p < i ==> |parts[p].files| <= cap
      invariant cap >= BaseCap(fetchAhead, poolMax)
      invariant cap == BaseCap(fetchAhead, poolMax) || exists p :: 0 <= p < i && |parts[p].files| == cap
    {
      if |parts[i].files| > cap { cap := |parts[i].files|; }
    }
  }
}

/** What a read returns depends on the files alone. */
module ReadDeterminism {
  // Not on the order in which the rows come from the catalog, nor on how many workers decode,
  // nor on how they interleave.

  import opened Sorting
  import opened Dedup
  import opened Prepare
  import opened ReadPipeline
  import opened ReadTheorems

  // ---------- one result for one set of files ----------

  // The configurations read the same data.
  ghost predicate SameData(c: Config, d: Config)
  {
    (forall k :: c.content(k) == d.content(k)) && (forall b :: c.decode(b) == d.decode(b)) && c.mode == d.mode
  }

  lemma {:induction false} SameRecs(c: Config, d: Config, files: seq<FileRef>)
    requires SameData(c, d)
    ensures Decodable(c, files) <==> Decodable(d, files)
    ensures Decodable(c, files) ==> AllRecs(c, files) == AllRecs(d, files)
  {
    assert forall f: FileRef :: FileRecs(c, f) == FileRecs(d, f);
    if files != [] { SameRecs(c, d, files[..|files| - 1]); }
  }

  lemma {:induction false} SameRead(c: Config, d: Config, from: nat)
    requires SameData(c, d) && c.parts == d.parts && from <= |c.parts|
    ensures SequentialRead(c, from) == SequentialRead(d, from)
    decreases |c.parts| - from
  {
    if from < |c.parts| {
      SameRecs(c, d, c.Files(from));
      SameRead(c, d, from + 1);
    }
  }

  // An iteration that ran to its end: no error, and the consumer took all of it.
  ghost predicate Complete(s: State)
  {
    s.emit.Finished? && !Failed(s.calls) && !ConsumerBroke(s.calls)
  }

  /** Two complete reads of the same files, whose rows came in any order and which ran with any
      number of workers, queues, slots and budget, handed over the same batches. */
  lemma ReadIsDeterministic(c: Config, d: Config, e1: seq<FileRef>, e2: seq<FileRef>, s: State, t: State)
    requires c.Valid() && d.Valid() && c.promptGet && d.promptGet && SameData(c, d)
    requires IsPrepared(e1, c.parts) && IsPrepared(e2, d.parts) && multiset(e1) == multiset(e2)
    requires forall x, y :: x in e1 && y in e1 && x.s3Key == y.s3Key ==> x == y
    requires Reachable(c, s) && Reachable(d, t) && Complete(s) && Complete(t)
    ensures Yields(s.calls) == Yields(t.calls)
  {
    PreparedIsOrderIndependent(e1, e2, c.parts, d.parts);
    RefinesSequentialRead(c, s);
    RefinesSequentialRead(d, t);
    SameRead(c, d, 0);
  }

  // ---------- what a batch holds ----------

  function RecsOf(c: Config, files: seq<FileRef>, f: nat): seq<Rec>
    requires Decodable(c, files) && f < |files|
  {
    FileRecs(c, files[f]).value
  }

  // Where file f's records begin among those of the partition.
  function Offset(c: Config, files: seq<FileRef>, f: nat): nat
    requires Decodable(c, files) && f <= |files|
  {
    if f == 0 then 0 else Offset(c, files, f - 1) + |RecsOf(c, files, f - 1)|
  }

  // Record k of file f is in its place.
  predicate InPlace(c: Config, files: seq<FileRef>, all: seq<Rec>, f: nat, k: nat)
    requires Decodable(c, files) && f < |files| && k < |RecsOf(c, files, f)|
  {
    Offset(c, files, f) + k < |all| && all[Offset(c, files, f) + k] == RecsOf(c, files, f)[k]
  }

  // `all` holds the records of the files, file after file, and no others.
  ghost predicate Concatenates(c: Config, files: seq<FileRef>, all: seq<Rec>)
    requires Decodable(c, files)
  {
    && |all| == Offset(c, files, |files|)
    && forall f, k :: 0 <= f < |files| && 0 <= k < |RecsOf(c, files, f)| ==> InPlace(c, files, all, f, k)
  }

  lemma {:induction false} RecsUpTo(c: Config, files: seq<FileRef>, n: nat)
    requires Decodable(c, files) && n <= |files|
    ensures |AllRecs(c, files[..n])| == Offset(c, files, n)
    ensures forall f, k :: 0 <= f < n && 0 <= k < |RecsOf(c, files, f)| ==> InPlace(c, files, AllRecs(c, files[..n]), f, k)
  {
    if n > 0 {
      RecsUpTo(c, files, n - 1);
      assert files[..n][..n - 1] == files[..n - 1];
      forall f, k | 0 <= f < n && 0 <= k < |RecsOf(c, files, f)| ensures InPlace(c, files, AllRecs(c, files[..n]), f, k) {
        assert f < n - 1 ==> InPlace(c, files, AllRecs(c, files[..n - 1]), f, k);
      }
    }
  }

  lemma RecsCount(c: Config, files: seq<FileRef>)
    requires Decodable(c, files)
    ensures |AllRecs(c, files)| == Offset(c, files, |files|)
  {
    RecsUpTo(c, files, |files|);
    assert files[..|files|] == files;
  }

  lemma RecAt(c: Config, files: seq<FileRef>, f: nat, k: nat)
    requires Decodable(c, files) && f < |files| && k < |RecsOf(c, files, f)|
    ensures InPlace(c, files, AllRecs(c, files), f, k)
  {
    RecsUpTo(c, files, |files|);
    assert files[..|files|] == files;
  }

  lemma {:induction false} OffsetsGrow(c: Config, files: seq<FileRef>, f: nat, g: nat)
    requires Decodable(c, files) && f <= g <= |files|
    ensures Offset(c, files, f) <= Offset(c, files, g)
    decreases g
  {
    if f < g { OffsetsGrow(c, files, f, g - 1); }
  }

  // Every record of the partition lies in some file.
  lemma {:induction false} Locate(c: Config, files: seq<FileRef>, n: nat, i: nat) returns (f: nat, k: nat)
    requires Decodable(c, files) && n <= |files| && i < Offset(c, files, n)
    ensures f < n && k < |RecsOf(c, files, f)| && i == Offset(c, files, f) + k
  {
    if i < Offset(c, files, n - 1) {
      f, k := Locate(c, files, n - 1, i);
    } else {
      f, k := n - 1, i - Offset(c, files, n - 1);
    }
  }

  // What the configured mode makes of the records of a partition.
  ghost predicate IsReadOf(mode: Mode, all: seq<Rec>, records: seq<Rec>)
  {
    match mode
    case NoKeys => records == all
    case History => IsHistoryRead(all, records)
    case Latest => IsLatestRead(all, records)
  }

  /** Every batch handed over, in any reachable state, is the read of its partition's records,
      laid end to end in file order: those records as they are when no entity key and version
      are configured, and otherwise the history read or the default read of them. */
  lemma BatchesAreReads(c: Config, s: State, i: nat) returns (all: seq<Rec>)
    requires c.Valid() && Reachable(c, s) && c.promptGet && i < |s.calls| && s.calls[i].Yielded?
    ensures i < |c.parts| && s.calls[i].batch.partitionKey == c.parts[i].key && s.calls[i].batch.version == c.parts[i].version
    ensures Decodable(c, c.Files(i)) && Concatenates(c, c.Files(i), all) && IsReadOf(c.mode, all, s.calls[i].batch.records)
  {
    ReachableHolds(c, s);
    YieldedIsGood(c, s, i);
    all := AllRecs(c, c.Files(i));
    ReadIs(c, i, all);
  }

  lemma ReadIs(c: Config, p: nat, all: seq<Rec>)
    requires p < |c.parts| && Decodable(c, c.Files(p)) && all == AllRecs(c, c.Files(p))
    ensures Concatenates(c, c.Files(p), all) && IsReadOf(c.mode, all, PartitionResult(c, p).records)
  {
    RecsUpTo(c, c.Files(p), |c.Files(p)|);
    assert c.Files(p)[..|c.Files(p)|] == c.Files(p);
    LatestIsCorrect(all);
    HistoryIsCorrect(all);
    hide IsLatestRead, IsHistoryRead;
  }

  // ---------- which file wins ----------

  // Record k of file f outranks record l of file g: a higher version, or the same one later.
  predicate Outranks(c: Config, files: seq<FileRef>, f: nat, k: nat, g: nat, l: nat)
    requires Decodable(c, files) && f < |files| && g < |files| && k < |RecsOf(c, files, f)| && l < |RecsOf(c, files, g)|
  {
    var x, y := RecsOf(c, files, f)[k], RecsOf(c, files, g)[l];
    y.version < x.version || (y.version == x.version && (g < f || (g == f && l <= k)))
  }

  /** A default read keeps, for each entity, a record of the highest version in any file; and
      when versions tie across files, the one in the file whose S3 key comes last. */
  lemma TieGoesToLaterKey(c: Config, p: nat, r: Rec) returns (f: nat, k: nat)
    requires p < |c.parts| && Decodable(c, c.Files(p)) && c.mode == Latest && Sorted(c.Files(p), ByS3Key())
    requires r in PartitionResult(c, p).records
    ensures f < |c.Files(p)| && k < |RecsOf(c, c.Files(p), f)| && RecsOf(c, c.Files(p), f)[k] == r
    ensures forall g, l :: 0 <= g < |c.Files(p)| && 0 <= l < |RecsOf(c, c.Files(p), g)| && RecsOf(c, c.Files(p), g)[l].entity == r.entity ==>
      Outranks(c, c.Files(p), f, k, g, l)
    ensures forall g, l :: 0 <= g < |c.Files(p)| && 0 <= l < |RecsOf(c, c.Files(p), g)| && RecsOf(c, c.Files(p), g)[l].entity == r.entity ==>
      RecsOf(c, c.Files(p), g)[l].version < r.version || g == f || ByS3Key()(c.Files(p)[g], c.Files(p)[f])
  {
    var files, all := c.Files(p), AllRecs(c, c.Files(p));
    LatestIsCorrect(all);
    var i := NewestIsSomewhere(all, r.entity);
    RecsCount(c, files);
    hide SortAndDedup, AllRecs, FileRecs, Decodable, LastOfMaxVersion, Offset;
    f, k := Locate(c, files, |files|, i);
    RecAt(c, files, f, k);
    forall g, l | 0 <= g < |files| && 0 <= l < |RecsOf(c, files, g)| && RecsOf(c, files, g)[l].entity == r.entity
      ensures Outranks(c, files, f, k, g, l)
    {
      Earlier(c, files, all, i, f, k, g, l);
    }
  }

  // The last record of maximal version outranks the others.
  lemma Earlier(c: Config, files: seq<FileRef>, all: seq<Rec>, i: nat, f: nat, k: nat, g: nat, l: nat)
    requires Decodable(c, files) && all == AllRecs(c, files) && i < |all| && LastOfMaxVersion(all, i)
    requires f < |files| && k < |RecsOf(c, files, f)| && i == Offset(c, files, f) + k && RecsOf(c, files, f)[k] == all[i]
    requires g < |files| && l < |RecsOf(c, files, g)| && RecsOf(c, files, g)[l].entity == all[i].entity
    ensures Outranks(c, files, f, k, g, l)
  {
    hide SortAndDedup, AllRecs, FileRecs, Decodable;
    RecAt(c, files, f, k);
    RecAt(c, files, g, l);
    if g > f { OffsetsGrow(c, files, f + 1, g); }
  }
}

/** `read.go`: grouping the catalog rows of a read into ordered partitions. */
module Prepare {
  import opened Sorting

  datatype FileRef = FileRef(
    fileId: int,
    partitionKey: string,
    s3Key: string,
    version: int,
    recordCount: int,
    fileSize: int,
    uncompressedSize: int)

  datatype Partition = Partition(key: string, files: seq<FileRef>, version: int)

  function ByS3Key(): (FileRef, FileRef) -> bool { (x: FileRef, y: FileRef) => x.s3Key == y.s3Key || Less(x.s3Key, y.s3Key) }

  function ByString(): (string, string) -> bool { (x: string, y: string) => x == y || Less(x, y) }

  lemma ByStringIsTotalPreorder()
    ensures TotalPreorder(ByString())
  {
    forall x, y ensures ByString()(x, y) || ByString()(y, x) { LessTrichotomy(x, y); }
    forall x, y, z | ByString()(x, y) && ByString()(y, z) ensures ByString()(x, z) {
      if Less(x, y) && Less(y, z) { LessTransitive(x, y, z); }
    }
  }

  lemma ByS3KeyIsTotalPreorder()
    ensures TotalPreorder(ByS3Key())
  {
    forall x, y ensures ByS3Key()(x, y) || ByS3Key()(y, x) { LessTrichotomy(x.s3Key, y.s3Key); }
    forall x, y, z | ByS3Key()(x, y) && ByS3Key()(y, z) ensures ByS3Key()(x, z) {
      if Less(x.s3Key, y.s3Key) && Less(y.s3Key, z.s3Key) { LessTransitive(x.s3Key, y.s3Key, z.s3Key); }
    }
  }

  function InPartition(entries: seq<FileRef>, key: string): seq<FileRef>
  {
    if |entries| == 0 then []
    else
      var p, e := InPartition(entries[..|entries| - 1], key), entries[|entries| - 1];
      if e.partitionKey == key then p + [e] else p
  }

  function MaxVersion(files: seq<FileRef>): int
  {
    if |files| == 0 then 0
    else
      var m, f := MaxVersion(files[..|files| - 1]), files[|files| - 1];
      if f.version > m then f.version else m
  }

  // What preparePartitions must deliver: strictly ascending partition keys, exactly
  // those that occur; each with all its rows in S3-key order and the greatest version.
  ghost predicate IsPrepared(entries: seq<FileRef>, parts: seq<Partition>)
  {
    && (forall i, j :: 0 <= i < j < |parts| ==> Less(parts[i].key, parts[j].key))
    && (forall i :: 0 <= i < |entries| ==> HasPartition(parts, entries[i].partitionKey))
    && (forall j :: 0 <= j < |parts| ==> IsGroup(entries, parts[j]))
  }

  ghost predicate HasPartition(parts: seq<Partition>, key: string)
  {
    exists j :: 0 <= j < |parts| && parts[j].key == key
  }

  ghost predicate IsGroup(entries: seq<FileRef>, p: Partition)
  {
    && |p.files| > 0
    && multiset(p.files) == multiset(InPartition(entries, p.key))
    && Sorted(p.files, ByS3Key())
    && p.version == MaxVersion(p.files)
  }

  lemma {:induction false} InPartitionCount(entries: seq<FileRef>, key: string, x: FileRef)
    ensures multiset(InPartition(entries, key))[x] == if x.partitionKey == key then multiset(entries)[x] else 0
  {
    if |entries| > 0 {
      InPartitionCount(entries[..|entries| - 1], key, x);
      assert entries == entries[..|entries| - 1] + [entries[|entries| - 1]];
    }
  }

  lemma MaxVersionIsMax(files: seq<FileRef>)
    ensures forall i :: 0 <= i < |files| ==> files[i].version <= MaxVersion(files)
    ensures MaxVersion(files) >= 0
    ensures MaxVersion(files) == 0 || exists i :: 0 <= i < |files| && files[i].version == MaxVersion(files)
  {
    if |files| > 0 {
      MaxVersionIsMax(files[..|files| - 1]);
    }
  }

  method GroupByPartition(entries: seq<FileRef>) returns (byPartition: map<string, seq<FileRef>>)
    ensures forall k :: k in byPartition <==> |InPartition(entries, k)| > 0
    ensures forall k :: k in byPartition ==> byPartition[k] == InPartition(entries, k)
  {
    byPartition := map[];
    for i := 0 to |entries|
      invariant forall k :: k in byPartition <==> |InPartition(entries[..i], k)| > 0
      invariant forall k :: k in byPartition ==> byPartition[k] == InPartition(entries[..i], k)
    {
      var e := entries[i];
      assert entries[..i + 1][..i] == entries[..i];
      var soFar := if e.partitionKey in byPartition then byPartition[e.partitionKey] else [];
      byPartition := byPartition[e.partitionKey := soFar + [e]];
    }
    assert entries[..|entries|] == entries;
  }

  method KeysInSomeOrder(keys: set<string>) returns (order: seq<string>)
    ensures Distinct(order)
    ensures forall k :: k in order <==> k in keys
  {
    order := [];
    var unseen := keys;
    while unseen != {}
      invariant unseen <= keys
      invariant forall k :: k in order <==> k in keys - unseen
      invariant Distinct(order)
      decreases unseen
    {
      var k :| k in unseen;
      order := order + [k];
      unseen := unseen - {k};
    }
  }

  method VersionOfFiles(files: seq<FileRef>) returns (version: int)
    ensures version == MaxVersion(files)
  {
    version := 0;
    for j := 0 to |files|
      invariant version == MaxVersion(files[..j])
    {
      assert files[..j + 1][..j] == files[..j];
      if files[j].version > version {
        version := files[j].version;
      }
    }
    assert files[..|files|] == files;
  }

  method BuildPartition(ghost entries: seq<FileRef>, key: string, rows: seq<FileRef>) returns (p: Partition)
    requires rows == InPartition(entries, key) && |rows| > 0
    ensures p.key == key && IsGroup(entries, p)
  {
    ByS3KeyIsTotalPreorder();
    SortIsSorted(rows, ByS3Key());
    var files := Sort(rows, ByS3Key());
    var version := VersionOfFiles(files);
    p := Partition(key, files, version);
  }

  lemma OwnPartitionNonEmpty(entries: seq<FileRef>, i: nat)
    requires i < |entries|
    ensures |InPartition(entries, entries[i].partitionKey)| > 0
  {
    InPartitionCount(entries, entries[i].partitionKey, entries[i]);
    assert entries[i] in multiset(entries);
    assert entries[i] in multiset(InPartition(entries, entries[i].partitionKey));
  }

  method SortKeys(keys: set<string>) returns (sorted: seq<string>)
    ensures forall i, j :: 0 <= i < j < |sorted| ==> Less(sorted[i], sorted[j])
    ensures forall k :: k in sorted <==> k in keys
  {
    var unsorted := KeysInSomeOrder(keys);
    ByStringIsTotalPreorder();
    SortIsSorted(unsorted, ByString());
    sorted := Sort(unsorted, ByString());
    SortedDistinctAscends(unsorted, sorted);
    assert forall k :: k in sorted <==> k in multiset(unsorted);
  }

  /** preparePartitions. The loop over the set of keys stands for Go's unordered map
      iteration; the sort removes its effect. */
  method PreparePartitions(entries: seq<FileRef>) returns (parts: seq<Partition>)
    ensures IsPrepared(entries, parts)
  {
    var byPartition := GroupByPartition(entries);
    var partitionKeys := SortKeys(byPartition.Keys);
    parts := [];
    for i := 0 to |partitionKeys|
      invariant |parts| == i
      invariant forall j :: 0 <= j < i ==> parts[j].key == partitionKeys[j] && IsGroup(entries, parts[j])
    {
      assert partitionKeys[i] in byPartition;
      var p := BuildPartition(entries, partitionKeys[i], byPartition[partitionKeys[i]]);
      parts := parts + [p];
    }
    forall i | 0 <= i < |entries| ensures HasPartition(parts, entries[i].partitionKey) {
      OwnPartitionNonEmpty(entries, i);
      var j :| 0 <= j < |partitionKeys| && partitionKeys[j] == entries[i].partitionKey;
      assert parts[j].key == entries[i].partitionKey;
    }
  }

  ghost predicate Distinct<T>(s: seq<T>)
  {
    forall i, j :: 0 <= i < j < |s| ==> s[i] != s[j]
  }

  lemma {:induction false} DistinctCount(s: seq<string>, x: string)
    requires Distinct(s)
    ensures multiset(s)[x] <= 1
  {
    if |s| > 0 {
      var p := s[..|s| - 1];
      assert s == p + [s[|s| - 1]];
      DistinctCount(p, x);
      assert x == s[|s| - 1] ==> x !in p;
    }
  }

  lemma RepeatCount(s: seq<string>, i: nat, j: nat)
    requires i < j < |s| && s[i] == s[j]
    ensures multiset(s)[s[i]] >= 2
  {
    assert s == s[..j] + [s[j]] + s[j + 1..];
    assert s[..j][i] == s[i];
  }

  lemma SortedDistinctAscends(a: seq<string>, b: seq<string>)
    requires Distinct(a) && multiset(a) == multiset(b) && Sorted(b, ByString())
    ensures forall i, j :: 0 <= i < j < |b| ==> Less(b[i], b[j])
  {
    forall i, j | 0 <= i < j < |b| ensures Less(b[i], b[j]) {
      assert ByString()(b[i], b[j]);
      if b[i] == b[j] {
        RepeatCount(b, i, j);
        DistinctCount(a, b[i]);
        assert false;
      }
    }
  }

  lemma SameKeys(e1: seq<FileRef>, e2: seq<FileRef>, p1: seq<Partition>, p2: seq<Partition>, i: nat)
    requires multiset(e1) == multiset(e2) && IsPrepared(e1, p1) && IsPrepared(e2, p2)
    requires i < |p1|
    ensures HasPartition(p2, p1[i].key)
  {
    var f := p1[i].files[0];
    assert f in multiset(p1[i].files);
    InPartitionCount(e1, p1[i].key, f);
    assert f in multiset(e2);
    var k :| 0 <= k < |e2| && e2[k] == f;
  }

  lemma SamePartition(e1: seq<FileRef>, e2: seq<FileRef>, a: Partition, b: Partition)
    requires multiset(e1) == multiset(e2) && IsGroup(e1, a) && IsGroup(e2, b) && a.key == b.key
    requires forall x, y :: x in e1 && y in e1 && x.s3Key == y.s3Key ==> x == y
    ensures a == b
  {
    forall x ensures multiset(a.files)[x] == multiset(b.files)[x] {
      InPartitionCount(e1, a.key, x);
      InPartitionCount(e2, a.key, x);
    }
    assert multiset(a.files) == multiset(b.files);
    ByS3KeyIsTotalPreorder();
    forall x, y | x in a.files && y in a.files && ByS3Key()(x, y) && ByS3Key()(y, x) ensures x == y {
      InPartitionCount(e1, a.key, x);
      InPartitionCount(e1, a.key, y);
      assert x in multiset(a.files) && y in multiset(a.files);
      assert x in multiset(e1) && y in multiset(e1);
      LessTrichotomy(x.s3Key, y.s3Key);
    }
    SortedArrangementUnique(a.files, b.files, ByS3Key());
  }

  /** The order in which the caller or the database hands over the rows has no effect:
      with distinct S3 keys, every arrangement prepares to the same partitions. */
  lemma PreparedIsOrderIndependent(e1: seq<FileRef>, e2: seq<FileRef>, p1: seq<Partition>, p2: seq<Partition>)
    requires multiset(e1) == multiset(e2) && IsPrepared(e1, p1) && IsPrepared(e2, p2)
    requires forall x, y :: x in e1 && y in e1 && x.s3Key == y.s3Key ==> x == y
    ensures p1 == p2
  {
    forall i | 0 <= i < |p1| ensures p1[i] in p2 {
      SameKeys(e1, e2, p1, p2, i);
      var j :| 0 <= j < |p2| && p2[j].key == p1[i].key;
      SamePartition(e1, e2, p1[i], p2[j]);
    }
    forall x | x in e2 ensures x in e1 { assert x in multiset(e1); }
    forall i | 0 <= i < |p2| ensures p2[i] in p1 {
      SameKeys(e2, e1, p2, p1, i);
      var j :| 0 <= j < |p1| && p1[j].key == p2[i].key;
      SamePartition(e2, e1, p2[i], p1[j]);
    }
    AscendingKeysUnique(p1, p2);
  }

  lemma {:induction false} AscendingKeysUnique(a: seq<Partition>, b: seq<Partition>)
    requires forall i, j :: 0 <= i < j < |a| ==> Less(a[i].key, a[j].key)
    requires forall i, j :: 0 <= i < j < |b| ==> Less(b[i].key, b[j].key)
    requires (forall i :: 0 <= i < |a| ==> a[i] in b) && (forall i :: 0 <= i < |b| ==> b[i] in a)
    ensures a == b
  {
    assert |a| > 0 ==> a[0] in b;
    assert |b| > 0 ==> b[0] in a;
    if |a| > 0 && |b| > 0 {
      FirstIsSame(a, b);
      RestWithin(a, b);
      RestWithin(b, a);
      AscendingKeysUnique(a[1..], b[1..]);
    }
  }

  lemma FirstIsSame(a: seq<Partition>, b: seq<Partition>)
    requires |a| > 0 && |b| > 0 && a[0] in b && b[0] in a
    requires forall i, j :: 0 <= i < j < |a| ==> Less(a[i].key, a[j].key)
    requires forall i, j :: 0 <= i < j < |b| ==> Less(b[i].key, b[j].key)
    ensures a[0] == b[0]
  {
    var i :| 0 <= i < |b| && b[i] == a[0];
    var j :| 0 <= j < |a| && a[j] == b[0];
    LessTrichotomy(a[0].key, b[0].key);
  }

  lemma RestWithin(a: seq<Partition>, b: seq<Partition>)
    requires |a| > 0 && |b| > 0 && a[0] == b[0] && forall i :: 0 <= i < |a| ==> a[i] in b
    requires forall i, j :: 0 <= i < j < |a| ==> Less(a[i].key, a[j].key)
    ensures forall k :: 0 <= k < |a[1..]| ==> a[1..][k] in b[1..]
  {
    forall k | 0 <= k < |a[1..]| ensures a[1..][k] in b[1..] {
      var l :| 0 <= l < |b| && b[l] == a[k + 1];
      LessTrichotomy(a[0].key, a[k + 1].key);
      assert Less(a[0].key, a[k + 1].key);
      assert b[1..][l - 1] == b[l];
    }
  }
}

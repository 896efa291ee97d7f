/** A bucket that holds exactly the committed objects rebuilds to the committed catalog. */
module RebuildCatalog {
  import opened Wrappers
  import opened Sorting
  import opened KeyCodec
  import Prepare
  import C = Catalog
  import CatalogCore
  import CatalogStorage
  import CatalogTheorems
  import opened Rebuild
  import opened RebuildTheorems

  // What HEAD returns for an object that a write put there (BuildS3Metadata).
  function HeadOf(o: C.Object): Head
  {
    Head(o.fileSize, if o.token == "" then None else Some(o.token), Some(o.recordCount), Some(o.uncompressed), Some(o.version))
  }

  ghost predicate HasValues(parts: seq<string>, p: string)
  {
    exists values :: Spells(parts, values, p)
  }

  ghost function ValuesOf(parts: seq<string>, p: string): (values: seq<string>)
    requires HasValues(parts, p)
    ensures Spells(parts, values, p)
  {
    var values :| Spells(parts, values, p);
    values
  }

  // S3 holds the committed objects and nothing else, and they are listed once each. Every
  // write checked its partition key and wrote at least one record.
  ghost predicate Mirrors(e: C.Env, s: C.State, b: Bucket)
  {
    && b.dataPrefix == DataPrefix(e.prefix) && ValidParts(b.parts) && Prepare.Distinct(b.keys)
    && (forall k :: k in b.keys <==> k in s.s3)
    && (forall k :: k in s.s3 ==> CatalogStorage.Recorded(s, k) && k in b.heads && b.heads[k] == HeadOf(s.s3[k]))
    && (forall id :: id in s.files ==> HasValues(b.parts, s.files[id].part) && s.files[id].recordCount > 0 && s.files[id].uncompressed > 0)
  }

  // Every committed write was timely, and so has its object.
  ghost predicate AllTimely(e: C.Env, s: C.State) { forall id :: id in s.files ==> e.timely(s.files[id].key) }

  ghost predicate AllStored(e: C.Env, s: C.State) { forall id :: id in s.files ==> CatalogStorage.Stored(e, s, s.files[id]) }

  lemma ReachableIsStored(e: C.Env, s: C.State)
    requires AllTimely(e, s) && CatalogTheorems.Reachable(e, s)
    ensures AllStored(e, s)
  {
    CatalogTheorems.ReachableStorage(e, s);
  }

  // ---------- the committed catalog, as a rebuild would write it ----------

  ghost function FileOf(r: C.FileRow, parts: seq<string>): FileRow
    requires HasValues(parts, r.part)
  {
    FileRow(r.part, ValuesOf(parts, r.part), r.version, r.fileSize, r.uncompressed, r.recordCount, r.token)
  }

  ghost predicate FilesMatch(s: C.State, parts: seq<string>, files: map<string, FileRow>)
    requires forall id :: id in s.files ==> HasValues(parts, s.files[id].part)
  {
    && (forall k :: k in files ==> CatalogStorage.Recorded(s, k))
    && (forall id :: id in s.files ==> s.files[id].key in files && files[s.files[id].key] == FileOf(s.files[id], parts))
  }

  ghost predicate PartsMatch(s: C.State, parts: seq<string>, partitions: map<string, PartRow>)
  {
    && partitions.Keys == s.partitions.Keys
    && (forall p :: p in s.partitions ==>
          && Spells(parts, partitions[p].values, p)
          && partitions[p].version == s.partitions[p].version && partitions[p].fileCount == s.partitions[p].fileCount)
  }

  // ---------- where committed files lie ----------

  lemma PartNotEmpty(parts: seq<string>, p: string)
    requires ValidParts(parts) && HasValues(parts, p)
    ensures p != ""
  {
    SegmentsSlashFree(parts, ValuesOf(parts, p));
  }

  lemma RowBelongs(e: C.Env, s: C.State, b: Bucket, id: nat)
    requires Mirrors(e, s, b) && id in s.files && CatalogStorage.Stored(e, s, s.files[id])
    ensures Belongs(b.dataPrefix, s.files[id].key, s.files[id].part)
    ensures s.files[id].key in SortedOf(b, s.files[id].part)
  {
    var r := s.files[id];
    var u :| SlashFree(u) && r.key == DataKey(e.prefix, r.part, u);
    PartNotEmpty(b.parts, r.part);
    PathRecoversPartition(e.prefix, r.part, u);
    SortedMembers(b, r.part, r.key);
  }

  // The i-th key of a group is the key of a committed row of that partition.
  lemma GroupKeyIsRow(e: C.Env, s: C.State, b: Bucket, p: string, i: nat) returns (id: nat)
    requires Mirrors(e, s, b) && AllStored(e, s) && i < |SortedOf(b, p)|
    ensures id in s.files && s.files[id].key == SortedOf(b, p)[i] && s.files[id].part == p
    ensures b.heads[SortedOf(b, p)[i]] == HeadOf(C.ObjectOf(s.files[id]))
  {
    var k := SortedOf(b, p)[i];
    SortedMembers(b, p, k);
    assert CatalogStorage.Recorded(s, k);
    id :| id in s.files && s.files[id].key == k;
    assert CatalogStorage.Stored(e, s, s.files[id]);
    RowBelongs(e, s, b, id);
  }

  lemma RowIsRecovered(e: C.Env, s: C.State, b: Bucket, id: nat)
    requires Mirrors(e, s, b) && id in s.files && CatalogStorage.Stored(e, s, s.files[id])
    ensures Recovers(b, s.files[id].key, FileOf(s.files[id], b.parts))
  {
    var r := s.files[id];
    RowBelongs(e, s, b, id);
    var i :| 0 <= i < |SortedOf(b, r.part)| && SortedOf(b, r.part)[i] == r.key;
    assert RightFile(b.heads, b.parts, r.part, SortedOf(b, r.part), i, FileOf(r, b.parts));
  }

  // ---------- counting and versions ----------

  lemma {:induction false} TopIs(heads: map<string, Head>, sorted: seq<string>, n: nat, v: nat)
    requires n <= |sorted| && forall i :: 0 <= i < n ==> sorted[i] in heads && heads[sorted[i]].version.Some? && heads[sorted[i]].version.value <= v
    ensures TopVersion(heads, sorted, n) <= v
    ensures forall i :: 0 <= i < n ==> heads[sorted[i]].version.value <= TopVersion(heads, sorted, n)
  {
    if n > 0 { TopIs(heads, sorted, n - 1, v); }
  }

  function KeysOfRows(s: C.State, ids: set<nat>): set<string>
    requires ids <= s.files.Keys
  {
    set id | id in ids :: s.files[id].key
  }

  lemma {:induction false} KeysCount(s: C.State, ids: set<nat>)
    requires ids <= s.files.Keys
    requires forall a, b :: a in s.files && b in s.files && s.files[a].key == s.files[b].key ==> a == b
    ensures |KeysOfRows(s, ids)| == |ids|
  {
    if ids == {} {
      assert KeysOfRows(s, ids) == {};
    } else {
      var a :| a in ids;
      KeysCount(s, ids - {a});
      assert KeysOfRows(s, ids) == KeysOfRows(s, ids - {a}) + {s.files[a].key};
      assert s.files[a].key !in KeysOfRows(s, ids - {a});
    }
  }

  lemma {:induction false} DistinctCount(xs: seq<string>)
    requires forall i, j :: 0 <= i < j < |xs| ==> xs[i] != xs[j]
    ensures |set x | x in xs| == |xs|
  {
    if xs != [] {
      var rest, last := xs[..|xs| - 1], xs[|xs| - 1];
      DistinctCount(rest);
      assert last !in rest;
      assert (set x | x in xs) == (set x | x in rest) + {last};
    }
  }

  lemma GroupSize(e: C.Env, s: C.State, b: Bucket, p: string)
    requires Mirrors(e, s, b) && AllStored(e, s) && CatalogCore.RowsOk(s)
    ensures |SortedOf(b, p)| == |CatalogTheorems.RowsOf(s, p)|
  {
    var sorted, ids := SortedOf(b, p), CatalogTheorems.RowsOf(s, p);
    SortedAscends(b, p);
    forall i, j | 0 <= i < j < |sorted| ensures sorted[i] != sorted[j] { LessTrichotomy(sorted[i], sorted[j]); }
    DistinctCount(sorted);
    KeysCount(s, ids);
    GroupKeys(e, s, b, p);
  }

  lemma GroupKeys(e: C.Env, s: C.State, b: Bucket, p: string)
    requires Mirrors(e, s, b) && AllStored(e, s)
    ensures (set k | k in SortedOf(b, p)) == KeysOfRows(s, CatalogTheorems.RowsOf(s, p))
  {
    var sorted, ids := SortedOf(b, p), CatalogTheorems.RowsOf(s, p);
    forall k | k in sorted ensures k in KeysOfRows(s, ids) {
      var i :| 0 <= i < |sorted| && sorted[i] == k;
      var id := GroupKeyIsRow(e, s, b, p, i);
      assert id in ids;
    }
    hide SortedOf;
    forall k | k in KeysOfRows(s, ids) ensures k in sorted {
      var id :| id in ids && s.files[id].key == k;
      assert CatalogStorage.Stored(e, s, s.files[id]);
      RowBelongs(e, s, b, id);
    }
  }

  lemma GroupTop(e: C.Env, s: C.State, b: Bucket, p: string)
    requires Mirrors(e, s, b) && AllStored(e, s) && CatalogCore.RowsOk(s) && CatalogCore.PartitionsOk(s) && p in s.partitions
    ensures TopVersion(b.heads, SortedOf(b, p), |SortedOf(b, p)|) == s.partitions[p].version
    ensures SortedOf(b, p) != []
  {
    var sorted, v := SortedOf(b, p), s.partitions[p].version;
    forall i | 0 <= i < |sorted| ensures sorted[i] in b.heads && b.heads[sorted[i]].version.Some? && b.heads[sorted[i]].version.value <= v {
      var id := GroupKeyIsRow(e, s, b, p, i);
      SortedMembers(b, p, sorted[i]);
      assert CatalogCore.RowOk(s, id);
    }
    TopIs(b.heads, sorted, |sorted|, v);
    assert CatalogCore.HasVersion(s, p, v);
    var top :| top in s.files && s.files[top].part == p && s.files[top].version == v;
    assert CatalogStorage.Stored(e, s, s.files[top]);
    RowBelongs(e, s, b, top);
    var i :| 0 <= i < |sorted| && sorted[i] == s.files[top].key;
    assert b.heads[sorted[i]] == HeadOf(C.ObjectOf(s.files[top]));
  }

  // ---------- recovery ----------

  lemma FilesRecovered(e: C.Env, s: C.State, b: Bucket, files: map<string, FileRow>)
    requires Mirrors(e, s, b) && AllStored(e, s) && FilesAre(b, files)
    ensures FilesMatch(s, b.parts, files)
  {
    forall k | k in files ensures CatalogStorage.Recorded(s, k) {
      assert Recovers(b, k, files[k]);
      SortedMembers(b, files[k].part, k);
    }
    forall id | id in s.files ensures s.files[id].key in files && files[s.files[id].key] == FileOf(s.files[id], b.parts) {
      var r := s.files[id];
      assert CatalogStorage.Stored(e, s, r);
      RowIsRecovered(e, s, b, id);
      RecoveredIsListed(b, files, r.key, FileOf(r, b.parts));
      assert Recovers(b, r.key, files[r.key]);
      RecoversOneRow(b, r.key, files[r.key], FileOf(r, b.parts));
    }
  }

  lemma PartsRecovered(e: C.Env, s: C.State, b: Bucket, partitions: map<string, PartRow>)
    requires Mirrors(e, s, b) && AllStored(e, s) && CatalogCore.RowsOk(s) && CatalogCore.PartitionsOk(s)
    requires forall p :: p in s.partitions ==> s.partitions[p].fileCount == |CatalogTheorems.RowsOf(s, p)|
    requires PartsAre(b, partitions)
    ensures PartsMatch(s, b.parts, partitions)
  {
    hide Mirrors, SortedOf, TopVersion, PartsAre, CatalogCore.RowsOk, CatalogCore.PartitionsOk, CatalogStorage.FilesStored, PartMatches;
    forall p | p in s.partitions ensures p in partitions && PartMatches(s, b, p, partitions[p]) {
      OnePartRecovered(e, s, b, p, partitions);
    }
    forall p | p in partitions ensures p in s.partitions { GroupIsPartition(e, s, b, p, partitions); }
    AllPartsMatch(s, b, partitions);
  }

  lemma AllPartsMatch(s: C.State, b: Bucket, partitions: map<string, PartRow>)
    requires forall p :: p in s.partitions ==> p in partitions && PartMatches(s, b, p, partitions[p])
    requires forall p :: p in partitions ==> p in s.partitions
    ensures PartsMatch(s, b.parts, partitions)
  {
    forall p | p in s.partitions
      ensures Spells(b.parts, partitions[p].values, p)
      ensures partitions[p].version == s.partitions[p].version && partitions[p].fileCount == s.partitions[p].fileCount
    {
      assert PartMatches(s, b, p, partitions[p]);
    }
    hide Spells;
    assert partitions.Keys == s.partitions.Keys;
  }

  lemma OnePartRecovered(e: C.Env, s: C.State, b: Bucket, p: string, partitions: map<string, PartRow>)
    requires Mirrors(e, s, b) && AllStored(e, s) && CatalogCore.RowsOk(s) && CatalogCore.PartitionsOk(s)
    requires p in s.partitions && s.partitions[p].fileCount == |CatalogTheorems.RowsOf(s, p)| && PartsAre(b, partitions)
    ensures p in partitions && PartMatches(s, b, p, partitions[p])
  {
    GroupTop(e, s, b, p);
    GroupSize(e, s, b, p);
    hide SortedOf, Mirrors, TopVersion;
  }

  ghost predicate PartMatches(s: C.State, b: Bucket, p: string, row: PartRow)
    requires p in s.partitions
  {
    Spells(b.parts, row.values, p) && row.version == s.partitions[p].version && row.fileCount == s.partitions[p].fileCount
  }

  lemma GroupIsPartition(e: C.Env, s: C.State, b: Bucket, p: string, partitions: map<string, PartRow>)
    requires Mirrors(e, s, b) && AllStored(e, s) && CatalogCore.RowsOk(s)
    requires PartsAre(b, partitions) && p in partitions
    ensures p in s.partitions
  {
    var id := GroupKeyIsRow(e, s, b, p, 0);
    assert CatalogCore.RowOk(s, id);
  }

  /** Disaster recovery: if S3 holds exactly the committed objects, what a rebuild leaves is
      the committed catalog: every file's partition, part values, key, version, sizes, count
      and token, and every partition's version and file_count. */
  lemma RebuildRecoversCatalog(e: C.Env, s: C.State, b: Bucket, files: map<string, FileRow>, partitions: map<string, PartRow>)
    requires AllTimely(e, s) && CatalogTheorems.Reachable(e, s) && Mirrors(e, s, b) && IsRebuilt(b, files, partitions)
    ensures FilesMatch(s, b.parts, files) && PartsMatch(s, b.parts, partitions)
  {
    CatalogTheorems.ReachableCore(e, s);
    ReachableIsStored(e, s);
    forall p | p in s.partitions ensures s.partitions[p].fileCount == |CatalogTheorems.RowsOf(s, p)| {
      CatalogTheorems.VersionsAreDense(e, s, p);
    }
    FilesRecovered(e, s, b, files);
    PartsRecovered(e, s, b, partitions);
  }

  // ---------- the run gets there ----------

  lemma MirroredIsPlaceable(e: C.Env, s: C.State, b: Bucket)
    requires Mirrors(e, s, b) && AllStored(e, s)
    ensures Placeable(b)
  {
    forall k | k in b.keys ensures !Misplaced(b.dataPrefix, b.parts, k) {
      assert CatalogStorage.Recorded(s, k);
      var id :| id in s.files && s.files[id].key == k;
      assert CatalogStorage.Stored(e, s, s.files[id]);
      RowBelongs(e, s, b, id);
      assert Spells(b.parts, ValuesOf(b.parts, s.files[id].part), s.files[id].part);
    }
  }

  lemma MirroredGroupIsOk(e: C.Env, s: C.State, b: Bucket, p: string)
    requires Mirrors(e, s, b) && AllStored(e, s) && CatalogCore.RowsOk(s)
    ensures GroupOk(b, p)
  {
    var sorted := SortedOf(b, p);
    forall i | 0 <= i < |sorted| ensures Readable(b.heads, sorted[i]) {
      SortedMembers(b, p, sorted[i]);
      var id := GroupKeyIsRow(e, s, b, p, i);
    }
    forall i, j | 0 <= i < |sorted| && 0 <= j < |sorted| ensures Apart(b.heads, sorted[i], sorted[j]) {
      var x := GroupKeyIsRow(e, s, b, p, i);
      var y := GroupKeyIsRow(e, s, b, p, j);
      TokensMeet(s, x, y);
    }
  }

  lemma TokensMeet(s: C.State, x: nat, y: nat)
    requires CatalogCore.RowsOk(s) && x in s.files && y in s.files && s.files[x].part == s.files[y].part
    ensures TokenOf(HeadOf(C.ObjectOf(s.files[x]))) == TokenOf(HeadOf(C.ObjectOf(s.files[y]))) != "" ==> s.files[x].key == s.files[y].key
  {
    assert s.files[x].token == s.files[y].token != "" ==> C.Matches(s.files[x], s.files[y].part, s.files[y].token);
  }

  lemma {:induction false} PlacedBound(dataPrefix: string, keys: seq<string>)
    ensures |Placed(dataPrefix, keys)| <= |keys|
  {
    if keys != [] { PlacedBound(dataPrefix, keys[..|keys| - 1]); }
  }

  lemma ListedKeysAreCommitted(e: C.Env, s: C.State, b: Bucket, k: string)
    requires Mirrors(e, s, b) && AllStored(e, s)
    ensures k in b.keys <==> k in KeysOfRows(s, s.files.Keys)
  {
    if k in b.keys { assert CatalogStorage.Recorded(s, k); }
    if id :| id in s.files && s.files[id].key == k { assert CatalogStorage.Stored(e, s, s.files[id]); }
  }

  lemma MirroredFiles(e: C.Env, s: C.State, b: Bucket)
    requires Mirrors(e, s, b) && AllStored(e, s) && CatalogCore.RowsOk(s)
    ensures |Placed(b.dataPrefix, b.keys)| <= |s.files|
  {
    hide *;
    PlacedBound(b.dataPrefix, b.keys);
    ListedCount(e, s, b);
    CommittedCount(s);
    forall k ensures k in b.keys <==> k in KeysOfRows(s, s.files.Keys) { ListedKeysAreCommitted(e, s, b, k); }
    assert (set k | k in b.keys) == KeysOfRows(s, s.files.Keys);
  }

  lemma ListedCount(e: C.Env, s: C.State, b: Bucket)
    requires Mirrors(e, s, b)
    ensures |set k | k in b.keys| == |b.keys|
  {
    DistinctCount(b.keys);
  }

  lemma CommittedCount(s: C.State)
    requires CatalogCore.RowsOk(s)
    ensures |KeysOfRows(s, s.files.Keys)| == |s.files|
  {
    KeysCount(s, s.files.Keys);
    hide *;
    assert |s.files.Keys| == |s.files|;
  }

  lemma MirroredPartitions(e: C.Env, s: C.State, b: Bucket)
    requires Mirrors(e, s, b) && AllStored(e, s) && CatalogCore.RowsOk(s)
    ensures |PartitionsIn(b.dataPrefix, b.keys)| <= |s.partitions|
  {
    var found := PartitionsIn(b.dataPrefix, b.keys);
    forall p | p in found ensures p in s.partitions {
      PartitionIsIn(b.dataPrefix, b.keys, p);
      SortedLength(KeysIn(b.dataPrefix, b.keys, p));
      var id := GroupKeyIsRow(e, s, b, p, 0);
      assert CatalogCore.RowOk(s, id);
    }
    assert s.partitions.Keys == found + (s.partitions.Keys - found);
    assert |s.partitions.Keys| == |s.partitions|;
  }

  lemma MirrorIsRestorable(e: C.Env, s: C.State, b: Bucket)
    requires AllTimely(e, s) && CatalogTheorems.Reachable(e, s) && Mirrors(e, s, b)
    ensures Placeable(b) && Restorable(b) && Cost(b) <= |s.files| + |s.partitions|
  {
    CatalogTheorems.ReachableCore(e, s);
    ReachableIsStored(e, s);
    MirroredIsPlaceable(e, s, b);
    forall p ensures GroupOk(b, p) { MirroredGroupIsOk(e, s, b, p); }
    MirroredFiles(e, s, b);
    MirroredPartitions(e, s, b);
  }

  // The listing's pages hold the committed objects, and besides them only what is not a
  // parquet file; S3 lists a key once.
  ghost predicate PagesMirror(e: C.Env, s: C.State, pages: seq<seq<string>>, heads: map<string, Head>, prefix: string, parts: seq<string>)
  {
    && DataPrefix(prefix) == DataPrefix(e.prefix) && ValidParts(parts)
    && (forall x, y :: IsEntry(pages, x) && IsEntry(pages, y) && EntryAt(pages, x) == EntryAt(pages, y) ==> x == y)
    && (forall k :: k in s.s3 ==> OnPage(pages, k))
    && (forall k :: OnPage(pages, k) && IsParquet(k) ==> k in s.s3)
    && (forall k :: k in s.s3 ==> CatalogStorage.Recorded(s, k) && k in heads && heads[k] == HeadOf(s.s3[k]))
    && (forall id :: id in s.files ==> HasValues(parts, s.files[id].part) && s.files[id].recordCount > 0 && s.files[id].uncompressed > 0)
  }

  lemma StoredIsParquet(e: C.Env, s: C.State, r: C.FileRow)
    requires CatalogStorage.Stored(e, s, r)
    ensures IsParquet(r.key)
  {
    var u :| SlashFree(u) && r.key == DataKey(e.prefix, r.part, u);
    assert r.key == (DataPrefix(e.prefix) + r.part + "/" + u) + ".parquet";
  }

  lemma ListedOnce(pages: seq<seq<string>>, keys: seq<string>, at: seq<(nat, nat)>)
    requires Listing(pages, keys, at)
    requires forall x, y :: IsEntry(pages, x) && IsEntry(pages, y) && EntryAt(pages, x) == EntryAt(pages, y) ==> x == y
    ensures Prepare.Distinct(keys)
  {
    hide IsParquet;
    forall m, n | 0 <= m < n < |keys| ensures keys[m] != keys[n] { assert Before(at[m], at[n]); }
  }

  /** Read page by page, such a listing is the bucket that a rebuild needs: the keys that the
      run collects are the keys of the committed objects. */
  lemma PagesAreMirror(e: C.Env, s: C.State, pages: seq<seq<string>>, heads: map<string, Head>, prefix: string, parts: seq<string>)
    requires PagesMirror(e, s, pages, heads, prefix, parts) && AllStored(e, s)
    ensures Mirrors(e, s, BucketOf(pages, heads, prefix, parts))
  {
    var keys := ParquetOf(pages);
    var at := ParquetOfListing(pages);
    ListedKeys(pages, keys, at);
    ListedOnce(pages, keys, at);
    forall k ensures k in keys <==> k in s.s3 {
      if k in s.s3 {
        assert CatalogStorage.Recorded(s, k);
        var id :| id in s.files && s.files[id].key == k;
        StoredIsParquet(e, s, s.files[id]);
      }
    }
  }

  /** The rebuild command end to end: run against a bucket that holds exactly the committed
      objects, however its listing is cut into pages, from any state that earlier runs left,
      with one statement for each file and each partition, it finishes and the catalog is the
      committed one. */
  method RestoreCatalog(ghost e: C.Env, ghost s: C.State, db: Database, pages: seq<seq<string>>, heads: map<string, Head>, prefix: string, parts: seq<string>)
      returns (r: Outcome)
    requires AllTimely(e, s) && CatalogTheorems.Reachable(e, s) && PagesMirror(e, s, pages, heads, prefix, parts)
    requires IsPartial(BucketOf(pages, heads, prefix, parts), db.files, db.partitions)
    requires db.statements >= |s.files| + |s.partitions|
    modifies db
    ensures r.Done? && FilesMatch(s, parts, db.files) && PartsMatch(s, parts, db.partitions)
  {
    ghost var b := BucketOf(pages, heads, prefix, parts);
    ReachableIsStored(e, s);
    PagesAreMirror(e, s, pages, heads, prefix, parts);
    MirrorIsRestorable(e, s, b);
    r := Recover(db, pages, heads, prefix, parts);
    RebuildRecoversCatalog(e, s, b, db.files, db.partitions);
  }
}

/** What a rebuild recovers. */
module RebuildTheorems {
  import opened Wrappers
  import opened Sorting
  import opened KeyCodec
  import Prepare
  import opened Rebuild

  // ---------- keys of a partition ----------

  lemma {:induction false} KeysInDistinct(dataPrefix: string, keys: seq<string>, p: string)
    requires Prepare.Distinct(keys)
    ensures Prepare.Distinct(KeysIn(dataPrefix, keys, p))
  {
    if keys != [] {
      var rest, k := keys[..|keys| - 1], keys[|keys| - 1];
      KeysInDistinct(dataPrefix, rest, p);
      KeysInMembers(dataPrefix, rest, p, k);
      assert k !in rest;
    }
  }

  lemma SortedAscends(b: Bucket, p: string)
    requires Prepare.Distinct(b.keys)
    ensures forall i, j :: 0 <= i < j < |SortedOf(b, p)| ==> Less(SortedOf(b, p)[i], SortedOf(b, p)[j])
  {
    var ks := KeysIn(b.dataPrefix, b.keys, p);
    KeysInDistinct(b.dataPrefix, b.keys, p);
    Prepare.ByStringIsTotalPreorder();
    SortIsSorted(ks, Prepare.ByString());
    Prepare.SortedDistinctAscends(ks, SortedOf(b, p));
  }

  // ---------- the rebuilt catalog is determined by the bucket ----------

  lemma RecoversOneRow(b: Bucket, k: string, x: FileRow, y: FileRow)
    requires ValidParts(b.parts) && Prepare.Distinct(b.keys) && Recovers(b, k, x) && Recovers(b, k, y)
    ensures x == y
  {
    SortedMembers(b, x.part, k);
    SortedMembers(b, y.part, k);
    var i :| 0 <= i < |SortedOf(b, x.part)| && SortedOf(b, x.part)[i] == k && RightFile(b.heads, b.parts, x.part, SortedOf(b, x.part), i, x);
    var j :| 0 <= j < |SortedOf(b, y.part)| && SortedOf(b, y.part)[j] == k && RightFile(b.heads, b.parts, y.part, SortedOf(b, y.part), j, y);
    assert x.part == y.part;
    SortedAscends(b, x.part);
    LessTrichotomy(k, k);
    assert i == j;
    KeyOfInjective(b.parts, x.values, y.values);
  }

  lemma RightPartIsOne(b: Bucket, p: string, x: PartRow, y: PartRow)
    requires ValidParts(b.parts)
    requires RightPart(b.heads, b.parts, p, SortedOf(b, p), x) && RightPart(b.heads, b.parts, p, SortedOf(b, p), y)
    ensures x == y
  {
    KeyOfInjective(b.parts, x.values, y.values);
  }

  lemma RecoveredIsListed(b: Bucket, files: map<string, FileRow>, k: string, row: FileRow)
    requires Recovers(b, k, row) && forall p, i :: 0 <= i < |SortedOf(b, p)| ==> SortedOf(b, p)[i] in files
    ensures k in files
  {
  }

  lemma FilesWithin(b: Bucket, f: map<string, FileRow>, g: map<string, FileRow>, k: string)
    requires ValidParts(b.parts) && Prepare.Distinct(b.keys) && FilesAre(b, f) && FilesAre(b, g) && k in f
    ensures k in g && g[k] == f[k]
  {
    RecoveredIsListed(b, g, k, f[k]);
    RecoversOneRow(b, k, f[k], g[k]);
  }

  lemma FilesDetermined(b: Bucket, f: map<string, FileRow>, g: map<string, FileRow>)
    requires ValidParts(b.parts) && Prepare.Distinct(b.keys) && FilesAre(b, f) && FilesAre(b, g)
    ensures f == g
  {
    forall k | k in f ensures k in g && g[k] == f[k] { FilesWithin(b, f, g, k); }
    forall k | k in g ensures k in f { FilesWithin(b, g, f, k); }
  }

  lemma PartsDetermined(b: Bucket, p: map<string, PartRow>, q: map<string, PartRow>)
    requires ValidParts(b.parts) && PartsAre(b, p) && PartsAre(b, q)
    ensures p == q
  {
    forall x | x in p ensures x in q && q[x] == p[x] {
      assert SortedOf(b, x) != [];
      RightPartIsOne(b, x, p[x], q[x]);
    }
    forall x | x in q ensures x in p { assert SortedOf(b, x) != []; }
  }

  /** One bucket has one rebuilt catalog. */
  lemma RebuiltIsUnique(b: Bucket, f: map<string, FileRow>, p: map<string, PartRow>, g: map<string, FileRow>, q: map<string, PartRow>)
    requires ValidParts(b.parts) && Prepare.Distinct(b.keys) && IsRebuilt(b, f, p) && IsRebuilt(b, g, q)
    ensures f == g && p == q
  {
    FilesDetermined(b, f, g);
    PartsDetermined(b, p, q);
  }

  // ---------- what a run needs of the objects ----------

  // The object is there, with both required fields positive.
  predicate HasMetadata(heads: map<string, Head>, k: string)
  {
    k in heads && match (heads[k].records, heads[k].uncompressed) case (Some(r), Some(u)) => r > 0 && u > 0 case _ => false
  }

  // The writes of both objects carried this token.
  predicate ShareToken(heads: map<string, Head>, j: string, k: string)
  {
    j in heads && k in heads && heads[j].token.Some? && heads[j].token == heads[k].token && heads[j].token.value != ""
  }

  // No other listed object of the partition carries this one's token.
  ghost predicate Unshared(b: Bucket, p: string, k: string)
  {
    forall j :: j in b.keys && Belongs(b.dataPrefix, j, p) && ShareToken(b.heads, j, k) ==> j == k
  }

  /** Apart from paths and the connection, a run needs exactly this: every listed object of a
      partition is there with its metadata, and no two of one partition share a token. */
  lemma RestorableExactly(b: Bucket)
    ensures Restorable(b) <==> forall k, p :: k in b.keys && Belongs(b.dataPrefix, k, p) ==>
      HasMetadata(b.heads, k) && Unshared(b, p, k)
  {
    forall k, p ensures k in SortedOf(b, p) <==> k in b.keys && Belongs(b.dataPrefix, k, p) { SortedMembers(b, p, k); }
    forall p ensures GroupOk(b, p) <==> forall k :: k in SortedOf(b, p) ==> HasMetadata(b.heads, k) && Unshared(b, p, k) {
      GroupOkExactly(b, p);
    }
    hide SortedOf, GroupOk, Unshared, HasMetadata;
    if Restorable(b) {
      forall k, p | k in b.keys && Belongs(b.dataPrefix, k, p) ensures HasMetadata(b.heads, k) && Unshared(b, p, k) {
        assert k in SortedOf(b, p);
      }
    } else {
      var p :| SortedOf(b, p) != [] && !GroupOk(b, p);
      var k :| k in SortedOf(b, p) && !(HasMetadata(b.heads, k) && Unshared(b, p, k));
      assert k in b.keys && Belongs(b.dataPrefix, k, p);
    }
  }

  lemma GroupOkExactly(b: Bucket, p: string)
    ensures GroupOk(b, p) <==> forall k :: k in SortedOf(b, p) ==> HasMetadata(b.heads, k) && Unshared(b, p, k)
  {
    var sorted := SortedOf(b, p);
    forall k ensures k in sorted <==> k in b.keys && Belongs(b.dataPrefix, k, p) { SortedMembers(b, p, k); }
    hide SortedOf, Belongs;
    if forall k :: k in sorted ==> HasMetadata(b.heads, k) && Unshared(b, p, k) {
      forall i | 0 <= i < |sorted| ensures Readable(b.heads, sorted[i]) { assert HasMetadata(b.heads, sorted[i]); }
      forall i, j | 0 <= i < |sorted| && 0 <= j < |sorted| ensures Apart(b.heads, sorted[i], sorted[j]) {
        assert Unshared(b, p, sorted[j]) && sorted[i] in sorted;
      }
    }
    if GroupOk(b, p) {
      forall k, j | k in sorted && j in sorted ensures HasMetadata(b.heads, k) && (ShareToken(b.heads, j, k) ==> j == k) {
        var x, y :| 0 <= x < |sorted| && sorted[x] == k && 0 <= y < |sorted| && sorted[y] == j;
        assert Readable(b.heads, sorted[x]) && Apart(b.heads, sorted[y], sorted[x]);
      }
    }
  }

  /** A file row of a sound catalog carries its object's fields as they are. */
  lemma RowCarriesObject(b: Bucket, files: map<string, FileRow>, k: string)
    requires Sound(b, files) && k in files
    ensures k in b.keys && k in b.heads
    ensures var row, h := files[k], b.heads[k];
      && h.records == Some(row.records) && row.records > 0
      && h.uncompressed == Some(row.uncompressed) && row.uncompressed > 0
      && h.size == row.size && (h.version.Some? ==> h.version.value == row.version)
      && row.token == (match h.token case Some(t) => t case None => "")
      && PartitionOfPath(b.dataPrefix, k) == Path.InPartition(row.part)
  {
    assert Recovers(b, k, files[k]);
    SortedMembers(b, files[k].part, k);
  }

  // ---------- partition rows against file rows ----------

  lemma {:induction false} TopBounds(heads: map<string, Head>, sorted: seq<string>, n: nat)
    requires n <= |sorted| && forall i :: 0 <= i < n ==> sorted[i] in heads
    ensures forall i :: 0 <= i < n ==> Or(heads[sorted[i]].version, i + 1) <= TopVersion(heads, sorted, n)
    ensures TopVersion(heads, sorted, n) == 0 || exists i :: 0 <= i < n && Or(heads[sorted[i]].version, i + 1) == TopVersion(heads, sorted, n)
  {
    if n > 0 { TopBounds(heads, sorted, n - 1); }
  }

  // The file rows of a partition.
  function RowsIn(files: map<string, FileRow>, p: string): set<string>
  {
    set k | k in files && files[k].part == p
  }

  lemma RowAt(b: Bucket, files: map<string, FileRow>, p: string, i: nat)
    requires ValidParts(b.parts) && Prepare.Distinct(b.keys) && FilesAre(b, files) && i < |SortedOf(b, p)|
    ensures SortedOf(b, p)[i] in RowsIn(files, p) && SortedOf(b, p)[i] in b.heads
    ensures files[SortedOf(b, p)[i]].version == Or(b.heads[SortedOf(b, p)[i]].version, i + 1)
  {
    var k := SortedOf(b, p)[i];
    assert Recovers(b, k, files[k]);
    SortedMembers(b, p, k);
    SortedMembers(b, files[k].part, k);
    var j :| 0 <= j < |SortedOf(b, p)| && SortedOf(b, p)[j] == k && RightFile(b.heads, b.parts, p, SortedOf(b, p), j, files[k]);
    SortedAscends(b, p);
    LessTrichotomy(k, k);
    assert i == j;
  }

  lemma {:induction false} CountDistinct(keys: seq<string>, s: set<string>)
    requires Prepare.Distinct(keys) && forall k :: k in s <==> k in keys
    ensures |s| == |keys|
  {
    if keys == [] {
      assert s == {};
    } else {
      var rest, last := keys[..|keys| - 1], keys[|keys| - 1];
      assert keys == rest + [last] && last !in rest;
      CountDistinct(rest, s - {last});
    }
  }

  /** In a rebuilt catalog every partition's row agrees with its file rows: it counts them, and
      its version is the greatest of theirs (or 0, where a rebuild starts from). */
  lemma PartRowFitsFiles(b: Bucket, files: map<string, FileRow>, partitions: map<string, PartRow>, p: string)
    requires ValidParts(b.parts) && Prepare.Distinct(b.keys) && IsRebuilt(b, files, partitions) && p in partitions
    ensures partitions[p].fileCount == |RowsIn(files, p)|
    ensures forall k :: k in RowsIn(files, p) ==> files[k].version <= partitions[p].version
    ensures partitions[p].version == 0 || exists k :: k in RowsIn(files, p) && files[k].version == partitions[p].version
  {
    var sorted := SortedOf(b, p);
    var rows, top := RowsIn(files, p), TopVersion(b.heads, sorted, |sorted|);
    assert FilesAre(b, files);
    assert partitions[p].version == top && partitions[p].fileCount == |sorted|;
    hide SortedOf, FilesAre, PartsAre, IsRebuilt, TopVersion, Or, Spells;
    GroupVersions(b, files, p, sorted);
    hide RowsIn;
    CountDistinct(sorted, rows);
    GreatestVersion(files, rows, sorted, top);
  }

  lemma GroupVersions(b: Bucket, files: map<string, FileRow>, p: string, sorted: seq<string>)
    requires ValidParts(b.parts) && Prepare.Distinct(b.keys) && FilesAre(b, files) && sorted == SortedOf(b, p)
    ensures Prepare.Distinct(sorted) && forall k :: k in RowsIn(files, p) <==> k in sorted
    ensures forall i :: 0 <= i < |sorted| ==> sorted[i] in files && files[sorted[i]].version <= TopVersion(b.heads, sorted, |sorted|)
    ensures TopVersion(b.heads, sorted, |sorted|) == 0 ||
      exists i :: 0 <= i < |sorted| && files[sorted[i]].version == TopVersion(b.heads, sorted, |sorted|)
  {
    hide SortedOf, FilesAre, TopVersion, RowsIn, Or;
    GroupRows(b, files, p, sorted);
    TopBounds(b.heads, sorted, |sorted|);
  }

  lemma GreatestVersion(files: map<string, FileRow>, rows: set<string>, sorted: seq<string>, top: int)
    requires (forall k :: k in rows <==> k in sorted) && forall i :: 0 <= i < |sorted| ==> sorted[i] in files && files[sorted[i]].version <= top
    requires top == 0 || exists i :: 0 <= i < |sorted| && files[sorted[i]].version == top
    ensures forall k :: k in rows ==> k in files && files[k].version <= top
    ensures top == 0 || exists k :: k in rows && k in files && files[k].version == top
  {
  }

  lemma GroupRows(b: Bucket, files: map<string, FileRow>, p: string, sorted: seq<string>)
    requires ValidParts(b.parts) && Prepare.Distinct(b.keys) && FilesAre(b, files) && sorted == SortedOf(b, p)
    ensures Prepare.Distinct(sorted) && forall k :: k in RowsIn(files, p) <==> k in sorted
    ensures forall i :: 0 <= i < |sorted| ==>
      sorted[i] in b.heads && sorted[i] in files && files[sorted[i]].version == Or(b.heads[sorted[i]].version, i + 1)
  {
    SortedAscends(b, p);
    forall i, j | 0 <= i < j < |sorted| ensures sorted[i] != sorted[j] { LessTrichotomy(sorted[i], sorted[j]); }
    forall k | k in RowsIn(files, p) ensures k in sorted { assert Recovers(b, k, files[k]); }
    hide SortedOf, Or;
    forall i | 0 <= i < |sorted|
      ensures sorted[i] in b.heads && sorted[i] in RowsIn(files, p) && files[sorted[i]].version == Or(b.heads[sorted[i]].version, i + 1)
    {
      RowAt(b, files, p, i);
    }
  }

  // ---------- convergence ----------

  // What runs that stopped somewhere leave behind: right file rows, and partition rows, of
  // whatever content, for partitions of this bucket.
  ghost predicate IsPartial(b: Bucket, files: map<string, FileRow>, partitions: map<string, PartRow>)
  {
    Sound(b, files) && forall p :: p in partitions ==> SortedOf(b, p) != []
  }

  /** From any partially rebuilt state a run arrives at the bucket's one catalog, exactly if
      the bucket can be read and the connection lives. A run that stops leaves a partially
      rebuilt state again. */
  method Recover(db: Database, pages: seq<seq<string>>, heads: map<string, Head>, prefix: string, parts: seq<string>)
      returns (r: Outcome)
    requires ValidParts(parts) && IsPartial(BucketOf(pages, heads, prefix, parts), db.files, db.partitions)
    modifies db
    ensures IsPartial(BucketOf(pages, heads, prefix, parts), db.files, db.partitions)
    ensures r.Done? <==> CanFinish(BucketOf(pages, heads, prefix, parts), old(db.statements))
    ensures r.Done? ==> IsRebuilt(BucketOf(pages, heads, prefix, parts), db.files, db.partitions)
  {
    r := Rebuild.Rebuild(db, pages, heads, prefix, parts);
  }

  /** On a rebuilt catalog another run changes nothing and reports no inserted file, wherever
      it stops. */
  method Rerun(db: Database, pages: seq<seq<string>>, heads: map<string, Head>, prefix: string, parts: seq<string>)
      returns (r: Outcome)
    requires ValidParts(parts) && Prepare.Distinct(ParquetOf(pages))
    requires IsRebuilt(BucketOf(pages, heads, prefix, parts), db.files, db.partitions) && TokensUnique(db.files)
    modifies db
    ensures db.files == old(db.files) && db.partitions == old(db.partitions)
    ensures r.Done? <==> CanFinish(BucketOf(pages, heads, prefix, parts), old(db.statements))
    ensures r.Done? ==> r.filesInserted == 0
  {
    var b := BucketOf(pages, heads, prefix, parts);
    r := Rebuild.Rebuild(db, pages, heads, prefix, parts);
    NothingToAdd(b, old(db.files), db.files);
    NothingToChange(b, old(db.partitions), db.partitions);
  }

  lemma NothingToAdd(b: Bucket, before: map<string, FileRow>, after: map<string, FileRow>)
    requires ValidParts(b.parts) && Prepare.Distinct(b.keys) && Grew(b, before, after)
    requires (forall p, i :: 0 <= i < |SortedOf(b, p)| ==> SortedOf(b, p)[i] in before)
    ensures after == before
  {
    forall k | k in after ensures k in before {
      assert k !in before ==> Recovers(b, k, after[k]);
      if Recovers(b, k, after[k]) { RecoveredIsListed(b, before, k, after[k]); }
    }
  }

  lemma NothingToChange(b: Bucket, before: map<string, PartRow>, after: map<string, PartRow>)
    requires ValidParts(b.parts) && PartsGrew(b, before, after) && PartsAre(b, before)
    ensures after == before
  {
    forall p | p in after ensures p in before && after[p] == before[p] {
      var changed := p !in before || after[p] != before[p];
      assert changed ==> SortedOf(b, p) != [];
      assert p in before;
      if RightPart(b.heads, b.parts, p, SortedOf(b, p), after[p]) { RightPartIsOne(b, p, after[p], before[p]); }
    }
  }
}

/** cmd/s3pgstore-rebuild: recovering the file and partition rows from the objects in S3. */
module Rebuild {
  import opened Wrappers
  import opened Sorting
  import opened KeyCodec
  import opened Prepare

  // What HEAD reports: the size, and the user metadata that BuildS3Metadata attaches. None is
  // a field that is absent or does not read as a number.
  datatype Head = Head(
    size: nat, token: Option<string>, records: Option<int>, uncompressed: Option<int>, version: Option<int>)

  // "" stands for NULL in the token column; feed_seq is left NULL on every row.
  datatype FileRow = FileRow(
    part: string, values: seq<string>, version: int, size: nat, uncompressed: int, records: int, token: string)

  datatype PartRow = PartRow(values: seq<string>, version: int, fileCount: nat)

  // ---------- the recovered row ----------

  function Or<T>(o: Option<T>, d: T): T { if o.Some? then o.value else d }

  // hasFooterFields
  predicate Complete(h: Head) { Or(h.records, 0) > 0 && Or(h.uncompressed, 0) > 0 }

  // newRecoveredFields and the column list of insertFileRow.
  function RowFor(h: Head, part: string, values: seq<string>, fallback: int): FileRow
  {
    FileRow(part, values, Or(h.version, fallback), h.size, Or(h.uncompressed, 0), Or(h.records, 0), Or(h.token, ""))
  }

  // ---------- the listing ----------

  function HasSuffix(s: string, suffix: string): bool
  {
    |s| >= |suffix| && s[|s| - |suffix|..] == suffix
  }

  function Parquet(page: seq<string>): seq<string>
  {
    if page == [] then []
    else
      var rest, k := Parquet(page[..|page| - 1]), page[|page| - 1];
      if HasSuffix(k, ".parquet") then rest + [k] else rest
  }

  function ParquetOf(pages: seq<seq<string>>): seq<string>
  {
    if pages == [] then [] else ParquetOf(pages[..|pages| - 1]) + Parquet(pages[|pages| - 1])
  }

  ghost predicate IsParquet(k: string) { exists stem: string :: k == stem + ".parquet" }

  // Entry x.1 of page x.0.
  predicate IsEntry(pages: seq<seq<string>>, x: (nat, nat)) { x.0 < |pages| && x.1 < |pages[x.0]| }

  function EntryAt(pages: seq<seq<string>>, x: (nat, nat)): string
    requires IsEntry(pages, x)
  {
    pages[x.0][x.1]
  }

  predicate Before(x: (nat, nat), y: (nat, nat)) { x.0 < y.0 || (x.0 == y.0 && x.1 < y.1) }

  ghost predicate OnPage(pages: seq<seq<string>>, k: string)
  {
    exists x :: IsEntry(pages, x) && EntryAt(pages, x) == k
  }

  // `at` lists the places of the keys: in page order, and each parquet entry before `end` once.
  ghost predicate ListingUpTo(pages: seq<seq<string>>, end: (nat, nat), keys: seq<string>, at: seq<(nat, nat)>)
  {
    && |at| == |keys|
    && (forall n :: 0 <= n < |at| ==> IsEntry(pages, at[n]) && Before(at[n], end) && EntryAt(pages, at[n]) == keys[n] && IsParquet(keys[n]))
    && (forall m, n :: 0 <= m < n < |at| ==> Before(at[m], at[n]))
    && (forall x :: IsEntry(pages, x) && Before(x, end) && IsParquet(EntryAt(pages, x)) ==> x in at)
  }

  // The keys are the parquet entries of all pages, one for one and in order.
  ghost predicate Listing(pages: seq<seq<string>>, keys: seq<string>, at: seq<(nat, nat)>)
  {
    ListingUpTo(pages, (|pages|, 0), keys, at)
  }

  lemma ParquetSuffix(k: string)
    ensures HasSuffix(k, ".parquet") <==> IsParquet(k)
  {
    var suffix := ".parquet";
    if HasSuffix(k, suffix) { assert k == k[..|k| - |suffix|] + suffix; }
    if IsParquet(k) {
      var stem :| k == stem + suffix;
      assert k[|stem|..] == suffix;
    }
  }

  // One entry further.
  lemma EntryListed(pages: seq<seq<string>>, p: nat, i: nat, keys: seq<string>, at: seq<(nat, nat)>)
    requires p < |pages| && i < |pages[p]| && ListingUpTo(pages, (p, i), keys, at)
    ensures if HasSuffix(pages[p][i], ".parquet") then ListingUpTo(pages, (p, i + 1), keys + [pages[p][i]], at + [(p, i)])
            else ListingUpTo(pages, (p, i + 1), keys, at)
  {
    var k, here := pages[p][i], (p, i);
    ParquetSuffix(k);
    assert EntryAt(pages, here) == k;
    forall x | IsEntry(pages, x) && Before(x, (p, i + 1)) && IsParquet(EntryAt(pages, x)) ensures x == here || x in at {
      assert x == here || Before(x, here);
    }
    hide IsParquet, HasSuffix;
  }

  // The end of a page is the start of the next one.
  lemma PageListed(pages: seq<seq<string>>, p: nat, keys: seq<string>, at: seq<(nat, nat)>)
    requires p < |pages| && ListingUpTo(pages, (p, |pages[p]|), keys, at)
    ensures ListingUpTo(pages, (p + 1, 0), keys, at)
  {
    hide IsParquet;
    forall x | IsEntry(pages, x) && Before(x, (p + 1, 0)) && IsParquet(EntryAt(pages, x)) ensures x in at {
      assert Before(x, (p, |pages[p]|));
    }
  }

  lemma {:induction false} PageWalk(pages: seq<seq<string>>, p: nat, i: nat, keys: seq<string>, before: seq<(nat, nat)>) returns (at: seq<(nat, nat)>)
    requires p < |pages| && i <= |pages[p]| && ListingUpTo(pages, (p, 0), keys, before)
    ensures ListingUpTo(pages, (p, i), keys + Parquet(pages[p][..i]), at)
  {
    if i == 0 {
      at := before;
      assert keys + Parquet(pages[p][..0]) == keys;
    } else {
      at := PageWalk(pages, p, i - 1, keys, before);
      assert pages[p][..i][..i - 1] == pages[p][..i - 1];
      EntryListed(pages, p, i - 1, keys + Parquet(pages[p][..i - 1]), at);
      if HasSuffix(pages[p][i - 1], ".parquet") {
        at := at + [(p, i - 1)];
        assert keys + Parquet(pages[p][..i]) == keys + Parquet(pages[p][..i - 1]) + [pages[p][i - 1]];
      }
    }
  }

  lemma {:induction false} PagesWalk(pages: seq<seq<string>>, p: nat) returns (at: seq<(nat, nat)>)
    requires p <= |pages|
    ensures ListingUpTo(pages, (p, 0), ParquetOf(pages[..p]), at)
  {
    if p == 0 {
      at := [];
    } else {
      at := PagesWalk(pages, p - 1);
      at := PageWalk(pages, p - 1, |pages[p - 1]|, ParquetOf(pages[..p - 1]), at);
      assert pages[..p][..p - 1] == pages[..p - 1] && pages[p - 1][..|pages[p - 1]|] == pages[p - 1];
      PageListed(pages, p - 1, ParquetOf(pages[..p]), at);
    }
  }

  lemma ParquetOfListing(pages: seq<seq<string>>) returns (at: seq<(nat, nat)>)
    ensures Listing(pages, ParquetOf(pages), at)
  {
    at := PagesWalk(pages, |pages|);
    assert pages[..|pages|] == pages;
  }

  // What a listing contains.
  lemma ListedKeys(pages: seq<seq<string>>, keys: seq<string>, at: seq<(nat, nat)>)
    requires Listing(pages, keys, at)
    ensures forall k :: k in keys <==> IsParquet(k) && OnPage(pages, k)
  {
    forall k ensures k in keys <==> IsParquet(k) && OnPage(pages, k) {
      if k in keys { var n :| 0 <= n < |keys| && keys[n] == k; assert EntryAt(pages, at[n]) == k; }
      if IsParquet(k) && OnPage(pages, k) {
        var x :| IsEntry(pages, x) && EntryAt(pages, x) == k;
        var n :| 0 <= n < |at| && at[n] == x;
      }
    }
  }

  /** listAllKeys: page after page, to the last. The keys are exactly the entries of all pages
      that end in .parquet, in listing order and each as often as it is listed. */
  method ListAllKeys(pages: seq<seq<string>>) returns (keys: seq<string>, ghost at: seq<(nat, nat)>)
    ensures Listing(pages, keys, at)
    ensures forall k :: k in keys <==> IsParquet(k) && OnPage(pages, k)
    ensures keys == ParquetOf(pages)
  {
    keys := [];
    for p := 0 to |pages|
      invariant keys == ParquetOf(pages[..p])
    {
      var page := pages[p];
      for i := 0 to |page|
        invariant keys == ParquetOf(pages[..p]) + Parquet(page[..i])
      {
        assert page[..i + 1][..i] == page[..i];
        if HasSuffix(page[i], ".parquet") { keys := keys + [page[i]]; }
      }
      assert page[..|page|] == page && pages[..p + 1][..p] == pages[..p];
    }
    assert pages[..|pages|] == pages;
    at := ParquetOfListing(pages);
    ListedKeys(pages, keys, at);
  }

  // ---------- groups ----------

  predicate Belongs(dataPrefix: string, k: string, p: string)
  {
    PartitionOfPath(dataPrefix, k) == Path.InPartition(p)
  }

  // The keys of partition p, in listing order.
  function KeysIn(dataPrefix: string, keys: seq<string>, p: string): seq<string>
  {
    if keys == [] then []
    else
      var rest, k := KeysIn(dataPrefix, keys[..|keys| - 1], p), keys[|keys| - 1];
      if Belongs(dataPrefix, k, p) then rest + [k] else rest
  }

  function SortedKeysIn(dataPrefix: string, keys: seq<string>, p: string): seq<string>
  {
    Sort(KeysIn(dataPrefix, keys, p), ByString())
  }

  ghost predicate Spells(parts: seq<string>, values: seq<string>, p: string)
  {
    Reads(parts, p, values)
  }

  datatype Group = Group(values: seq<string>, s3Keys: seq<string>)

  ghost predicate GroupsAre(dataPrefix: string, keys: seq<string>, parts: seq<string>, groups: map<string, Group>)
  {
    && (forall p :: p in groups <==> KeysIn(dataPrefix, keys, p) != [])
    && (forall p :: p in groups ==> Spells(parts, groups[p].values, p) && groups[p].s3Keys == KeysIn(dataPrefix, keys, p))
  }

  ghost predicate Misplaced(dataPrefix: string, parts: seq<string>, k: string)
  {
    exists p :: Belongs(dataPrefix, k, p) && Unreadable(parts, p)
  }

  /** groupByPartition, up to the final ordering of its groups: it fails exactly when the path
      of some key does not spell a partition, and otherwise groups every key that has one. */
  method GroupByPath(keys: seq<string>, dataPrefix: string, parts: seq<string>)
      returns (ok: bool, groups: map<string, Group>)
    requires ValidParts(parts)
    ensures ok ==> GroupsAre(dataPrefix, keys, parts, groups)
    ensures ok <==> forall k :: k in keys ==> !Misplaced(dataPrefix, parts, k)
  {
    groups := map[];
    for i := 0 to |keys|
      invariant GroupsAre(dataPrefix, keys[..i], parts, groups)
      invariant forall k :: k in keys[..i] ==> !Misplaced(dataPrefix, parts, k)
    {
      var k := keys[i];
      var path := PartitionOfPath(dataPrefix, k);
      assert keys[..i + 1][..i] == keys[..i];
      if path.Skipped? { continue; }
      var p := path.partitionKey;
      var r := PartitionKeyValues(p, parts);
      if r.Err? {
        assert Belongs(dataPrefix, k, p);
        assert k in keys && Misplaced(dataPrefix, parts, k);
        return false, groups;
      }
      assert !Misplaced(dataPrefix, parts, k);
      var g := if p in groups then groups[p] else Group(r.value, []);
      groups := groups[p := g.(s3Keys := g.s3Keys + [k])];
    }
    assert keys[..|keys|] == keys;
    ok := true;
  }

  // ---------- the target ----------

  // The greatest version among the first n keys of a group; a key without version metadata
  // counts by its position.
  function TopVersion(heads: map<string, Head>, sorted: seq<string>, n: nat): int
    requires n <= |sorted|
  {
    if n == 0 then 0
    else
      var top := TopVersion(heads, sorted, n - 1);
      var k := sorted[n - 1];
      var v := if k in heads then Or(heads[k].version, n) else n;
      if v > top then v else top
  }

  // The row that the i-th key of a partition's group stands for.
  ghost predicate RightFile(heads: map<string, Head>, parts: seq<string>, p: string, sorted: seq<string>, i: nat, row: FileRow)
    requires i < |sorted|
  {
    && sorted[i] in heads && Complete(heads[sorted[i]])
    && Spells(parts, row.values, p) && row == RowFor(heads[sorted[i]], p, row.values, i + 1)
  }

  ghost predicate RightPart(heads: map<string, Head>, parts: seq<string>, p: string, sorted: seq<string>, row: PartRow)
  {
    Spells(parts, row.values, p) && row.version == TopVersion(heads, sorted, |sorted|) && row.fileCount == |sorted|
  }

  // The bucket that a rebuild reads.
  datatype Bucket = Bucket(dataPrefix: string, keys: seq<string>, heads: map<string, Head>, parts: seq<string>)

  function SortedOf(b: Bucket, p: string): seq<string> { SortedKeysIn(b.dataPrefix, b.keys, p) }

  // The file row is the one that its object stands for.
  ghost predicate Recovers(b: Bucket, k: string, row: FileRow)
  {
    exists i :: 0 <= i < |SortedOf(b, row.part)| && SortedOf(b, row.part)[i] == k &&
      RightFile(b.heads, b.parts, row.part, SortedOf(b, row.part), i, row)
  }

  ghost predicate FilesAre(b: Bucket, files: map<string, FileRow>)
  {
    && (forall k :: k in files ==> Recovers(b, k, files[k]))
    && (forall p, i :: 0 <= i < |SortedOf(b, p)| ==> SortedOf(b, p)[i] in files)
  }

  ghost predicate PartsAre(b: Bucket, partitions: map<string, PartRow>)
  {
    && (forall p :: p in partitions <==> SortedOf(b, p) != [])
    && (forall p :: p in partitions ==> RightPart(b.heads, b.parts, p, SortedOf(b, p), partitions[p]))
  }

  // The files and partitions of the catalog are those of the bucket.
  ghost predicate IsRebuilt(b: Bucket, files: map<string, FileRow>, partitions: map<string, PartRow>)
  {
    FilesAre(b, files) && PartsAre(b, partitions)
  }

  // Rows were only added, and only right ones.
  ghost predicate Grew(b: Bucket, before: map<string, FileRow>, after: map<string, FileRow>)
  {
    && (forall k :: k in before ==> k in after && after[k] == before[k])
    && (forall k :: k in after && k !in before ==> Recovers(b, k, after[k]))
  }

  lemma GrewByOne(b: Bucket, p: string, i: nat, values: seq<string>, first: map<string, FileRow>, before: map<string, FileRow>, after: map<string, FileRow>)
    requires i < |SortedOf(b, p)| && Spells(b.parts, values, p) && Grew(b, first, before)
    requires SortedOf(b, p)[i] !in before && SortedOf(b, p)[i] in b.heads && Complete(b.heads[SortedOf(b, p)[i]])
    requires after == before[SortedOf(b, p)[i] := RowFor(b.heads[SortedOf(b, p)[i]], p, values, i + 1)]
    ensures Grew(b, first, after)
  {
    var k := SortedOf(b, p)[i];
    assert RightFile(b.heads, b.parts, p, SortedOf(b, p), i, after[k]);
    assert Recovers(b, k, after[k]);
  }

  // ---------- what a run needs ----------

  // The UNIQUE index on partition and token, as an INSERT meets it and as the table keeps it.
  predicate Taken(files: map<string, FileRow>, part: string, token: string)
  {
    token != "" && exists j :: j in files && files[j].part == part && files[j].token == token
  }

  ghost predicate TokensUnique(files: map<string, FileRow>)
  {
    forall j, k :: j in files && k in files && files[j].part == files[k].part && files[j].token == files[k].token != "" ==> j == k
  }

  // The file rows are right ones of the bucket.
  ghost predicate Sound(b: Bucket, files: map<string, FileRow>)
  {
    TokensUnique(files) && forall k :: k in files ==> Recovers(b, k, files[k])
  }

  function TokenOf(h: Head): string { Or(h.token, "") }

  predicate Readable(heads: map<string, Head>, k: string) { k in heads && Complete(heads[k]) }

  // Every object of the partition carries its metadata, and no two the same token.
  ghost predicate GroupOk(b: Bucket, p: string)
  {
    && (forall i :: 0 <= i < |SortedOf(b, p)| ==> Readable(b.heads, SortedOf(b, p)[i]))
    && (forall i, j :: 0 <= i < |SortedOf(b, p)| && 0 <= j < |SortedOf(b, p)| ==> Apart(b.heads, SortedOf(b, p)[i], SortedOf(b, p)[j]))
  }

  predicate Apart(heads: map<string, Head>, k: string, l: string)
  {
    k in heads && l in heads && TokenOf(heads[k]) == TokenOf(heads[l]) != "" ==> k == l
  }

  ghost predicate Restorable(b: Bucket)
  {
    forall p :: SortedOf(b, p) != [] ==> GroupOk(b, p)
  }

  // Nothing stands in the way of a row of a good group.
  lemma RowIsWelcome(b: Bucket, p: string, i: nat, files: map<string, FileRow>)
    requires Sound(b, files) && GroupOk(b, p) && i < |SortedOf(b, p)|
    ensures Readable(b.heads, SortedOf(b, p)[i])
    ensures SortedOf(b, p)[i] in files || !Taken(files, p, TokenOf(b.heads[SortedOf(b, p)[i]]))
  {
    var k := SortedOf(b, p)[i];
    forall j | j in files && files[j].part == p && j != k ensures files[j].token != TokenOf(b.heads[k]) || files[j].token == "" {
      assert Recovers(b, j, files[j]);
      var x :| 0 <= x < |SortedOf(b, p)| && SortedOf(b, p)[x] == j && RightFile(b.heads, b.parts, p, SortedOf(b, p), x, files[j]);
      assert Apart(b.heads, SortedOf(b, p)[i], SortedOf(b, p)[x]);
    }
  }

  // With all its rows there, a group is a good one.
  lemma CoveredIsOk(b: Bucket, p: string, files: map<string, FileRow>)
    requires Sound(b, files) && forall i :: 0 <= i < |SortedOf(b, p)| ==> SortedOf(b, p)[i] in files && Readable(b.heads, SortedOf(b, p)[i])
    requires forall i :: 0 <= i < |SortedOf(b, p)| ==> files[SortedOf(b, p)[i]].part == p
    ensures GroupOk(b, p)
  {
    forall i, j | 0 <= i < |SortedOf(b, p)| && 0 <= j < |SortedOf(b, p)| ensures Apart(b.heads, SortedOf(b, p)[i], SortedOf(b, p)[j]) {
      RowCarriesToken(b, SortedOf(b, p)[i], files);
      RowCarriesToken(b, SortedOf(b, p)[j], files);
    }
  }

  lemma RowCarriesToken(b: Bucket, k: string, files: map<string, FileRow>)
    requires Sound(b, files) && k in files
    ensures k in b.heads && files[k].token == TokenOf(b.heads[k])
  {
    assert Recovers(b, k, files[k]);
  }

  // ---------- the database being rebuilt ----------

  datatype Inserted = Row(version: int, isNew: bool) | Rejected

  class Database {
    var files: map<string, FileRow>
    var partitions: map<string, PartRow>
    var statements: nat      // how many more statements the connection survives

    method Survives() returns (ok: bool)
      modifies `statements
      ensures ok <==> old(statements) > 0
      ensures statements == if ok then old(statements) - 1 else old(statements)
    {
      ok := statements > 0;
      if ok { statements := statements - 1; }
    }

    /** insertFileRow: HEAD, the required metadata, then INSERT ... ON CONFLICT (s3_key) DO
        NOTHING under the UNIQUE index on partition and token. It fails exactly on a missing
        object, missing metadata, a lost connection or a token that another row holds. */
    method InsertFileRow(heads: map<string, Head>, k: string, part: string, values: seq<string>, fallback: int)
        returns (r: Inserted)
      modifies `files, `statements
      ensures r.Row? <==> Readable(heads, k) && old(statements) > 0 && (k in old(files) || !Taken(old(files), part, TokenOf(heads[k])))
      ensures r.Row? ==> r == Row(Or(heads[k].version, fallback), k !in old(files))
      ensures statements == if Readable(heads, k) && old(statements) > 0 then old(statements) - 1 else old(statements)
      ensures files == if r.Row? && r.isNew then old(files)[k := RowFor(heads[k], part, values, fallback)] else old(files)
    {
      if k !in heads { return Rejected; }
      var row := RowFor(heads[k], part, values, fallback);
      if !Complete(heads[k]) { return Rejected; }
      var ok := Survives();
      if !ok { return Rejected; }
      if k in files { return Row(row.version, false); }
      if Taken(files, part, row.token) { return Rejected; }
      files := files[k := row];
      r := Row(row.version, true);
    }

    /** upsertPartitionRow */
    method UpsertPartitionRow(part: string, row: PartRow) returns (ok: bool)
      modifies `partitions, `statements
      ensures ok <==> old(statements) > 0
      ensures statements == if ok then old(statements) - 1 else old(statements)
      ensures partitions == if ok then old(partitions)[part := row] else old(partitions)
    {
      ok := Survives();
      if ok { partitions := partitions[part := row]; }
    }

    // The file rows of one group; `top` is the greatest version met.
    method InsertGroup(b: Bucket, p: string, values: seq<string>, sorted: seq<string>) returns (added: nat, top: int, ok: bool)
      requires Spells(b.parts, values, p) && sorted == SortedOf(b, p)
      modifies `files, `statements
      ensures Grew(b, old(files), files) && |files| == |old(files)| + added
      ensures ok ==> top == TopVersion(b.heads, sorted, |sorted|) && forall i :: 0 <= i < |sorted| ==> sorted[i] in files
      ensures ok ==> statements == old(statements) - |sorted|
      ensures Sound(b, old(files)) ==> Sound(b, files) && (ok <==> GroupOk(b, p) && old(statements) >= |sorted|)
    {
      added, top, ok := 0, 0, false;
      FillingStarts(b, p, files);
      assert TopVersion(b.heads, sorted, 0) == 0;
      ReadableIs(b.heads);
      hide Filled, Grew, Sound, GroupOk, SortedOf, Taken, Readable, RowFor, TopVersion, RightFile, Recovers, Or;
      for i := 0 to |sorted|
        invariant Filled(b, p, old(files), i, files) && |files| == |old(files)| + added
        invariant top == TopVersion(b.heads, sorted, i)
        invariant statements == old(statements) - i
      {
        FilledMeans(b, p, old(files), i, files);
        ghost var before := files;
        if Sound(b, old(files)) && GroupOk(b, p) { RowIsWelcome(b, p, i, files); }
        var r := InsertFileRow(b.heads, sorted[i], p, values, i + 1);
        if r.Rejected? { return; }
        RowCame(b, p, i, values, old(files), before, files);
        TopGrows(b.heads, sorted, i);
        if r.isNew { added := added + 1; }
        if r.version > top { top := r.version; }
      }
      ok := true;
      FilledMeans(b, p, old(files), |sorted|, files);
    }

    /** One group: its keys in lexicographic order, then its partition row. It succeeds exactly
        on a good group, if the connection lives for its statements. */
    method RebuildGroup(b: Bucket, p: string, g: Group) returns (added: nat, ok: bool)
      requires Spells(b.parts, g.values, p) && g.s3Keys == KeysIn(b.dataPrefix, b.keys, p)
      modifies this
      ensures Grew(b, old(files), files) && |files| == |old(files)| + added
      ensures ok ==> forall i :: 0 <= i < |SortedOf(b, p)| ==> SortedOf(b, p)[i] in files
      ensures ok ==> p in partitions && RightPart(b.heads, b.parts, p, SortedOf(b, p), partitions[p])
      ensures ok ==> statements == old(statements) - |g.s3Keys| - 1
      ensures partitions == if ok then old(partitions)[p := partitions[p]] else old(partitions)
      ensures Sound(b, old(files)) ==> Sound(b, files) && (ok <==> GroupOk(b, p) && old(statements) > |g.s3Keys|)
    {
      SortedLength(g.s3Keys);
      var sorted := Sort(g.s3Keys, ByString());
      var top;
      added, top, ok := InsertGroup(b, p, g.values, sorted);
      if !ok { return; }
      ok := UpsertPartitionRow(p, PartRow(g.values, top, |g.s3Keys|));
    }
  }

  // The rows of the first n keys of a group came in.
  ghost predicate Filled(b: Bucket, p: string, first: map<string, FileRow>, n: nat, files: map<string, FileRow>)
  {
    && Grew(b, first, files) && (Sound(b, first) ==> Sound(b, files))
    && n <= |SortedOf(b, p)| && forall j :: 0 <= j < n ==> SortedOf(b, p)[j] in files && Readable(b.heads, SortedOf(b, p)[j])
  }

  lemma ReadableIs(heads: map<string, Head>)
    ensures forall k :: Readable(heads, k) ==> k in heads
  {
  }

  lemma TopGrows(heads: map<string, Head>, sorted: seq<string>, i: nat)
    requires i < |sorted| && sorted[i] in heads
    ensures TopVersion(heads, sorted, i + 1) ==
      if Or(heads[sorted[i]].version, i + 1) > TopVersion(heads, sorted, i) then Or(heads[sorted[i]].version, i + 1) else TopVersion(heads, sorted, i)
  {
  }

  lemma FillingStarts(b: Bucket, p: string, first: map<string, FileRow>)
    ensures Filled(b, p, first, 0, first)
  {
  }

  lemma RowCame(b: Bucket, p: string, i: nat, values: seq<string>, first: map<string, FileRow>, before: map<string, FileRow>, after: map<string, FileRow>)
    requires Filled(b, p, first, i, before) && i < |SortedOf(b, p)| && Spells(b.parts, values, p) && Readable(b.heads, SortedOf(b, p)[i])
    requires SortedOf(b, p)[i] in before || !Taken(before, p, TokenOf(b.heads[SortedOf(b, p)[i]]))
    requires after == if SortedOf(b, p)[i] in before then before else before[SortedOf(b, p)[i] := RowFor(b.heads[SortedOf(b, p)[i]], p, values, i + 1)]
    ensures Filled(b, p, first, i + 1, after)
  {
    if SortedOf(b, p)[i] !in before {
      GrewByOne(b, p, i, values, first, before, after);
      SoundByOne(b, p, i, values, before, after);
    }
    hide SortedOf, Sound, Grew, RowFor, Taken;
  }

  lemma FilledMeans(b: Bucket, p: string, first: map<string, FileRow>, n: nat, files: map<string, FileRow>)
    requires Filled(b, p, first, n, files)
    ensures Grew(b, first, files) && (Sound(b, first) ==> Sound(b, files))
    ensures n == |SortedOf(b, p)| ==> forall j :: 0 <= j < n ==> SortedOf(b, p)[j] in files
    ensures n == |SortedOf(b, p)| && Sound(b, first) ==> GroupOk(b, p)
  {
    if n == |SortedOf(b, p)| && Sound(b, first) { GroupIsOk(b, p, files); }
    hide Sound, Grew, GroupOk, SortedOf;
  }

  lemma SoundByOne(b: Bucket, p: string, i: nat, values: seq<string>, before: map<string, FileRow>, after: map<string, FileRow>)
    requires i < |SortedOf(b, p)| && Spells(b.parts, values, p) && Readable(b.heads, SortedOf(b, p)[i])
    requires !Taken(before, p, TokenOf(b.heads[SortedOf(b, p)[i]]))
    requires after == before[SortedOf(b, p)[i] := RowFor(b.heads[SortedOf(b, p)[i]], p, values, i + 1)]
    ensures Sound(b, before) ==> Sound(b, after)
  {
    var k := SortedOf(b, p)[i];
    assert RightFile(b.heads, b.parts, p, SortedOf(b, p), i, after[k]);
    assert Recovers(b, k, after[k]);
    hide SortedOf, Recovers;
    assert forall j :: j in before && before[j].part == p ==> before[j].token != after[k].token || after[k].token == "";
  }

  // All rows of a group came in: they lie in its partition.
  lemma GroupIsOk(b: Bucket, p: string, files: map<string, FileRow>)
    requires Sound(b, files) && forall i :: 0 <= i < |SortedOf(b, p)| ==> SortedOf(b, p)[i] in files && Readable(b.heads, SortedOf(b, p)[i])
    ensures GroupOk(b, p)
  {
    forall i | 0 <= i < |SortedOf(b, p)| ensures files[SortedOf(b, p)[i]].part == p {
      var k := SortedOf(b, p)[i];
      assert Recovers(b, k, files[k]);
      SortedMembers(b, p, k);
      SortedMembers(b, files[k].part, k);
    }
    CoveredIsOk(b, p, files);
  }

  lemma {:induction false} KeysInMembers(dataPrefix: string, keys: seq<string>, p: string, k: string)
    ensures k in KeysIn(dataPrefix, keys, p) <==> k in keys && Belongs(dataPrefix, k, p)
  {
    if keys != [] {
      KeysInMembers(dataPrefix, keys[..|keys| - 1], p, k);
      assert keys == keys[..|keys| - 1] + [keys[|keys| - 1]];
    }
  }

  lemma SortedMembers(b: Bucket, p: string, k: string)
    ensures k in SortedOf(b, p) <==> k in b.keys && Belongs(b.dataPrefix, k, p)
  {
    var ks := KeysIn(b.dataPrefix, b.keys, p);
    ByStringIsTotalPreorder();
    SortIsSorted(ks, ByString());
    assert k in SortedOf(b, p) <==> k in multiset(ks);
    KeysInMembers(b.dataPrefix, b.keys, p, k);
  }

  lemma SortedLength(keys: seq<string>)
    ensures |Sort(keys, ByString())| == |keys|
  {
    ByStringIsTotalPreorder();
    SortIsSorted(keys, ByString());
  }

  // ---------- how many statements a run takes ----------

  // The listed keys whose path names a partition, and those partitions.
  function Placed(dataPrefix: string, keys: seq<string>): seq<string>
  {
    if keys == [] then []
    else
      var rest, k := Placed(dataPrefix, keys[..|keys| - 1]), keys[|keys| - 1];
      if PartitionOfPath(dataPrefix, k).InPartition? then rest + [k] else rest
  }

  function PartitionsIn(dataPrefix: string, keys: seq<string>): set<string>
  {
    set k | k in keys && PartitionOfPath(dataPrefix, k).InPartition? :: PartitionOfPath(dataPrefix, k).partitionKey
  }

  // One statement per file and one per partition.
  function Cost(b: Bucket): nat { |Placed(b.dataPrefix, b.keys)| + |PartitionsIn(b.dataPrefix, b.keys)| }

  function GroupCosts(dataPrefix: string, keys: seq<string>, order: seq<string>): nat
  {
    if order == [] then 0
    else GroupCosts(dataPrefix, keys, order[..|order| - 1]) + |KeysIn(dataPrefix, keys, order[|order| - 1])| + 1
  }

  lemma {:induction false} CostsGrow(dataPrefix: string, keys: seq<string>, order: seq<string>, i: nat)
    requires i <= |order|
    ensures GroupCosts(dataPrefix, keys, order[..i]) <= GroupCosts(dataPrefix, keys, order)
  {
    if i < |order| {
      assert order[..|order| - 1][..i] == order[..i];
      CostsGrow(dataPrefix, keys, order[..|order| - 1], i);
    } else {
      assert order[..i] == order;
    }
  }

  predicate Distinctly(order: seq<string>) { forall i, j :: 0 <= i < j < |order| ==> order[i] != order[j] }

  // A key more counts once, with its own partition.
  lemma {:induction false} CostOfKey(dataPrefix: string, keys: seq<string>, k: string, order: seq<string>)
    requires Distinctly(order)
    ensures GroupCosts(dataPrefix, keys + [k], order) ==
      GroupCosts(dataPrefix, keys, order) + if exists p :: p in order && Belongs(dataPrefix, k, p) then 1 else 0
  {
    if order != [] {
      var rest, p := order[..|order| - 1], order[|order| - 1];
      CostOfKey(dataPrefix, keys, k, rest);
      assert (keys + [k])[..|keys|] == keys;
      assert order == rest + [p] && p !in rest;
      if Belongs(dataPrefix, k, p) {
        assert forall q :: q in rest ==> !Belongs(dataPrefix, k, q);
      } else {
        assert forall q :: q in rest <==> q in order && q != p;
      }
    }
  }

  lemma {:induction false} CostOfNothing(dataPrefix: string, order: seq<string>)
    ensures GroupCosts(dataPrefix, [], order) == |order|
  {
    if order != [] { CostOfNothing(dataPrefix, order[..|order| - 1]); }
  }

  lemma {:induction false} CostOfAll(dataPrefix: string, keys: seq<string>, order: seq<string>)
    requires Distinctly(order) && forall k, p :: k in keys && Belongs(dataPrefix, k, p) ==> p in order
    ensures GroupCosts(dataPrefix, keys, order) == |Placed(dataPrefix, keys)| + |order|
  {
    if keys == [] {
      CostOfNothing(dataPrefix, order);
    } else {
      var rest, k := keys[..|keys| - 1], keys[|keys| - 1];
      assert keys == rest + [k];
      CostOfAll(dataPrefix, rest, order);
      CostOfKey(dataPrefix, rest, k, order);
      if PartitionOfPath(dataPrefix, k).InPartition? {
        assert Belongs(dataPrefix, k, PartitionOfPath(dataPrefix, k).partitionKey);
      }
    }
  }

  lemma {:induction false} DistinctSize(order: seq<string>, s: set<string>)
    requires Distinctly(order) && forall p :: p in order <==> p in s
    ensures |order| == |s|
  {
    if order == [] {
      assert s == {};
    } else {
      var rest, last := order[..|order| - 1], order[|order| - 1];
      assert order == rest + [last] && last !in rest;
      DistinctSize(rest, s - {last});
    }
  }

  lemma PartitionIsIn(dataPrefix: string, keys: seq<string>, p: string)
    ensures p in PartitionsIn(dataPrefix, keys) <==> KeysIn(dataPrefix, keys, p) != []
    ensures forall k :: k in keys && Belongs(dataPrefix, k, p) ==> KeysIn(dataPrefix, keys, p) != []
  {
    forall k ensures k in KeysIn(dataPrefix, keys, p) <==> k in keys && Belongs(dataPrefix, k, p) { KeysInMembers(dataPrefix, keys, p, k); }
    if KeysIn(dataPrefix, keys, p) != [] {
      var k := KeysIn(dataPrefix, keys, p)[0];
      assert k in keys && Belongs(dataPrefix, k, p);
    }
    hide KeysIn, PartitionOfPath;
  }

  lemma CostIs(b: Bucket, groups: map<string, Group>, order: seq<string>)
    requires GroupsAre(b.dataPrefix, b.keys, b.parts, groups) && Ascending(order) && (forall p :: p in order <==> p in groups)
    ensures GroupCosts(b.dataPrefix, b.keys, order) == Cost(b) && |order| == |PartitionsIn(b.dataPrefix, b.keys)|
  {
    AscendingDistinctly(order);
    hide Ascending, Distinctly, PartitionsIn, Belongs, GroupCosts, Placed, KeysIn;
    forall p ensures (p in order <==> p in PartitionsIn(b.dataPrefix, b.keys)) && forall k :: k in b.keys && Belongs(b.dataPrefix, k, p) ==> p in order {
      PartitionIsIn(b.dataPrefix, b.keys, p);
    }
    CostOfAll(b.dataPrefix, b.keys, order);
    DistinctSize(order, PartitionsIn(b.dataPrefix, b.keys));
  }

  lemma AscendingDistinctly(order: seq<string>)
    requires Ascending(order)
    ensures Distinctly(order)
  {
    forall i, j | 0 <= i < j < |order| ensures order[i] != order[j] { LessTrichotomy(order[i], order[j]); }
  }

  predicate Ascending(order: seq<string>) { forall i, j :: 0 <= i < j < |order| ==> Less(order[i], order[j]) }

  // ---------- the whole run ----------

  datatype Outcome = Done(filesInserted: nat, partitionsInserted: nat) | Failed

  // Partition rows that changed are right ones of the bucket.
  ghost predicate PartsGrew(b: Bucket, before: map<string, PartRow>, after: map<string, PartRow>)
  {
    && (forall p :: p in before ==> p in after)
    && (forall p :: p in after && (p !in before || after[p] != before[p]) ==>
          SortedOf(b, p) != [] && RightPart(b.heads, b.parts, p, SortedOf(b, p), after[p]))
  }

  // Every object's file row and every partition's row is there.
  ghost predicate Covers(b: Bucket, files: map<string, FileRow>, partitions: map<string, PartRow>)
  {
    && (forall p, i :: 0 <= i < |SortedOf(b, p)| ==> SortedOf(b, p)[i] in files)
    && (forall p :: SortedOf(b, p) != [] ==> p in partitions && RightPart(b.heads, b.parts, p, SortedOf(b, p), partitions[p]))
  }

  ghost predicate CoversOne(b: Bucket, p: string, files: map<string, FileRow>, partitions: map<string, PartRow>)
  {
    && (forall i :: 0 <= i < |SortedOf(b, p)| ==> SortedOf(b, p)[i] in files)
    && p in partitions && RightPart(b.heads, b.parts, p, SortedOf(b, p), partitions[p])
  }

  function BucketOf(pages: seq<seq<string>>, heads: map<string, Head>, prefix: string, parts: seq<string>): Bucket
  {
    Bucket(DataPrefix(prefix), ParquetOf(pages), heads, parts)
  }

  // Every path that names a partition spells one.
  ghost predicate Placeable(b: Bucket) { forall k :: k in b.keys ==> !Misplaced(b.dataPrefix, b.parts, k) }

  /** Rebuild. Stopped anywhere, it has only added right rows; done, it has covered the whole
      bucket. A key whose path spells no partition stops it before it writes anything. From a
      sound catalog it is done exactly if every path and every object can be read, no two
      objects of a partition carry one token, and the connection lives for its statements. */
  method Rebuild(db: Database, pages: seq<seq<string>>, heads: map<string, Head>, prefix: string, parts: seq<string>)
      returns (r: Outcome)
    requires ValidParts(parts)
    modifies db
    ensures var b := BucketOf(pages, heads, prefix, parts); Grew(b, old(db.files), db.files) && PartsGrew(b, old(db.partitions), db.partitions)
    ensures r.Done? ==> Covers(BucketOf(pages, heads, prefix, parts), db.files, db.partitions)
    ensures r.Done? ==> |db.files| == |old(db.files)| + r.filesInserted && r.partitionsInserted == |PartitionsIn(DataPrefix(prefix), ParquetOf(pages))|
    ensures !Placeable(BucketOf(pages, heads, prefix, parts)) ==>
      r.Failed? && db.files == old(db.files) && db.partitions == old(db.partitions)
    ensures Sound(BucketOf(pages, heads, prefix, parts), old(db.files)) ==> Sound(BucketOf(pages, heads, prefix, parts), db.files)
    ensures Sound(BucketOf(pages, heads, prefix, parts), old(db.files)) ==>
      (r.Done? <==> CanFinish(BucketOf(pages, heads, prefix, parts), old(db.statements)))
  {
    var dataPrefix := DataPrefix(prefix);
    var keys, _ := ListAllKeys(pages);
    var b := Bucket(dataPrefix, keys, heads, parts);
    var ok, groups := GroupByPath(keys, dataPrefix, parts);
    if !ok { return Failed; }
    var order := SortKeys(groups.Keys);
    OrderIsAll(b, groups, order);
    CostIs(b, groups, order);
    r := RebuildGroups(db, b, groups, order);
    if r.Done? { OrderCovers(b, groups, order, db.files, db.partitions); }
  }

  ghost predicate CanFinish(b: Bucket, statements: nat)
  {
    Placeable(b) && Restorable(b) && statements >= Cost(b)
  }

  lemma OrderIsAll(b: Bucket, groups: map<string, Group>, order: seq<string>)
    requires GroupsAre(b.dataPrefix, b.keys, b.parts, groups) && (forall p :: p in order <==> p in groups)
    ensures Restorable(b) <==> forall i :: 0 <= i < |order| ==> GroupOk(b, order[i])
  {
    forall p ensures SortedOf(b, p) != [] <==> p in order { SortedLength(KeysIn(b.dataPrefix, b.keys, p)); }
    hide SortedOf, GroupsAre, GroupOk, Belongs;
    forall p | p in order && (forall i :: 0 <= i < |order| ==> GroupOk(b, order[i])) ensures GroupOk(b, p) {
      var i :| 0 <= i < |order| && order[i] == p;
    }
  }

  method RebuildGroups(db: Database, b: Bucket, groups: map<string, Group>, order: seq<string>) returns (r: Outcome)
    requires GroupsAre(b.dataPrefix, b.keys, b.parts, groups)
    requires (forall i :: 0 <= i < |order| ==> order[i] in groups) && Ascending(order)
    modifies db
    ensures Grew(b, old(db.files), db.files) && PartsGrew(b, old(db.partitions), db.partitions)
    ensures r.Done? ==> |db.files| == |old(db.files)| + r.filesInserted && r.partitionsInserted == |order|
    ensures r.Done? ==> forall j :: 0 <= j < |order| ==> CoversOne(b, order[j], db.files, db.partitions)
    ensures Sound(b, old(db.files)) ==> Sound(b, db.files)
    ensures Sound(b, old(db.files)) ==>
      (r.Done? <==> (forall j :: 0 <= j < |order| ==> GroupOk(b, order[j])) && old(db.statements) >= GroupCosts(b.dataPrefix, b.keys, order))
  {
    var filesInserted, partitionsInserted := 0, 0;
    for i := 0 to |order|
      invariant Grew(b, old(db.files), db.files) && PartsGrew(b, old(db.partitions), db.partitions)
      invariant |db.files| == |old(db.files)| + filesInserted && partitionsInserted == i
      invariant forall j :: 0 <= j < i ==> CoversOne(b, order[j], db.files, db.partitions)
      invariant db.statements == old(db.statements) - GroupCosts(b.dataPrefix, b.keys, order[..i])
      invariant Sound(b, old(db.files)) ==> Sound(b, db.files) && forall j :: 0 <= j < i ==> GroupOk(b, order[j])
    {
      assert order[..i + 1][..i] == order[..i];
      CostsGrow(b.dataPrefix, b.keys, order, i + 1);
      var p := order[i];
      SortedLength(KeysIn(b.dataPrefix, b.keys, p));
      ghost var files, partitions := db.files, db.partitions;
      var added, done := db.RebuildGroup(b, p, groups[p]);
      GrewOn(b, old(db.files), files, db.files);
      if !done { return Failed; }
      PartsGrewOn(b, p, old(db.partitions), partitions, db.partitions);
      CoversKept(b, order, i, files, partitions, db.files, db.partitions);
      filesInserted, partitionsInserted := filesInserted + added, partitionsInserted + 1;
    }
    assert order[..|order|] == order;
    r := Done(filesInserted, partitionsInserted);
  }

  lemma CoversKept(b: Bucket, order: seq<string>, i: nat, files: map<string, FileRow>, partitions: map<string, PartRow>,
                   files': map<string, FileRow>, partitions': map<string, PartRow>)
    requires i < |order| && Ascending(order)
    requires forall j :: 0 <= j < i ==> CoversOne(b, order[j], files, partitions)
    requires Grew(b, files, files') && order[i] in partitions' && partitions' == partitions[order[i] := partitions'[order[i]]]
    ensures forall j :: 0 <= j < i ==> CoversOne(b, order[j], files', partitions')
  {
    forall j | 0 <= j < i ensures CoversOne(b, order[j], files', partitions') {
      assert CoversOne(b, order[j], files, partitions);
      assert Less(order[j], order[i]);
      LessTrichotomy(order[j], order[i]);
    }
  }

  lemma GrewOn(b: Bucket, first: map<string, FileRow>, before: map<string, FileRow>, after: map<string, FileRow>)
    requires Grew(b, first, before) && Grew(b, before, after)
    ensures Grew(b, first, after)
  {
  }

  lemma PartsGrewOn(b: Bucket, p: string, first: map<string, PartRow>, before: map<string, PartRow>, after: map<string, PartRow>)
    requires PartsGrew(b, first, before) && p in after && after == before[p := after[p]]
    requires SortedOf(b, p) != [] && RightPart(b.heads, b.parts, p, SortedOf(b, p), after[p])
    ensures PartsGrew(b, first, after)
  {
  }

  lemma OrderCovers(b: Bucket, groups: map<string, Group>, order: seq<string>, files: map<string, FileRow>, partitions: map<string, PartRow>)
    requires GroupsAre(b.dataPrefix, b.keys, b.parts, groups) && (forall p :: p in order <==> p in groups)
    requires forall j :: 0 <= j < |order| ==> CoversOne(b, order[j], files, partitions)
    ensures Covers(b, files, partitions)
  {
    forall p | SortedOf(b, p) != [] ensures CoversOne(b, p, files, partitions) {
      SortedLength(KeysIn(b.dataPrefix, b.keys, p));
      assert p in order;
      var j :| 0 <= j < |order| && order[j] == p;
    }
  }
}

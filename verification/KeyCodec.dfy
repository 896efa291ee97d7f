/** Hive-style partition keys and S3 object paths: internal/catalog/partition.go, the path
    functions of store.go, and their inverse in the rebuild command. */
module KeyCodec {

  datatype Result<+T> = Ok(value: T) | Err(reason: ParseError)

  datatype ParseError = EmptyKey | WrongSegmentCount | NoName(segment: nat) | WrongName(segment: nat) | EmptyValue(segment: nat)

  // ---------- strings.IndexByte, strings.LastIndexByte, strings.Split, strings.Join ----------

  function IndexOf(s: string, c: char): (i: int)
    ensures -1 <= i < |s|
    ensures i >= 0 ==> s[i] == c && c !in s[..i]
    ensures i < 0 ==> c !in s
  {
    if |s| == 0 then -1
    else if s[0] == c then 0
    else
      var r := IndexOf(s[1..], c);
      assert forall j :: 1 <= j < |s| ==> s[j] == s[1..][j - 1];
      assert r >= 0 ==> s[..r + 1] == [s[0]] + s[1..][..r];
      if r < 0 then -1 else r + 1
  }

  function LastIndexOf(s: string, c: char): (i: int)
    ensures -1 <= i < |s|
    ensures i >= 0 ==> s[i] == c && c !in s[i + 1..]
    ensures i < 0 ==> c !in s
  {
    if |s| == 0 then -1
    else if s[|s| - 1] == c then |s| - 1
    else
      var r := LastIndexOf(s[..|s| - 1], c);
      assert r >= 0 ==> s[r + 1..] == s[..|s| - 1][r + 1..] + [s[|s| - 1]];
      r
  }

  function Split(s: string): seq<string>
    decreases |s|
  {
    var i := IndexOf(s, '/');
    if i < 0 then [s] else [s[..i]] + Split(s[i + 1..])
  }

  function Join(segs: seq<string>): string
  {
    if |segs| == 0 then ""
    else if |segs| == 1 then segs[0]
    else segs[0] + "/" + Join(segs[1..])
  }

  predicate SlashFree(s: string) { '/' !in s }

  lemma {:induction false} SplitThenJoin(s: string)
    ensures Join(Split(s)) == s && |Split(s)| >= 1
    ensures forall i :: 0 <= i < |Split(s)| ==> SlashFree(Split(s)[i])
    decreases |s|
  {
    var i := IndexOf(s, '/');
    if i >= 0 {
      SplitThenJoin(s[i + 1..]);
      assert s == s[..i] + "/" + s[i + 1..];
      assert Split(s)[1..] == Split(s[i + 1..]);
    }
  }

  lemma {:induction false} IndexAfter(a: string, c: char, b: string)
    requires c !in a
    ensures IndexOf(a + [c] + b, c) == |a|
  {
    var s := a + [c] + b;
    if |a| > 0 {
      IndexAfter(a[1..], c, b);
      assert s[1..] == a[1..] + [c] + b;
    }
  }

  lemma SplitCons(head: string, rest: string)
    requires SlashFree(head)
    ensures Split(head + "/" + rest) == [head] + Split(rest)
  {
    IndexAfter(head, '/', rest);
    var s := head + "/" + rest;
    assert s == head + ['/'] + rest;
    assert s[..|head|] == head && s[|head| + 1..] == rest;
  }

  lemma SplitOne(s: string)
    requires SlashFree(s)
    ensures Split(s) == [s]
  {
  }

  lemma {:induction false} JoinThenSplit(segs: seq<string>)
    requires |segs| >= 1 && forall i :: 0 <= i < |segs| ==> SlashFree(segs[i])
    ensures Split(Join(segs)) == segs
    decreases |segs|
  {
    hide Split, IndexOf;
    if |segs| == 1 {
      SplitOne(segs[0]);
    } else {
      var tail := segs[1..];
      JoinThenSplit(tail);
      SplitCons(segs[0], Join(tail));
      assert Join(segs) == segs[0] + "/" + Join(tail);
    }
  }

  // ---------- PartitionKeyValues ----------

  // Part names are checked against ^[a-z][a-z0-9_]*$ when the store is configured.
  predicate ValidName(s: string)
  {
    |s| > 0 && '=' !in s && '/' !in s
  }

  predicate ValidParts(parts: seq<string>)
  {
    |parts| > 0 && forall i :: 0 <= i < |parts| ==> ValidName(parts[i])
  }

  predicate ValidValues(parts: seq<string>, values: seq<string>)
  {
    |values| == |parts| && forall i :: 0 <= i < |values| ==> |values[i]| > 0 && SlashFree(values[i])
  }

  function Segments(parts: seq<string>, values: seq<string>): seq<string>
    requires |values| == |parts|
  {
    seq(|parts|, i requires 0 <= i < |parts| => parts[i] + "=" + values[i])
  }

  // The key that declares these values: name=value segments joined by slashes.
  function KeyOf(parts: seq<string>, values: seq<string>): string
    requires |values| == |parts|
  {
    Join(Segments(parts, values))
  }

  // The key spells out these values.
  predicate Reads(parts: seq<string>, key: string, values: seq<string>)
  {
    ValidValues(parts, values) && KeyOf(parts, values) == key
  }

  ghost predicate Unreadable(parts: seq<string>, key: string)
  {
    forall values :: !Reads(parts, key, values)
  }

  /** PartitionKeyValues, with its loop over the segments. It accepts exactly the keys
      that spell out some list of non-empty slash-free values, and returns that list. */
  method PartitionKeyValues(key: string, parts: seq<string>) returns (r: Result<seq<string>>)
    requires ValidParts(parts)
    ensures r.Ok? ==> Reads(parts, key, r.value)
    ensures r.Err? ==> Unreadable(parts, key)
  {
    hide Split, Join, IndexOf, KeyOf, Segments;
    if key == "" {
      EmptyIsNoKey(parts);
      return Err(EmptyKey);
    }
    var segs := Split(key);
    SplitThenJoin(key);
    if |segs| != |parts| {
      WrongCount(parts, key);
      return Err(WrongSegmentCount);
    }
    var out: seq<string> := [];
    for i := 0 to |segs|
      invariant |out| == i
      invariant forall j :: 0 <= j < i ==> Gives(segs[j], parts[j], out[j])
    {
      var v := SegmentValue(segs[i], parts[i], i);
      if v.Err? {
        NoReading(parts, key, i);
        return Err(v.reason);
      }
      out := out + [v.value];
    }
    AllGive(parts, key, out);
    r := Ok(out);
  }

  predicate Gives(seg: string, part: string, value: string)
  {
    |value| > 0 && SlashFree(value) && seg == part + "=" + value
  }

  lemma WrongCount(parts: seq<string>, key: string)
    requires ValidParts(parts) && |Split(key)| != |parts|
    ensures Unreadable(parts, key)
  {
    hide Split, Join;
    forall values ensures !Reads(parts, key, values) {
      if Reads(parts, key, values) {
        SegmentsSlashFree(parts, values);
        assert false;
      }
    }
  }

  lemma ReadingGives(parts: seq<string>, key: string, values: seq<string>, i: nat)
    requires ValidParts(parts) && Reads(parts, key, values) && i < |parts|
    ensures |Split(key)| == |parts| && Gives(Split(key)[i], parts[i], values[i])
  {
    hide Split, Join;
    SegmentsSlashFree(parts, values);
  }

  // A segment without a value for its part spoils every reading.
  lemma NoReading(parts: seq<string>, key: string, i: nat)
    requires ValidParts(parts) && |Split(key)| == |parts| && i < |parts| && forall v :: !Gives(Split(key)[i], parts[i], v)
    ensures Unreadable(parts, key)
  {
    hide Split, Join;
    forall values ensures !Reads(parts, key, values) {
      if Reads(parts, key, values) {
        ReadingGives(parts, key, values, i);
        assert false;
      }
    }
  }

  lemma AllGive(parts: seq<string>, key: string, out: seq<string>)
    requires |Split(key)| == |parts| == |out| && forall j :: 0 <= j < |out| ==> Gives(Split(key)[j], parts[j], out[j])
    ensures Reads(parts, key, out)
  {
    hide Split, Join;
    SplitThenJoin(key);
    assert Split(key) == Segments(parts, out);
  }

  // One segment: the value it gives to this part, or why it gives none.
  method SegmentValue(seg: string, part: string, i: nat) returns (r: Result<string>)
    requires ValidName(part) && SlashFree(seg)
    ensures r.Ok? ==> Gives(seg, part, r.value)
    ensures r.Err? ==> forall v :: !Gives(seg, part, v)
  {
    var eq := IndexOf(seg, '=');
    OnlyOneReading(part, seg);
    if eq <= 0 {
      return Err(NoName(i));
    }
    var name, value := seg[..eq], seg[eq + 1..];
    if name != part {
      return Err(WrongName(i));
    }
    if value == "" {
      return Err(EmptyValue(i));
    }
    assert seg == name + "=" + value;
    assert SlashFree(value) by { assert forall c :: c in value ==> c in seg; }
    r := Ok(value);
  }

  // A segment reads as name=value in at most one way, split at its first '='.
  lemma OnlyOneReading(name: string, seg: string)
    requires ValidName(name)
    ensures forall v: string :: seg == name + "=" + v ==>
      IndexOf(seg, '=') == |name| && seg[..|name|] == name && seg[|name| + 1..] == v
  {
    forall v: string | seg == name + "=" + v
      ensures IndexOf(seg, '=') == |name| && seg[..|name|] == name && seg[|name| + 1..] == v
    {
      assert seg == name + ['='] + v;
      IndexAfter(name, '=', v);
    }
  }

  lemma SegmentsSlashFree(parts: seq<string>, values: seq<string>)
    requires ValidParts(parts) && ValidValues(parts, values)
    ensures Split(KeyOf(parts, values)) == Segments(parts, values)
    ensures KeyOf(parts, values) != ""
  {
    var segs := Segments(parts, values);
    forall i | 0 <= i < |segs| ensures SlashFree(segs[i]) {
      assert segs[i] == parts[i] + "=" + values[i];
    }
    JoinThenSplit(segs);
    assert Split("") == [""];
    assert segs[0] == parts[0] + "=" + values[0];
    assert |segs[0]| > 0;
  }

  lemma EmptyIsNoKey(parts: seq<string>)
    requires ValidParts(parts)
    ensures Unreadable(parts, "")
  {
    forall values ensures !Reads(parts, "", values) {
      if ValidValues(parts, values) { SegmentsSlashFree(parts, values); }
    }
  }

  /** Distinct values spell distinct keys. */
  lemma KeyOfInjective(parts: seq<string>, a: seq<string>, b: seq<string>)
    requires ValidParts(parts) && ValidValues(parts, a) && ValidValues(parts, b) && KeyOf(parts, a) == KeyOf(parts, b)
    ensures a == b
  {
    SegmentsSlashFree(parts, a);
    SegmentsSlashFree(parts, b);
    forall i | 0 <= i < |a| ensures a[i] == b[i] {
      assert Segments(parts, a)[i] == Segments(parts, b)[i];
      OnlyOneReading(parts[i], parts[i] + "=" + a[i]);
    }
  }

  // ---------- object paths ----------

  // Store.dataPath plus the separating slash; dataPrefixOf in the rebuild command.
  function DataPrefix(prefix: string): string
  {
    if prefix == "" then "data/" else prefix + "/data/"
  }

  // Store.dataKey.
  function DataKey(prefix: string, partitionKey: string, id: string): string
  {
    DataPrefix(prefix) + partitionKey + "/" + id + ".parquet"
  }

  datatype Path = Skipped | InPartition(partitionKey: string)

  // What groupByPartition reads off one listed key.
  function PartitionOfPath(dataPrefix: string, k: string): Path
  {
    if !(dataPrefix <= k) then Skipped
    else
      var rest := k[|dataPrefix|..];
      var slash := LastIndexOf(rest, '/');
      if slash <= 0 then Skipped else InPartition(rest[..slash])
  }

  lemma {:induction false} LastIndexAfter(a: string, b: string)
    requires '/' !in b
    ensures LastIndexOf(a + "/" + b, '/') == |a|
  {
    var s := a + "/" + b;
    if |b| > 0 {
      LastIndexAfter(a, b[..|b| - 1]);
      assert s[..|s| - 1] == a + "/" + b[..|b| - 1];
      assert s[|s| - 1] == b[|b| - 1];
    }
  }

  /** Which paths name a partition, and which one: the text after the data prefix up to its last
      slash, when there is some. */
  lemma PathNames(dataPrefix: string, k: string, p: string)
    ensures PartitionOfPath(dataPrefix, k) == InPartition(p) <==>
      p != "" && exists name :: '/' !in name && k == dataPrefix + (p + "/" + name)
  {
    if PartitionOfPath(dataPrefix, k) == InPartition(p) {
      var rest := k[|dataPrefix|..];
      var name := rest[|p| + 1..];
      assert rest == p + "/" + name && k == dataPrefix + (p + "/" + name);
    }
    if p != "" && exists name :: '/' !in name && k == dataPrefix + (p + "/" + name) {
      var name :| '/' !in name && k == dataPrefix + (p + "/" + name);
      assert dataPrefix <= k && k[|dataPrefix|..] == p + "/" + name;
      LastIndexAfter(p, name);
      assert (p + "/" + name)[..|p|] == p;
    }
  }

  /** Whatever the configured prefix, the path of an object gives back its partition key. */
  lemma PathRecoversPartition(prefix: string, partitionKey: string, id: string)
    requires partitionKey != "" && SlashFree(id)
    ensures PartitionOfPath(DataPrefix(prefix), DataKey(prefix, partitionKey, id)) == InPartition(partitionKey)
  {
    var d, name := DataPrefix(prefix), id + ".parquet";
    assert DataKey(prefix, partitionKey, id) == d + (partitionKey + "/" + name) && '/' !in name;
    PathNames(d, DataKey(prefix, partitionKey, id), partitionKey);
  }

  /** Paths are injective in (partition, id). */
  lemma DataKeyInjective(prefix: string, p: string, i: string, q: string, j: string)
    requires p != "" && q != "" && SlashFree(i) && SlashFree(j)
    requires DataKey(prefix, p, i) == DataKey(prefix, q, j)
    ensures p == q && i == j
  {
    PathRecoversPartition(prefix, p, i);
    PathRecoversPartition(prefix, q, j);
    var d := DataPrefix(prefix);
    var x, y := i + ".parquet", j + ".parquet";
    assert DataKey(prefix, p, i)[|d| + |p| + 1..] == x;
    assert DataKey(prefix, q, j)[|d| + |q| + 1..] == y;
    assert x[..|i|] == i && y[..|j|] == j;
  }
}

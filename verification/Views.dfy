/** Materialized-view maintenance on the write path: resolveMVRows and insertMVRows of
    materialized_view.go, down to the UNNEST insert of internal/catalog/sql.go. */
module Views {
  import opened Wrappers

  type Tuple = seq<string>

  const NUL := '\0'
  const MV_INSERT_CHUNK_SIZE := 50000

  // ---------- the dedup key ----------

  function JoinNul(t: Tuple): string
  {
    if |t| == 0 then "" else if |t| == 1 then t[0] else t[0] + [NUL] + JoinNul(t[1..])
  }

  predicate NulFree(t: Tuple) { forall i :: 0 <= i < |t| ==> NUL !in t[i] }

  function Count(s: string): nat
  {
    if s == "" then 0 else (if s[0] == NUL then 1 else 0) + Count(s[1..])
  }

  lemma {:induction false} CountSum(a: string, b: string)
    ensures Count(a + b) == Count(a) + Count(b)
  {
    if a == "" {
      assert a + b == b;
    } else {
      CountSum(a[1..], b);
      assert (a + b)[1..] == a[1..] + b;
    }
  }

  lemma {:induction false} CountZero(s: string)
    ensures Count(s) == 0 <==> NUL !in s
  {
    if s != "" {
      CountZero(s[1..]);
      assert s == [s[0]] + s[1..];
    }
  }

  // A joined tuple of n columns holds n - 1 separators, and more only if a column holds NUL.
  lemma {:induction false} CountJoined(t: Tuple)
    requires |t| >= 1
    ensures Count(JoinNul(t)) >= |t| - 1
    ensures Count(JoinNul(t)) == |t| - 1 <==> NulFree(t)
  {
    CountZero(t[0]);
    if |t| > 1 {
      CountJoined(t[1..]);
      CountSum(t[0] + [NUL], JoinNul(t[1..]));
      CountSum(t[0], [NUL]);
      assert Count([NUL]) == 1 by { assert [NUL][1..] == ""; }
      assert NulFree(t) <==> NUL !in t[0] && NulFree(t[1..]) by {
        assert forall i :: 1 <= i < |t| ==> t[i] == t[1..][i - 1];
      }
    }
  }

  lemma {:induction false} SameHead(a: string, x: string, b: string, y: string)
    requires NUL !in a && NUL !in b && a + [NUL] + x == b + [NUL] + y
    ensures a == b && x == y
  {
    var s := a + [NUL] + x;
    assert s[0] == (if a == "" then NUL else a[0]);
    assert s[0] == (b + [NUL] + y)[0] == (if b == "" then NUL else b[0]);
    if a == "" {
      assert s[1..] == x && (b + [NUL] + y)[1..] == y;
    } else {
      assert s[1..] == a[1..] + [NUL] + x && (b + [NUL] + y)[1..] == b[1..] + [NUL] + y;
      SameHead(a[1..], x, b[1..], y);
      assert a == [a[0]] + a[1..] && b == [b[0]] + b[1..];
    }
  }

  lemma {:induction false} JoinInjectiveNulFree(a: Tuple, b: Tuple)
    requires |a| == |b| >= 1 && NulFree(a) && NulFree(b) && JoinNul(a) == JoinNul(b)
    ensures a == b
  {
    if |a| > 1 {
      SameHead(a[0], JoinNul(a[1..]), b[0], JoinNul(b[1..]));
      JoinInjectiveNulFree(a[1..], b[1..]);
      assert a == [a[0]] + a[1..] && b == [b[0]] + b[1..];
    }
  }

  /** A tuple without NUL shares its key with no other tuple of its length, whatever that
      other tuple holds. */
  lemma JoinInjective(a: Tuple, b: Tuple)
    requires |a| == |b| >= 1 && NulFree(a) && JoinNul(a) == JoinNul(b)
    ensures a == b
  {
    CountJoined(a);
    CountJoined(b);
    JoinInjectiveNulFree(a, b);
  }

  /** With NUL allowed, distinct tuples can share a key. */
  lemma NulTuplesCollide()
    ensures JoinNul(["x\0", "y"]) == JoinNul(["x", "\0y"]) && ["x\0", "y"] != ["x", "\0y"]
  {
    assert JoinNul(["x\0", "y"]) == "x\0\0y";
    assert JoinNul(["x", "\0y"]) == "x\0\0y";
    assert ["x\0", "y"][0] != ["x", "\0y"][0];
  }

  // ---------- resolveMVRows ----------

  // One view: its column count, and what its Of closure gives for each record (None: an error).
  datatype View = View(name: string, columns: nat, emitted: seq<Option<seq<Tuple>>>)

  predicate Fits(ts: seq<Tuple>, columns: nat) { forall j :: 0 <= j < |ts| ==> |ts[j]| == columns }

  predicate RecordOk(v: View, i: nat)
    requires i < |v.emitted|
  {
    v.emitted[i].Some? && Fits(v.emitted[i].value, v.columns)
  }

  predicate FirstOk(v: View, n: nat)
    requires n <= |v.emitted|
  {
    n == 0 || (FirstOk(v, n - 1) && RecordOk(v, n - 1))
  }

  predicate WellShaped(v: View) { FirstOk(v, |v.emitted|) }

  lemma {:induction false} OneBadRecord(v: View, i: nat, n: nat)
    requires i < n <= |v.emitted| && !RecordOk(v, i)
    ensures !FirstOk(v, n)
  {
    if i + 1 < n { OneBadRecord(v, i, n - 1); }
  }

  // All tuples emitted for the first n records.
  function Tuples(v: View, n: nat): set<Tuple>
    requires n <= |v.emitted|
  {
    if n == 0 then {}
    else Tuples(v, n - 1) + (if v.emitted[n - 1].Some? then SetOf(v.emitted[n - 1].value) else {})
  }

  function AllTuples(v: View): set<Tuple> { Tuples(v, |v.emitted|) }

  function SetOf(rows: seq<Tuple>): set<Tuple> { set t | t in rows }

  function KeysOf(rows: seq<Tuple>): set<string> { set t | t in rows :: JoinNul(t) }

  // The rows kept: emitted ones, exactly one for each key emitted.
  ghost predicate Dedups(rows: seq<Tuple>, columns: nat, emitted: set<Tuple>)
  {
    && (forall t :: t in rows ==> t in emitted && |t| == columns)
    && |KeysOf(rows)| == |rows|
    && (forall t :: t in emitted ==> |t| == columns && JoinNul(t) in KeysOf(rows))
  }

  lemma OneMoreRow(rows: seq<Tuple>, r: Tuple, columns: nat, emitted: set<Tuple>)
    requires Dedups(rows, columns, emitted) && JoinNul(r) !in KeysOf(rows) && |r| == columns
    ensures KeysOf(rows + [r]) == KeysOf(rows) + {JoinNul(r)}
    ensures Dedups(rows + [r], columns, emitted + {r})
  {
    var more := rows + [r];
    assert forall t :: t in more <==> t in rows || t == r;
    assert KeysOf(more) == KeysOf(rows) + {JoinNul(r)};
  }

  lemma NothingYet(columns: nat)
    ensures KeysOf([]) == {} && Dedups([], columns, {})
  {
    assert KeysOf([]) == {};
  }

  // One emitted tuple: checked, then kept unless its key was seen.
  method AddTuple(r: Tuple, columns: nat, ghost emitted: set<Tuple>, rows0: seq<Tuple>, seen0: set<string>)
      returns (rows: seq<Tuple>, seen: set<string>)
    requires |r| == columns && Dedups(rows0, columns, emitted) && seen0 == KeysOf(rows0)
    ensures Dedups(rows, columns, emitted + {r}) && seen == KeysOf(rows)
  {
    rows, seen := rows0, seen0;
    var key := JoinNul(r);
    if key in seen { return; }
    OneMoreRow(rows, r, columns, emitted);
    seen, rows := seen + {key}, rows + [r];
  }

  method AddRecord(columns: nat, tuples: seq<Tuple>, ghost before: set<Tuple>, rows0: seq<Tuple>, seen0: set<string>)
      returns (ok: bool, rows: seq<Tuple>, seen: set<string>)
    requires Dedups(rows0, columns, before) && seen0 == KeysOf(rows0)
    ensures ok <==> Fits(tuples, columns)
    ensures ok ==> Dedups(rows, columns, before + SetOf(tuples)) && seen == KeysOf(rows)
  {
    rows, seen := rows0, seen0;
    assert before + SetOf(tuples[..0]) == before;
    for j := 0 to |tuples|
      invariant Dedups(rows, columns, before + SetOf(tuples[..j])) && seen == KeysOf(rows)
      invariant forall i :: 0 <= i < j ==> |tuples[i]| == columns
    {
      if |tuples[j]| != columns { return false, rows, seen; }
      rows, seen := AddTuple(tuples[j], columns, before + SetOf(tuples[..j]), rows, seen);
      assert before + SetOf(tuples[..j + 1]) == before + SetOf(tuples[..j]) + {tuples[j]};
    }
    assert tuples[..|tuples|] == tuples;
    ok := true;
  }

  method CheckRecord(v: View, i: nat, ghost before: set<Tuple>, rows0: seq<Tuple>, seen0: set<string>)
      returns (ok: bool, rows: seq<Tuple>, seen: set<string>)
    requires i < |v.emitted| && Dedups(rows0, v.columns, before) && seen0 == KeysOf(rows0)
    ensures ok <==> RecordOk(v, i)
    ensures ok ==> Dedups(rows, v.columns, before + SetOf(v.emitted[i].value)) && seen == KeysOf(rows)
  {
    if v.emitted[i].None? { return false, [], {}; }
    ok, rows, seen := AddRecord(v.columns, v.emitted[i].value, before, rows0, seen0);
  }

  /** resolveMVRows for one view: it fails exactly on an Of error or a tuple of the wrong
      length, and otherwise keeps one tuple of each key. */
  method ResolveView(v: View) returns (ok: bool, rows: seq<Tuple>)
    ensures ok <==> WellShaped(v)
    ensures ok ==> Dedups(rows, v.columns, AllTuples(v))
  {
    rows := [];
    var seen: set<string> := {};
    ghost var all: set<Tuple> := {};
    NothingYet(v.columns);
    for i := 0 to |v.emitted|
      invariant all == Tuples(v, i)
      invariant Dedups(rows, v.columns, all) && seen == KeysOf(rows)
      invariant FirstOk(v, i)
    {
      ok, rows, seen := CheckRecord(v, i, all, rows, seen);
      if !ok {
        OneBadRecord(v, i, |v.emitted|);
        return;
      }
      all := all + SetOf(v.emitted[i].value);
    }
    ok := true;
  }

  /** Rows that PostgreSQL accepts, which is to say rows without NUL, leave no tuple out. */
  lemma NothingDeduplicatedAway(rows: seq<Tuple>, columns: nat, emitted: set<Tuple>)
    requires columns >= 1 && Dedups(rows, columns, emitted) && forall t :: t in rows ==> NulFree(t)
    ensures SetOf(rows) == emitted
  {
    forall t | t in emitted ensures t in rows {
      var r :| r in rows && JoinNul(r) == JoinNul(t);
      JoinInjective(r, t);
    }
  }

  // ---------- insertMVRows ----------

  // Row-major to one array per column.
  function Transposed(chunk: seq<Tuple>, columns: nat): seq<seq<string>>
    requires forall i :: 0 <= i < |chunk| ==> |chunk[i]| == columns
  {
    seq(columns, j requires 0 <= j < columns => seq(|chunk|, i requires 0 <= i < |chunk| => chunk[i][j]))
  }

  // unnest($1, $2, ...): arrays of one length, read off position by position.
  function Unnest(args: seq<seq<string>>): seq<Tuple>
    requires |args| >= 1 && forall j :: 0 <= j < |args| ==> |args[j]| == |args[0]|
  {
    seq(|args[0]|, i requires 0 <= i < |args[0]| => seq(|args|, j requires 0 <= j < |args| => args[j][i]))
  }

  lemma UnnestTransposed(chunk: seq<Tuple>, columns: nat)
    requires columns >= 1 && forall i :: 0 <= i < |chunk| ==> |chunk[i]| == columns
    ensures forall j :: 0 <= j < columns ==> |Transposed(chunk, columns)[j]| == |chunk|
    ensures Unnest(Transposed(chunk, columns)) == chunk
  {
    var args := Transposed(chunk, columns);
    forall i | 0 <= i < |chunk| ensures Unnest(args)[i] == chunk[i] {
      forall j | 0 <= j < columns ensures Unnest(args)[i][j] == chunk[i][j] {}
    }
  }

  class ViewTable {
    var tuples: set<Tuple>    // all columns form the primary key

    /** INSERT ... SELECT FROM unnest(...) ON CONFLICT DO NOTHING. A NUL byte in any value is
        an error, and so is a lost connection. */
    method Exec(args: seq<seq<string>>, alive: bool) returns (ok: bool)
      requires |args| >= 1 && forall j :: 0 <= j < |args| ==> |args[j]| == |args[0]|
      modifies this
      ensures ok <==> alive && forall i :: 0 <= i < |Unnest(args)| ==> NulFree(Unnest(args)[i])
      ensures tuples == if ok then old(tuples) + SetOf(Unnest(args)) else old(tuples)
    {
      var rows := Unnest(args);
      ok := alive && forall i :: 0 <= i < |rows| ==> NulFree(rows[i]);
      if ok { tuples := tuples + SetOf(rows); }
    }

    /** insertMVRows for one view: chunk by chunk, each transposed. It fails exactly on a NUL
        in some row or a statement that the connection does not survive, and a failure rolls
        the surrounding transaction back. */
    method InsertRows(rows: seq<Tuple>, columns: nat, alive: nat -> bool) returns (ok: bool)
      requires columns >= 1 && forall i :: 0 <= i < |rows| ==> |rows[i]| == columns
      modifies this
      ensures ok <==> (forall i :: 0 <= i < |rows| ==> NulFree(rows[i])) && Survives(alive, |rows|)
      ensures ok ==> tuples == old(tuples) + SetOf(rows)
    {
      var start, n := 0, 0;
      while start < |rows|
        invariant 0 <= start <= |rows| && start <= n * MV_INSERT_CHUNK_SIZE && (start < |rows| ==> start == n * MV_INSERT_CHUNK_SIZE)
        invariant tuples == old(tuples) + SetOf(rows[..start])
        invariant forall i :: 0 <= i < start ==> NulFree(rows[i])
        invariant forall c :: 0 <= c < n ==> alive(c)
      {
        var end := if start + MV_INSERT_CHUNK_SIZE < |rows| then start + MV_INSERT_CHUNK_SIZE else |rows|;
        var chunk := rows[start..end];
        var args := TransposeLoop(chunk, columns);
        UnnestTransposed(chunk, columns);
        var done := Exec(args, alive(n));
        if !done {
          if alive(n) {
            ghost var i :| 0 <= i < |chunk| && !NulFree(chunk[i]);
            assert !NulFree(rows[start + i]);
          }
          return false;
        }
        n := n + 1;
        assert forall i :: start <= i < end ==> rows[i] == chunk[i - start];
        assert rows[..end] == rows[..start] + chunk;
        assert SetOf(rows[..end]) == SetOf(rows[..start]) + SetOf(chunk);
        start := end;
      }
      assert rows[..|rows|] == rows;
      ok := true;
    }
  }

  // The connection lives for every chunk of n rows.
  ghost predicate Survives(alive: nat -> bool, n: nat)
  {
    forall c: nat :: c * MV_INSERT_CHUNK_SIZE < n ==> alive(c)
  }

  // The two loops that fill the column arrays.
  method TransposeLoop(chunk: seq<Tuple>, columns: nat) returns (args: seq<seq<string>>)
    requires forall i :: 0 <= i < |chunk| ==> |chunk[i]| == columns
    ensures args == Transposed(chunk, columns)
  {
    args := [];
    for j := 0 to columns
      invariant args == Transposed(chunk, columns)[..j]
    {
      var col: seq<string> := [];
      for i := 0 to |chunk|
        invariant col == Transposed(chunk, columns)[j][..i]
      {
        col := col + [chunk[i][j]];
      }
      assert col == Transposed(chunk, columns)[j];
      args := args + [col];
      assert args == Transposed(chunk, columns)[..j + 1];
    }
  }

  lemma {:induction false} DistinctKeys(rows: seq<Tuple>)
    ensures |KeysOf(rows)| <= |SetOf(rows)| <= |rows|
  {
    if rows == [] {
      assert KeysOf(rows) == {} && SetOf(rows) == {};
    } else {
      var rest, last := rows[..|rows| - 1], rows[|rows| - 1];
      DistinctKeys(rest);
      assert rows == rest + [last];
      assert KeysOf(rows) == KeysOf(rest) + {JoinNul(last)} && SetOf(rows) == SetOf(rest) + {last};
      if last in SetOf(rest) {
        assert JoinNul(last) in KeysOf(rest);
        assert KeysOf(rows) == KeysOf(rest) && SetOf(rows) == SetOf(rest);
      } else {
        assert |SetOf(rows)| == |SetOf(rest)| + 1;
        assert JoinNul(last) in KeysOf(rest) ==> KeysOf(rows) == KeysOf(rest);
      }
    }
  }

  // A NUL in an emitted tuple shows in the rows that are kept.
  lemma NulStaysVisible(rows: seq<Tuple>, columns: nat, emitted: set<Tuple>)
    requires columns >= 1 && Dedups(rows, columns, emitted)
    ensures (forall i :: 0 <= i < |rows| ==> NulFree(rows[i])) <==> forall t :: t in emitted ==> NulFree(t)
    ensures (forall t :: t in emitted ==> NulFree(t)) ==> SetOf(rows) == emitted && |rows| == |emitted|
  {
    if forall i :: 0 <= i < |rows| ==> NulFree(rows[i]) { NothingDeduplicatedAway(rows, columns, emitted); }
    DistinctKeys(rows);
  }

  /** A committed write leaves the view exactly with its old tuples and everything emitted for
      the records written; and a write commits its view exactly if every Of call succeeds with
      tuples of the right length, no value holds a NUL and the connection lives. */
  method MaintainView(table: ViewTable, v: View, alive: nat -> bool) returns (ok: bool)
    requires v.columns >= 1
    modifies table
    ensures ok <==> WellShaped(v) && (forall t :: t in AllTuples(v) ==> NulFree(t)) && Survives(alive, |AllTuples(v)|)
    ensures ok ==> table.tuples == old(table.tuples) + AllTuples(v)
  {
    var rows;
    ok, rows := ResolveView(v);
    if !ok { return; }
    NulStaysVisible(rows, v.columns, AllTuples(v));
    ok := table.InsertRows(rows, v.columns, alive);
  }
}

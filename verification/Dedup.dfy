/** dedup.go: sort by entity and version, compact in place. */
module Dedup {
  import opened Sorting

  // A record carries its entity key and version: what the configured EntityKeyOf and VersionOf
  // return for it.
  datatype Rec = Rec(entity: string, version: int, payload: int)

  // NoKeys: EntityKeyOf / VersionOf not configured. History: WithHistory.
  datatype Mode = NoKeys | History | Latest

  predicate KeyLe(x: Rec, y: Rec)
  {
    Less(x.entity, y.entity) || (x.entity == y.entity && x.version <= y.version)
  }

  function ByKey(): (Rec, Rec) -> bool { (x, y) => KeyLe(x, y) }

  lemma KeyLeIsTotalPreorder()
    ensures TotalPreorder(ByKey())
  {
    forall x, y ensures ByKey()(x, y) || ByKey()(y, x) {
      LessTrichotomy(x.entity, y.entity);
    }
    forall x, y, z | ByKey()(x, y) && ByKey()(y, z) ensures ByKey()(x, z) {
      if Less(x.entity, y.entity) && Less(y.entity, z.entity) {
        LessTransitive(x.entity, y.entity, z.entity);
      }
    }
  }

  // ---------- what a read should return, with no sorting in it ----------

  // Scan the records in input order; a record replaces the one held for its entity
  // unless its version is smaller. So the highest version wins and, on equal
  // versions, the later record wins.
  function Newest(s: seq<Rec>): map<string, Rec>
  {
    if |s| == 0 then map[] else Newer(Newest(s[..|s| - 1]), s[|s| - 1])
  }

  function Newer(m: map<string, Rec>, r: Rec): map<string, Rec>
  {
    if r.entity in m && m[r.entity].version > r.version then m else m[r.entity := r]
  }

  // One record per (entity, version): the first in input order.
  function Replicas(s: seq<Rec>): map<(string, int), Rec>
  {
    if |s| == 0 then map[] else Keep(Replicas(s[..|s| - 1]), s[|s| - 1])
  }

  function Keep(m: map<(string, int), Rec>, r: Rec): map<(string, int), Rec>
  {
    if (r.entity, r.version) in m then m else m[(r.entity, r.version) := r]
  }

  ghost predicate Ascending(a: seq<Rec>)
  {
    forall i, j :: 0 <= i < j < |a| ==> Less(a[i].entity, a[j].entity)
  }

  // `out` lists exactly the records of m, in entity order.
  ghost predicate Lists(m: map<string, Rec>, out: seq<Rec>)
  {
    && Ascending(out)
    && (forall i :: 0 <= i < |out| ==> out[i].entity in m && m[out[i].entity] == out[i])
    && (forall e :: e in m ==> m[e] in out && m[e].entity == e)
  }

  ghost predicate StrictlyAbove(y: Rec, x: Rec)
  {
    KeyLe(x, y) && !KeyLe(y, x)
  }

  // `out` lists exactly the records of m, in (entity, version) order.
  ghost predicate ListsAll(m: map<(string, int), Rec>, out: seq<Rec>)
  {
    && (forall i, j :: 0 <= i < j < |out| ==> StrictlyAbove(out[j], out[i]))
    && (forall i :: 0 <= i < |out| ==> (out[i].entity, out[i].version) in m && m[(out[i].entity, out[i].version)] == out[i])
    && (forall e :: e in m ==> m[e] in out && (m[e].entity, m[e].version) == e)
  }

  ghost predicate IsLatestRead(s: seq<Rec>, out: seq<Rec>)
  {
    Lists(Newest(s), out)
  }

  ghost predicate IsHistoryRead(s: seq<Rec>, out: seq<Rec>)
  {
    ListsAll(Replicas(s), out)
  }

  predicate LastOfMaxVersion(s: seq<Rec>, i: nat)
    requires i < |s|
  {
    forall j :: 0 <= j < |s| && s[j].entity == s[i].entity ==>
      s[j].version < s[i].version || (s[j].version == s[i].version && j <= i)
  }

  // Newest, stated over positions: the record held for an entity is the last one
  // among those of maximal version.
  lemma {:induction false} NewestIsLastOfMaxVersion(s: seq<Rec>, i: nat)
    requires i < |s|
    ensures s[i].entity in Newest(s)
    ensures LastOfMaxVersion(s, i) ==> Newest(s)[s[i].entity] == s[i]
    ensures Newest(s)[s[i].entity].version >= s[i].version
    ensures Newest(s)[s[i].entity] in s
  {
    var p, r := s[..|s| - 1], s[|s| - 1];
    assert s == p + [r];
    if i < |p| {
      NewestIsLastOfMaxVersion(p, i);
      assert p[i] == s[i];
      if LastOfMaxVersion(s, i) {
        forall j | 0 <= j < |p| && p[j].entity == p[i].entity
          ensures p[j].version < p[i].version || (p[j].version == p[i].version && j <= i)
        {
          assert s[j] == p[j];
        }
        assert s[|p|] == r;
      }
    } else if r.entity in Newest(p) && Newest(p)[r.entity].version > r.version {
      NewestHoldsInput(p, r.entity);
      var k :| 0 <= k < |p| && p[k] == Newest(p)[r.entity];
      assert s[k] == p[k] && s[k].entity == r.entity;
    }
  }

  lemma {:induction false} NewestHoldsInput(s: seq<Rec>, e: string)
    requires e in Newest(s)
    ensures Newest(s)[e] in s && Newest(s)[e].entity == e
  {
    var p, r := s[..|s| - 1], s[|s| - 1];
    assert s == p + [r];
    if e in Newest(p) {
      NewestHoldsInput(p, e);
    }
  }

  // ---------- the compaction passes as functions of a sorted sequence ----------

  function LatestPass(t: seq<Rec>): (out: seq<Rec>)
    ensures |t| > 0 ==> |out| > 0 && out[|out| - 1] == t[|t| - 1]
    ensures |out| <= |t|
  {
    if |t| == 0 then []
    else
      var p, r := LatestPass(t[..|t| - 1]), t[|t| - 1];
      if |p| > 0 && p[|p| - 1].entity == r.entity then p[..|p| - 1] + [r] else p + [r]
  }

  function ReplicaPass(t: seq<Rec>): (out: seq<Rec>)
    ensures |t| > 0 ==> |out| > 0 && out[|out| - 1].entity == t[|t| - 1].entity
    ensures |t| > 0 ==> out[|out| - 1].version == t[|t| - 1].version
    ensures |out| <= |t|
  {
    if |t| == 0 then []
    else
      var p, r := ReplicaPass(t[..|t| - 1]), t[|t| - 1];
      if |p| > 0 && p[|p| - 1].entity == r.entity && p[|p| - 1].version == r.version then p else p + [r]
  }

  function SortAndDedup(s: seq<Rec>, mode: Mode): seq<Rec>
  {
    match mode
    case NoKeys => s
    case History => ReplicaPass(Sort(s, ByKey()))
    case Latest => LatestPass(Sort(s, ByKey()))
  }

  // ---------- the passes as the source runs them, in the same array ----------

  // The array during a pass: survivors up to n, nothing unread overwritten from i on.
  ghost predicate Scanned(now: seq<Rec>, was: seq<Rec>, i: nat, n: nat, done: seq<Rec>)
  {
    && n <= i <= |now| == |was| && |done| == n
    && (forall j :: i <= j < |now| ==> now[j] == was[j])
    && (forall j :: 0 <= j < n ==> now[j] == done[j])
  }

  // Writing a survivor at n, behind the read position.
  lemma ScanWrites(now: seq<Rec>, was: seq<Rec>, i: nat, n: nat, done: seq<Rec>, r: Rec)
    requires Scanned(now, was, i, n, done) && i < |now|
    ensures Scanned(now, was, i + 1, n, done)
    ensures Scanned(now[n := r], was, i + 1, n + 1, done + [r])
    ensures now[i] == was[i]
  {
  }

  // The last survivor, written after the scan.
  lemma ScanEnds(now: seq<Rec>, was: seq<Rec>, n: nat, done: seq<Rec>, r: Rec)
    requires Scanned(now, was, |now|, n, done) && n < |now|
    ensures now[n := r][..n + 1] == done + [r] && was[..|now|] == was
  {
  }

  /** dedupLatest: one survivor per run of equal entities, written at index n while the
      scan reads ahead at i. `a[i..]` staying as it was is the claim that no write
      clobbers an unread element. */
  method DedupLatest(a: array<Rec>) returns (n: nat)
    modifies a
    ensures n <= a.Length
    ensures a[..n] == LatestPass(old(a[..]))
  {
    n := 0;
    if a.Length == 0 {
      return;
    }
    var prevEntity, pending, first := "", a[0], true;
    ghost var was, done := a[..], [];
    assert Scanned(a[..], was, 0, 0, done);
    hide LatestPass, Scanned;
    for i := 0 to a.Length
      invariant n <= i && (first <==> i == 0) && (!first ==> n < i)
      invariant Scanned(a[..], was, i, n, done)
      invariant first ==> n == 0
      invariant !first ==> done + [pending] == LatestPass(was[..i]) && prevEntity == pending.entity
    {
      var r := a[i];
      LatestPassStep(was, i, done, pending);
      ghost var now := a[..];
      ScanWrites(now, was, i, n, done, pending);
      if !first && r.entity != prevEntity {
        a[n] := pending;
        assert a[..] == now[n := pending];
        n, done := n + 1, done + [pending];
      }
      assert Scanned(a[..], was, i + 1, n, done);
      pending, prevEntity, first := r, r.entity, false;
    }
    ghost var now := a[..];
    ScanEnds(now, was, n, done, pending);
    a[n] := pending;
    assert a[..] == now[n := pending];
    n := n + 1;
    assert a[..n] == now[n - 1 := pending][..n];
  }

  // One record more: it replaces the pending one or follows it.
  lemma LatestPassStep(was: seq<Rec>, i: nat, done: seq<Rec>, pending: Rec)
    requires i < |was| && (i > 0 ==> done + [pending] == LatestPass(was[..i])) && (i == 0 ==> done == [])
    ensures LatestPass(was[..i + 1]) ==
      if i > 0 && was[i].entity != pending.entity then done + [pending] + [was[i]] else done + [was[i]]
  {
    assert was[..i + 1][..i] == was[..i];
    assert i == 0 ==> was[..i] == [];
    assert (done + [pending])[..|done|] == done;
  }

  /** dedupReplicas: the first record of each run of equal (entity, version). */
  method DedupReplicas(a: array<Rec>) returns (n: nat)
    modifies a
    ensures n <= a.Length
    ensures a[..n] == ReplicaPass(old(a[..]))
  {
    n := 0;
    if a.Length == 0 {
      return;
    }
    assert ReplicaPass([]) == [];
    hide ReplicaPass;
    var prevEntity, prevVersion, first := "", 0, true;
    ghost var was, done := a[..], [];
    assert was[..0] == [];
    for i := 0 to a.Length
      invariant n <= i && (first <==> i == 0)
      invariant Scanned(a[..], was, i, n, done)
      invariant done == ReplicaPass(was[..i])
      invariant !first ==> prevEntity == was[i - 1].entity && prevVersion == was[i - 1].version
    {
      var r := a[i];
      ReplicaPassStep(was, i);
      ScanWrites(a[..], was, i, n, done, r);
      if !first && r.entity == prevEntity && r.version == prevVersion {
        continue;
      }
      ghost var now := a[..];
      a[n] := r;
      assert a[..] == now[n := r];
      n, done := n + 1, done + [r];
      prevEntity, prevVersion, first := r.entity, r.version, false;
    }
    assert was[..a.Length] == was;
    assert a[..n] == done;
  }

  lemma ReplicaPassStep(was: seq<Rec>, i: nat)
    requires i < |was|
    ensures ReplicaPass(was[..i + 1]) ==
      if i > 0 && was[i - 1].entity == was[i].entity && was[i - 1].version == was[i].version then ReplicaPass(was[..i])
      else ReplicaPass(was[..i]) + [was[i]]
  {
    assert was[..i + 1][..i] == was[..i];
    if i > 0 { assert was[..i][i - 1] == was[i - 1]; }
  }

  /** sortAndDedup. The array is sorted in place, then compacted in place; the first n
      cells are the result. */
  method SortAndDedupInPlace(a: array<Rec>, mode: Mode) returns (n: nat)
    modifies a
    ensures n <= a.Length
    ensures a[..n] == SortAndDedup(old(a[..]), mode)
    ensures mode == NoKeys ==> a[..n] == old(a[..])
    ensures mode == Latest ==> IsLatestRead(old(a[..]), a[..n])
    ensures mode == History ==> IsHistoryRead(old(a[..]), a[..n])
  {
    ghost var was := a[..];
    if mode == NoKeys {
      n := a.Length;
      assert a[..n] == a[..];
      return;
    }
    KeyLeIsTotalPreorder();
    SortIsSorted(was, ByKey());
    var sorted := Sort(a[..], ByKey());
    forall i | 0 <= i < a.Length {
      a[i] := sorted[i];
    }
    assert a[..] == sorted;
    if mode == History {
      n := DedupReplicas(a);
      HistoryIsCorrect(was);
    } else {
      n := DedupLatest(a);
      LatestIsCorrect(was);
    }
  }

  // ---------- the passes over the sorted records meet the unsorted specification ----------

  // Records that outrank r can be scanned before or after it.
  predicate Outranks(x: Rec, r: Rec)
  {
    x.entity != r.entity || x.version > r.version
  }

  lemma {:induction false} NewestSkips(a: seq<Rec>, r: Rec, b: seq<Rec>)
    requires forall x :: x in b ==> Outranks(x, r)
    ensures Newest(a + [r] + b) == Newer(Newest(a + b), r)
  {
    if |b| == 0 {
      assert a + [r] + b == a + [r] && (a + [r])[..|a|] == a && a + b == a;
    } else {
      var c, x := b[..|b| - 1], b[|b| - 1];
      NewestSkips(a, r, c);
      assert (a + [r] + b)[..|a| + |b|] == a + [r] + c;
      assert (a + b)[..|a| + |c|] == a + c;
      assert Outranks(x, r);
      var m := Newest(a + c);
      assert Newer(Newer(m, r), x) == Newer(Newer(m, x), r);
    }
  }

  lemma {:induction false} ReplicasSkip(a: seq<Rec>, r: Rec, b: seq<Rec>)
    requires forall x :: x in b ==> Outranks(x, r)
    ensures Replicas(a + [r] + b) == Keep(Replicas(a + b), r)
  {
    if |b| == 0 {
      assert a + [r] + b == a + [r] && (a + [r])[..|a|] == a && a + b == a;
    } else {
      var c, x := b[..|b| - 1], b[|b| - 1];
      ReplicasSkip(a, r, c);
      assert (a + [r] + b)[..|a| + |b|] == a + [r] + c;
      assert (a + b)[..|a| + |c|] == a + c;
      assert Outranks(x, r);
    }
  }

  // Stable sorting moves a record only past records that outrank it.
  lemma {:induction false} SortKeepsReads(s: seq<Rec>)
    ensures Newest(Sort(s, ByKey())) == Newest(s)
    ensures Replicas(Sort(s, ByKey())) == Replicas(s)
  {
    if |s| > 0 {
      var p, r := s[..|s| - 1], s[|s| - 1];
      SortKeepsReads(p);
      KeyLeIsTotalPreorder();
      var t := Sort(p, ByKey());
      SortIsSorted(p, ByKey());
      var k := InsertAt(t, r, ByKey());
      forall x | x in t[k..] ensures Outranks(x, r) {
        var i :| k <= i < |t| && t[i] == x;
        assert !ByKey()(x, r);
      }
      assert t == t[..k] + t[k..];
      NewestSkips(t[..k], r, t[k..]);
      ReplicasSkip(t[..k], r, t[k..]);
    }
  }

  lemma SortedPrefix(t: seq<Rec>)
    requires Sorted(t, ByKey()) && |t| > 0
    ensures Sorted(t[..|t| - 1], ByKey())
  {
  }

  lemma LastIsGreatest(t: seq<Rec>, i: nat)
    requires Sorted(t, ByKey()) && i < |t|
    ensures KeyLe(t[i], t[|t| - 1])
  {
    assert ByKey()(t[i], t[i]);
    if i < |t| - 1 { assert ByKey()(t[i], t[|t| - 1]); }
  }

  lemma ListsAppend(m: map<string, Rec>, p: seq<Rec>, r: Rec)
    requires Lists(m, p)
    requires forall i :: 0 <= i < |p| ==> Less(p[i].entity, r.entity)
    ensures Lists(m[r.entity := r], p + [r])
  {
    forall i | 0 <= i < |p| ensures p[i].entity != r.entity {
      LessTrichotomy(p[i].entity, r.entity);
    }
    var out := p + [r];
    forall e | e in m && e != r.entity ensures m[e] in out {
      assert m[e] in p;
    }
    assert out[|p|] == r;
  }

  lemma ListsReplaceLast(m: map<string, Rec>, p: seq<Rec>, r: Rec)
    requires Lists(m, p) && |p| > 0 && p[|p| - 1].entity == r.entity
    ensures Lists(m[r.entity := r], p[..|p| - 1] + [r])
  {
    var k := |p| - 1;
    var out := p[..k] + [r];
    forall i | 0 <= i < k ensures p[i].entity != r.entity {
      assert Less(p[i].entity, p[k].entity);
      LessTrichotomy(p[i].entity, r.entity);
    }
    forall e | e in m && e != r.entity ensures m[e] in out {
      assert m[e] in p;
      var i :| 0 <= i < |p| && p[i] == m[e];
      assert out[i] == p[i];
    }
    assert out[k] == r;
  }

  lemma {:induction false} LatestPassOfSorted(t: seq<Rec>)
    requires Sorted(t, ByKey())
    ensures IsLatestRead(t, LatestPass(t))
  {
    if |t| > 1 {
      var u, r := t[..|t| - 1], t[|t| - 1];
      SortedPrefix(t);
      LatestPassOfSorted(u);
      var p, last := LatestPass(u), u[|u| - 1];
      LastIsGreatest(t, |u| - 1);
      assert p[|p| - 1] == last && KeyLe(last, r);
      LessTrichotomy(last.entity, r.entity);
      assert Newest(t) == Newest(u)[r.entity := r] by {
        if r.entity in Newest(u) {
          LatestBelow(u, p, r);
        }
      }
      if last.entity == r.entity {
        ListsReplaceLast(Newest(u), p, r);
      } else {
        forall i | 0 <= i < |p| ensures Less(p[i].entity, r.entity) {
          if i < |p| - 1 { LessTransitive(p[i].entity, last.entity, r.entity); }
        }
        ListsAppend(Newest(u), p, r);
      }
    } else if |t| == 1 {
      assert t[..0] == [];
      assert LatestPass(t) == t;
    }
  }

  // A record that sorts last is not outranked by anything already listed.
  lemma LatestBelow(u: seq<Rec>, p: seq<Rec>, r: Rec)
    requires IsLatestRead(u, p) && r.entity in Newest(u)
    requires |p| > 0 && KeyLe(p[|p| - 1], r)
    ensures Newest(u)[r.entity].version <= r.version
  {
    var x := Newest(u)[r.entity];
    var i :| 0 <= i < |p| && p[i] == x;
    EarlierIsBelow(p, i, r);
    LessTrichotomy(r.entity, r.entity);
  }

  lemma EarlierIsBelow(p: seq<Rec>, i: nat, r: Rec)
    requires i < |p| && (forall j, k :: 0 <= j < k < |p| ==> Less(p[j].entity, p[k].entity)) && KeyLe(p[|p| - 1], r)
    ensures i < |p| - 1 ==> p[i].entity != r.entity
  {
    LessTrichotomy(p[i].entity, p[|p| - 1].entity);
    LessTrichotomy(p[|p| - 1].entity, r.entity);
  }

  lemma ListsAllAppend(m: map<(string, int), Rec>, p: seq<Rec>, r: Rec)
    requires ListsAll(m, p)
    requires forall i :: 0 <= i < |p| ==> StrictlyAbove(r, p[i])
    ensures (r.entity, r.version) !in m
    ensures ListsAll(m[(r.entity, r.version) := r], p + [r])
  {
    var k, out := (r.entity, r.version), p + [r];
    forall e | e in m ensures e != k && m[e] in out {
      assert m[e] in p;
    }
    assert out[|p|] == r;
  }

  lemma StrictlyAboveTrans(x: Rec, y: Rec, z: Rec)
    requires StrictlyAbove(y, x) && KeyLe(y, z)
    ensures StrictlyAbove(z, x)
  {
    KeyLeIsTotalPreorder();
    var le := ByKey();
    assert le(x, y) && le(y, z);
    assert le(x, z);
    assert le(z, x) ==> le(y, x);
  }

  lemma {:induction false} ReplicaPassOfSorted(t: seq<Rec>)
    requires Sorted(t, ByKey())
    ensures IsHistoryRead(t, ReplicaPass(t))
  {
    if |t| > 1 {
      var u, r := t[..|t| - 1], t[|t| - 1];
      SortedPrefix(t);
      ReplicaPassOfSorted(u);
      var p := ReplicaPass(u);
      var last := p[|p| - 1];
      LastIsGreatest(t, |u| - 1);
      assert KeyLe(last, r);
      LessTrichotomy(last.entity, r.entity);
      if !(last.entity == r.entity && last.version == r.version) {
        forall i | 0 <= i < |p| ensures StrictlyAbove(r, p[i]) {
          if i < |p| - 1 { StrictlyAboveTrans(p[i], last, r); }
        }
        ListsAllAppend(Replicas(u), p, r);
      }
    } else if |t| == 1 {
      assert t[..0] == [];
      LessTrichotomy(t[0].entity, t[0].entity);
      assert ReplicaPass(t) == t;
    }
  }

  /** Default reads: exactly one record per entity, in entity order, of maximal version,
      and the later one in input order when versions tie. */
  lemma LatestIsCorrect(s: seq<Rec>)
    ensures IsLatestRead(s, SortAndDedup(s, Latest))
  {
    KeyLeIsTotalPreorder();
    SortIsSorted(s, ByKey());
    LatestPassOfSorted(Sort(s, ByKey()));
    SortKeepsReads(s);
  }

  /** WithHistory reads: exactly one record per (entity, version), in that order. */
  lemma HistoryIsCorrect(s: seq<Rec>)
    ensures IsHistoryRead(s, SortAndDedup(s, History))
  {
    KeyLeIsTotalPreorder();
    SortIsSorted(s, ByKey());
    ReplicaPassOfSorted(Sort(s, ByKey()));
    SortKeepsReads(s);
  }

  // A read is determined by Newest alone.
  lemma {:induction false} LatestReadUnique(s: seq<Rec>, a: seq<Rec>, b: seq<Rec>)
    requires IsLatestRead(s, a) && IsLatestRead(s, b)
    ensures a == b
  {
    KeyLeIsTotalPreorder();
    AscendingSorted(a);
    AscendingSorted(b);
    forall x ensures x in a <==> x in b {
      if x in a { assert Newest(s)[x.entity] == x; }
      if x in b { assert Newest(s)[x.entity] == x; }
    }
    AscendingMultiset(a, b);
    forall x, y | x in a && y in a && ByKey()(x, y) && ByKey()(y, x) ensures x == y {
      LessTrichotomy(x.entity, y.entity);
      assert Newest(s)[x.entity] == x && Newest(s)[y.entity] == y;
    }
    SortedArrangementUnique(a, b, ByKey());
  }

  lemma AscendingSorted(a: seq<Rec>)
    requires Ascending(a)
    ensures Sorted(a, ByKey())
  {
  }

  lemma {:induction false} AscendingCount(a: seq<Rec>, x: Rec)
    requires Ascending(a)
    ensures multiset(a)[x] == if x in a then 1 else 0
  {
    if |a| > 0 {
      var p, r := a[..|a| - 1], a[|a| - 1];
      assert a == p + [r];
      AscendingCount(p, x);
      if x == r && x in p {
        var i :| 0 <= i < |p| && p[i] == x;
        assert Less(a[i].entity, a[|a| - 1].entity);
        LessTrichotomy(x.entity, x.entity);
      }
    }
  }

  lemma AscendingMultiset(a: seq<Rec>, b: seq<Rec>)
    requires Ascending(a) && Ascending(b)
    requires forall x :: x in a <==> x in b
    ensures multiset(a) == multiset(b)
  {
    forall x ensures multiset(a)[x] == multiset(b)[x] {
      AscendingCount(a, x);
      AscendingCount(b, x);
    }
  }

  ghost predicate StrictlyAscending(a: seq<Rec>)
  {
    forall i, j :: 0 <= i < j < |a| ==> StrictlyAbove(a[j], a[i])
  }

  lemma {:induction false} StrictCount(a: seq<Rec>, x: Rec)
    requires StrictlyAscending(a)
    ensures multiset(a)[x] == if x in a then 1 else 0
  {
    if |a| > 0 {
      var p, r := a[..|a| - 1], a[|a| - 1];
      assert a == p + [r];
      StrictCount(p, x);
      forall i | 0 <= i < |p| ensures p[i] != r { assert StrictlyAbove(a[|a| - 1], a[i]); }
    }
  }

  /** A history read is determined by Replicas alone. */
  lemma {:induction false} HistoryReadUnique(s: seq<Rec>, a: seq<Rec>, b: seq<Rec>)
    requires IsHistoryRead(s, a) && IsHistoryRead(s, b)
    ensures a == b
  {
    KeyLeIsTotalPreorder();
    forall x ensures x in a <==> x in b {
      if x in a { assert Replicas(s)[(x.entity, x.version)] == x; }
      if x in b { assert Replicas(s)[(x.entity, x.version)] == x; }
    }
    forall x ensures multiset(a)[x] == multiset(b)[x] {
      StrictCount(a, x);
      StrictCount(b, x);
    }
    forall x, y | x in a && y in a && ByKey()(x, y) && ByKey()(y, x) ensures x == y {
      LessTrichotomy(x.entity, y.entity);
      assert Replicas(s)[(x.entity, x.version)] == x && Replicas(s)[(y.entity, y.version)] == y;
    }
    SortedArrangementUnique(a, b, ByKey());
  }

  // Where the record held for an entity comes from: the last of maximal version.
  lemma {:induction false} NewestIsSomewhere(s: seq<Rec>, e: string) returns (i: nat)
    requires e in Newest(s)
    ensures i < |s| && s[i] == Newest(s)[e] && s[i].entity == e && LastOfMaxVersion(s, i)
  {
    var p, r := s[..|s| - 1], s[|s| - 1];
    assert s == p + [r];
    if e == r.entity && Newest(s)[e] == r && !(e in Newest(p) && Newest(p)[e].version > r.version) {
      i := |s| - 1;
      forall j | 0 <= j < |s| && s[j].entity == e ensures s[j].version <= r.version { NewestIsLastOfMaxVersion(s, j); }
    } else {
      i := NewestIsSomewhere(p, e);
      forall j | 0 <= j < |s| && s[j].entity == e ensures s[j].version < s[i].version || (s[j].version == s[i].version && j <= i) {
        assert j < |p| ==> p[j] == s[j];
      }
    }
  }
}

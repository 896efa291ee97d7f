/** String order and the stable sort that the read path relies on.

    One strict order on strings stands for both Go's string comparison and the
    database's collation. `Sort` stands for Go's `sort.SliceStable` / `slices.SortFunc`:
    an element is placed after every earlier element that is not greater. */
module Sorting {

  predicate Less(a: string, b: string)
  {
    if |b| == 0 then false
    else if |a| == 0 then true
    else a[0] < b[0] || (a[0] == b[0] && Less(a[1..], b[1..]))
  }

  lemma {:induction false} LessTransitive(a: string, b: string, c: string)
    requires Less(a, b) && Less(b, c)
    ensures Less(a, c)
  {
    if |a| > 0 && a[0] == b[0] == c[0] {
      LessTransitive(a[1..], b[1..], c[1..]);
    }
  }

  lemma {:induction false} LessTrichotomy(a: string, b: string)
    ensures a == b || Less(a, b) || Less(b, a)
    ensures a == b ==> !Less(a, b)
    ensures !(Less(a, b) && Less(b, a))
  {
    if |a| > 0 && |b| > 0 {
      LessTrichotomy(a[1..], b[1..]);
      if a[0] == b[0] && a[1..] == b[1..] {
        assert a == [a[0]] + a[1..] && b == [b[0]] + b[1..];
        assert a == b;
      }
    }
  }

  ghost predicate TotalPreorder<T(!new)>(le: (T, T) -> bool)
  {
    && (forall x, y :: le(x, y) || le(y, x))
    && (forall x, y, z :: le(x, y) && le(y, z) ==> le(x, z))
  }

  ghost predicate Sorted<T>(s: seq<T>, le: (T, T) -> bool)
  {
    forall i, j :: 0 <= i < j < |s| ==> le(s[i], s[j])
  }

  function Insert<T>(s: seq<T>, x: T, le: (T, T) -> bool): seq<T>
  {
    if |s| == 0 || le(s[|s| - 1], x) then s + [x]
    else Insert(s[..|s| - 1], x, le) + [s[|s| - 1]]
  }

  function Sort<T>(s: seq<T>, le: (T, T) -> bool): seq<T>
  {
    if |s| == 0 then [] else Insert(Sort(s[..|s| - 1], le), s[|s| - 1], le)
  }

  // The insertion point: everything before it is not greater than x, everything
  // after it is strictly greater.
  lemma {:induction false} InsertAt<T(!new)>(s: seq<T>, x: T, le: (T, T) -> bool) returns (k: nat)
    requires TotalPreorder(le) && Sorted(s, le)
    ensures k <= |s|
    ensures Insert(s, x, le) == s[..k] + [x] + s[k..]
    ensures forall i :: 0 <= i < k ==> le(s[i], x)
    ensures forall i :: k <= i < |s| ==> !le(s[i], x)
    ensures Sorted(Insert(s, x, le), le)
  {
    if |s| == 0 || le(s[|s| - 1], x) {
      k := |s|;
    } else {
      var t := s[..|s| - 1];
      k := InsertAt(t, x, le);
      assert t[..k] == s[..k];
      assert t[k..] == s[k..|s| - 1] && s[k..] == s[k..|s| - 1] + [s[|s| - 1]];
      assert Insert(s, x, le) == s[..k] + [x] + s[k..];
    }
  }

  lemma {:induction false} SortIsSorted<T(!new)>(s: seq<T>, le: (T, T) -> bool)
    requires TotalPreorder(le)
    ensures Sorted(Sort(s, le), le)
    ensures multiset(Sort(s, le)) == multiset(s)
    ensures |Sort(s, le)| == |s|
  {
    if |s| > 0 {
      var p, x := s[..|s| - 1], s[|s| - 1];
      SortIsSorted(p, le);
      var k := InsertAt(Sort(p, le), x, le);
      InsertPermutes(Sort(p, le), x, le);
      LastApart(s);
    }
  }

  lemma {:induction false} InsertPermutes<T>(s: seq<T>, x: T, le: (T, T) -> bool)
    ensures multiset(Insert(s, x, le)) == multiset(s) + multiset{x} && |Insert(s, x, le)| == |s| + 1
  {
    if |s| > 0 && !le(s[|s| - 1], x) {
      InsertPermutes(s[..|s| - 1], x, le);
      LastApart(s);
    }
  }

  lemma LastApart<T>(s: seq<T>)
    requires |s| > 0
    ensures multiset(s) == multiset(s[..|s| - 1]) + multiset{s[|s| - 1]}
  {
    assert s == s[..|s| - 1] + [s[|s| - 1]];
  }

  lemma FirstApart<T>(s: seq<T>)
    requires |s| > 0
    ensures multiset(s[1..]) == multiset(s) - multiset{s[0]}
  {
    assert s == [s[0]] + s[1..];
  }

  lemma SameHead<T(!new)>(a: seq<T>, b: seq<T>, le: (T, T) -> bool)
    requires TotalPreorder(le) && Sorted(a, le) && Sorted(b, le)
    requires multiset(a) == multiset(b) && |a| > 0 && |b| > 0
    requires forall x, y :: x in a && y in a && le(x, y) && le(y, x) ==> x == y
    ensures a[0] == b[0]
  {
    assert a[0] in multiset(b) && b[0] in multiset(a);
    var i :| 0 <= i < |b| && b[i] == a[0];
    var j :| 0 <= j < |a| && a[j] == b[0];
    assert le(b[0], b[i]) && le(a[0], a[j]);
  }

  lemma SameLength<T>(a: seq<T>, b: seq<T>)
    requires multiset(a) == multiset(b)
    ensures |a| == |b|
  {
    assert |a| == |multiset(a)| == |multiset(b)| == |b|;
  }

  // Two sorted arrangements of one multiset are equal when ties are equalities.
  lemma {:induction false} SortedArrangementUnique<T(!new)>(a: seq<T>, b: seq<T>, le: (T, T) -> bool)
    requires TotalPreorder(le) && Sorted(a, le) && Sorted(b, le)
    requires multiset(a) == multiset(b)
    requires forall x, y :: x in a && y in a && le(x, y) && le(y, x) ==> x == y
    ensures a == b
  {
    SameLength(a, b);
    if |a| > 0 {
      SameHead(a, b, le);
      FirstApart(a);
      FirstApart(b);
      var ta, tb := a[1..], b[1..];
      TailSorted(a, le);
      TailSorted(b, le);
      SortedArrangementUnique(ta, tb, le);
      assert a == [a[0]] + ta && b == [b[0]] + tb;
    }
  }

  lemma TailSorted<T>(s: seq<T>, le: (T, T) -> bool)
    requires |s| > 0 && Sorted(s, le)
    ensures Sorted(s[1..], le) && forall x :: x in s[1..] ==> x in s
  {
  }
}

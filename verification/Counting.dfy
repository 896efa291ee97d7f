/** Sums over sequences, a byte budget seen as a list of units, and residues.

    The two pipelines count slots, pool places and reserved bytes in the same way: as a sum of
    what each task, body or unit contributes. One change in the sequence changes the sum by the
    difference of two contributions, which is all that their invariants need to know. */
module Counting {
  // ---------- counting ----------

  function SumBy<T>(s: seq<T>, f: T -> nat): nat
  {
    if |s| == 0 then 0 else SumBy(s[..|s| - 1], f) + f(s[|s| - 1])
  }

  lemma {:induction false} SumByUpdate<T>(s: seq<T>, i: nat, x: T, f: T -> nat)
    requires i < |s|
    ensures SumBy(s[i := x], f) + f(s[i]) == SumBy(s, f) + f(x)
  {
    var n := |s| - 1;
    if i == n {
      assert s[i := x][..n] == s[..n];
    } else {
      SumByUpdate(s[..n], i, x, f);
      assert s[i := x][..n] == s[..n][i := x];
    }
  }

  lemma {:induction false} SumByBound<T>(s: seq<T>, f: T -> nat)
    requires forall i :: 0 <= i < |s| ==> f(s[i]) <= 1
    ensures SumBy(s, f) <= |s|
    ensures SumBy(s, f) == |s| ==> forall i :: 0 <= i < |s| ==> f(s[i]) == 1
  {
    if |s| > 0 { SumByBound(s[..|s| - 1], f); }
  }

  lemma {:induction false} SumByAtLeast<T>(s: seq<T>, i: nat, f: T -> nat)
    requires i < |s|
    ensures SumBy(s, f) >= f(s[i])
  {
    if i < |s| - 1 { SumByAtLeast(s[..|s| - 1], i, f); }
  }

  lemma {:induction false} SumByZero<T>(s: seq<T>, f: T -> nat)
    requires forall i :: 0 <= i < |s| ==> f(s[i]) == 0
    ensures SumBy(s, f) == 0
  {
    if |s| > 0 { SumByZero(s[..|s| - 1], f); }
  }

  lemma {:induction false} MulGrows(k: nat, m: nat)
    requires k >= 1
    ensures k * m >= m
  {
    if k > 1 {
      MulGrows(k - 1, m);
      assert k * m == (k - 1) * m + m;
    }
  }

  lemma NonZeroMultiple(k: int, m: nat)
    requires k != 0
    ensures k * m >= m || k * m <= 0 - m
  {
    if k >= 1 {
      MulGrows(k, m);
    } else {
      MulGrows(-k, m);
      assert k * m == -((-k) * m);
    }
  }

  lemma SmallMultiple(k: int, m: nat)
    requires m >= 1 && 0 - m < k * m < m
    ensures k == 0
  {
    if k != 0 {
      NonZeroMultiple(k, m);
    }
  }

  lemma ModStep(a: nat, m: nat)
    requires m >= 1
    ensures (a + m) % m == a % m
  {
    var p, q := a / m, (a + m) / m;
    assert a == p * m + a % m;
    assert a + m == q * m + (a + m) % m;
    assert (q - p - 1) * m == q * m - p * m - m;
    SmallMultiple(q - p - 1, m);
  }

  lemma ModWindow(a: nat, b: nat, m: nat)
    requires m >= 1 && a % m == b % m && a <= b < a + m
    ensures a == b
  {
    var p, q := a / m, b / m;
    assert a == p * m + a % m;
    assert b == q * m + b % m;
    assert (q - p) * m == q * m - p * m;
    SmallMultiple(q - p, m);
  }

  lemma MulMonotone(n: nat, a: nat, b: nat)
    requires a <= b
    ensures n * a <= n * b
  {
  }

  // ---------- a budget and the units it holds ----------

  function Id(n: nat): nat { n }

  function PositiveN(n: nat): nat { if n > 0 then 1 else 0 }

  lemma {:induction false} SumByAppend<T>(a: seq<T>, b: seq<T>, f: T -> nat)
    ensures SumBy(a + b, f) == SumBy(a, f) + SumBy(b, f)
  {
    if |b| == 0 {
      assert a + b == a;
    } else {
      SumByAppend(a, b[..|b| - 1], f);
      assert (a + b)[..|a| + |b| - 1] == a + b[..|b| - 1];
    }
  }

  lemma SumByOne<T>(x: T, f: T -> nat)
    ensures SumBy([x], f) == f(x)
  {
    assert [x][..0] == [];
  }

  lemma {:induction false} SumsVanishTogether(h: seq<nat>)
    ensures SumBy(h, Id) == 0 <==> SumBy(h, PositiveN) == 0
  {
    if |h| > 0 { SumsVanishTogether(h[..|h| - 1]); }
  }

  ghost predicate Capped(cap: int, h: seq<nat>)
  {
    SumBy(h, Id) <= cap || SumBy(h, PositiveN) == 1
  }

  lemma CappedAfterReserve(cap: int, h: seq<nat>, u: nat)
    requires cap > 0 && u > 0 && (SumBy(h, Id) == 0 || SumBy(h, Id) + u <= cap)
    ensures Capped(cap, h + [u]) && SumBy(h + [u], Id) == SumBy(h, Id) + u
  {
    SumByAppend(h, [u], Id);
    SumByAppend(h, [u], PositiveN);
    SumByOne(u, Id);
    SumByOne(u, PositiveN);
    SumsVanishTogether(h);
  }

  lemma CappedWithZero(cap: int, h: seq<nat>)
    requires Capped(cap, h)
    ensures Capped(cap, h + [0]) && SumBy(h + [0], Id) == SumBy(h, Id)
  {
    SumByAppend(h, [0], Id);
    SumByAppend(h, [0], PositiveN);
    SumByOne<nat>(0, Id);
    SumByOne<nat>(0, PositiveN);
  }

  // Releasing one unit, whichever end it is at.
  lemma CappedAfterRelease(cap: int, a: seq<nat>, u: nat, b: seq<nat>)
    requires cap > 0 && Capped(cap, a + [u] + b)
    ensures Capped(cap, a + b) && SumBy(a + b, Id) + u == SumBy(a + [u] + b, Id)
  {
    SumByAppend(a, b, Id);
    SumByAppend(a, b, PositiveN);
    SumByAppend(a, [u], Id);
    SumByAppend(a, [u], PositiveN);
    SumByAppend(a + [u], b, Id);
    SumByAppend(a + [u], b, PositiveN);
    SumByOne(u, Id);
    SumByOne(u, PositiveN);
    SumsVanishTogether(a + b);
  }

  // ---------- more about sums ----------

  lemma {:induction false} PositiveSumHasOne<T>(s: seq<T>, f: T -> nat) returns (i: nat)
    requires SumBy(s, f) > 0
    ensures i < |s| && f(s[i]) > 0
  {
    if f(s[|s| - 1]) > 0 {
      i := |s| - 1;
    } else {
      i := PositiveSumHasOne(s[..|s| - 1], f);
    }
  }

  lemma {:induction false} SumByOnly<T>(s: seq<T>, i: nat, f: T -> nat)
    requires i < |s| && forall j :: 0 <= j < |s| && j != i ==> f(s[j]) == 0
    ensures SumBy(s, f) == f(s[i])
  {
    if i == |s| - 1 { SumByZero(s[..i], f); } else { SumByOnly(s[..|s| - 1], i, f); }
  }

  lemma {:induction false} SumByPrefixBound<T>(s: seq<T>, k: nat, f: T -> nat)
    requires k <= |s| && (forall j :: 0 <= j < k ==> f(s[j]) <= 1) && forall j :: k <= j < |s| ==> f(s[j]) == 0
    ensures SumBy(s, f) <= k
  {
    if |s| > k { SumByPrefixBound(s[..|s| - 1], k, f); } else { SumByBound(s, f); }
  }
}

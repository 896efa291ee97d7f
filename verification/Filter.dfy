/** Filters and their translation to a WHERE clause with numbered parameters (filter.go), as a
    list of SQL tokens that is checked by parsing it back. */
module Filter {
  import opened Wrappers
  import opened Sorting

  datatype Filter =
    | Eq(col: string, value: string)
    | Prefix(col: string, value: string)
    | Between(col: string, from: string, to: string)
    | GE(col: string, value: string)
    | LT(col: string, value: string)
    | In(col: string, values: seq<string>)
    | And(subs: seq<Filter>)
    | Or(subs: seq<Filter>)

  // partColResolver and mvColResolver.
  datatype Resolver = PartColumns(names: seq<string>) | ViewColumns(names: seq<string>)

  function SqlName(r: Resolver, col: string): string
  {
    if r.PartColumns? then "part_" + col else col
  }

  datatype Op = EqualTo | Like | AtLeast | Below

  datatype Token =
    | Column(name: string) | Param(n: nat) | Operator(op: Op)
    | LParen | RParen | Comma | AND | OR | TRUE | FALSE | IN

  // ---------- the meaning of a filter ----------

  // LIKE with the default escape character. A pattern ending in a lone backslash, which
  // PostgreSQL refuses, never comes out of a Prefix filter: its pattern ends in '%'.
  predicate Matches(pattern: string, s: string)
    decreases |pattern|, |s|
  {
    if pattern == "" then s == ""
    else if pattern[0] == '%' then Matches(pattern[1..], s) || (s != "" && Matches(pattern, s[1..]))
    else if s == "" then false
    else if pattern[0] == '_' then Matches(pattern[1..], s[1..])
    else if pattern[0] == '\\' then |pattern| >= 2 && s[0] == pattern[1] && Matches(pattern[2..], s[1..])
    else s[0] == pattern[0] && Matches(pattern[1..], s[1..])
  }

  predicate Plain(s: string) { '%' !in s && '_' !in s && '\\' !in s }

  // What the constructors' names say on a row of NOT NULL columns.
  predicate Holds(f: Filter, row: string -> string)
  {
    match f
    case Eq(c, v) => row(c) == v
    case Prefix(c, p) => p <= row(c)
    case Between(c, lo, hi) => !Less(row(c), lo) && Less(row(c), hi)
    case GE(c, v) => !Less(row(c), v)
    case LT(c, v) => Less(row(c), v)
    case In(c, vs) => row(c) in vs
    case And(fs) => forall i :: 0 <= i < |fs| ==> Holds(fs[i], row)
    case Or(fs) => exists i :: 0 <= i < |fs| && Holds(fs[i], row)
  }

  predicate LeafOk(f: Filter, r: Resolver)
    requires !f.And? && !f.Or?
  {
    f.col in r.names && (f.Between? ==> Less(f.from, f.to))
  }

  function Leaves(f: Filter): (ls: set<Filter>)
    ensures forall l :: l in ls ==> !l.And? && !l.Or?
  {
    if f.And? || f.Or? then set i, l | 0 <= i < |f.subs| && l in Leaves(f.subs[i]) :: l else {f}
  }

  predicate Translatable(f: Filter, r: Resolver)
  {
    if f.And? || f.Or? then forall i :: 0 <= i < |f.subs| ==> Translatable(f.subs[i], r) else LeafOk(f, r)
  }

  // ---------- the translation ----------

  // The bound values, in order.
  function Args(f: Filter): seq<string>
  {
    match f
    case Eq(_, v) => [v]
    case Prefix(_, p) => [p + "%"]
    case Between(_, lo, hi) => [lo, hi]
    case GE(_, v) => [v]
    case LT(_, v) => [v]
    case In(_, vs) => vs
    case And(fs) => ArgsFrom(fs, 0)
    case Or(fs) => ArgsFrom(fs, 0)
  }

  function ArgsFrom(fs: seq<Filter>, i: nat): seq<string>
    requires i <= |fs|
    decreases fs, |fs| - i
  {
    if i == |fs| then [] else Args(fs[i]) + ArgsFrom(fs, i + 1)
  }

  // $n+1, ..., $n+k
  function ParamList(n: nat, k: nat): seq<Token>
    requires k >= 1
    decreases k
  {
    if k == 1 then [Param(n + 1)] else [Param(n + 1), Comma] + ParamList(n + 1, k - 1)
  }

  function Compare(r: Resolver, c: string, op: Op, n: nat): seq<Token>
  {
    [Column(SqlName(r, c)), Operator(op), Param(n)]
  }

  // The clause for f when n values are bound already.
  function Text(f: Filter, r: Resolver, n: nat): seq<Token>
  {
    match f
    case Eq(c, _) => Compare(r, c, EqualTo, n + 1)
    case Prefix(c, _) => Compare(r, c, Like, n + 1)
    case Between(c, _, _) => [LParen] + Compare(r, c, AtLeast, n + 1) + [AND] + Compare(r, c, Below, n + 2) + [RParen]
    case GE(c, _) => Compare(r, c, AtLeast, n + 1)
    case LT(c, _) => Compare(r, c, Below, n + 1)
    case In(c, vs) => if vs == [] then [FALSE] else [Column(SqlName(r, c)), IN, LParen] + ParamList(n, |vs|) + [RParen]
    case And(fs) => if fs == [] then [TRUE] else [LParen] + Text(fs[0], r, n) + TextFrom(fs, 1, r, n + |Args(fs[0])|, AND) + [RParen]
    case Or(fs) => if fs == [] then [FALSE] else [LParen] + Text(fs[0], r, n) + TextFrom(fs, 1, r, n + |Args(fs[0])|, OR) + [RParen]
  }

  function TextFrom(fs: seq<Filter>, i: nat, r: Resolver, n: nat, sep: Token): seq<Token>
    requires i <= |fs|
    decreases fs, |fs| - i
  {
    if i == |fs| then [] else [sep] + Text(fs[i], r, n) + TextFrom(fs, i + 1, r, n + |Args(fs[i])|, sep)
  }

  // ---------- SQL: abstract syntax, meaning, parser ----------

  datatype Sql =
    | Const(b: bool)
    | Cmp(op: Op, col: string, n: nat)
    | InList(col: string, ns: seq<nat>)
    | Both(left: Sql, right: Sql)
    | Either(left: Sql, right: Sql)

  predicate Compares(op: Op, x: string, y: string)
  {
    match op
    case EqualTo => x == y
    case Like => Matches(y, x)
    case AtLeast => !Less(x, y)
    case Below => Less(x, y)
  }

  // A parameter that is not bound makes the statement fail; such a comparison selects nothing.
  predicate Eval(q: Sql, args: seq<string>, db: string -> string)
  {
    match q
    case Const(b) => b
    case Cmp(op, c, n) => 1 <= n <= |args| && Compares(op, db(c), args[n - 1])
    case InList(c, ns) => exists i :: 0 <= i < |ns| && 1 <= ns[i] <= |args| && db(c) == args[ns[i] - 1]
    case Both(a, b) => Eval(a, args, db) && Eval(b, args, db)
    case Either(a, b) => Eval(a, args, db) || Eval(b, args, db)
  }

  type Parsed<+T> = Option<(T, seq<Token>)>

  function ParseParams(ts: seq<Token>): (p: Parsed<seq<nat>>)
    ensures p.Some? ==> |p.value.1| < |ts|
  {
    if |ts| >= 2 && ts[0].Param? && ts[1].RParen? then Some(([ts[0].n], ts[2..]))
    else if |ts| >= 2 && ts[0].Param? && ts[1].Comma? then
      match ParseParams(ts[2..])
      case None => None
      case Some(v) => Some(([ts[0].n] + v.0, v.1))
    else None
  }

  function ParsePrimary(ts: seq<Token>): (p: Parsed<Sql>)
    ensures p.Some? ==> |p.value.1| < |ts|
    decreases |ts|, 0
  {
    if ts == [] then None
    else if ts[0].TRUE? then Some((Const(true), ts[1..]))
    else if ts[0].FALSE? then Some((Const(false), ts[1..]))
    else if ts[0].LParen? then
      (match ParseOr(ts[1..])
       case None => None
       case Some(v) => if v.1 != [] && v.1[0].RParen? then Some((v.0, v.1[1..])) else None)
    else if !ts[0].Column? || |ts| < 3 then None
    else if ts[1].Operator? && ts[2].Param? then Some((Cmp(ts[1].op, ts[0].name, ts[2].n), ts[3..]))
    else if ts[1].IN? && ts[2].LParen? then
      (match ParseParams(ts[3..])
       case None => None
       case Some(v) => Some((InList(ts[0].name, v.0), v.1)))
    else None
  }

  function ParseAnd(ts: seq<Token>): (p: Parsed<Sql>)
    ensures p.Some? ==> |p.value.1| < |ts|
    decreases |ts|, 1
  {
    match ParsePrimary(ts)
    case None => None
    case Some(v) =>
      if v.1 != [] && v.1[0].AND? then
        (match ParseAnd(v.1[1..])
         case None => None
         case Some(w) => Some((Both(v.0, w.0), w.1)))
      else Some(v)
  }

  function ParseOr(ts: seq<Token>): (p: Parsed<Sql>)
    ensures p.Some? ==> |p.value.1| < |ts|
    decreases |ts|, 2
  {
    match ParseAnd(ts)
    case None => None
    case Some(v) =>
      if v.1 != [] && v.1[0].OR? then
        (match ParseOr(v.1[1..])
         case None => None
         case Some(w) => Some((Either(v.0, w.0), w.1)))
      else Some(v)
  }

  function Parse(ts: seq<Token>): Option<Sql>
  {
    match ParseOr(ts)
    case None => None
    case Some(v) => if v.1 == [] then Some(v.0) else None
  }

  // ---------- the builder ----------

  // The one filter that a non-empty list stands for.
  function Whole(fs: seq<Filter>): Filter
    requires fs != []
  {
    if |fs| == 1 then fs[0] else And(fs)
  }

  // strings.Builder and *args, shared by all nodes of one translation.
  class Builder {
    var text: seq<Token>
    var args: seq<string>

    constructor ()
      ensures text == [] && args == []
    {
      text, args := [], [];
    }

    // addArg
    method AddArg(v: string) returns (n: nat)
      modifies `args
      ensures args == old(args) + [v] && n == |args|
    {
      args := args + [v];
      n := |args|;
    }

    method WriteCompare(name: string, op: Op, v: string)
      modifies this
      ensures text == old(text) + [Column(name), Operator(op), Param(|old(args)| + 1)]
      ensures args == old(args) + [v]
    {
      var n := AddArg(v);
      text := text + [Column(name), Operator(op), Param(n)];
    }

    method WriteIn(name: string, vs: seq<string>)
      requires vs != []
      modifies this
      ensures text == old(text) + ([Column(name), IN, LParen] + ParamList(|old(args)|, |vs|) + [RParen])
      ensures args == old(args) + vs
    {
      var placeholders: seq<Token> := [];
      for i := 0 to |vs|
        invariant text == old(text) && args == old(args) + vs[..i]
        invariant |placeholders| == i && forall j :: 0 <= j < i ==> placeholders[j] == Param(|old(args)| + j + 1)
      {
        var n := AddArg(vs[i]);
        placeholders := placeholders + [Param(n)];
      }
      JoinIsParamList(placeholders, |old(args)|);
      text := text + ([Column(name), IN, LParen] + JoinCommas(placeholders) + [RParen]);
    }

    /** translate: it fails exactly on untranslatable filters, and otherwise appends the clause
        and the values; a later failure leaves a partial clause that the caller drops. */
    method Translate(f: Filter, r: Resolver) returns (ok: bool)
      modifies this
      ensures ok <==> Translatable(f, r)
      ensures ok ==> text == old(text) + Text(f, r, |old(args)|) && args == old(args) + Args(f)
      decreases f, 1
    {
      if f.And? || f.Or? {
        if f.subs == [] {
          text := text + [if f.And? then TRUE else FALSE];
          return true;
        }
        ok := TranslateGroup(f, r);
        return;
      }
      if f.col !in r.names { return false; }
      var name := SqlName(r, f.col);
      match f {
        case Eq(_, v) => WriteCompare(name, EqualTo, v);
        case Prefix(_, p) => WriteCompare(name, Like, p + "%");
        case GE(_, v) => WriteCompare(name, AtLeast, v);
        case LT(_, v) => WriteCompare(name, Below, v);
        case Between(_, lo, hi) =>
          if !Less(lo, hi) { return false; }
          var m := AddArg(lo);
          var n := AddArg(hi);
          text := text + [LParen] + [Column(name), Operator(AtLeast), Param(m)] + [AND] + [Column(name), Operator(Below), Param(n)] + [RParen];
        case In(_, vs) =>
          if vs == [] { text := text + [FALSE]; } else { WriteIn(name, vs); }
      }
      ok := true;
    }

    method TranslateGroup(f: Filter, r: Resolver) returns (ok: bool)
      requires (f.And? || f.Or?) && f.subs != []
      modifies this
      ensures ok <==> Translatable(f, r)
      ensures ok ==> text == old(text) + Text(f, r, |old(args)|) && args == old(args) + Args(f)
      decreases f, 0
    {
      GroupText(f, r, |args|);
      ghost var before, had := text, args;
      text := text + [LParen];
      ok := TranslateMembers(f.subs, r, Separator(f));
      text := text + [RParen];
      assert ok ==> text == before + ([LParen] + Pending(f.subs, 0, r, |had|, Separator(f)) + [RParen]);
    }

    method TranslateMembers(fs: seq<Filter>, r: Resolver, sep: Token) returns (ok: bool)
      modifies this
      ensures ok <==> AllTranslatable(fs, r)
      ensures ok ==> text == old(text) + Pending(fs, 0, r, |old(args)|, sep) && args == old(args) + ArgsFrom(fs, 0)
      decreases fs, |fs|
    {
      ghost var goal, values := text + Pending(fs, 0, r, |args|, sep), args + ArgsFrom(fs, 0);
      for i := 0 to |fs|
        invariant forall j :: 0 <= j < i ==> Translatable(fs[j], r)
        invariant Remains(fs, i, r, sep, text, args, goal, values)
      {
        ghost var before, had := text, args;
        var done := TranslateMember(fs, i, r, sep);
        if !done { return false; }
        MemberDone(fs, i, r, sep, before, had, text, args, goal, values);
      }
      ok := true;
    }

    method TranslateMember(fs: seq<Filter>, i: nat, r: Resolver, sep: Token) returns (ok: bool)
      requires i < |fs|
      modifies this
      ensures ok <==> Translatable(fs[i], r)
      ensures ok ==> text == old(text) + Lead(i, sep) + Text(fs[i], r, |old(args)|) && args == old(args) + Args(fs[i])
      decreases fs, 0
    {
      if i > 0 { text := text + [sep]; }
      ok := Translate(fs[i], r);
    }
  }

  function Lead(i: nat, sep: Token): seq<Token> { if i > 0 then [sep] else [] }

  // What is written and what is pending make up the goal.
  ghost predicate Remains(fs: seq<Filter>, i: nat, r: Resolver, sep: Token, text: seq<Token>, args: seq<string>, goal: seq<Token>, values: seq<string>)
    requires i <= |fs|
  {
    text + Pending(fs, i, r, |args|, sep) == goal && args + ArgsFrom(fs, i) == values
  }

  lemma MemberDone(fs: seq<Filter>, i: nat, r: Resolver, sep: Token, before: seq<Token>, had: seq<string>,
                   text: seq<Token>, args: seq<string>, goal: seq<Token>, values: seq<string>)
    requires i < |fs| && Remains(fs, i, r, sep, before, had, goal, values)
    requires text == before + Lead(i, sep) + Text(fs[i], r, |had|) && args == had + Args(fs[i])
    ensures Remains(fs, i + 1, r, sep, text, args, goal, values)
  {
    TextStep(fs, i, r, sep, before, |had|);
    ArgsStep(fs, i, had);
  }

  lemma TextStep(fs: seq<Filter>, i: nat, r: Resolver, sep: Token, before: seq<Token>, n: nat)
    requires i < |fs|
    ensures before + Lead(i, sep) + Text(fs[i], r, n) + Pending(fs, i + 1, r, n + |Args(fs[i])|, sep) == before + Pending(fs, i, r, n, sep)
  {
    PendingStep(fs, i, r, n, sep);
    Regroup(before, Lead(i, sep), Text(fs[i], r, n), Pending(fs, i + 1, r, n + |Args(fs[i])|, sep));
  }

  lemma ArgsStep(fs: seq<Filter>, i: nat, had: seq<string>)
    requires i < |fs|
    ensures had + Args(fs[i]) + ArgsFrom(fs, i + 1) == had + ArgsFrom(fs, i)
  {
    assert ArgsFrom(fs, i) == Args(fs[i]) + ArgsFrom(fs, i + 1);
  }

  function Separator(f: Filter): Token { if f.And? then AND else OR }

  predicate AllTranslatable(fs: seq<Filter>, r: Resolver)
  {
    forall j :: 0 <= j < |fs| ==> Translatable(fs[j], r)
  }

  lemma GroupText(f: Filter, r: Resolver, n: nat)
    requires (f.And? || f.Or?) && f.subs != []
    ensures Text(f, r, n) == [LParen] + Pending(f.subs, 0, r, n, Separator(f)) + [RParen]
    ensures Args(f) == ArgsFrom(f.subs, 0)
    ensures Translatable(f, r) <==> AllTranslatable(f.subs, r)
  {
    if f.And? { AndText(f.subs, r, n); } else { OrText(f.subs, r, n); }
  }

  lemma AndText(fs: seq<Filter>, r: Resolver, n: nat)
    requires fs != []
    ensures Text(And(fs), r, n) == [LParen] + Pending(fs, 0, r, n, AND) + [RParen]
  {
    var head, rest := Text(fs[0], r, n), TextFrom(fs, 1, r, n + |Args(fs[0])|, AND);
    assert [LParen] + head + rest == [LParen] + (head + rest);
  }

  lemma OrText(fs: seq<Filter>, r: Resolver, n: nat)
    requires fs != []
    ensures Text(Or(fs), r, n) == [LParen] + Pending(fs, 0, r, n, OR) + [RParen]
  {
    var head, rest := Text(fs[0], r, n), TextFrom(fs, 1, r, n + |Args(fs[0])|, OR);
    assert [LParen] + head + rest == [LParen] + (head + rest);
  }

  // What is still to be written of a group's members, fs[i..].
  function Pending(fs: seq<Filter>, i: nat, r: Resolver, n: nat, sep: Token): seq<Token>
    requires i <= |fs|
  {
    if i == 0 && fs != [] then Text(fs[0], r, n) + TextFrom(fs, 1, r, n + |Args(fs[0])|, sep) else TextFrom(fs, i, r, n, sep)
  }

  lemma PendingStep(fs: seq<Filter>, i: nat, r: Resolver, n: nat, sep: Token)
    requires i < |fs|
    ensures Pending(fs, i, r, n, sep) ==
      Lead(i, sep) + Text(fs[i], r, n) + Pending(fs, i + 1, r, n + |Args(fs[i])|, sep)
  {
  }

  lemma Regroup<T>(a: seq<T>, b: seq<T>, c: seq<T>, d: seq<T>)
    ensures a + (b + c + d) == (a + b + c) + d
  {
  }

  function JoinCommas(ps: seq<Token>): seq<Token>
  {
    if |ps| <= 1 then ps else [ps[0], Comma] + JoinCommas(ps[1..])
  }

  lemma {:induction false} JoinIsParamList(ps: seq<Token>, n: nat)
    requires ps != [] && forall j :: 0 <= j < |ps| ==> ps[j] == Param(n + j + 1)
    ensures JoinCommas(ps) == ParamList(n, |ps|)
  {
    if |ps| > 1 { JoinIsParamList(ps[1..], n + 1); }
  }

  datatype Clause = NoWhere | Where(text: seq<Token>, args: seq<string>) | Rejected

  /** translateFilters */
  method TranslateFilters(fs: seq<Filter>, r: Resolver) returns (c: Clause)
    ensures fs == [] ==> c == NoWhere
    ensures fs != [] ==> c == if Translatable(Whole(fs), r) then Where(Text(Whole(fs), r, 0), Args(Whole(fs))) else Rejected
  {
    if fs == [] { return NoWhere; }
    var b := new Builder();
    var ok := b.Translate(if |fs| == 1 then fs[0] else And(fs), r);
    c := if ok then Where(b.text, b.args) else Rejected;
  }
}

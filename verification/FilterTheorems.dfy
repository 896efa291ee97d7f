/** The translation of filters keeps their meaning. */
module FilterTheorems {
  import opened Wrappers
  import opened Sorting
  import opened Filter

  // ---------- the text parses back ----------

  // The expression that f's clause denotes.
  function Ast(f: Filter, r: Resolver, n: nat): Sql
  {
    match f
    case Eq(c, _) => Cmp(EqualTo, SqlName(r, c), n + 1)
    case Prefix(c, _) => Cmp(Like, SqlName(r, c), n + 1)
    case Between(c, _, _) => Both(Cmp(AtLeast, SqlName(r, c), n + 1), Cmp(Below, SqlName(r, c), n + 2))
    case GE(c, _) => Cmp(AtLeast, SqlName(r, c), n + 1)
    case LT(c, _) => Cmp(Below, SqlName(r, c), n + 1)
    case In(c, vs) => if vs == [] then Const(false) else InList(SqlName(r, c), Numbers(n, |vs|))
    case And(fs) => if fs == [] then Const(true) else AndAst(fs, 0, r, n)
    case Or(fs) => if fs == [] then Const(false) else OrAst(fs, 0, r, n)
  }

  function AndAst(fs: seq<Filter>, i: nat, r: Resolver, n: nat): Sql
    requires i < |fs|
    decreases fs, |fs| - i
  {
    var q := Ast(fs[i], r, n);
    if i + 1 == |fs| then q else Both(q, AndAst(fs, i + 1, r, n + |Args(fs[i])|))
  }

  function OrAst(fs: seq<Filter>, i: nat, r: Resolver, n: nat): Sql
    requires i < |fs|
    decreases fs, |fs| - i
  {
    var q := Ast(fs[i], r, n);
    if i + 1 == |fs| then q else Either(q, OrAst(fs, i + 1, r, n + |Args(fs[i])|))
  }

  function Numbers(n: nat, k: nat): (ns: seq<nat>)
    ensures |ns| == k && forall i :: 0 <= i < k ==> ns[i] == n + i + 1
  {
    seq(k, i => n + i + 1)
  }

  lemma {:induction false} ParamsParse(n: nat, k: nat, rest: seq<Token>)
    requires k >= 1
    ensures ParseParams(ParamList(n, k) + [RParen] + rest) == Some((Numbers(n, k), rest))
    decreases k
  {
    var ts := ParamList(n, k) + [RParen] + rest;
    if k == 1 {
      assert ts[2..] == rest;
      assert Numbers(n, 1) == [n + 1];
    } else {
      ParamsParse(n + 1, k - 1, rest);
      assert ts[2..] == ParamList(n + 1, k - 1) + [RParen] + rest;
      assert [n + 1] + Numbers(n + 1, k - 1) == Numbers(n, k);
    }
  }

  // The parser's steps, one by one.

  lemma AndStops(ts: seq<Token>, q: Sql, rest: seq<Token>)
    requires ParsePrimary(ts) == Some((q, rest)) && (rest == [] || !rest[0].AND?)
    ensures ParseAnd(ts) == Some((q, rest))
  {
  }

  lemma AndGoesOn(ts: seq<Token>, q: Sql, rest: seq<Token>, p: Sql, after: seq<Token>)
    requires ParsePrimary(ts) == Some((q, [AND] + rest)) && ParseAnd(rest) == Some((p, after))
    ensures ParseAnd(ts) == Some((Both(q, p), after))
  {
    assert ([AND] + rest)[1..] == rest;
  }

  lemma OrStops(ts: seq<Token>, q: Sql, rest: seq<Token>)
    requires ParseAnd(ts) == Some((q, rest)) && (rest == [] || !rest[0].OR?)
    ensures ParseOr(ts) == Some((q, rest))
  {
  }

  lemma OrGoesOn(ts: seq<Token>, q: Sql, rest: seq<Token>, p: Sql, after: seq<Token>)
    requires ParseAnd(ts) == Some((q, [OR] + rest)) && ParseOr(rest) == Some((p, after))
    ensures ParseOr(ts) == Some((Either(q, p), after))
  {
    assert ([OR] + rest)[1..] == rest;
  }

  lemma ParenParses(inner: seq<Token>, q: Sql, rest: seq<Token>)
    requires ParseOr(inner + ([RParen] + rest)) == Some((q, [RParen] + rest))
    ensures ParsePrimary([LParen] + inner + [RParen] + rest) == Some((q, rest))
  {
    assert ([LParen] + inner + [RParen] + rest)[1..] == inner + ([RParen] + rest);
    assert ([RParen] + rest)[1..] == rest;
  }

  lemma CompareParses(r: Resolver, c: string, op: Op, n: nat, rest: seq<Token>)
    ensures ParsePrimary(Compare(r, c, op, n) + rest) == Some((Cmp(op, SqlName(r, c), n), rest))
  {
    assert (Compare(r, c, op, n) + rest)[3..] == rest;
  }

  lemma BetweenParses(r: Resolver, c: string, n: nat, rest: seq<Token>)
    ensures ParsePrimary([LParen] + (Compare(r, c, AtLeast, n + 1) + [AND] + Compare(r, c, Below, n + 2)) + [RParen] + rest)
         == Some((Both(Cmp(AtLeast, SqlName(r, c), n + 1), Cmp(Below, SqlName(r, c), n + 2)), rest))
  {
    var a, b, tail := Compare(r, c, AtLeast, n + 1), Compare(r, c, Below, n + 2), [RParen] + rest;
    var p, q := Cmp(AtLeast, SqlName(r, c), n + 1), Cmp(Below, SqlName(r, c), n + 2);
    var inner := a + [AND] + b;
    CompareParses(r, c, Below, n + 2, tail);
    AndStops(b + tail, q, tail);
    CompareParses(r, c, AtLeast, n + 1, [AND] + (b + tail));
    assert inner + tail == a + ([AND] + (b + tail));
    AndGoesOn(inner + tail, p, b + tail, q, tail);
    OrStops(inner + tail, Both(p, q), tail);
    ParenParses(inner, Both(p, q), rest);
  }

  lemma InParses(r: Resolver, c: string, n: nat, k: nat, rest: seq<Token>)
    requires k >= 1
    ensures ParsePrimary([Column(SqlName(r, c)), IN, LParen] + ParamList(n, k) + [RParen] + rest) == Some((InList(SqlName(r, c), Numbers(n, k)), rest))
  {
    ParamsParse(n, k, rest);
    assert ([Column(SqlName(r, c)), IN, LParen] + ParamList(n, k) + [RParen] + rest)[3..] == ParamList(n, k) + [RParen] + rest;
  }

  lemma ConstParses(t: Token, rest: seq<Token>)
    requires t == TRUE || t == FALSE
    ensures ParsePrimary([t] + rest) == Some((Const(t == TRUE), rest))
  {
    assert ([t] + rest)[1..] == rest;
  }

  lemma AndLink(t: seq<Token>, next: seq<Token>, rest: seq<Token>, q: Sql, p: Sql)
    requires ParsePrimary(t + ([AND] + (next + rest))) == Some((q, [AND] + (next + rest)))
    requires ParseAnd(next + rest) == Some((p, rest))
    ensures ParseAnd(t + ([AND] + next) + rest) == Some((Both(q, p), rest))
  {
    assert t + ([AND] + next) + rest == t + ([AND] + (next + rest));
    AndGoesOn(t + ([AND] + (next + rest)), q, next + rest, p, rest);
  }

  lemma OrLink(t: seq<Token>, next: seq<Token>, rest: seq<Token>, q: Sql, p: Sql)
    requires ParsePrimary(t + ([OR] + (next + rest))) == Some((q, [OR] + (next + rest)))
    requires ParseOr(next + rest) == Some((p, rest))
    ensures ParseOr(t + ([OR] + next) + rest) == Some((Either(q, p), rest))
  {
    assert t + ([OR] + next) + rest == t + ([OR] + (next + rest));
    AndStops(t + ([OR] + (next + rest)), q, [OR] + (next + rest));
    OrGoesOn(t + ([OR] + (next + rest)), q, next + rest, p, rest);
  }

  // The clauses of fs[i..], joined.
  function Joined(fs: seq<Filter>, i: nat, r: Resolver, n: nat, sep: Token): seq<Token>
    requires i < |fs|
  {
    Text(fs[i], r, n) + TextFrom(fs, i + 1, r, n + |Args(fs[i])|, sep)
  }

  lemma JoinedStep(fs: seq<Filter>, i: nat, r: Resolver, n: nat, sep: Token)
    requires i < |fs|
    ensures Joined(fs, i, r, n, sep) ==
      if i + 1 == |fs| then Text(fs[i], r, n) else Text(fs[i], r, n) + ([sep] + Joined(fs, i + 1, r, n + |Args(fs[i])|, sep))
  {
  }

  lemma {:induction false} LeafParses(f: Filter, r: Resolver, n: nat, rest: seq<Token>)
    requires !f.And? && !f.Or?
    ensures ParsePrimary(Text(f, r, n) + rest) == Some((Ast(f, r, n), rest))
  {
    match f
    case Eq(c, _) => CompareParses(r, c, EqualTo, n + 1, rest);
    case Prefix(c, _) => CompareParses(r, c, Like, n + 1, rest);
    case GE(c, _) => CompareParses(r, c, AtLeast, n + 1, rest);
    case LT(c, _) => CompareParses(r, c, Below, n + 1, rest);
    case Between(c, _, _) =>
      BetweenParses(r, c, n, rest);
      assert Text(f, r, n) == [LParen] + (Compare(r, c, AtLeast, n + 1) + [AND] + Compare(r, c, Below, n + 2)) + [RParen];
    case In(c, vs) =>
      if vs == [] { ConstParses(FALSE, rest); } else { InParses(r, c, n, |vs|, rest); }
  }

  lemma GroupText(f: Filter, r: Resolver, n: nat)
    requires (f.And? || f.Or?) && f.subs != []
    ensures Text(f, r, n) == [LParen] + Joined(f.subs, 0, r, n, if f.And? then AND else OR) + [RParen]
    ensures Ast(f, r, n) == if f.And? then AndAst(f.subs, 0, r, n) else OrAst(f.subs, 0, r, n)
  {
  }

  lemma {:induction false} PrimaryParses(f: Filter, r: Resolver, n: nat, rest: seq<Token>)
    ensures ParsePrimary(Text(f, r, n) + rest) == Some((Ast(f, r, n), rest))
    decreases f, 0
  {
    if !f.And? && !f.Or? {
      LeafParses(f, r, n, rest);
    } else if f.subs == [] {
      ConstParses(if f.And? then TRUE else FALSE, rest);
    } else {
      var fs, tail := f.subs, [RParen] + rest;
      GroupText(f, r, n);
      if f.And? {
        AndParses(fs, 0, r, n, tail);
        OrStops(Joined(fs, 0, r, n, AND) + tail, AndAst(fs, 0, r, n), tail);
        ParenParses(Joined(fs, 0, r, n, AND), AndAst(fs, 0, r, n), rest);
      } else {
        OrParses(fs, 0, r, n, tail);
        ParenParses(Joined(fs, 0, r, n, OR), OrAst(fs, 0, r, n), rest);
      }
    }
  }

  lemma {:induction false} AndParses(fs: seq<Filter>, i: nat, r: Resolver, n: nat, rest: seq<Token>)
    requires i < |fs| && rest != [] && rest[0].RParen?
    ensures ParseAnd(Joined(fs, i, r, n, AND) + rest) == Some((AndAst(fs, i, r, n), rest))
    decreases fs, |fs| - i
  {
    hide ParsePrimary, ParseAnd, ParseOr, Text, TextFrom, Joined;
    var m, t, q := n + |Args(fs[i])|, Text(fs[i], r, n), Ast(fs[i], r, n);
    JoinedStep(fs, i, r, n, AND);
    if i + 1 == |fs| {
      PrimaryParses(fs[i], r, n, rest);
      AndStops(t + rest, q, rest);
    } else {
      var next := Joined(fs, i + 1, r, m, AND);
      AndParses(fs, i + 1, r, m, rest);
      PrimaryParses(fs[i], r, n, [AND] + (next + rest));
      AndLink(t, next, rest, q, AndAst(fs, i + 1, r, m));
    }
  }

  lemma {:induction false} OrParses(fs: seq<Filter>, i: nat, r: Resolver, n: nat, rest: seq<Token>)
    requires i < |fs| && rest != [] && rest[0].RParen?
    ensures ParseOr(Joined(fs, i, r, n, OR) + rest) == Some((OrAst(fs, i, r, n), rest))
    decreases fs, |fs| - i
  {
    hide ParsePrimary, ParseAnd, ParseOr, Text, TextFrom, Joined;
    var m, t, q := n + |Args(fs[i])|, Text(fs[i], r, n), Ast(fs[i], r, n);
    JoinedStep(fs, i, r, n, OR);
    if i + 1 == |fs| {
      PrimaryParses(fs[i], r, n, rest);
      AndStops(t + rest, q, rest);
      OrStops(t + rest, q, rest);
    } else {
      var next := Joined(fs, i + 1, r, m, OR);
      OrParses(fs, i + 1, r, m, rest);
      PrimaryParses(fs[i], r, n, [OR] + (next + rest));
      OrLink(t, next, rest, q, OrAst(fs, i + 1, r, m));
    }
  }

  // ---------- and means the same ----------

  // The rows a filter selects: Prefix hands its string to LIKE, wildcards and all.
  predicate Selects(f: Filter, row: string -> string)
  {
    match f
    case Eq(c, v) => row(c) == v
    case Prefix(c, p) => Matches(p + "%", row(c))
    case Between(c, lo, hi) => !Less(row(c), lo) && Less(row(c), hi)
    case GE(c, v) => !Less(row(c), v)
    case LT(c, v) => Less(row(c), v)
    case In(c, vs) => row(c) in vs
    case And(fs) => forall i :: 0 <= i < |fs| ==> Selects(fs[i], row)
    case Or(fs) => exists i :: 0 <= i < |fs| && Selects(fs[i], row)
  }

  // Every Prefix leaf holds a prefix without LIKE's special characters.
  predicate PlainPrefixes(f: Filter)
  {
    match f
    case Prefix(_, p) => Plain(p)
    case And(fs) => forall i :: 0 <= i < |fs| ==> PlainPrefixes(fs[i])
    case Or(fs) => forall i :: 0 <= i < |fs| ==> PlainPrefixes(fs[i])
    case _ => true
  }

  // From n on, the bound values are these.
  predicate Bound(args: seq<string>, n: nat, vs: seq<string>)
  {
    n + |vs| <= |args| && args[n..n + |vs|] == vs
  }

  // The table's columns hold the row.
  ghost predicate Stores(r: Resolver, row: string -> string, db: string -> string)
  {
    forall c :: db(SqlName(r, c)) == row(c)
  }

  lemma {:induction false} AnyTail(s: string)
    ensures Matches("%", s)
  {
    if s != "" { AnyTail(s[1..]); }
  }

  // A plain prefix means what it says.
  lemma {:induction false} PlainIsPrefix(p: string, s: string)
    requires Plain(p)
    ensures Matches(p + "%", s) <==> p <= s
  {
    if p == "" {
      assert p + "%" == "%";
      AnyTail(s);
    } else {
      assert (p + "%")[1..] == p[1..] + "%";
      if s != "" { PlainIsPrefix(p[1..], s[1..]); }
    }
  }

  lemma {:induction false} EvalIsSelects(f: Filter, r: Resolver, n: nat, args: seq<string>, row: string -> string, db: string -> string)
    requires Bound(args, n, Args(f)) && Stores(r, row, db)
    ensures Eval(Ast(f, r, n), args, db) <==> Selects(f, row)
    decreases f, 0
  {
    var vs := args[n..n + |Args(f)|];
    match f
    case Eq(c, v) => assert args[n] == vs[0] && db(SqlName(r, c)) == row(c);
    case Prefix(c, p) => assert args[n] == vs[0] && db(SqlName(r, c)) == row(c);
    case GE(c, v) => assert args[n] == vs[0] && db(SqlName(r, c)) == row(c);
    case LT(c, v) => assert args[n] == vs[0] && db(SqlName(r, c)) == row(c);
    case Between(c, lo, hi) => assert args[n] == vs[0] && args[n + 1] == vs[1] && db(SqlName(r, c)) == row(c);
    case In(c, values) =>
      forall i | 0 <= i < |values| ensures args[Numbers(n, |values|)[i] - 1] == values[i] { assert vs[i] == values[i]; }
      assert db(SqlName(r, c)) == row(c);
    case And(fs) => if fs != [] { EvalAnd(fs, 0, r, n, args, row, db); }
    case Or(fs) => if fs != [] { EvalOr(fs, 0, r, n, args, row, db); }
  }

  lemma BoundSplit(args: seq<string>, n: nat, a: seq<string>, b: seq<string>)
    requires Bound(args, n, a + b)
    ensures Bound(args, n, a) && Bound(args, n + |a|, b)
  {
    var all := args[n..n + |a + b|];
    assert all[..|a|] == a && all[|a|..] == b;
    assert args[n..n + |a|] == all[..|a|] && args[n + |a|..n + |a| + |b|] == all[|a|..];
  }

  lemma {:induction false} EvalAnd(fs: seq<Filter>, i: nat, r: Resolver, n: nat, args: seq<string>, row: string -> string, db: string -> string)
    requires i < |fs| && Bound(args, n, ArgsFrom(fs, i)) && Stores(r, row, db)
    ensures Eval(AndAst(fs, i, r, n), args, db) <==> forall j :: i <= j < |fs| ==> Selects(fs[j], row)
    decreases fs, |fs| - i
  {
    BoundSplit(args, n, Args(fs[i]), ArgsFrom(fs, i + 1));
    EvalIsSelects(fs[i], r, n, args, row, db);
    if i + 1 < |fs| { EvalAnd(fs, i + 1, r, n + |Args(fs[i])|, args, row, db); }
  }

  lemma {:induction false} EvalOr(fs: seq<Filter>, i: nat, r: Resolver, n: nat, args: seq<string>, row: string -> string, db: string -> string)
    requires i < |fs| && Bound(args, n, ArgsFrom(fs, i)) && Stores(r, row, db)
    ensures Eval(OrAst(fs, i, r, n), args, db) <==> exists j :: i <= j < |fs| && Selects(fs[j], row)
    decreases fs, |fs| - i
  {
    BoundSplit(args, n, Args(fs[i]), ArgsFrom(fs, i + 1));
    EvalIsSelects(fs[i], r, n, args, row, db);
    if i + 1 < |fs| { EvalOr(fs, i + 1, r, n + |Args(fs[i])|, args, row, db); }
  }

  lemma {:induction false} SelectsIsHolds(f: Filter, row: string -> string)
    requires PlainPrefixes(f)
    ensures Selects(f, row) <==> Holds(f, row)
    decreases f
  {
    match f
    case Prefix(c, p) => PlainIsPrefix(p, row(c));
    case And(fs) => forall i | 0 <= i < |fs| ensures Selects(fs[i], row) <==> Holds(fs[i], row) { SelectsIsHolds(fs[i], row); }
    case Or(fs) => forall i | 0 <= i < |fs| ensures Selects(fs[i], row) <==> Holds(fs[i], row) { SelectsIsHolds(fs[i], row); }
    case _ =>
  }

  /** The clause of a filter parses, and selects exactly the rows the filter describes, with a
      prefix handed to LIKE as it is; and if no prefix holds a special character, exactly those
      whose columns start with it. */
  lemma ClauseMeansFilter(f: Filter, r: Resolver, row: string -> string, db: string -> string)
    requires Stores(r, row, db)
    ensures Parse(Text(f, r, 0)).Some?
    ensures Eval(Parse(Text(f, r, 0)).value, Args(f), db) <==> Selects(f, row)
    ensures PlainPrefixes(f) ==> (Eval(Parse(Text(f, r, 0)).value, Args(f), db) <==> Holds(f, row))
  {
    var ts := Text(f, r, 0);
    PrimaryParses(f, r, 0, []);
    assert ts + [] == ts;
    AndStops(ts, Ast(f, r, 0), []);
    OrStops(ts, Ast(f, r, 0), []);
    assert Args(f)[0..0 + |Args(f)|] == Args(f);
    EvalIsSelects(f, r, 0, Args(f), row, db);
    if PlainPrefixes(f) { SelectsIsHolds(f, row); }
  }

  // ---------- parameters ----------

  function ParamsOf(ts: seq<Token>): seq<nat>
  {
    if ts == [] then [] else (if ts[0].Param? then [ts[0].n] else []) + ParamsOf(ts[1..])
  }

  lemma {:induction false} ParamsOfSum(a: seq<Token>, b: seq<Token>)
    ensures ParamsOf(a + b) == ParamsOf(a) + ParamsOf(b)
  {
    if a == [] {
      assert a + b == b;
    } else {
      var rest := a[1..];
      ParamsOfSum(rest, b);
      assert (a + b)[1..] == rest + b && (a + b)[0] == a[0];
      ParamsOfHead(a);
      ParamsOfHead(a + b);
    }
  }

  lemma ParamsOfHead(ts: seq<Token>)
    requires ts != []
    ensures ParamsOf(ts) == (if ts[0].Param? then [ts[0].n] else []) + ParamsOf(ts[1..])
  {
  }

  lemma NumbersSum(n: nat, j: nat, k: nat)
    ensures Numbers(n, j) + Numbers(n + j, k) == Numbers(n, j + k)
  {
  }

  lemma {:induction false} ListParams(n: nat, k: nat)
    requires k >= 1
    ensures ParamsOf(ParamList(n, k)) == Numbers(n, k)
    decreases k
  {
    if k == 1 {
      assert ParamsOf([]) == [];
    } else {
      ListParams(n + 1, k - 1);
      ParamsOfSum([Param(n + 1), Comma], ParamList(n + 1, k - 1));
      assert [Param(n + 1), Comma][1..] == [Comma] && [Comma][1..] == [];
    }
  }

  lemma CompareParams(r: Resolver, c: string, op: Op, n: nat)
    ensures ParamsOf(Compare(r, c, op, n + 1)) == Numbers(n, 1)
  {
    var name, o, arg := Column(SqlName(r, c)), Operator(op), Param(n + 1);
    OneToken(name); OneToken(o); OneToken(arg);
    ParamsOfSum([name], [o]);
    ParamsOfSum([name] + [o], [arg]);
    assert Compare(r, c, op, n + 1) == [name] + [o] + [arg];
  }

  lemma OneToken(t: Token)
    ensures ParamsOf([t]) == if t.Param? then [t.n] else []
  {
    assert [t][1..] == [];
  }

  lemma BetweenParams(r: Resolver, col: string, n: nat)
    ensures ParamsOf([LParen] + Compare(r, col, AtLeast, n + 1) + [AND] + Compare(r, col, Below, n + 2) + [RParen]) == Numbers(n, 2)
  {
    var a, b := Compare(r, col, AtLeast, n + 1), Compare(r, col, Below, n + 2);
    CompareParams(r, col, AtLeast, n);
    CompareParams(r, col, Below, n + 1);
    OneToken(LParen); OneToken(AND); OneToken(RParen);
    ParamsOfSum([LParen], a);
    ParamsOfSum([LParen] + a, [AND]);
    ParamsOfSum([LParen] + a + [AND], b);
    ParamsOfSum([LParen] + a + [AND] + b, [RParen]);
  }

  lemma InParams(name: Token, n: nat, k: nat)
    requires k >= 1 && name.Column?
    ensures ParamsOf([name, IN, LParen] + ParamList(n, k) + [RParen]) == Numbers(n, k)
  {
    var c, ps := [name, IN, LParen], ParamList(n, k);
    ListParams(n, k);
    OneToken(name); OneToken(IN); OneToken(LParen); OneToken(RParen);
    ParamsOfSum([name], [IN]);
    ParamsOfSum([name] + [IN], [LParen]);
    assert c == [name] + [IN] + [LParen];
    ParamsOfSum(c, ps);
    ParamsOfSum(c + ps, [RParen]);
  }

  lemma {:induction false} LeafParams(f: Filter, r: Resolver, n: nat)
    requires !f.And? && !f.Or?
    ensures ParamsOf(Text(f, r, n)) == Numbers(n, |Args(f)|)
  {
    match f
    case Eq(c, _) => CompareParams(r, c, EqualTo, n);
    case Prefix(c, _) => CompareParams(r, c, Like, n);
    case GE(c, _) => CompareParams(r, c, AtLeast, n);
    case LT(c, _) => CompareParams(r, c, Below, n);
    case Between(c, _, _) => BetweenParams(r, c, n);
    case In(c, vs) =>
      if vs == [] { OneToken(FALSE); } else { InParams(Column(SqlName(r, c)), n, |vs|); }
  }

  lemma {:induction false} JoinedParams(fs: seq<Filter>, i: nat, r: Resolver, n: nat, sep: Token)
    requires i < |fs| && !sep.Param?
    ensures ParamsOf(Joined(fs, i, r, n, sep)) == Numbers(n, |ArgsFrom(fs, i)|)
    decreases fs, |fs| - i
  {
    hide ParamsOf, Text;
    JoinedStep(fs, i, r, n, sep);
    ParamsInOrder(fs[i], r, n);
    if i + 1 < |fs| {
      var m := n + |Args(fs[i])|;
      var next := Joined(fs, i + 1, r, m, sep);
      JoinedParams(fs, i + 1, r, m, sep);
      OneToken(sep);
      ParamsOfSum([sep], next);
      ParamsOfSum(Text(fs[i], r, n), [sep] + next);
      NumbersSum(n, |Args(fs[i])|, |ArgsFrom(fs, i + 1)|);
    }
  }

  /** The clause uses $n+1, $n+2, ... in order, one for each value it binds. */
  lemma {:induction false} ParamsInOrder(f: Filter, r: Resolver, n: nat)
    ensures ParamsOf(Text(f, r, n)) == Numbers(n, |Args(f)|)
    decreases f, 0
  {
    if !f.And? && !f.Or? {
      LeafParams(f, r, n);
    } else if f.subs == [] {
      OneToken(TRUE); OneToken(FALSE);
    } else {
      var sep := if f.And? then AND else OR;
      var inner := Joined(f.subs, 0, r, n, sep);
      GroupText(f, r, n);
      JoinedParams(f.subs, 0, r, n, sep);
      OneToken(LParen); OneToken(RParen);
      ParamsOfSum([LParen], inner);
      ParamsOfSum([LParen] + inner, [RParen]);
    }
  }

  // ---------- failure ----------

  /** Translation fails exactly when some leaf names an unknown column or has an empty
      Between range. */
  lemma {:induction false} TranslatableIffLeavesOk(f: Filter, r: Resolver)
    ensures Translatable(f, r) <==> forall l :: l in Leaves(f) ==> LeafOk(l, r)
  {
    if f.And? || f.Or? {
      forall i | 0 <= i < |f.subs|
        ensures Translatable(f.subs[i], r) <==> forall l :: l in Leaves(f.subs[i]) ==> LeafOk(l, r)
      {
        TranslatableIffLeavesOk(f.subs[i], r);
      }
    }
  }

  // ---------- LIKE ----------

  // Some string no longer than q matches q%.
  lemma {:induction false} ShortMatch(q: string) returns (t: string)
    ensures Matches(q + "%", t) && |t| <= |q|
    decreases |q|
  {
    var pattern := q + "%";
    if q == "" {
      t := "";
      AnyTail(t);
      assert pattern == "%";
    } else if q[0] == '\\' {
      if |q| == 1 {
        t := "%";
        assert pattern[2..] == "";
        assert t[1..] == "";
      } else {
        t := ShortMatch(q[2..]);
        assert pattern[2..] == q[2..] + "%" && ([q[1]] + t)[1..] == t;
        t := [q[1]] + t;
      }
    } else {
      var rest := ShortMatch(q[1..]);
      assert pattern[1..] == q[1..] + "%" && ([q[0]] + rest)[1..] == rest;
      t := if q[0] == '%' then rest else [q[0]] + rest;
    }
  }

  // A prefix with a special character matches something that does not start with it.
  lemma {:induction false} SpecialGoesAstray(p: string) returns (s: string)
    requires !Plain(p)
    ensures Matches(p + "%", s) && !(p <= s)
    decreases |p|
  {
    var pattern := p + "%";
    if p[0] == '\\' {
      s := AfterEscape(p);
    } else if p[0] == '%' || p[0] == '_' {
      var t := ShortMatch(p[1..]);
      s := ['x'] + t;
      assert pattern[1..] == p[1..] + "%" && s[1..] == t;
    } else {
      var t := SpecialGoesAstray(p[1..]);
      s := [p[0]] + t;
      assert pattern[1..] == p[1..] + "%" && s[1..] == t;
      if p <= s { PrefixTail(p, s); }
    }
  }

  lemma PrefixTail(p: string, s: string)
    requires p != "" && s != "" && p <= s
    ensures p[1..] <= s[1..]
  {
  }

  lemma AfterEscape(p: string) returns (s: string)
    requires p != "" && p[0] == '\\'
    ensures Matches(p + "%", s) && !(p <= s)
  {
    var pattern := p + "%";
    if |p| == 1 {
      s := "%";
      assert pattern[2..] == "" && s[1..] == "";
    } else {
      var t := ShortMatch(p[2..]);
      s := [p[1]] + t;
      assert pattern[2..] == p[2..] + "%" && s[1..] == t;
    }
  }

  ghost predicate MeansPrefix(p: string)
  {
    forall s :: Matches(p + "%", s) == (p <= s)
  }

  /** A Prefix filter selects the strings with that prefix if and only if the prefix holds
      no '%', '_' or backslash. */
  lemma PrefixIsPrefixIffPlain(p: string)
    ensures Plain(p) <==> MeansPrefix(p)
  {
    if Plain(p) {
      forall s ensures Matches(p + "%", s) == (p <= s) { PlainIsPrefix(p, s); }
    } else {
      var s := SpecialGoesAstray(p);
      assert Matches(p + "%", s) != (p <= s);
    }
  }

  // ---------- the whole call ----------

  /** translateFilters joins its filters by AND; with none there is no WHERE clause and every
      row qualifies. */
  lemma ClauseMeansAll(fs: seq<Filter>, r: Resolver, row: string -> string, db: string -> string)
    requires Stores(r, row, db) && fs != []
    ensures Parse(Text(Whole(fs), r, 0)).Some?
    ensures Eval(Parse(Text(Whole(fs), r, 0)).value, Args(Whole(fs)), db) <==> forall i :: 0 <= i < |fs| ==> Selects(fs[i], row)
    ensures (forall i :: 0 <= i < |fs| ==> PlainPrefixes(fs[i])) ==>
      (Eval(Parse(Text(Whole(fs), r, 0)).value, Args(Whole(fs)), db) <==> forall i :: 0 <= i < |fs| ==> Holds(fs[i], row))
  {
    ClauseMeansFilter(Whole(fs), r, row, db);
  }
}

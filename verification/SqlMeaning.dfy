/**
 * When a condition is true of a row. The conditions are built from tests with AND and OR alone, so
 * "evaluates to TRUE" is decided part by part and the third value UNKNOWN needs no separate treatment:
 * a test on a NULL column is simply not TRUE.
 */
module SqlMeaning {
  import opened Wrappers
  import opened SqlSyntax
  import Glob

  datatype Value = Str(text: string) | Bool(flag: bool)

  /** A row holds no entry for a column that is NULL. */
  type Row = map<string, Value>

  /** The rows that the aliases in scope stand for. */
  type Env = map<string, Row>

  type Db = map<string, set<Row>>

  function Rows(db: Db, table: string): set<Row> {
    if table in db then db[table] else {}
  }

  function TrimLeft(s: string): string {
    if s != "" && s[0] == ' ' then TrimLeft(s[1..]) else s
  }

  function TrimRight(s: string): string {
    if s != "" && s[|s| - 1] == ' ' then TrimRight(s[..|s| - 1]) else s
  }

  function Trimmed(v: Value): Value {
    if v.Str? then Str(TrimRight(TrimLeft(v.text))) else v
  }

  function Cell(row: Row, column: string): Option<Value> {
    if column in row then Some(row[column]) else None
  }

  function Read(env: Env, r: Ref): Option<Value> {
    if r.alias !in env then None
    else
      var v := Cell(env[r.alias], r.column);
      if r.trimmed && v.Some? then Some(Trimmed(v.value)) else v
  }

  /** Inside a query on one table its columns need no qualifier. */
  function Inside(env: Env, alias: string, row: Row): Env {
    env[alias := row]["" := row]
  }

  /** Inside a join an unqualified column is ambiguous. */
  function InsideJoin(env: Env, alias: string, row: Row, otherAlias: string, other: Row): Env {
    (env - {""})[alias := row][otherAlias := other]
  }

  predicate OpHolds(env: Env, v: Value, op: Op) {
    match op
    case EqArg(s) => v == Str(s)
    case EqBool(b) => v == Bool(b)
    case EqCol(d) => Read(env, d) == Some(v)
    case NonEmpty => v.Str? && v.text != ""
    case InList(ss) => v.Str? && v.text in ss
    case NotIn(ss) => v.Str? && v.text !in ss
    case NotLike(p) => v.Str? && !Glob.LikeMatch(p, v.text)
  }

  predicate SameCells(env: Env, cols: seq<Ref>, env': Env, cols': seq<Ref>) {
    && |cols| == |cols'|
    && forall i | 0 <= i < |cols| :: Read(env, cols[i]).Some? && Read(env, cols[i]) == Read(env', cols'[i])
  }

  ghost predicate HoldsE(db: Db, env: Env, e: Expr)
    decreases e
  {
    match e
    case Last(t) => HoldsT(db, env, t)
    case Or(t, more) => HoldsT(db, env, t) || HoldsE(db, env, more)
  }

  ghost predicate HoldsT(db: Db, env: Env, t: Term)
    decreases t
  {
    match t
    case Only(f) => HoldsF(db, env, f)
    case And(f, more) => HoldsF(db, env, f) && HoldsT(db, env, more)
  }

  ghost predicate HoldsF(db: Db, env: Env, f: Factor)
    decreases f
  {
    match f
    case Paren(e) => HoldsE(db, env, e)
    case Always => true
    case Never => false
    case Test(c, op) => Read(env, c).Some? && OpHolds(env, Read(env, c).value, op)
    case InSelect(cs, q) => Selects(db, env, cs, q)
  }

  /** Some row of the query equals the given columns. */
  ghost predicate Selects(db: Db, env: Env, cs: seq<Ref>, q: Query)
    decreases q, 1
  {
    if q.Simple? then exists r :: Picks(db, env, cs, q, r) else exists r, s :: Joins(db, env, cs, q, r, s)
  }

  ghost predicate Picks(db: Db, env: Env, cs: seq<Ref>, q: Query, r: Row)
    requires q.Simple?
    decreases q, 0
  {
    && r in Rows(db, q.table)
    && HoldsE(db, Inside(env, q.alias, r), q.filter)
    && SameCells(env, cs, Inside(env, q.alias, r), q.cols)
  }

  ghost predicate Joins(db: Db, env: Env, cs: seq<Ref>, q: Query, r: Row, s: Row)
    requires q.Joining?
    decreases q, 0
  {
    && r in Rows(db, q.table) && s in Rows(db, q.other)
    && HoldsE(db, InsideJoin(env, q.alias, r, q.otherAlias, s), q.on)
    && HoldsE(db, InsideJoin(env, q.alias, r, q.otherAlias, s), q.filter)
    && SameCells(env, cs, InsideJoin(env, q.alias, r, q.otherAlias, s), q.cols)
  }

  /** The whole emitted text with its arguments, read and evaluated; text that does not parse is never true. */
  ghost predicate TextHolds(db: Db, env: Env, sql: seq<Token>, args: seq<Arg>) {
    var e := Parse(sql, args);
    e.Some? && HoldsE(db, env, e.value)
  }
}

/** Conditions assembled from parts, as the compilers do with joins of strings. */
module SqlParts {
  import opened Wrappers
  import opened SqlSyntax
  import opened SqlMeaning

  /** OR of the factors. */
  function AnyOf(fs: seq<Factor>): Expr
    requires fs != []
  {
    if |fs| == 1 then Last(Only(fs[0])) else Or(Only(fs[0]), AnyOf(fs[1..]))
  }

  /** AND of the factors. */
  function AllOf(fs: seq<Factor>): Term
    requires fs != []
  {
    if |fs| == 1 then Only(fs[0]) else And(fs[0], AllOf(fs[1..]))
  }

  /** strings.Join. */
  function Joined(parts: seq<seq<Token>>, sep: Token): seq<Token> {
    if parts == [] then [] else if |parts| == 1 then parts[0] else parts[0] + ([sep] + Joined(parts[1..], sep))
  }

  function Texts(fs: seq<Factor>): seq<seq<Token>> {
    seq(|fs|, i requires 0 <= i < |fs| => PrintF(fs[i], []))
  }

  function Binds(fs: seq<Factor>): seq<Arg> {
    if fs == [] then [] else ArgsF(fs[0], []) + Binds(fs[1..])
  }

  predicate Fine(fs: seq<Factor>) {
    forall i | 0 <= i < |fs| :: FineF(fs[i])
  }

  lemma TextsAppend(fs: seq<Factor>, gs: seq<Factor>)
    ensures Texts(fs + gs) == Texts(fs) + Texts(gs)
  {}

  lemma AssocArgs(a: seq<Arg>, b: seq<Arg>, c: seq<Arg>)
    ensures a + b + c == a + (b + c)
  {}

  lemma {:induction false} BindsAppend(fs: seq<Factor>, gs: seq<Factor>)
    ensures Binds(fs + gs) == Binds(fs) + Binds(gs)
  {
    if fs == [] {
      assert fs + gs == gs;
    } else {
      BindsAppend(fs[1..], gs);
      assert (fs + gs)[1..] == fs[1..] + gs && (fs + gs)[0] == fs[0];
      AssocArgs(ArgsF(fs[0], []), Binds(fs[1..]), Binds(gs));
    }
  }

  lemma OnePart(f: Factor)
    ensures Texts([f]) == [PrintF(f, [])] && Binds([f]) == ArgsF(f, [])
  {
    assert Binds([]) == [];
    assert [f][1..] == [];
  }

  // A printer writes the same text whatever follows.

  lemma {:induction false} AppendE(e: Expr, s: seq<Token>, t: seq<Token>)
    ensures PrintE(e, s) + t == PrintE(e, s + t)
    decreases e
  {
    match e
    case Last(x) => AppendT(x, s, t);
    case Or(x, more) =>
      AppendE(more, s, t);
      AppendT(x, [OrWord] + PrintE(more, s), t);
      assert [OrWord] + PrintE(more, s) + t == [OrWord] + (PrintE(more, s) + t);
  }

  lemma {:induction false} AppendT(x: Term, s: seq<Token>, t: seq<Token>)
    ensures PrintT(x, s) + t == PrintT(x, s + t)
    decreases x
  {
    match x
    case Only(f) => AppendF(f, s, t);
    case And(f, more) =>
      AppendT(more, s, t);
      AppendF(f, [AndWord] + PrintT(more, s), t);
      assert [AndWord] + PrintT(more, s) + t == [AndWord] + (PrintT(more, s) + t);
  }

  lemma {:induction false} AppendF(f: Factor, s: seq<Token>, t: seq<Token>)
    ensures PrintF(f, s) + t == PrintF(f, s + t)
    decreases f
  {
    assert [RightParen] + s + t == [RightParen] + (s + t);
    match f
    case Paren(e) => AppendE(e, [RightParen] + s, t);
    case Test(_, op) => AppendOp(op, s, t);
    case InSelect(_, q) => AppendQ(q, [RightParen] + s, t);
    case _ =>
  }

  lemma {:induction false} AppendQ(q: Query, s: seq<Token>, t: seq<Token>)
    ensures PrintBody(q, s) + t == PrintBody(q, s + t)
    ensures PrintQ(q, s) + t == PrintQ(q, s + t)
    decreases q
  {
    match q
    case Simple(_, _, _, _, w) => AppendE(w, s, t);
    case Joining(_, _, _, _, _, _, on, w) =>
      AppendE(w, s, t);
      AppendE(on, [WhereWord] + PrintE(w, s), t);
      assert [WhereWord] + PrintE(w, s) + t == [WhereWord] + (PrintE(w, s) + t);
  }

  lemma {:induction false} AppendOp(op: Op, s: seq<Token>, t: seq<Token>)
    ensures PrintOp(op, s) + t == PrintOp(op, s + t)
  {
    if op.NotIn? {
      AppendHoles(|op.texts|, [RightParen] + s, t);
      assert [RightParen] + s + t == [RightParen] + (s + t);
    }
  }

  lemma {:induction false} AppendHoles(n: nat, s: seq<Token>, t: seq<Token>)
    ensures PrintHoles(n, s) + t == PrintHoles(n, s + t)
  {
    if n > 1 { AppendHoles(n - 1, s, t); }
  }

  lemma {:induction false} AppendArgsE(e: Expr, s: seq<Arg>, t: seq<Arg>)
    ensures ArgsE(e, s) + t == ArgsE(e, s + t)
    decreases e
  {
    match e
    case Last(x) => AppendArgsT(x, s, t);
    case Or(x, more) =>
      AppendArgsE(more, s, t);
      AppendArgsT(x, ArgsE(more, s), t);
  }

  lemma {:induction false} AppendArgsT(x: Term, s: seq<Arg>, t: seq<Arg>)
    ensures ArgsT(x, s) + t == ArgsT(x, s + t)
    decreases x
  {
    match x
    case Only(f) => AppendArgsF(f, s, t);
    case And(f, more) =>
      AppendArgsT(more, s, t);
      AppendArgsF(f, ArgsT(more, s), t);
  }

  lemma {:induction false} AppendArgsF(f: Factor, s: seq<Arg>, t: seq<Arg>)
    ensures ArgsF(f, s) + t == ArgsF(f, s + t)
    decreases f
  {
    match f
    case Paren(e) => AppendArgsE(e, s, t);
    case Test(_, op) => if op.NotIn? { assert ArgsOf(op.texts) + s + t == ArgsOf(op.texts) + (s + t); }
    case InSelect(_, Simple(_, _, _, _, w)) => AppendArgsE(w, s, t);
    case InSelect(_, Joining(_, _, _, _, _, _, on, w)) =>
      AppendArgsE(w, s, t);
      AppendArgsE(on, ArgsE(w, s), t);
    case _ =>
  }

  // Joined parts are the printed tree.

  lemma {:induction false} JoinedOr(fs: seq<Factor>)
    requires fs != []
    ensures Joined(Texts(fs), OrWord) == Tokens(AnyOf(fs))
    ensures Binds(fs) == Args(AnyOf(fs))
    ensures Fine(fs) ==> FineE(AnyOf(fs))
  {
    if |fs| == 1 {
      assert fs == [fs[0]];
      OnePart(fs[0]);
      assert Tokens(AnyOf(fs)) == PrintT(Only(fs[0]), []);
      assert Args(AnyOf(fs)) == ArgsT(Only(fs[0]), []);
    } else {
      JoinedOr(fs[1..]);
      assert Texts(fs)[1..] == Texts(fs[1..]);
      var rest := [OrWord] + PrintE(AnyOf(fs[1..]), []);
      assert Tokens(AnyOf(fs)) == PrintT(Only(fs[0]), rest) == PrintF(fs[0], rest);
      assert Args(AnyOf(fs)) == ArgsT(Only(fs[0]), Binds(fs[1..])) == ArgsF(fs[0], Binds(fs[1..]));
      AppendF(fs[0], [], rest);
      assert [] + rest == rest;
      AppendArgsF(fs[0], [], Binds(fs[1..]));
      assert [] + Binds(fs[1..]) == Binds(fs[1..]);
    }
  }

  lemma {:induction false} JoinedAnd(fs: seq<Factor>)
    requires fs != []
    ensures Joined(Texts(fs), AndWord) == PrintT(AllOf(fs), [])
    ensures Binds(fs) == ArgsT(AllOf(fs), [])
    ensures Fine(fs) ==> FineT(AllOf(fs))
  {
    if |fs| == 1 {
      assert fs == [fs[0]];
      OnePart(fs[0]);
    } else {
      JoinedAnd(fs[1..]);
      assert Texts(fs)[1..] == Texts(fs[1..]);
      var rest := [AndWord] + PrintT(AllOf(fs[1..]), []);
      AppendF(fs[0], [], rest);
      assert [] + rest == rest;
      AppendArgsF(fs[0], [], Binds(fs[1..]));
      assert [] + Binds(fs[1..]) == Binds(fs[1..]);
    }
  }

  ghost predicate HoldsSome(db: Db, env: Env, fs: seq<Factor>) {
    exists i :: 0 <= i < |fs| && HoldsF(db, env, fs[i])
  }

  ghost predicate HoldsAll(db: Db, env: Env, fs: seq<Factor>) {
    forall i | 0 <= i < |fs| :: HoldsF(db, env, fs[i])
  }

  lemma {:induction false} AnyOfHolds(db: Db, env: Env, fs: seq<Factor>)
    requires fs != []
    ensures HoldsE(db, env, AnyOf(fs)) <==> HoldsSome(db, env, fs)
  {
    if |fs| > 1 {
      AnyOfHolds(db, env, fs[1..]);
      if HoldsSome(db, env, fs[1..]) {
        var i :| 0 <= i < |fs[1..]| && HoldsF(db, env, fs[1..][i]);
        assert HoldsF(db, env, fs[i + 1]);
      }
      if HoldsSome(db, env, fs) {
        var i :| 0 <= i < |fs| && HoldsF(db, env, fs[i]);
        if i > 0 { assert HoldsF(db, env, fs[1..][i - 1]); }
      }
    }
  }

  lemma {:induction false} AllOfHolds(db: Db, env: Env, fs: seq<Factor>)
    requires fs != []
    ensures HoldsT(db, env, AllOf(fs)) <==> HoldsAll(db, env, fs)
  {
    if |fs| > 1 {
      AllOfHolds(db, env, fs[1..]);
      if HoldsAll(db, env, fs[1..]) && HoldsF(db, env, fs[0]) {
        forall i | 0 <= i < |fs| ensures HoldsF(db, env, fs[i]) {
          if i > 0 { assert fs[i] == fs[1..][i - 1]; }
        }
      }
    }
  }

  lemma HoldsSomeAppend(db: Db, env: Env, fs: seq<Factor>, gs: seq<Factor>)
    ensures HoldsSome(db, env, fs + gs) <==> HoldsSome(db, env, fs) || HoldsSome(db, env, gs)
  {
    var all := fs + gs;
    if HoldsSome(db, env, fs) {
      var i :| 0 <= i < |fs| && HoldsF(db, env, fs[i]);
      assert HoldsF(db, env, all[i]);
    }
    if HoldsSome(db, env, gs) {
      var i :| 0 <= i < |gs| && HoldsF(db, env, gs[i]);
      assert HoldsF(db, env, all[|fs| + i]);
    }
  }

  lemma HoldsAllAppend(db: Db, env: Env, fs: seq<Factor>, gs: seq<Factor>)
    ensures HoldsAll(db, env, fs + gs) <==> HoldsAll(db, env, fs) && HoldsAll(db, env, gs)
  {
    var all := fs + gs;
    if HoldsAll(db, env, all) {
      forall i | 0 <= i < |fs| ensures HoldsF(db, env, fs[i]) { assert fs[i] == all[i]; }
      forall i | 0 <= i < |gs| ensures HoldsF(db, env, gs[i]) { assert gs[i] == all[|fs| + i]; }
    }
  }

  // Placeholders.

  function Holes(ts: seq<Token>): nat {
    if ts == [] then 0 else (if ts[0] == Hole then 1 else 0) + Holes(ts[1..])
  }

  lemma {:induction false} HolesNone(s: seq<Token>, t: seq<Token>)
    requires forall i | 0 <= i < |s| :: s[i] != Hole
    ensures Holes(s + t) == Holes(t)
  {
    if s == [] {
      assert s + t == t;
    } else {
      HolesNone(s[1..], t);
      assert (s + t)[1..] == s[1..] + t;
    }
  }

  lemma HolesOne(s: seq<Token>, t: seq<Token>)
    requires forall i | 0 <= i < |s| :: s[i] != Hole
    ensures Holes(s + [Hole] + t) == 1 + Holes(t)
  {
    HolesNone(s, [Hole] + t);
    assert s + [Hole] + t == s + ([Hole] + t);
    assert ([Hole] + t)[1..] == t;
  }

  lemma {:induction false} HolesE(e: Expr, rt: seq<Token>, ra: seq<Arg>)
    requires FineE(e)
    ensures Holes(PrintE(e, rt)) + |ra| == Holes(rt) + |ArgsE(e, ra)|
    decreases e
  {
    match e
    case Last(t) => HolesT(t, rt, ra);
    case Or(t, more) =>
      HolesE(more, rt, ra);
      HolesNone([OrWord], PrintE(more, rt));
      HolesT(t, [OrWord] + PrintE(more, rt), ArgsE(more, ra));
  }

  lemma {:induction false} HolesT(t: Term, rt: seq<Token>, ra: seq<Arg>)
    requires FineT(t)
    ensures Holes(PrintT(t, rt)) + |ra| == Holes(rt) + |ArgsT(t, ra)|
    decreases t
  {
    match t
    case Only(f) => HolesF(f, rt, ra);
    case And(f, more) =>
      HolesT(more, rt, ra);
      HolesNone([AndWord], PrintT(more, rt));
      HolesF(f, [AndWord] + PrintT(more, rt), ArgsT(more, ra));
  }

  lemma {:induction false} HolesF(f: Factor, rt: seq<Token>, ra: seq<Arg>)
    requires FineF(f)
    ensures Holes(PrintF(f, rt)) + |ra| == Holes(rt) + |ArgsF(f, ra)|
    decreases f
  {
    match f
    case Paren(e) =>
      HolesE(e, [RightParen] + rt, ra);
      HolesNone([LeftParen], PrintE(e, [RightParen] + rt));
      HolesNone([RightParen], rt);
    case Test(c, op) =>
      HolesOp(op, rt, ra);
      HolesNone([Columns([c])], PrintOp(op, rt));
    case InSelect(cs, q) =>
      HolesQ(q, [RightParen] + rt, ra);
      HolesNone([Columns(cs), InWord, LeftParen], PrintQ(q, [RightParen] + rt));
      HolesNone([RightParen], rt);
    case Always => HolesNone([TrueWord], rt);
    case Never => HolesNone([OneWord, Equals, ZeroWord], rt);
  }

  lemma {:induction false} HolesQ(q: Query, rt: seq<Token>, ra: seq<Arg>)
    requires FineQ(q)
    ensures Holes(PrintQ(q, rt)) + |ra| == Holes(rt) + |ArgsQ(q, ra)|
    decreases q, 1
  {
    HolesBody(q, rt, ra);
    HolesNone(if q.distinct then [SelectWord, DistinctWord] else [SelectWord], PrintBody(q, rt));
  }

  lemma {:induction false} HolesBody(q: Query, rt: seq<Token>, ra: seq<Arg>)
    requires FineQ(q)
    ensures Holes(PrintBody(q, rt)) + |ra| == Holes(rt) + |ArgsQ(q, ra)|
    decreases q, 0
  {
    match q
    case Simple(_, cs, t, a, w) =>
      HolesE(w, rt, ra);
      HolesNone([Columns(cs), FromTable(t, a), WhereWord], PrintE(w, rt));
    case Joining(_, cs, t, a, u, b, on, w) =>
      var tail := [WhereWord] + PrintE(w, rt);
      HolesE(w, rt, ra);
      HolesE(on, tail, ArgsE(w, ra));
      HolesNone([WhereWord], PrintE(w, rt));
      HolesNone([Columns(cs), FromTable(t, a), JoinTable(u, b), OnWord], PrintE(on, tail));
  }

  lemma {:induction false} HolesOp(op: Op, rt: seq<Token>, ra: seq<Arg>)
    requires op.NotIn? ==> op.texts != []
    ensures Holes(PrintOp(op, rt)) + |ra| == Holes(rt) + |ArgsOp(op, ra)|
  {
    if op.NotIn? {
      var n := |op.texts|;
      HolesList(n, [RightParen] + rt);
      HolesNone([RightParen], rt);
      HolesNone([NotWord, InWord, LeftParen], PrintHoles(n, [RightParen] + rt));
    } else {
      HolesShort(op, rt, ra);
    }
  }

  lemma {:induction false} HolesShort(op: Op, rt: seq<Token>, ra: seq<Arg>)
    requires !op.NotIn?
    ensures Holes(PrintOp(op, rt)) + |ra| == Holes(rt) + |ArgsOp(op, ra)|
  {
    if op.EqArg? {
      HolesOne([Equals], rt);
      assert PrintOp(op, rt) == [Equals] + [Hole] + rt;
    } else if op.InList? {
      HolesOne([InWord], rt);
      assert PrintOp(op, rt) == [InWord] + [Hole] + rt;
    } else if op.NotLike? {
      HolesOne([NotWord, LikeWord], rt);
      assert PrintOp(op, rt) == [NotWord, LikeWord] + [Hole] + rt;
    } else {
      var head := PrintOp(op, rt)[..2];
      HolesNone(head, rt);
      assert PrintOp(op, rt) == head + rt;
    }
  }

  lemma {:induction false} HolesList(n: nat, rt: seq<Token>)
    requires n > 0
    ensures Holes(PrintHoles(n, rt)) == n + Holes(rt)
  {
    HolesOne([], rt);
    assert [] + [Hole] + rt == [Hole] + rt;
    if n > 1 {
      var rest := PrintHoles(n - 1, rt);
      HolesList(n - 1, rt);
      HolesOne([], [Comma] + rest);
      HolesNone([Comma], rest);
      assert PrintHoles(n, rt) == [] + [Hole] + ([Comma] + rest);
    }
  }

  /** As many placeholders as arguments, through every level of nesting. */
  lemma PlaceholderCount(e: Expr)
    requires FineE(e)
    ensures Holes(Tokens(e)) == |Args(e)|
  {
    HolesE(e, [], []);
  }
}

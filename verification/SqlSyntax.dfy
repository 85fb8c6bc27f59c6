/**
 * The SQL conditions the compilers emit: a token alphabet, the concrete syntax trees of its
 * grammar, a printer, and a recursive-descent parser with the precedence of AND over OR that binds
 * each `?` from left to right.
 */
module SqlSyntax {
  import opened Wrappers

  /** A column of an aliased table; the alias is empty for an unqualified column. */
  datatype Ref = Ref(alias: string, column: string, trimmed: bool)

  /** A column list, alone or as a row, is one token; so is a table with its alias. */
  datatype Token =
    | LeftParen | RightParen | AndWord | OrWord | Hole | Comma | Equals | Differs | InWord | NotWord | LikeWord
    | TrueWord | FalseWord | NoText | OneWord | ZeroWord | SelectWord | DistinctWord | OnWord | WhereWord
    | Columns(refs: seq<Ref>) | FromTable(table: string, alias: string) | JoinTable(table: string, alias: string)

  /** A bound argument: a value, or the list that `IN ?` expands. */
  datatype Arg = Single(text: string) | Many(texts: seq<string>)

  datatype Expr = Last(term: Term) | Or(term: Term, rest: Expr)

  datatype Term = Only(factor: Factor) | And(factor: Factor, rest: Term)

  datatype Factor =
    | Paren(inner: Expr)
    | Always
    | Never
    | Test(col: Ref, op: Op)
    | InSelect(cols: seq<Ref>, query: Query)

  /** What a column is tested for. */
  datatype Op =
    | EqArg(text: string)
    | EqBool(value: bool)
    | EqCol(other: Ref)
    | NonEmpty
    | InList(texts: seq<string>)
    | NotIn(texts: seq<string>)
    | NotLike(text: string)

  datatype Query =
    | Simple(distinct: bool, cols: seq<Ref>, table: string, alias: string, filter: Expr)
    | Joining(distinct: bool, cols: seq<Ref>, table: string, alias: string, other: string, otherAlias: string, on: Expr, filter: Expr)

  // Printing. Every printer writes in front of what follows it.

  function PrintE(e: Expr, rest: seq<Token>): seq<Token> {
    match e
    case Last(t) => PrintT(t, rest)
    case Or(t, more) => PrintT(t, [OrWord] + PrintE(more, rest))
  }

  function PrintT(t: Term, rest: seq<Token>): seq<Token> {
    match t
    case Only(f) => PrintF(f, rest)
    case And(f, more) => PrintF(f, [AndWord] + PrintT(more, rest))
  }

  function PrintF(f: Factor, rest: seq<Token>): seq<Token> {
    match f
    case Paren(e) => [LeftParen] + PrintE(e, [RightParen] + rest)
    case Always => [TrueWord] + rest
    case Never => [OneWord, Equals, ZeroWord] + rest
    case Test(c, op) => [Columns([c])] + PrintOp(op, rest)
    case InSelect(cs, q) => [Columns(cs), InWord, LeftParen] + PrintQ(q, [RightParen] + rest)
  }

  function PrintOp(op: Op, rest: seq<Token>): seq<Token> {
    match op
    case EqArg(_) => [Equals, Hole] + rest
    case EqBool(b) => [Equals, if b then TrueWord else FalseWord] + rest
    case EqCol(d) => [Equals, Columns([d])] + rest
    case NonEmpty => [Differs, NoText] + rest
    case InList(_) => [InWord, Hole] + rest
    case NotIn(vs) => [NotWord, InWord, LeftParen] + PrintHoles(|vs|, [RightParen] + rest)
    case NotLike(_) => [NotWord, LikeWord, Hole] + rest
  }

  function PrintQ(q: Query, rest: seq<Token>): seq<Token>
    decreases q, 1
  {
    if q.distinct then [SelectWord, DistinctWord] + PrintBody(q, rest) else [SelectWord] + PrintBody(q, rest)
  }

  function PrintBody(q: Query, rest: seq<Token>): seq<Token>
    decreases q, 0
  {
    match q
    case Simple(_, cs, t, a, w) => [Columns(cs), FromTable(t, a), WhereWord] + PrintE(w, rest)
    case Joining(_, cs, t, a, u, b, on, w) =>
      [Columns(cs), FromTable(t, a), JoinTable(u, b), OnWord] + PrintE(on, [WhereWord] + PrintE(w, rest))
  }

  /** `?,?,…,?`, of which there is always at least one. */
  function PrintHoles(n: nat, rest: seq<Token>): seq<Token> {
    if n <= 1 then [Hole] + rest else [Hole, Comma] + PrintHoles(n - 1, rest)
  }

  function ArgsE(e: Expr, rest: seq<Arg>): seq<Arg> {
    match e
    case Last(t) => ArgsT(t, rest)
    case Or(t, more) => ArgsT(t, ArgsE(more, rest))
  }

  function ArgsT(t: Term, rest: seq<Arg>): seq<Arg> {
    match t
    case Only(f) => ArgsF(f, rest)
    case And(f, more) => ArgsF(f, ArgsT(more, rest))
  }

  function ArgsF(f: Factor, rest: seq<Arg>): seq<Arg> {
    match f
    case Paren(e) => ArgsE(e, rest)
    case Test(_, op) => ArgsOp(op, rest)
    case InSelect(_, q) => ArgsQ(q, rest)
    case _ => rest
  }

  function ArgsOp(op: Op, rest: seq<Arg>): seq<Arg> {
    match op
    case EqArg(v) => [Single(v)] + rest
    case InList(vs) => [Many(vs)] + rest
    case NotIn(vs) => ArgsOf(vs) + rest
    case NotLike(p) => [Single(p)] + rest
    case _ => rest
  }

  function ArgsQ(q: Query, rest: seq<Arg>): seq<Arg> {
    match q
    case Simple(_, _, _, _, w) => ArgsE(w, rest)
    case Joining(_, _, _, _, _, _, on, w) => ArgsE(on, ArgsE(w, rest))
  }

  function ArgsOf(vs: seq<string>): seq<Arg> {
    seq(|vs|, i requires 0 <= i < |vs| => Single(vs[i]))
  }

  // Parsing.

  datatype Parsed<T> = Parsed(tree: T, ts: seq<Token>, args: seq<Arg>) | Stuck

  predicate Starts(ts: seq<Token>, t: Token) {
    ts != [] && ts[0] == t
  }

  function ParseE(ts: seq<Token>, args: seq<Arg>): (r: Parsed<Expr>)
    ensures r.Parsed? ==> |r.ts| < |ts|
    decreases |ts|, 3
  {
    match ParseT(ts, args)
    case Stuck => Stuck
    case Parsed(t, rt, ra) =>
      if Starts(rt, OrWord) then
        match ParseE(rt[1..], ra)
        case Stuck => Stuck
        case Parsed(e, rt', ra') => Parsed(Or(t, e), rt', ra')
      else Parsed(Last(t), rt, ra)
  }

  function ParseT(ts: seq<Token>, args: seq<Arg>): (r: Parsed<Term>)
    ensures r.Parsed? ==> |r.ts| < |ts|
    decreases |ts|, 2
  {
    match ParseF(ts, args)
    case Stuck => Stuck
    case Parsed(f, rt, ra) =>
      if Starts(rt, AndWord) then
        match ParseT(rt[1..], ra)
        case Stuck => Stuck
        case Parsed(t, rt', ra') => Parsed(And(f, t), rt', ra')
      else Parsed(Only(f), rt, ra)
  }

  function ParseF(ts: seq<Token>, args: seq<Arg>): (r: Parsed<Factor>)
    ensures r.Parsed? ==> |r.ts| < |ts|
    decreases |ts|, 1
  {
    if Starts(ts, LeftParen) then
      match ParseE(ts[1..], args)
      case Stuck => Stuck
      case Parsed(e, rt, ra) => if Starts(rt, RightParen) then Parsed(Paren(e), rt[1..], ra) else Stuck
    else if |ts| > 3 && ts[0].Columns? && ts[1] == InWord && ts[2] == LeftParen then
      match ParseQ(ts[3..], args)
      case Stuck => Stuck
      case Parsed(q, rt, ra) =>
        if Starts(rt, RightParen) then Parsed(InSelect(ts[0].refs, q), rt[1..], ra) else Stuck
    else if Starts(ts, TrueWord) then Parsed(Always, ts[1..], args)
    else if |ts| < 3 then Stuck
    else if ts[0] == OneWord && ts[1] == Equals && ts[2] == ZeroWord then Parsed(Never, ts[3..], args)
    else if !ts[0].Columns? || |ts[0].refs| != 1 then Stuck
    else
      match ParseOp(ts[1..], args)
      case Stuck => Stuck
      case Parsed(op, rt, ra) => Parsed(Test(ts[0].refs[0], op), rt, ra)
  }

  function ParseQ(ts: seq<Token>, args: seq<Arg>): (r: Parsed<Query>)
    ensures r.Parsed? ==> |r.ts| < |ts|
    decreases |ts|, 0
  {
    if !Starts(ts, SelectWord) then Stuck
    else if Starts(ts[1..], DistinctWord) then ParseBody(true, ts[2..], args)
    else ParseBody(false, ts[1..], args)
  }

  function ParseBody(distinct: bool, ts: seq<Token>, args: seq<Arg>): (r: Parsed<Query>)
    ensures r.Parsed? ==> |r.ts| < |ts|
    decreases |ts|, 0
  {
    if |ts| < 4 || !ts[0].Columns? || !ts[1].FromTable? then Stuck
    else if ts[2] == WhereWord then
      match ParseE(ts[3..], args)
      case Stuck => Stuck
      case Parsed(w, rt, ra) => Parsed(Simple(distinct, ts[0].refs, ts[1].table, ts[1].alias, w), rt, ra)
    else if !ts[2].JoinTable? || ts[3] != OnWord then Stuck
    else
      match ParseE(ts[4..], args)
      case Stuck => Stuck
      case Parsed(on, rt, ra) =>
        if !Starts(rt, WhereWord) then Stuck else
        match ParseE(rt[1..], ra)
        case Stuck => Stuck
        case Parsed(w, rt', ra') =>
          Parsed(Joining(distinct, ts[0].refs, ts[1].table, ts[1].alias, ts[2].table, ts[2].alias, on, w), rt', ra')
  }

  function ParseOp(ts: seq<Token>, args: seq<Arg>): (r: Parsed<Op>)
    ensures r.Parsed? ==> |r.ts| < |ts|
  {
    if |ts| < 2 then Stuck
    else if ts[0] == Equals then ParseEquals(ts[1], ts[2..], args)
    else if ts[0] == Differs && ts[1] == NoText then Parsed(NonEmpty, ts[2..], args)
    else if ts[0] == InWord && ts[1] == Hole && args != [] && args[0].Many? then Parsed(InList(args[0].texts), ts[2..], args[1..])
    else if |ts| < 3 || ts[0] != NotWord then Stuck
    else if ts[1] == InWord && ts[2] == LeftParen then
      match ParseHoles(ts[3..], args)
      case Stuck => Stuck
      case Parsed(vs, rt, ra) => Parsed(NotIn(vs), rt, ra)
    else if ts[1] == LikeWord && ts[2] == Hole && args != [] && args[0].Single? then
      Parsed(NotLike(args[0].text), ts[3..], args[1..])
    else Stuck
  }

  function ParseEquals(t: Token, rt: seq<Token>, args: seq<Arg>): (r: Parsed<Op>)
    ensures r.Parsed? ==> r.ts == rt
  {
    match t
    case Hole => if args != [] && args[0].Single? then Parsed(EqArg(args[0].text), rt, args[1..]) else Stuck
    case TrueWord => Parsed(EqBool(true), rt, args)
    case FalseWord => Parsed(EqBool(false), rt, args)
    case Columns(ds) => if |ds| == 1 then Parsed(EqCol(ds[0]), rt, args) else Stuck
    case _ => Stuck
  }

  /** `?,…,?)`, with the values bound to it. */
  function ParseHoles(ts: seq<Token>, args: seq<Arg>): (r: Parsed<seq<string>>)
    ensures r.Parsed? ==> |r.ts| < |ts|
  {
    if |ts| < 2 || ts[0] != Hole || args == [] || !args[0].Single? then Stuck
    else if ts[1] == RightParen then Parsed([args[0].text], ts[2..], args[1..])
    else if ts[1] == Comma then
      match ParseHoles(ts[2..], args[1..])
      case Stuck => Stuck
      case Parsed(vs, rt, ra) => Parsed([args[0].text] + vs, rt, ra)
    else Stuck
  }

  /** A whole condition: every token read and every argument bound. */
  function Parse(ts: seq<Token>, args: seq<Arg>): Option<Expr> {
    var r := ParseE(ts, args);
    if r.Parsed? && r.ts == [] && r.args == [] then Some(r.tree) else None
  }

  // Trees that can be printed: a NOT IN list is never empty.

  predicate FineE(e: Expr) {
    match e case Last(t) => FineT(t) case Or(t, more) => FineT(t) && FineE(more)
  }

  predicate FineT(t: Term) {
    match t case Only(f) => FineF(f) case And(f, more) => FineF(f) && FineT(more)
  }

  predicate FineF(f: Factor) {
    match f
    case Paren(e) => FineE(e)
    case Test(_, op) => op.NotIn? ==> op.texts != []
    case InSelect(_, q) => FineQ(q)
    case _ => true
  }

  predicate FineQ(q: Query) {
    match q
    case Simple(_, _, _, _, w) => FineE(w)
    case Joining(_, _, _, _, _, _, on, w) => FineE(on) && FineE(w)
  }

  // Parsing undoes printing.

  lemma {:induction false} ParsePrintE(e: Expr, rt: seq<Token>, ra: seq<Arg>)
    requires FineE(e) && !Starts(rt, AndWord) && !Starts(rt, OrWord)
    ensures ParseE(PrintE(e, rt), ArgsE(e, ra)) == Parsed(e, rt, ra)
    decreases e
  {
    match e
    case Last(t) => ParsePrintT(t, rt, ra);
    case Or(t, more) =>
      ParsePrintE(more, rt, ra);
      ParsePrintT(t, [OrWord] + PrintE(more, rt), ArgsE(more, ra));
      assert ([OrWord] + PrintE(more, rt))[1..] == PrintE(more, rt);
  }

  lemma {:induction false} ParsePrintT(t: Term, rt: seq<Token>, ra: seq<Arg>)
    requires FineT(t) && !Starts(rt, AndWord)
    ensures ParseT(PrintT(t, rt), ArgsT(t, ra)) == Parsed(t, rt, ra)
    decreases t
  {
    match t
    case Only(f) => ParsePrintF(f, rt, ra);
    case And(f, more) =>
      ParsePrintT(more, rt, ra);
      ParsePrintF(f, [AndWord] + PrintT(more, rt), ArgsT(more, ra));
      assert ([AndWord] + PrintT(more, rt))[1..] == PrintT(more, rt);
  }

  lemma {:induction false} ParsePrintF(f: Factor, rt: seq<Token>, ra: seq<Arg>)
    requires FineF(f)
    ensures ParseF(PrintF(f, rt), ArgsF(f, ra)) == Parsed(f, rt, ra)
    decreases f
  {
    var ts := PrintF(f, rt);
    match f
    case Paren(e) =>
      ParsePrintE(e, [RightParen] + rt, ra);
      assert ts[1..] == PrintE(e, [RightParen] + rt);
      assert ([RightParen] + rt)[1..] == rt;
    case InSelect(cs, q) =>
      ParsePrintQ(q, [RightParen] + rt, ra);
      assert ts[3..] == PrintQ(q, [RightParen] + rt);
      assert ([RightParen] + rt)[1..] == rt;
    case _ => ParsePrintAtom(f, rt, ra);
  }

  lemma {:induction false} ParsePrintAtom(f: Factor, rt: seq<Token>, ra: seq<Arg>)
    requires FineF(f) && (f.Always? || f.Never? || f.Test?)
    ensures ParseF(PrintF(f, rt), ArgsF(f, ra)) == Parsed(f, rt, ra)
  {
    var ts := PrintF(f, rt);
    match f
    case Always => assert ts[1..] == rt;
    case Never => assert ts[3..] == rt;
    case Test(c, op) =>
      ParsePrintOp(op, rt, ra);
      assert ts[1..] == PrintOp(op, rt);
  }

  lemma {:induction false} ParsePrintQ(q: Query, rt: seq<Token>, ra: seq<Arg>)
    requires FineQ(q) && Starts(rt, RightParen)
    ensures ParseQ(PrintQ(q, rt), ArgsQ(q, ra)) == Parsed(q, rt, ra)
    decreases q, 1
  {
    var ts := PrintQ(q, rt);
    ParsePrintBody(q, rt, ra);
    if q.distinct {
      assert ts[2..] == PrintBody(q, rt);
    } else {
      assert ts[1..] == PrintBody(q, rt);
    }
  }

  lemma {:induction false} ParsePrintBody(q: Query, rt: seq<Token>, ra: seq<Arg>)
    requires FineQ(q) && Starts(rt, RightParen)
    ensures ParseBody(q.distinct, PrintBody(q, rt), ArgsQ(q, ra)) == Parsed(q, rt, ra)
    decreases q, 0
  {
    ParsePrintE(q.filter, rt, ra);
    if q.Simple? {
      SimpleBody(q, PrintE(q.filter, rt), rt, ra);
    } else {
      var tail := [WhereWord] + PrintE(q.filter, rt);
      ParsePrintE(q.on, tail, ArgsE(q.filter, ra));
      JoiningBody(q, PrintE(q.on, tail), tail, rt, ra);
    }
  }

  lemma {:induction false} SimpleBody(q: Query, filter: seq<Token>, rt: seq<Token>, ra: seq<Arg>)
    requires q.Simple? && ParseE(filter, ArgsQ(q, ra)) == Parsed(q.filter, rt, ra)
    ensures ParseBody(q.distinct, [Columns(q.cols), FromTable(q.table, q.alias), WhereWord] + filter, ArgsQ(q, ra)) == Parsed(q, rt, ra)
  {}

  lemma {:induction false} JoiningBody(q: Query, on: seq<Token>, tail: seq<Token>, rt: seq<Token>, ra: seq<Arg>)
    requires q.Joining? && Starts(tail, WhereWord)
    requires ParseE(on, ArgsQ(q, ra)) == Parsed(q.on, tail, ArgsE(q.filter, ra))
    requires ParseE(tail[1..], ArgsE(q.filter, ra)) == Parsed(q.filter, rt, ra)
    ensures ParseBody(q.distinct, [Columns(q.cols), FromTable(q.table, q.alias), JoinTable(q.other, q.otherAlias), OnWord] + on, ArgsQ(q, ra))
         == Parsed(q, rt, ra)
  {}

  lemma {:induction false} ParsePrintOp(op: Op, rt: seq<Token>, ra: seq<Arg>)
    requires op.NotIn? ==> op.texts != []
    ensures ParseOp(PrintOp(op, rt), ArgsOp(op, ra)) == Parsed(op, rt, ra)
  {
    var ts, args := PrintOp(op, rt), ArgsOp(op, ra);
    if op.NotIn? {
      assert ts[3..] == PrintHoles(|op.texts|, [RightParen] + rt);
      ParsePrintHoles(op.texts, rt, ra);
    } else if op.NotLike? {
      assert ts[3..] == rt && args[1..] == ra;
    } else {
      assert ts[2..] == rt;
      assert op.EqArg? || op.InList? ==> args[1..] == ra;
    }
  }

  lemma {:induction false} ParsePrintHoles(vs: seq<string>, rt: seq<Token>, ra: seq<Arg>)
    requires vs != []
    ensures ParseHoles(PrintHoles(|vs|, [RightParen] + rt), ArgsOf(vs) + ra) == Parsed(vs, rt, ra)
  {
    var ts := PrintHoles(|vs|, [RightParen] + rt);
    var args := ArgsOf(vs) + ra;
    if |vs| == 1 {
      assert ts == [Hole, RightParen] + rt;
      assert ts[2..] == rt;
      assert args[1..] == ra;
      assert [vs[0]] == vs;
    } else {
      ParsePrintHoles(vs[1..], rt, ra);
      assert ts[2..] == PrintHoles(|vs[1..]|, [RightParen] + rt);
      assert args[1..] == ArgsOf(vs[1..]) + ra;
      assert vs == [vs[0]] + vs[1..];
    }
  }

  function Tokens(e: Expr): seq<Token> { PrintE(e, []) }

  function Args(e: Expr): seq<Arg> { ArgsE(e, []) }

  /** A printed condition reads back as the same tree, with no token and no argument left over. */
  lemma ParsePrint(e: Expr)
    requires FineE(e)
    ensures Parse(Tokens(e), Args(e)) == Some(e)
  {
    ParsePrintE(e, [], []);
  }
}

/** The administrator's hidden-namespace patterns, compiled to SQL and matched in memory. */
module HiddenNamespaces {
  import opened Wrappers
  import opened SqlSyntax
  import opened SqlMeaning
  import opened SqlParts
  import opened Glob

  // What the patterns mean.

  predicate Hides(p: string, ns: string) {
    p != "" && StarMatch(p, ns)
  }

  predicate Hidden(ps: seq<string>, ns: string) {
    exists i :: 0 <= i < |ps| && Hides(ps[i], ns)
  }

  predicate Filters(ps: seq<string>) {
    exists i :: 0 <= i < |ps| && ps[i] != ""
  }

  /** A row is kept when nothing filters, or when its namespace is known and not hidden. */
  predicate Visible(ps: seq<string>, ns: Option<Value>) {
    Filters(ps) ==> ns.Some? && ns.value.Str? && !Hidden(ps, ns.value.text)
  }

  // The compiled form.

  predicate Exact(p: string) { p != "" && '*' !in p }

  predicate Starred(p: string) { p != "" && '*' in p }

  function ExactOf(ps: seq<string>): seq<string> {
    if ps == [] then []
    else
      var p := ps[|ps| - 1];
      ExactOf(ps[..|ps| - 1]) + (if Exact(p) then [p] else [])
  }

  function GlobsOf(ps: seq<string>): seq<string> {
    if ps == [] then []
    else
      var p := ps[|ps| - 1];
      GlobsOf(ps[..|ps| - 1]) + (if Starred(p) then [p] else [])
  }

  function LikesOf(globs: seq<string>): seq<string> {
    seq(|globs|, i requires 0 <= i < |globs| => LikeOf(globs[i]))
  }

  function ListFactor(col: Ref, exact: seq<string>): seq<Factor> {
    if exact == [] then [] else [Test(col, NotIn(exact))]
  }

  function LikeFactors(col: Ref, likes: seq<string>): seq<Factor> {
    seq(|likes|, i requires 0 <= i < |likes| => Test(col, NotLike(likes[i])))
  }

  function Factors(col: Ref, ps: seq<string>): seq<Factor> {
    ListFactor(col, ExactOf(ps)) + LikeFactors(col, LikesOf(GlobsOf(ps)))
  }

  /** What the fragment of several parts is: nothing when there are none. */
  function AndTokens(fs: seq<Factor>): seq<Token> {
    if fs == [] then [] else PrintT(AllOf(fs), [])
  }

  function Repeated(n: nat): seq<Token> {
    if n == 0 then [] else [Hole, Comma] + Repeated(n - 1)
  }

  lemma {:induction false} RepeatedHoles(n: nat, rest: seq<Token>)
    requires n > 0
    ensures |Repeated(n)| == 2 * n
    ensures Repeated(n)[..2 * n - 1] + rest == PrintHoles(n, rest)
  {
    if n > 1 {
      RepeatedHoles(n - 1, rest);
      assert Repeated(n)[..2 * n - 1] == [Hole, Comma] + Repeated(n - 1)[..2 * n - 3];
      assert [Hole, Comma] + Repeated(n - 1)[..2 * n - 3] + rest == [Hole, Comma] + (Repeated(n - 1)[..2 * n - 3] + rest);
    } else {
      assert Repeated(0) == [];
      assert Repeated(n)[..1] == [Hole];
    }
  }

  lemma ArgsOfText(c: Ref, op: Op)
    ensures ArgsF(Test(c, op), []) == ArgsOp(op, [])
    ensures op.NotIn? ==> ArgsOp(op, []) == ArgsOf(op.texts)
  {
    if op.NotIn? { assert ArgsOf(op.texts) + [] == ArgsOf(op.texts); }
  }

  method Split(ps: seq<string>) returns (exact: seq<string>, likes: seq<string>)
    ensures exact == ExactOf(ps) && likes == LikesOf(GlobsOf(ps))
  {
    exact, likes := [], [];
    for i := 0 to |ps|
      invariant exact == ExactOf(ps[..i]) && likes == LikesOf(GlobsOf(ps[..i]))
    {
      var p := ps[i];
      assert ps[..i + 1][..i] == ps[..i];
      if p == "" { continue; }
      if '*' in p {
        var lk := GlobToLike(p);
        likes := likes + [lk];
      } else {
        exact := exact + [p];
      }
    }
    assert ps[..|ps|] == ps;
  }

  /** `col NOT IN (?,…,?)`, when there is something to list. */
  method ListPart(col: Ref, exact: seq<string>) returns (parts: seq<seq<Token>>, args: seq<Arg>)
    ensures parts == Texts(ListFactor(col, exact)) && args == Binds(ListFactor(col, exact))
  {
    if |exact| == 0 {
      return [], [];
    }
    RepeatedHoles(|exact|, [RightParen]);
    var ph := Repeated(|exact|)[..2 * |exact| - 1];
    parts := [[Columns([col])] + ([NotWord, InWord, LeftParen] + (ph + [RightParen]))];
    args := ArgsOf(exact);
    OnePart(Test(col, NotIn(exact)));
    ArgsOfText(col, NotIn(exact));
    assert [RightParen] + [] == [RightParen];
  }

  lemma AppendLike(col: Ref, fs: seq<Factor>, likes: seq<string>, k: nat)
    requires k < |likes|
    ensures Texts(fs + LikeFactors(col, likes[..k + 1]))
         == Texts(fs + LikeFactors(col, likes[..k])) + [[Columns([col]), NotWord, LikeWord, Hole]]
    ensures Binds(fs + LikeFactors(col, likes[..k + 1])) == Binds(fs + LikeFactors(col, likes[..k])) + [Single(likes[k])]
  {
    var f := Test(col, NotLike(likes[k]));
    var done := fs + LikeFactors(col, likes[..k]);
    OnePart(f);
    ArgsOfText(col, NotLike(likes[k]));
    TextsAppend(done, [f]);
    BindsAppend(done, [f]);
    assert fs + LikeFactors(col, likes[..k + 1]) == done + [f];
    assert PrintF(f, []) == [Columns([col]), NotWord, LikeWord, Hole];
  }

  method Compile(col: Ref, ps: seq<string>) returns (sql: seq<Token>, args: seq<Arg>)
    ensures sql == AndTokens(Factors(col, ps)) && args == Binds(Factors(col, ps))
  {
    var exact, likes := Split(ps);
    ghost var first := ListFactor(col, exact);
    var parts;
    parts, args := ListPart(col, exact);
    assert first + LikeFactors(col, likes[..0]) == first;
    for k := 0 to |likes|
      invariant parts == Texts(first + LikeFactors(col, likes[..k]))
      invariant args == Binds(first + LikeFactors(col, likes[..k]))
    {
      AppendLike(col, first, likes, k);
      parts := parts + [[Columns([col]), NotWord, LikeWord, Hole]];
      args := args + [Single(likes[k])];
    }
    assert likes[..|likes|] == likes;
    if |parts| == 0 {
      return [], [];
    }
    JoinedAnd(Factors(col, ps));
    sql := Joined(parts, AndWord);
  }

  // The compiled form means what the patterns mean.

  lemma {:induction false} ExactOfHas(ps: seq<string>, p: string)
    ensures p in ExactOf(ps) <==> p in ps && Exact(p)
  {
    if ps != [] {
      ExactOfHas(ps[..|ps| - 1], p);
      assert ps == ps[..|ps| - 1] + [ps[|ps| - 1]];
    }
  }

  lemma {:induction false} GlobsOfHas(ps: seq<string>, p: string)
    ensures p in GlobsOf(ps) <==> p in ps && Starred(p)
  {
    if ps != [] {
      GlobsOfHas(ps[..|ps| - 1], p);
      assert ps == ps[..|ps| - 1] + [ps[|ps| - 1]];
    }
  }

  /** The fragment, seen as the list of its parts, keeps exactly the visible namespaces. */
  lemma FactorsMeaning(db: Db, env: Env, col: Ref, ps: seq<string>)
    ensures HoldsAll(db, env, Factors(col, ps)) <==> Visible(ps, Read(env, col))
    ensures Factors(col, ps) == [] <==> !Filters(ps)
  {
    FiltersMeaning(col, ps);
    var exact, globs := ExactOf(ps), GlobsOf(ps);
    HoldsAllAppend(db, env, ListFactor(col, exact), LikeFactors(col, LikesOf(globs)));
    if Filters(ps) {
      var v := Read(env, col);
      if v.Some? && v.value.Str? {
        var ns := v.value.text;
        ListMeaning(db, env, col, exact, ns);
        LikeMeaning(db, env, col, globs, ns);
        HiddenSplit(ps, ns);
      } else {
        var f := Factors(col, ps)[0];
        assert !HoldsF(db, env, f);
      }
    } else {
      assert Factors(col, ps) == [];
    }
  }

  lemma FiltersMeaning(col: Ref, ps: seq<string>)
    ensures Factors(col, ps) == [] <==> !Filters(ps)
  {
    if Filters(ps) {
      var i :| 0 <= i < |ps| && ps[i] != "";
      ExactOfHas(ps, ps[i]);
      GlobsOfHas(ps, ps[i]);
    }
    if ExactOf(ps) != [] { ExactOfHas(ps, ExactOf(ps)[0]); }
    if GlobsOf(ps) != [] { GlobsOfHas(ps, GlobsOf(ps)[0]); }
  }

  lemma ListMeaning(db: Db, env: Env, col: Ref, exact: seq<string>, ns: string)
    requires Read(env, col) == Some(Str(ns))
    ensures HoldsAll(db, env, ListFactor(col, exact)) <==> ns !in exact
  {
    if exact != [] {
      assert HoldsAll(db, env, ListFactor(col, exact)) <==> HoldsF(db, env, ListFactor(col, exact)[0]);
    }
  }

  lemma LikeMeaning(db: Db, env: Env, col: Ref, globs: seq<string>, ns: string)
    requires Read(env, col) == Some(Str(ns))
    ensures HoldsAll(db, env, LikeFactors(col, LikesOf(globs))) <==> forall p | p in globs :: !StarMatch(p, ns)
  {
    var fs := LikeFactors(col, LikesOf(globs));
    forall i | 0 <= i < |globs| ensures HoldsF(db, env, fs[i]) <==> !StarMatch(globs[i], ns) {
      LikeAgrees(globs[i], ns);
    }
    if HoldsAll(db, env, fs) {
      forall p | p in globs ensures !StarMatch(p, ns) {
        var i :| 0 <= i < |globs| && globs[i] == p;
        assert HoldsF(db, env, fs[i]);
      }
    } else {
      var i :| 0 <= i < |fs| && !HoldsF(db, env, fs[i]);
      assert globs[i] in globs;
    }
  }

  lemma HiddenSplit(ps: seq<string>, ns: string)
    ensures Hidden(ps, ns) <==> ns in ExactOf(ps) || exists p :: p in GlobsOf(ps) && StarMatch(p, ns)
  {
    ExactOfHas(ps, ns);
    if Hidden(ps, ns) {
      var i :| 0 <= i < |ps| && Hides(ps[i], ns);
      GlobsOfHas(ps, ps[i]);
      if Exact(ps[i]) { StarFree(ps[i], ns); }
    }
    if ns in ExactOf(ps) {
      var i :| 0 <= i < |ps| && ps[i] == ns;
      StarFree(ns, ns);
      assert Hides(ps[i], ns);
    }
    if exists p :: p in GlobsOf(ps) && StarMatch(p, ns) {
      var p :| p in GlobsOf(ps) && StarMatch(p, ns);
      GlobsOfHas(ps, p);
      var i :| 0 <= i < |ps| && ps[i] == p;
      assert Hides(ps[i], ns);
    }
  }

  /** An empty fragment adds no condition. */
  ghost predicate Keeps(db: Db, env: Env, sql: seq<Token>, args: seq<Arg>) {
    sql == [] || TextHolds(db, env, sql, args)
  }

  lemma FactorsFine(col: Ref, ps: seq<string>)
    ensures Fine(Factors(col, ps))
  {}

  lemma CompiledMeaning(db: Db, env: Env, col: Ref, ps: seq<string>)
    ensures Keeps(db, env, AndTokens(Factors(col, ps)), Binds(Factors(col, ps))) <==> Visible(ps, Read(env, col))
  {
    var fs := Factors(col, ps);
    FactorsMeaning(db, env, col, ps);
    FactorsFine(col, ps);
    if fs != [] {
      var e := Last(AllOf(fs));
      JoinedAnd(fs);
      ParsePrint(e);
      AllOfHolds(db, env, fs);
      assert Tokens(e) == AndTokens(fs) && Args(e) == Binds(fs);
    }
  }

  /** The emitted fragment, read with its arguments, keeps exactly the rows that no pattern hides. */
  method ExclusionSql(col: Ref, ps: seq<string>) returns (sql: seq<Token>, args: seq<Arg>)
    ensures sql == AndTokens(Factors(col, ps)) && args == Binds(Factors(col, ps))
    ensures forall db: Db, env: Env :: Keeps(db, env, sql, args) <==> Visible(ps, Read(env, col))
    ensures Holes(sql) == |args|
  {
    sql, args := Compile(col, ps);
    forall db: Db, env: Env ensures Keeps(db, env, sql, args) <==> Visible(ps, Read(env, col)) {
      CompiledMeaning(db, env, col, ps);
    }
    if Factors(col, ps) != [] {
      FactorsFine(col, ps);
      JoinedAnd(Factors(col, ps));
      PlaceholderCount(Last(AllOf(Factors(col, ps))));
    }
  }

  /** A matching function of the library: a verdict, or none for a malformed pattern. */
  type Matcher = (string, string) -> Option<bool>

  /** path.Match, as far as its documentation fixes it for plain patterns. */
  ghost predicate IsPathMatch(m: Matcher) {
    forall p: string, s: string :: Plain(p) ==> m(p, s) == Some(PathMatch(p, s))
  }

  /** The in-memory matcher: any pattern that the library matches, where a malformed pattern matches nothing. */
  method MatcherFor(m: Matcher, ps: seq<string>, ns: string) returns (hit: bool)
    ensures hit <==> exists i :: 0 <= i < |ps| && m(ps[i], ns) == Some(true)
  {
    for k := 0 to |ps|
      invariant forall i | 0 <= i < k :: m(ps[i], ns) != Some(true)
    {
      var ok := m(ps[k], ns);
      if ok.Some? && ok.value { return true; }
    }
    return false;
  }

  predicate Valid(ps: seq<string>) {
    forall i | 0 <= i < |ps| :: ValidPattern(ps[i])
  }

  lemma ValidPlain(ps: seq<string>)
    requires Valid(ps)
    ensures forall i | 0 <= i < |ps| :: Plain(ps[i])
  {
    forall i | 0 <= i < |ps| ensures Plain(ps[i]) { ValidIsPlain(ps[i]); }
  }

  /** For validated patterns and slash-free namespaces the SQL keeps a row exactly when the Go matcher rejects it. */
  lemma SqlAgreesWithMatcher(m: Matcher, ps: seq<string>, ns: string, col: Ref, db: Db, env: Env)
    requires IsPathMatch(m) && Valid(ps) && '/' !in ns && Read(env, col) == Some(Str(ns))
    ensures Keeps(db, env, AndTokens(Factors(col, ps)), Binds(Factors(col, ps)))
       <==> !exists i :: 0 <= i < |ps| && m(ps[i], ns) == Some(true)
  {
    ValidPlain(ps);
    CompiledMeaning(db, env, col, ps);
    forall i | 0 <= i < |ps| ensures m(ps[i], ns) == Some(true) <==> Hides(ps[i], ns) {
      PathAgrees(ps[i], ns);
    }
  }
}

/** The grant compiler: token lists and arguments grown part by part, as the Go code grows its strings. */
module AclCompiler {
  import opened Wrappers
  import opened SqlSyntax
  import opened SqlMeaning
  import opened SqlParts
  import opened AclGrants
  import opened AclTrees
  import opened AclScopes
  import HiddenNamespaces

  datatype Clause = Clause(sql: seq<Token>, args: seq<Arg>, unrestricted: bool)

  const UNRESTRICTED := Clause([], [], true)

  const DENY: seq<Token> := [OneWord, Equals, ZeroWord]

  predicate Deny(c: Clause) { !c.unrestricted && c.sql == DENY }

  /** The subject's grants per scope; None is a failed lookup, and a missing provider has no grants. */
  datatype Provider = Provider(repo: Option<seq<ScopePattern>>, cluster: Option<seq<ScopePattern>>, image: Option<seq<ScopePattern>>)

  datatype Subject = Subject(isAdmin: bool, isGlobalReader: bool)

  function Known(g: Option<seq<ScopePattern>>): seq<ScopePattern> {
    if g.Some? then g.value else []
  }

  function TrimmedAlias(alias: string, fallback: string): string {
    var t := TrimRight(TrimLeft(alias));
    if t == "" then fallback else t
  }

  predicate Spaces(s: string) { forall i | 0 <= i < |s| :: s[i] == ' ' }

  /** Trimming takes the spaces at both ends and nothing else. */
  lemma {:induction false} TrimmedMeaning(before: string, core: string, after: string)
    requires Spaces(before) && Spaces(after) && (core != "" ==> core[0] != ' ' && core[|core| - 1] != ' ')
    ensures TrimRight(TrimLeft(before + core + after)) == core
  {
    if before != "" {
      assert (before + core + after)[1..] == before[1..] + core + after;
      TrimmedMeaning(before[1..], core, after);
    } else if after != "" && core != "" {
      var s := before + core + after;
      assert TrimLeft(s) == s && s[..|s| - 1] == before + core + after[..|after| - 1];
      TrimmedMeaning(before, core, after[..|after| - 1]);
      assert TrimLeft(s[..|s| - 1]) == s[..|s| - 1];
    } else if after != "" {
      assert before + core + after == after && (before + core + after)[1..] == before + core + after[1..];
      TrimmedMeaning(before, core, after[1..]);
    } else {
      assert before + core + after == core;
    }
  }

  /** An alias is taken without the spaces around it, and replaced when it is nothing but spaces. */
  lemma AliasMeaning(before: string, core: string, after: string, fallback: string)
    requires Spaces(before) && Spaces(after) && (core != "" ==> core[0] != ' ' && core[|core| - 1] != ' ')
    ensures TrimmedAlias(before + core + after, fallback) == if core == "" then fallback else core
  {
    TrimmedMeaning(before, core, after);
  }

  function Render(s: Scope): Clause {
    match s
    case Everything => UNRESTRICTED
    case Filter(e) => Clause(Tokens(e), Args(e), false)
  }

  /** A caller adds the clause to its query unless it is unrestricted. */
  ghost predicate Admits(db: Db, env: Env, c: Clause) {
    c.unrestricted || TextHolds(db, env, c.sql, c.args)
  }

  lemma RenderAdmits(db: Db, env: Env, s: Scope)
    requires FineScope(s)
    ensures Admits(db, env, Render(s)) <==> ScopeAdmits(db, env, s)
    ensures Holes(Render(s).sql) == |Render(s).args|
  {
    if s.Filter? {
      ParsePrint(s.e);
      PlaceholderCount(s.e);
    }
  }

  // Texts of joined parts.

  function OrTokens(fs: seq<Factor>): seq<Token> {
    if fs == [] then [] else Tokens(AnyOf(fs))
  }

  lemma JoinedParts(fs: seq<Factor>)
    ensures Joined(Texts(fs), OrWord) == OrTokens(fs)
    ensures Texts(fs) == [] <==> fs == []
    ensures fs == [] ==> Binds(fs) == []
  {
    if fs != [] { JoinedOr(fs); }
  }

  lemma TextNotEmpty(fs: seq<Factor>)
    requires fs != []
    ensures OrTokens(fs) != []
  {
    var f := fs[0];
    var rest := if |fs| == 1 then [] else [OrWord] + PrintE(AnyOf(fs[1..]), []);
    assert OrTokens(fs) == PrintT(Only(f), rest) == PrintF(f, rest);
  }

  lemma ParenText(e: Expr)
    ensures PrintF(Paren(e), []) == [LeftParen] + Tokens(e) + [RightParen]
    ensures ArgsF(Paren(e), []) == Args(e)
  {
    AppendE(e, [], [RightParen]);
    assert [RightParen] + [] == [] + [RightParen];
    assert [LeftParen] + (Tokens(e) + [RightParen]) == [LeftParen] + Tokens(e) + [RightParen];
  }

  lemma WrappedText(fs: seq<Factor>)
    requires fs != []
    ensures Texts(Wrapped(fs)) == [[LeftParen] + OrTokens(fs) + [RightParen]]
    ensures Binds(Wrapped(fs)) == Binds(fs)
  {
    ParenText(AnyOf(fs));
    OnePart(Paren(AnyOf(fs)));
    JoinedOr(fs);
  }

  lemma GroupedText(conds: seq<Factor>)
    requires conds != []
    ensures Texts(Grouped(conds)) == [[LeftParen] + Joined(Texts(conds), AndWord) + [RightParen]]
    ensures Binds(Grouped(conds)) == Binds(conds)
  {
    var e := Last(AllOf(conds));
    ParenText(e);
    OnePart(Paren(e));
    JoinedAnd(conds);
    assert Tokens(e) == PrintT(AllOf(conds), []);
  }

  lemma CondText(a: string, column: string, v: string)
    requires v != ""
    ensures Texts(Cond(a, column, v)) == [[Columns([Col(a, column)]), Equals, Hole]]
    ensures Binds(Cond(a, column, v)) == [Single(v)]
  {
    var f := Test(Col(a, column), EqArg(v));
    OnePart(f);
    assert PrintF(f, []) == [Columns([Col(a, column)]), Equals, Hole];
  }

  lemma AppendBoth(fs: seq<Factor>, gs: seq<Factor>)
    ensures Texts(fs + gs) == Texts(fs) + Texts(gs) && Binds(fs + gs) == Binds(fs) + Binds(gs)
  {
    TextsAppend(fs, gs);
    BindsAppend(fs, gs);
  }

  /** One `if field != ""` of the loop bodies, adding to the conditions fs. */
  method AddCondition(conds: seq<seq<Token>>, args: seq<Arg>, a: string, column: string, v: string, ghost fs: seq<Factor>, ghost before: seq<Arg>)
    returns (conds': seq<seq<Token>>, args': seq<Arg>)
    requires conds == Texts(fs) && args == before + Binds(fs)
    ensures conds' == Texts(fs + Cond(a, column, v)) && args' == before + Binds(fs + Cond(a, column, v))
  {
    AppendBoth(fs, Cond(a, column, v));
    conds', args' := conds, args;
    if v != "" {
      CondText(a, column, v);
      conds' := conds' + [[Columns([Col(a, column)]), Equals, Hole]];
      args' := args' + [Single(v)];
    }
  }

  method RepoConditions(p: ScopePattern, a: string, args: seq<Arg>) returns (conds: seq<seq<Token>>, args': seq<Arg>)
    ensures conds == Texts(RepoConds(p, a)) && args' == args + Binds(RepoConds(p, a))
  {
    ghost var c1, c2, c3 := Cond(a, "provider", p.provider), Cond(a, "provider_instance_id", p.instance), Cond(a, "org", p.owner);
    assert [] + c1 == c1;
    conds, args' := AddCondition([], args, a, "provider", p.provider, [], args);
    conds, args' := AddCondition(conds, args', a, "provider_instance_id", p.instance, c1, args);
    conds, args' := AddCondition(conds, args', a, "org", p.owner, c1 + c2, args);
    conds, args' := AddCondition(conds, args', a, "slug", p.slug, c1 + c2 + c3, args);
  }

  method ImageConditions(p: ScopePattern, a: string, args: seq<Arg>) returns (conds: seq<seq<Token>>, args': seq<Arg>)
    ensures conds == Texts(ImageConds(p, a)) && args' == args + Binds(ImageConds(p, a))
  {
    ghost var c1, c2 := Cond(a, "registry", p.registry), Cond(a, "repository", p.repository);
    assert [] + c1 == c1;
    conds, args' := AddCondition([], args, a, "registry", p.registry, [], args);
    conds, args' := AddCondition(conds, args', a, "repository", p.repository, c1, args);
    conds, args' := AddCondition(conds, args', a, "digest", p.digest, c1 + c2, args);
  }

  /** What one grant adds: a parenthesised conjunction, or nothing for a grant that sets no such field. */
  method RepoPart(p: ScopePattern, a: string, args: seq<Arg>) returns (parts: seq<seq<Token>>, args': seq<Arg>)
    ensures parts == Texts(Grouped(RepoConds(p, a))) && args' == args + Binds(Grouped(RepoConds(p, a)))
  {
    var conds;
    conds, args' := RepoConditions(p, a, args);
    parts := [];
    if |conds| > 0 {
      GroupedText(RepoConds(p, a));
      parts := [[LeftParen] + Joined(conds, AndWord) + [RightParen]];
    }
  }

  method ImagePart(p: ScopePattern, a: string, args: seq<Arg>) returns (parts: seq<seq<Token>>, args': seq<Arg>)
    ensures parts == Texts(Grouped(ImageConds(p, a))) && args' == args + Binds(Grouped(ImageConds(p, a)))
  {
    var conds;
    conds, args' := ImageConditions(p, a, args);
    parts := [];
    if |conds| > 0 {
      GroupedText(ImageConds(p, a));
      parts := [[LeftParen] + Joined(conds, AndWord) + [RightParen]];
    }
  }

  method ClusterPart(p: ScopePattern, a: string, args: seq<Arg>) returns (parts: seq<seq<Token>>, args': seq<Arg>)
    ensures parts == Texts(Cond(a, "cluster_id", p.clusterId)) && args' == args + Binds(Cond(a, "cluster_id", p.clusterId))
  {
    parts, args' := [], args;
    if p.clusterId != "" {
      CondText(a, "cluster_id", p.clusterId);
      parts := [[Columns([Col(a, "cluster_id")]), Equals, Hole]];
      args' := args + [Single(p.clusterId)];
    }
  }

  method AddPart(kind: Kind, parts: seq<seq<Token>>, args: seq<Arg>, p: ScopePattern, a: string, ghost fs: seq<Factor>)
    returns (parts': seq<seq<Token>>, args': seq<Arg>)
    requires parts == Texts(fs) && args == Binds(fs)
    ensures parts' == Texts(fs + Part(kind, p, a)) && args' == Binds(fs + Part(kind, p, a))
  {
    AppendBoth(fs, Part(kind, p, a));
    var more;
    match kind {
      case RepoKind => more, args' := RepoPart(p, a, args);
      case ClusterKind => more, args' := ClusterPart(p, a, args);
      case ImageKind => more, args' := ImagePart(p, a, args);
    }
    parts' := parts + more;
  }

  lemma PartsStep(kind: Kind, ps: seq<ScopePattern>, a: string, i: nat)
    requires i < |ps|
    ensures Parts(kind, ps[..i + 1], a) == Parts(kind, ps[..i], a) + Part(kind, ps[i], a)
  {
    assert ps[..i + 1][..i] == ps[..i];
  }

  lemma WildcardStep(ps: seq<ScopePattern>, i: nat)
    requires i < |ps|
    ensures HasWildcard(ps[..i + 1]) <==> HasWildcard(ps[..i]) || IsWildcard(ps[i])
    ensures HasWildcard(ps[..i + 1]) ==> HasWildcard(ps)
  {}

  /** The loop over grants, which a wildcard ends at once. */
  method CollectParts(kind: Kind, ps: seq<ScopePattern>, a: string) returns (parts: seq<seq<Token>>, args: seq<Arg>, all: bool)
    ensures all <==> HasWildcard(ps)
    ensures !all ==> parts == Texts(Parts(kind, ps, a)) && args == Binds(Parts(kind, ps, a))
  {
    parts, args, all := [], [], false;
    ghost var fs: seq<Factor> := [];
    for i := 0 to |ps|
      invariant !HasWildcard(ps[..i])
      invariant fs == Parts(kind, ps[..i], a) && parts == Texts(fs) && args == Binds(fs)
    {
      var p := ps[i];
      WildcardStep(ps, i);
      if IsWildcard(p) { return [], [], true; }
      PartsStep(kind, ps, a, i);
      parts, args := AddPart(kind, parts, args, p, a, fs);
      fs := fs + Part(kind, p, a);
    }
    assert ps[..|ps|] == ps;
  }

  /** The three pattern compilers, which differ only in what one grant adds. */
  method CompilePatterns(kind: Kind, ps: seq<ScopePattern>, a: string) returns (sql: seq<Token>, args: seq<Arg>, all: bool)
    ensures all <==> HasWildcard(ps)
    ensures !all ==> sql == OrTokens(Parts(kind, ps, a)) && args == Binds(Parts(kind, ps, a))
    ensures all ==> sql == [] && args == []
  {
    var parts;
    parts, args, all := CollectParts(kind, ps, a);
    if all { return [], [], true; }
    JoinedParts(Parts(kind, ps, a));
    if |parts| == 0 { return [], [], false; }
    return Joined(parts, OrWord), args, false;
  }

  /** The loop that both cluster compilers start with. */
  method CollectIds(ps: seq<ScopePattern>) returns (wildcard: bool, ids: seq<string>)
    ensures wildcard <==> HasWildcard(ps)
    ensures !wildcard ==> ids == Ids(ps)
  {
    ids := [];
    for i := 0 to |ps|
      invariant !HasWildcard(ps[..i])
      invariant ids == Ids(ps[..i])
    {
      WildcardStep(ps, i);
      assert ps[..i + 1][..i] == ps[..i];
      if IsWildcard(ps[i]) { return true, ids; }
      if ps[i].clusterId != "" { ids := ids + [ps[i].clusterId]; }
    }
    assert ps[..|ps|] == ps;
    return false, ids;
  }

  // The fixed texts.

  lemma TwoText(f: Factor, g: Factor, rest: seq<Token>)
    ensures PrintT(AllOf([f, g]), rest) == PrintF(f, [AndWord] + PrintF(g, rest))
    ensures ArgsT(AllOf([f, g]), []) == ArgsF(f, ArgsF(g, []))
  {
    assert [f, g][1..] == [g];
    assert AllOf([g]) == Only(g);
    assert AllOf([f, g]) == And(f, Only(g));
  }

  /** `(c <> '' AND c IN ?)`. */
  function PairSql(c: Ref): seq<Token> {
    [LeftParen, Columns([c]), Differs, NoText, AndWord, Columns([c]), InWord, Hole, RightParen]
  }

  function ResolveTestsSql(): seq<Token> {
    [Columns([Col("", "cluster_id")]), InWord, Hole]
    + ([OrWord] + (PairSql(Ref("", "ror_slug", true)) + ([OrWord] + PairSql(Col("", "ror_cluster_uid")))))
  }

  /** The subquery that resolves grant ids, which are bound three times. */
  function ResolveSql(): seq<Token> {
    [SelectWord] + ([Columns([Col("", "cluster_id")]), FromTable("clusters", "clusters"), WhereWord] + ResolveTestsSql())
  }

  function ResolveArgs(ids: seq<string>): seq<Arg> {
    [Many(ids), Many(ids), Many(ids)]
  }

  lemma PairText(c: Ref, ids: seq<string>)
    ensures PrintF(Paren(Last(AllOf([Test(c, NonEmpty), Test(c, InList(ids))]))), []) == PairSql(c)
    ensures ArgsF(Paren(Last(AllOf([Test(c, NonEmpty), Test(c, InList(ids))]))), []) == [Many(ids)]
  {
    var f, g := Test(c, NonEmpty), Test(c, InList(ids));
    TwoText(f, g, [RightParen]);
    var e := Last(AllOf([f, g]));
    assert [RightParen] + [] == [RightParen];
    assert PrintF(g, [RightParen]) == [Columns([c]), InWord, Hole, RightParen];
    assert PrintE(e, [RightParen]) == PrintF(f, [AndWord] + PrintF(g, [RightParen]));
    assert ArgsF(g, []) == [Many(ids)];
    assert ArgsE(e, []) == ArgsF(f, ArgsF(g, []));
  }

  lemma AnyCons(f: Factor, fs: seq<Factor>)
    requires fs != []
    ensures Tokens(AnyOf([f] + fs)) == PrintF(f, []) + ([OrWord] + Tokens(AnyOf(fs)))
    ensures Args(AnyOf([f] + fs)) == ArgsF(f, []) + Args(AnyOf(fs))
  {
    var all := [f] + fs;
    assert all[1..] == fs;
    assert AnyOf(all) == Or(Only(f), AnyOf(fs));
    AppendF(f, [], [OrWord] + Tokens(AnyOf(fs)));
    assert [] + ([OrWord] + Tokens(AnyOf(fs))) == [OrWord] + Tokens(AnyOf(fs));
    assert Tokens(AnyOf(all)) == PrintT(Only(f), [OrWord] + Tokens(AnyOf(fs)));
    AppendArgsF(f, [], Args(AnyOf(fs)));
    assert [] + Args(AnyOf(fs)) == Args(AnyOf(fs));
    assert Args(AnyOf(all)) == ArgsT(Only(f), Args(AnyOf(fs)));
  }

  lemma ThreeAny(f: Factor, g: Factor, h: Factor)
    ensures Tokens(AnyOf([f, g, h])) == PrintF(f, []) + ([OrWord] + (PrintF(g, []) + ([OrWord] + PrintF(h, []))))
    ensures Args(AnyOf([f, g, h])) == ArgsF(f, []) + (ArgsF(g, []) + ArgsF(h, []))
  {
    assert [f, g, h] == [f] + [g, h] && [g, h] == [g] + [h];
    AnyCons(f, [g, h]);
    AnyCons(g, [h]);
    assert Tokens(AnyOf([h])) == PrintT(Only(h), []) && Args(AnyOf([h])) == ArgsT(Only(h), []);
  }

  lemma ResolveTestsText(ids: seq<string>)
    ensures Tokens(AnyOf(ResolveTests(ids))) == ResolveTestsSql()
    ensures Args(AnyOf(ResolveTests(ids))) == ResolveArgs(ids)
  {
    var fs := ResolveTests(ids);
    PairText(Ref("", "ror_slug", true), ids);
    PairText(Col("", "ror_cluster_uid"), ids);
    ThreeAny(fs[0], fs[1], fs[2]);
    assert PrintF(fs[0], []) == [Columns([Col("", "cluster_id")]), InWord, Hole];
    assert ArgsF(fs[0], []) == [Many(ids)];
    assert [Many(ids)] + ([Many(ids)] + [Many(ids)]) == ResolveArgs(ids);
  }

  lemma ResolveText(ids: seq<string>)
    ensures PrintQ(ResolveQuery(ids), []) == ResolveSql()
    ensures ArgsQ(ResolveQuery(ids), []) == ResolveArgs(ids)
  {
    var q := ResolveQuery(ids);
    ResolveTestsText(ids);
    assert PrintQ(q, []) == [SelectWord] + PrintBody(q, []);
  }

  /** `c IN (<resolve>)`. */
  function InResolve(c: Ref): seq<Token> {
    [Columns([c]), InWord, LeftParen] + ResolveSql() + [RightParen]
  }

  lemma InResolveText(c: Ref, ids: seq<string>, rest: seq<Token>)
    ensures PrintF(InSelect([c], ResolveQuery(ids)), rest) == InResolve(c) + rest
    ensures ArgsF(InSelect([c], ResolveQuery(ids)), []) == ResolveArgs(ids)
  {
    var q := ResolveQuery(ids);
    ResolveText(ids);
    AppendQ(q, [], [RightParen] + rest);
    assert [] + ([RightParen] + rest) == [RightParen] + rest;
    Regroup([Columns([c]), InWord, LeftParen], ResolveSql(), [RightParen], rest);
  }

  lemma ThreeText(f: Factor, g: Factor, h: Factor, rest: seq<Token>)
    ensures PrintT(AllOf([f, g, h]), rest) == PrintF(f, [AndWord] + PrintF(g, [AndWord] + PrintF(h, rest)))
    ensures ArgsT(AllOf([f, g, h]), []) == ArgsF(f, ArgsF(g, ArgsF(h, [])))
  {
    assert [f, g, h][1..] == [g, h];
    TwoText(g, h, rest);
    assert AllOf([f, g, h]) == And(f, AllOf([g, h]));
  }

  /** The join condition between running and known images. */
  function OnSql(): seq<Token> {
    [Columns([Col("cii", "raw_registry")]), Equals, Columns([Col("d", "registry")]), AndWord,
     Columns([Col("cii", "image")]), Equals, Columns([Col("d", "repository")]), AndWord,
     Columns([Col("cii", "digest")]), Equals, Columns([Col("d", "digest")])]
  }

  lemma OnText(rest: seq<Token>, args: seq<Arg>)
    ensures PrintE(Last(AllOf(OnTests())), rest) == OnSql() + rest
    ensures ArgsE(Last(AllOf(OnTests())), args) == args
  {
    var fs := OnTests();
    ThreeText(fs[0], fs[1], fs[2], rest);
    assert PrintE(Last(AllOf(fs)), rest) == PrintT(AllOf(fs), rest);
    assert PrintF(fs[2], rest) == OnSql()[8..] + rest;
    assert PrintF(fs[1], [AndWord] + PrintF(fs[2], rest)) == OnSql()[4..] + rest;
    NoArgs(fs, args);
  }

  /** Comparisons with constants and with other columns bind nothing. */
  lemma NoArgs(fs: seq<Factor>, args: seq<Arg>)
    requires fs != [] && forall i | 0 <= i < |fs| :: fs[i].Test? && (fs[i].op.EqBool? || fs[i].op.EqCol? || fs[i].op.NonEmpty?)
    ensures ArgsT(AllOf(fs), args) == args
  {
    if |fs| > 1 { NoArgs(fs[1..], args); }
  }

  function SourceSql(): seq<Token> {
    [Columns([Col("d", "verified_source")]), Equals, TrueWord, AndWord, Columns([Col("d", "source_repo_id")]), Differs, NoText]
  }

  /** The bridge's condition on images. */
  function BridgeWhere(wildcard: bool): seq<Token> {
    if wildcard then SourceSql() else SourceSql() + [AndWord] + InResolve(Col("cii", "cluster_id"))
  }

  lemma SourceText(rest: seq<Token>)
    ensures PrintF(SourceTests()[0], [AndWord] + PrintF(SourceTests()[1], rest)) == SourceSql() + rest
  {
    assert PrintF(SourceTests()[1], rest) == SourceSql()[4..] + rest;
  }

  lemma Regroup(x: seq<Token>, y: seq<Token>, z: seq<Token>, rest: seq<Token>)
    ensures x + (y + (z + rest)) == x + y + z + rest
  {}

  lemma BridgeWhereText(ps: seq<ScopePattern>, rest: seq<Token>)
    requires Opening(ps)
    ensures PrintE(Last(AllOf(BridgeTests(ps))), rest) == BridgeWhere(HasWildcard(ps)) + rest
    ensures ArgsE(Last(AllOf(BridgeTests(ps))), []) == ClusterArgs(ps)
  {
    var fs, s := BridgeTests(ps), SourceTests();
    assert PrintE(Last(AllOf(fs)), rest) == PrintT(AllOf(fs), rest);
    if HasWildcard(ps) {
      TwoText(s[0], s[1], rest);
      SourceText(rest);
      NoArgs(s, []);
    } else {
      var f := InSelect([Col("cii", "cluster_id")], ResolveQuery(Ids(ps)));
      assert fs == [s[0], s[1], f];
      NarrowText(Ids(ps), rest);
    }
  }

  lemma NarrowText(ids: seq<string>, rest: seq<Token>)
    ensures var s, f := SourceTests(), InSelect([Col("cii", "cluster_id")], ResolveQuery(ids));
      PrintT(AllOf([s[0], s[1], f]), rest) == BridgeWhere(false) + rest && ArgsT(AllOf([s[0], s[1], f]), []) == ResolveArgs(ids)
  {
    var s, c := SourceTests(), Col("cii", "cluster_id");
    ThreeText(s[0], s[1], InSelect([c], ResolveQuery(ids)), rest);
    InResolveText(c, ids, rest);
    SourceText([AndWord] + (InResolve(c) + rest));
    Regroup(SourceSql(), [AndWord], InResolve(c), rest);
  }

  function BridgeSql(a: string, wildcard: bool): seq<Token> {
    [Columns([Col(a, "id")]), InWord, LeftParen]
    + ([SelectWord, DistinctWord]
    + ([Columns([Col("d", "source_repo_id")]), FromTable("image_digests", "d"), JoinTable("cluster_image_inventory", "cii"), OnWord]
    + (OnSql()
    + ([WhereWord] + (BridgeWhere(wildcard) + [RightParen])))))
  }

  lemma BridgeBody(ps: seq<ScopePattern>)
    requires Opening(ps)
    ensures PrintBody(BridgeQuery(ps), [RightParen])
         == [Columns([Col("d", "source_repo_id")]), FromTable("image_digests", "d"), JoinTable("cluster_image_inventory", "cii"), OnWord]
            + (OnSql() + ([WhereWord] + (BridgeWhere(HasWildcard(ps)) + [RightParen])))
    ensures ArgsQ(BridgeQuery(ps), []) == ClusterArgs(ps)
  {
    var q := BridgeQuery(ps);
    BridgeWhereText(ps, [RightParen]);
    OnText([WhereWord] + PrintE(q.filter, [RightParen]), ArgsE(q.filter, []));
  }

  lemma InText(cs: seq<Ref>, q: Query)
    ensures OrTokens([InSelect(cs, q)]) == [Columns(cs), InWord, LeftParen] + PrintQ(q, [RightParen])
    ensures Binds([InSelect(cs, q)]) == ArgsQ(q, [])
  {
    var f := InSelect(cs, q);
    OnePart(f);
    assert OrTokens([f]) == PrintT(Only(f), []) == PrintF(f, []);
    assert [RightParen] + [] == [RightParen];
  }

  lemma BridgeText(ps: seq<ScopePattern>, a: string)
    requires Opening(ps)
    ensures OrTokens(BridgeParts(ps, a)) == BridgeSql(a, HasWildcard(ps))
    ensures Binds(BridgeParts(ps, a)) == ClusterArgs(ps)
  {
    var q := BridgeQuery(ps);
    InText([Col(a, "id")], q);
    BridgeBody(ps);
    assert PrintQ(q, [RightParen]) == [SelectWord, DistinctWord] + PrintBody(q, [RightParen]);
  }

  method CompileClusterRepoBridge(ps: seq<ScopePattern>, a: string) returns (sql: seq<Token>, args: seq<Arg>)
    ensures sql == OrTokens(BridgeParts(ps, a)) && args == Binds(BridgeParts(ps, a))
  {
    if |ps| == 0 { return [], []; }
    var wildcard, ids := CollectIds(ps);
    if !wildcard && |ids| == 0 { return [], []; }
    BridgeText(ps, a);
    sql := BridgeSql(a, wildcard);
    args := if wildcard then [] else ResolveArgs(ids);
  }

  // Images running in granted clusters.

  function InheritSql(a: string, wildcard: bool, more: seq<Token>): seq<Token> {
    [LeftParen]
    + ([Columns(ImageKey(a)), InWord, LeftParen]
    + ([SelectWord, Columns(InventoryKey()), FromTable("cluster_image_inventory", "cluster_image_inventory"), WhereWord]
    + (InheritWhere(wildcard) + (more + [RightParen, RightParen]))))
  }

  function InheritWhere(wildcard: bool): seq<Token> {
    if wildcard then [TrueWord] else InResolve(Col("", "cluster_id"))
  }

  /** The grant ids, bound where they are resolved. */
  function ClusterArgs(ps: seq<ScopePattern>): seq<Arg> {
    if HasWildcard(ps) then [] else ResolveArgs(Ids(ps))
  }

  /** The namespace conditions that follow the one on the cluster. */
  function AndMore(fs: seq<Factor>): seq<Token> {
    if fs == [] then [] else [AndWord] + HiddenNamespaces.AndTokens(fs)
  }

  lemma ConsText(f: Factor, fs: seq<Factor>, rest: seq<Token>)
    ensures PrintT(AllOf([f] + fs), rest) == PrintF(f, AndMore(fs) + rest)
    ensures ArgsT(AllOf([f] + fs), []) == ArgsF(f, Binds(fs))
  {
    var all := [f] + fs;
    assert all[1..] == fs;
    if fs == [] {
      assert AndMore(fs) + rest == rest;
    } else {
      JoinedAnd(fs);
      AppendT(AllOf(fs), [], rest);
      assert [] + rest == rest;
      assert [AndWord] + PrintT(AllOf(fs), []) + rest == [AndWord] + (PrintT(AllOf(fs), []) + rest);
    }
  }

  lemma ClusterTestText(ps: seq<ScopePattern>, rest: seq<Token>, args: seq<Arg>)
    ensures PrintF(ClusterTest(Col("", "cluster_id"), ps), rest) == InheritWhere(HasWildcard(ps)) + rest
    ensures ArgsF(ClusterTest(Col("", "cluster_id"), ps), args) == ClusterArgs(ps) + args
  {
    var c := Col("", "cluster_id");
    if !HasWildcard(ps) {
      InResolveText(c, Ids(ps), rest);
      AppendArgsF(ClusterTest(c, ps), [], args);
      assert [] + args == args;
    } else {
      assert ClusterArgs(ps) + args == args;
    }
  }

  lemma InheritText(ps: seq<ScopePattern>, a: string, hidden: seq<string>)
    requires Opening(ps)
    ensures Texts(InheritParts(ps, a, hidden))
         == [InheritSql(a, HasWildcard(ps), AndMore(HiddenNamespaces.Factors(Col("", "namespace"), hidden)))]
    ensures Binds(InheritParts(ps, a, hidden)) == ClusterArgs(ps) + Binds(HiddenNamespaces.Factors(Col("", "namespace"), hidden))
  {
    var q := InventoryQuery(ps, hidden);
    var sel := InSelect(ImageKey(a), q);
    OnePart(Paren(Last(Only(sel))));
    OnlyText(sel);
    assert [RightParen] + [RightParen] == [RightParen, RightParen];
    assert PrintF(sel, [RightParen]) == [Columns(ImageKey(a)), InWord, LeftParen] + PrintQ(q, [RightParen, RightParen]);
    InventoryText(ps, hidden, [RightParen, RightParen]);
    InventoryTestsText(ps, hidden);
  }

  lemma InventoryTestsText(ps: seq<ScopePattern>, hidden: seq<string>)
    ensures PrintT(AllOf(InventoryTests(ps, hidden)), [RightParen, RightParen])
         == InheritWhere(HasWildcard(ps)) + (AndMore(HiddenNamespaces.Factors(Col("", "namespace"), hidden)) + [RightParen, RightParen])
    ensures ArgsT(AllOf(InventoryTests(ps, hidden)), []) == ClusterArgs(ps) + Binds(HiddenNamespaces.Factors(Col("", "namespace"), hidden))
  {
    var ns := HiddenNamespaces.Factors(Col("", "namespace"), hidden);
    ConsText(ClusterTest(Col("", "cluster_id"), ps), ns, [RightParen, RightParen]);
    ClusterTestText(ps, AndMore(ns) + [RightParen, RightParen], Binds(ns));
  }

  lemma InventoryText(ps: seq<ScopePattern>, hidden: seq<string>, rest: seq<Token>)
    ensures PrintQ(InventoryQuery(ps, hidden), rest)
         == [SelectWord, Columns(InventoryKey()), FromTable("cluster_image_inventory", "cluster_image_inventory"), WhereWord]
            + PrintT(AllOf(InventoryTests(ps, hidden)), rest)
    ensures ArgsQ(InventoryQuery(ps, hidden), []) == ArgsT(AllOf(InventoryTests(ps, hidden)), [])
  {
    var q := InventoryQuery(ps, hidden);
    assert PrintE(q.filter, rest) == PrintT(AllOf(InventoryTests(ps, hidden)), rest);
    assert ArgsE(q.filter, []) == ArgsT(AllOf(InventoryTests(ps, hidden)), []);
    assert PrintQ(q, rest) == [SelectWord] + PrintBody(q, rest);
  }

  lemma OnlyText(f: Factor)
    ensures PrintF(Paren(Last(Only(f))), []) == [LeftParen] + PrintF(f, [RightParen])
    ensures ArgsF(Paren(Last(Only(f))), []) == ArgsF(f, [])
  {
    assert [RightParen] + [] == [RightParen];
    assert PrintE(Last(Only(f)), [RightParen]) == PrintT(Only(f), [RightParen]);
    assert ArgsE(Last(Only(f)), []) == ArgsT(Only(f), []);
  }

  method CompileClusterImageInheritance(ps: seq<ScopePattern>, a: string, nsSql: seq<Token>, nsArgs: seq<Arg>, ghost hidden: seq<string>)
    returns (sql: seq<Token>, args: seq<Arg>)
    requires nsSql == HiddenNamespaces.AndTokens(HiddenNamespaces.Factors(Col("", "namespace"), hidden))
    requires nsArgs == Binds(HiddenNamespaces.Factors(Col("", "namespace"), hidden))
    ensures InheritParts(ps, a, hidden) == [] ==> sql == [] && args == []
    ensures InheritParts(ps, a, hidden) != [] ==> sql != [] && Texts(InheritParts(ps, a, hidden)) == [sql] && Binds(InheritParts(ps, a, hidden)) == args
  {
    if |ps| == 0 { return [], []; }
    var wildcard, ids := CollectIds(ps);
    var nsWhere := [];
    if nsSql != [] { nsWhere := [AndWord] + nsSql; }
    NamespaceText(hidden);
    if wildcard {
      InheritText(ps, a, hidden);
      assert [] + nsArgs == nsArgs;
      return InheritSql(a, true, nsWhere), nsArgs;
    }
    if |ids| == 0 { return [], []; }
    InheritText(ps, a, hidden);
    return InheritSql(a, false, nsWhere), ResolveArgs(ids) + nsArgs;
  }

  lemma NamespaceText(hidden: seq<string>)
    ensures var fs := HiddenNamespaces.Factors(Col("", "namespace"), hidden);
      HiddenNamespaces.AndTokens(fs) == [] <==> fs == []
  {
    var fs := HiddenNamespaces.Factors(Col("", "namespace"), hidden);
    if fs != [] {
      var rest := if |fs| == 1 then [] else [AndWord] + PrintT(AllOf(fs[1..]), []);
      assert PrintT(AllOf(fs), []) == PrintF(fs[0], rest);
    }
  }
}

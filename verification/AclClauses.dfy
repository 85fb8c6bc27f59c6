/** The clauses callers ask for: repositories, strictly or not, clusters and images. */
module AclClauses {
  import opened Wrappers
  import opened SqlSyntax
  import opened SqlMeaning
  import opened SqlParts
  import opened AclGrants
  import opened AclTrees
  import opened AclScopes
  import opened AclCompiler
  import HiddenNamespaces

  /** The grant and bridge fragments of a repository clause, or the news that some grant matches all. */
  datatype RepoFragments = RepoFragments(grantSql: seq<Token>, grantArgs: seq<Arg>, all: bool, bridgeSql: seq<Token>, bridgeArgs: seq<Arg>)

  /** Cluster grants are consulted only when no repository grant is a wildcard. */
  predicate RepoLookupFails(p: Provider) {
    p.repo.None? || (!HasWildcard(p.repo.value) && p.cluster.None?)
  }

  method RepoClauseParts(p: Provider, a: string) returns (r: Option<RepoFragments>)
    ensures r.None? <==> RepoLookupFails(p)
    ensures r.Some? ==> (r.value.all <==> HasWildcard(Known(p.repo)))
    ensures r.Some? && !r.value.all ==>
      && r.value.grantSql == OrTokens(Parts(RepoKind, Known(p.repo), a)) && r.value.grantArgs == Binds(Parts(RepoKind, Known(p.repo), a))
      && r.value.bridgeSql == OrTokens(BridgeParts(Known(p.cluster), a)) && r.value.bridgeArgs == Binds(BridgeParts(Known(p.cluster), a))
  {
    if p.repo.None? { return None; }
    var grantSql, grantArgs, all := CompilePatterns(RepoKind, p.repo.value, a);
    if all { return Some(RepoFragments([], [], true, [], [])); }
    if p.cluster.None? { return None; }
    var bridgeSql, bridgeArgs := CompileClusterRepoBridge(p.cluster.value, a);
    return Some(RepoFragments(grantSql, grantArgs, false, bridgeSql, bridgeArgs));
  }

  /** Appends a fragment in parentheses unless it is empty. */
  method AddWrapped(parts: seq<seq<Token>>, args: seq<Arg>, sql: seq<Token>, more: seq<Arg>, ghost fs: seq<Factor>, ghost gs: seq<Factor>)
    returns (parts': seq<seq<Token>>, args': seq<Arg>)
    requires parts == Texts(fs) && args == Binds(fs) && sql == OrTokens(gs) && more == Binds(gs)
    ensures parts' == Texts(fs + Wrapped(gs)) && args' == Binds(fs + Wrapped(gs))
  {
    parts', args' := parts, args;
    AppendBoth(fs, Wrapped(gs));
    if gs != [] {
      TextNotEmpty(gs);
      WrappedText(gs);
    }
    if sql != [] {
      parts' := parts' + [[LeftParen] + sql + [RightParen]];
      args' := args' + more;
    }
  }

  /** What a clause promises: read with its arguments it admits exactly the intended rows, and no placeholder is left over. */
  ghost predicate RepoFaithful(c: Clause, subj: Subject, p: Provider, a: string) {
    && Holes(c.sql) == |c.args|
    && forall db: Db, env: Env | a in env ::
         Admits(db, env, c) <==> (subj.isAdmin || subj.isGlobalReader) || RepoReadable(db, Known(p.repo), Known(p.cluster), env[a])
  }

  ghost predicate StrictFaithful(c: Clause, subj: Subject, p: Provider, a: string) {
    && Holes(c.sql) == |c.args|
    && forall db: Db, env: Env | a in env ::
         Admits(db, env, c) <==> (subj.isAdmin || subj.isGlobalReader) || RepoReadableStrict(db, Known(p.repo), Known(p.cluster), env[a])
  }

  ghost predicate ClusterFaithful(c: Clause, subj: Subject, p: Provider, a: string) {
    && Holes(c.sql) == |c.args|
    && forall db: Db, env: Env | a in env :: Admits(db, env, c) <==> (subj.isAdmin || subj.isGlobalReader) || ClusterGranted(Known(p.cluster), env[a])
  }

  ghost predicate ImageFaithful(c: Clause, subj: Subject, p: Provider, hidden: seq<string>, a: string) {
    && Holes(c.sql) == |c.args|
    && forall db: Db, env: Env | a in env ::
         Admits(db, env, c) <==> (subj.isAdmin || subj.isGlobalReader) || ImageReadable(db, Known(p.repo), Known(p.cluster), Known(p.image), hidden, env[a])
  }

  lemma PrivilegedFaithful(subj: Subject, p: Provider, hidden: seq<string>, a: string)
    requires (subj.isAdmin || subj.isGlobalReader)
    ensures RepoFaithful(UNRESTRICTED, subj, p, a) && StrictFaithful(UNRESTRICTED, subj, p, a)
    ensures ClusterFaithful(UNRESTRICTED, subj, p, a) && ImageFaithful(UNRESTRICTED, subj, p, hidden, a)
  {}

  lemma RepoScopeFaithful(subj: Subject, p: Provider, a: string)
    requires !(subj.isAdmin || subj.isGlobalReader)
    ensures RepoFaithful(Render(RepoScope(Known(p.repo), Known(p.cluster), a)), subj, p, a)
  {
    var s := RepoScope(Known(p.repo), Known(p.cluster), a);
    forall db: Db, env: Env | a in env
      ensures Admits(db, env, Render(s)) <==> RepoReadable(db, Known(p.repo), Known(p.cluster), env[a])
    {
      RepoScopeMeaning(db, env, Known(p.repo), Known(p.cluster), a);
      RenderAdmits(db, env, s);
    }
    RepoScopeMeaning(map[], map[a := map[]], Known(p.repo), Known(p.cluster), a);
    RenderAdmits(map[], map[], s);
  }

  lemma StrictScopeFaithful(subj: Subject, p: Provider, a: string)
    requires !(subj.isAdmin || subj.isGlobalReader)
    ensures StrictFaithful(Render(RepoScopeStrict(Known(p.repo), Known(p.cluster), a)), subj, p, a)
  {
    var s := RepoScopeStrict(Known(p.repo), Known(p.cluster), a);
    forall db: Db, env: Env | a in env
      ensures Admits(db, env, Render(s)) <==> RepoReadableStrict(db, Known(p.repo), Known(p.cluster), env[a])
    {
      RepoScopeStrictMeaning(db, env, Known(p.repo), Known(p.cluster), a);
      RenderAdmits(db, env, s);
    }
    RepoScopeStrictMeaning(map[], map[a := map[]], Known(p.repo), Known(p.cluster), a);
    RenderAdmits(map[], map[], s);
  }

  lemma ClusterScopeFaithful(subj: Subject, p: Provider, a: string)
    requires !(subj.isAdmin || subj.isGlobalReader)
    ensures ClusterFaithful(Render(ClusterScope(Known(p.cluster), a)), subj, p, a)
  {
    var s := ClusterScope(Known(p.cluster), a);
    forall db: Db, env: Env | a in env ensures Admits(db, env, Render(s)) <==> ClusterGranted(Known(p.cluster), env[a]) {
      ClusterScopeMeaning(db, env, Known(p.cluster), a);
      RenderAdmits(db, env, s);
    }
    ClusterScopeMeaning(map[], map[a := map[]], Known(p.cluster), a);
    RenderAdmits(map[], map[], s);
  }

  lemma ImageScopeFaithful(subj: Subject, p: Provider, hidden: seq<string>, a: string)
    requires !(subj.isAdmin || subj.isGlobalReader)
    ensures ImageFaithful(Render(ImageScope(Known(p.repo), Known(p.cluster), Known(p.image), hidden, a)), subj, p, hidden, a)
  {
    var s := ImageScope(Known(p.repo), Known(p.cluster), Known(p.image), hidden, a);
    forall db: Db, env: Env | a in env
      ensures Admits(db, env, Render(s)) <==> ImageReadable(db, Known(p.repo), Known(p.cluster), Known(p.image), hidden, env[a])
    {
      ImageScopeMeaning(db, env, Known(p.repo), Known(p.cluster), Known(p.image), hidden, a);
      RenderAdmits(db, env, s);
    }
    ImageScopeMeaning(map[], map[a := map[]], Known(p.repo), Known(p.cluster), Known(p.image), hidden, a);
    RenderAdmits(map[], map[], s);
  }

  lemma OneText(f: Factor)
    ensures Tokens(Last(Only(f))) == PrintF(f, []) && Args(Last(Only(f))) == ArgsF(f, [])
  {
    assert PrintE(Last(Only(f)), []) == PrintT(Only(f), []);
    assert ArgsE(Last(Only(f)), []) == ArgsT(Only(f), []);
  }

  lemma RepoExprText(repos: seq<ScopePattern>, clusters: seq<ScopePattern>, a: string)
    ensures var parts, e := StrictParts(repos, clusters, a), RepoExpr(repos, clusters, a);
      && (parts == [] ==> Tokens(e) == [Columns([Col(a, "is_private")]), Equals, FalseWord] && Args(e) == [])
      && (parts != [] ==> Tokens(e) == [LeftParen] + Joined(Texts([PublicTest(a)] + parts), OrWord) + [RightParen]
                          && Args(e) == Binds([PublicTest(a)] + parts))
  {
    var parts := StrictParts(repos, clusters, a);
    if parts == [] {
      OneText(PublicTest(a));
      assert PrintF(PublicTest(a), []) == [Columns([Col(a, "is_private")]), Equals, FalseWord];
    } else {
      var all := [PublicTest(a)] + parts;
      OneText(Paren(AnyOf(all)));
      ParenText(AnyOf(all));
      JoinedOr(all);
    }
  }

  method ReadableRepoClause(subj: Subject, p: Provider, alias: string) returns (r: Option<Clause>)
    ensures r.None? <==> !(subj.isAdmin || subj.isGlobalReader) && RepoLookupFails(p)
    ensures r.Some? ==> RepoFaithful(r.value, subj, p, TrimmedAlias(alias, "repos"))
    ensures r.Some? && !(subj.isAdmin || subj.isGlobalReader) ==> r.value == Render(RepoScope(Known(p.repo), Known(p.cluster), TrimmedAlias(alias, "repos")))
  {
    ghost var repos, clusters := Known(p.repo), Known(p.cluster);
    var a := TrimmedAlias(alias, "repos");
    if subj.isAdmin || subj.isGlobalReader {
      PrivilegedFaithful(subj, p, [], a);
      return Some(UNRESTRICTED);
    }
    var got := RepoClauseParts(p, a);
    if got.None? { return None; }
    RepoScopeFaithful(subj, p, a);
    var f := got.value;
    if f.all { return Some(UNRESTRICTED); }
    var c := RepoText(f, a, repos, clusters);
    return Some(c);
  }

  /** Public repositories, explicit grants and the bridge, joined; a lone public test stays without parentheses. */
  method RepoText(f: RepoFragments, a: string, ghost repos: seq<ScopePattern>, ghost clusters: seq<ScopePattern>) returns (c: Clause)
    requires f.grantSql == OrTokens(Parts(RepoKind, repos, a)) && f.grantArgs == Binds(Parts(RepoKind, repos, a))
    requires f.bridgeSql == OrTokens(BridgeParts(clusters, a)) && f.bridgeArgs == Binds(BridgeParts(clusters, a))
    ensures c == Render(Filter(RepoExpr(repos, clusters, a)))
  {
    var publicSql := [Columns([Col(a, "is_private")]), Equals, FalseWord];
    ghost var fs := [PublicTest(a)];
    OnePart(PublicTest(a));
    assert PrintF(PublicTest(a), []) == publicSql;
    var parts, args := [publicSql], [];
    parts, args := AddWrapped(parts, args, f.grantSql, f.grantArgs, fs, Parts(RepoKind, repos, a));
    parts, args := AddWrapped(parts, args, f.bridgeSql, f.bridgeArgs, fs + Wrapped(Parts(RepoKind, repos, a)), BridgeParts(clusters, a));
    assert fs + Wrapped(Parts(RepoKind, repos, a)) + Wrapped(BridgeParts(clusters, a)) == fs + StrictParts(repos, clusters, a);
    RepoExprText(repos, clusters, a);
    if |parts| == 1 { return Clause(publicSql, [], false); }
    return Clause([LeftParen] + Joined(parts, OrWord) + [RightParen], args, false);
  }

  method ReadableRepoClauseStrict(subj: Subject, p: Provider, alias: string) returns (r: Option<Clause>)
    ensures r.None? <==> !(subj.isAdmin || subj.isGlobalReader) && RepoLookupFails(p)
    ensures r.Some? ==> StrictFaithful(r.value, subj, p, TrimmedAlias(alias, "repos"))
    ensures r.Some? && !(subj.isAdmin || subj.isGlobalReader) ==> r.value == Render(RepoScopeStrict(Known(p.repo), Known(p.cluster), TrimmedAlias(alias, "repos")))
  {
    ghost var repos, clusters := Known(p.repo), Known(p.cluster);
    var a := TrimmedAlias(alias, "repos");
    if subj.isAdmin || subj.isGlobalReader {
      PrivilegedFaithful(subj, p, [], a);
      return Some(UNRESTRICTED);
    }
    var got := RepoClauseParts(p, a);
    if got.None? { return None; }
    StrictScopeFaithful(subj, p, a);
    var f := got.value;
    if f.all { return Some(UNRESTRICTED); }
    ghost var gs := Wrapped(Parts(RepoKind, repos, a));
    assert [] + gs == gs;
    var parts, args := AddWrapped([], [], f.grantSql, f.grantArgs, [], Parts(RepoKind, repos, a));
    parts, args := AddWrapped(parts, args, f.bridgeSql, f.bridgeArgs, gs, BridgeParts(clusters, a));
    AnyOrDeniedText(StrictParts(repos, clusters, a));
    if |parts| == 0 { return Some(Clause(DENY, [], false)); }
    return Some(Clause(Joined(parts, OrWord), args, false));
  }

  lemma AnyOrDeniedText(fs: seq<Factor>)
    ensures fs == [] ==> Tokens(AnyOrDenied(fs)) == DENY && Args(AnyOrDenied(fs)) == []
    ensures fs != [] ==> Tokens(AnyOrDenied(fs)) == Joined(Texts(fs), OrWord) && Args(AnyOrDenied(fs)) == Binds(fs)
  {
    if fs == [] {
      OneText(Never);
    } else {
      JoinedOr(fs);
    }
  }

  method ReadableClusterClause(subj: Subject, p: Provider, alias: string) returns (r: Option<Clause>)
    ensures r.None? <==> !(subj.isAdmin || subj.isGlobalReader) && p.cluster.None?
    ensures r.Some? ==> ClusterFaithful(r.value, subj, p, TrimmedAlias(alias, "clusters"))
    ensures r.Some? && !(subj.isAdmin || subj.isGlobalReader) ==> r.value == Render(ClusterScope(Known(p.cluster), TrimmedAlias(alias, "clusters")))
  {
    var a := TrimmedAlias(alias, "clusters");
    if subj.isAdmin || subj.isGlobalReader {
      PrivilegedFaithful(subj, p, [], a);
      return Some(UNRESTRICTED);
    }
    if p.cluster.None? { return None; }
    ClusterScopeFaithful(subj, p, a);
    var sql, args, all := CompilePatterns(ClusterKind, p.cluster.value, a);
    if all { return Some(UNRESTRICTED); }
    ghost var fs := Parts(ClusterKind, p.cluster.value, a);
    AnyOrDeniedText(fs);
    if fs != [] {
      TextNotEmpty(fs);
      JoinedOr(fs);
    }
    if sql == [] { return Some(Clause(DENY, [], false)); }
    return Some(Clause(sql, args, false));
  }

  // Images.

  /** Image grants first; a wildcard there ends the matter, and otherwise repository and cluster grants are both needed. */
  predicate ImageLookupFails(p: Provider) {
    p.image.None? || (!HasWildcard(p.image.value) && (RepoLookupFails(p) || p.cluster.None?))
  }

  lemma PairAnd(f: Factor, g: Factor)
    ensures PrintF(Paren(Last(AllOf([f, g]))), []) == [LeftParen] + PrintF(f, [AndWord] + PrintF(g, [RightParen]))
    ensures ArgsF(Paren(Last(AllOf([f, g]))), []) == ArgsF(f, ArgsF(g, []))
  {
    TwoText(f, g, [RightParen]);
    var e := Last(AllOf([f, g]));
    assert [RightParen] + [] == [RightParen];
    assert PrintE(e, [RightParen]) == PrintT(AllOf([f, g]), [RightParen]);
    assert ArgsE(e, []) == ArgsT(AllOf([f, g]), []);
  }

  function VerifiedSql(a: string): seq<Token> {
    [Columns([Col(a, "verified_source")]), Equals, TrueWord]
  }

  function NamedSourceSql(a: string): seq<Token> {
    [LeftParen] + (VerifiedSql(a) + [AndWord, Columns([Col(a, "source_repo_id")]), Differs, NoText, RightParen])
  }

  function ReadableSourceSql(a: string, repoSql: seq<Token>): seq<Token> {
    [LeftParen] + (VerifiedSql(a) + ([AndWord] + ([Columns([Col(a, "source_repo_id")]), InWord, LeftParen]
    + ([SelectWord] + ([Columns([Col("r", "id")]), FromTable("repos", "r"), WhereWord] + (repoSql + [RightParen, RightParen]))))))
  }

  lemma VerifiedText(a: string, rest: seq<Token>)
    ensures PrintF(VerifiedTest(a), rest) == VerifiedSql(a) + rest
    ensures forall args :: ArgsF(VerifiedTest(a), args) == args
  {}

  lemma SourcePartText(repos: seq<ScopePattern>, clusters: seq<ScopePattern>, a: string)
    ensures var e := RepoExpr(repos, clusters, "r");
      PrintF(SourcePart(repos, clusters, a), []) == if HasWildcard(repos) then NamedSourceSql(a) else ReadableSourceSql(a, Tokens(e))
    ensures ArgsF(SourcePart(repos, clusters, a), []) == if HasWildcard(repos) then [] else Args(RepoExpr(repos, clusters, "r"))
  {
    var f, g := VerifiedTest(a), SourceTest(repos, clusters, a);
    PairAnd(f, g);
    VerifiedText(a, [AndWord] + PrintF(g, [RightParen]));
    if HasWildcard(repos) {
      NamedText(a);
    } else {
      SourceTestText(repos, clusters, a);
    }
  }

  lemma NamedText(a: string)
    ensures [AndWord] + PrintF(Test(Col(a, "source_repo_id"), NonEmpty), [RightParen])
         == [AndWord, Columns([Col(a, "source_repo_id")]), Differs, NoText, RightParen]
  {}

  lemma SourceTestText(repos: seq<ScopePattern>, clusters: seq<ScopePattern>, a: string)
    requires !HasWildcard(repos)
    ensures PrintF(SourceTest(repos, clusters, a), [RightParen])
         == [Columns([Col(a, "source_repo_id")]), InWord, LeftParen]
            + ([SelectWord] + ([Columns([Col("r", "id")]), FromTable("repos", "r"), WhereWord]
            + (Tokens(RepoExpr(repos, clusters, "r")) + [RightParen, RightParen])))
    ensures ArgsF(SourceTest(repos, clusters, a), []) == Args(RepoExpr(repos, clusters, "r"))
  {
    SourceQueryText(repos, clusters);
    assert [RightParen] + [RightParen] == [RightParen, RightParen];
  }

  lemma SourceQueryText(repos: seq<ScopePattern>, clusters: seq<ScopePattern>)
    ensures var q, e := SourceQuery(repos, clusters), RepoExpr(repos, clusters, "r");
      PrintQ(q, [RightParen, RightParen])
      == [SelectWord] + ([Columns([Col("r", "id")]), FromTable("repos", "r"), WhereWord] + (Tokens(e) + [RightParen, RightParen]))
      && ArgsQ(q, []) == Args(e)
  {
    var q, e := SourceQuery(repos, clusters), RepoExpr(repos, clusters, "r");
    AppendE(e, [], [RightParen, RightParen]);
    assert [] + [RightParen, RightParen] == [RightParen, RightParen];
    assert PrintQ(q, [RightParen, RightParen]) == [SelectWord] + PrintBody(q, [RightParen, RightParen]);
  }

  /** A repository clause opens with a column or a parenthesis, so it is never the denying text. */
  lemma RepoNeverDenies(repos: seq<ScopePattern>, clusters: seq<ScopePattern>, a: string)
    ensures !Deny(Render(RepoScope(repos, clusters, a)))
  {
    RepoExprText(repos, clusters, a);
  }

  /** The part that an image inherits from its source repository. */
  method SourceFragment(c: Clause, a: string, ghost repos: seq<ScopePattern>, ghost clusters: seq<ScopePattern>)
    returns (parts: seq<seq<Token>>, args: seq<Arg>)
    requires c == Render(RepoScope(repos, clusters, "r"))
    ensures parts == Texts([SourcePart(repos, clusters, a)]) && args == Binds([SourcePart(repos, clusters, a)])
  {
    SourcePartText(repos, clusters, a);
    OnePart(SourcePart(repos, clusters, a));
    RepoNeverDenies(repos, clusters, "r");
    parts, args := [], [];
    if c.unrestricted {
      parts := [NamedSourceSql(a)];
    } else if !Deny(c) {
      parts := [ReadableSourceSql(a, c.sql)];
      args := c.args;
    }
  }

  lemma AliasR()
    ensures TrimmedAlias("r", "repos") == "r"
  {}

  method ReadableImageClause(subj: Subject, p: Provider, hidden: seq<string>, alias: string) returns (r: Option<Clause>)
    ensures r.None? <==> !(subj.isAdmin || subj.isGlobalReader) && ImageLookupFails(p)
    ensures r.Some? ==> ImageFaithful(r.value, subj, p, hidden, TrimmedAlias(alias, "image_digests"))
    ensures r.Some? && !(subj.isAdmin || subj.isGlobalReader) ==>
      r.value == Render(ImageScope(Known(p.repo), Known(p.cluster), Known(p.image), hidden, TrimmedAlias(alias, "image_digests")))
  {
    ghost var repos, clusters, images := Known(p.repo), Known(p.cluster), Known(p.image);
    var a := TrimmedAlias(alias, "image_digests");
    if subj.isAdmin || subj.isGlobalReader {
      PrivilegedFaithful(subj, p, hidden, a);
      return Some(UNRESTRICTED);
    }
    if p.image.None? { return None; }
    ImageScopeFaithful(subj, p, hidden, a);
    var imageSql, imageArgs, imageAll := CompilePatterns(ImageKind, p.image.value, a);
    if imageAll { return Some(UNRESTRICTED); }
    AliasR();
    var repoClause := ReadableRepoClause(subj, p, "r");
    if repoClause.None? || p.cluster.None? { return None; }
    var sql, args := ImageText(repoClause.value, imageSql, imageArgs, p.cluster.value, hidden, a, repos, images);
    return Some(Clause(sql, args, false));
  }

  /** The three routes to an image, joined. */
  method ImageText(repoClause: Clause, imageSql: seq<Token>, imageArgs: seq<Arg>, clusters: seq<ScopePattern>, hidden: seq<string>, a: string,
                   ghost repos: seq<ScopePattern>, ghost images: seq<ScopePattern>)
    returns (sql: seq<Token>, args: seq<Arg>)
    requires repoClause == Render(RepoScope(repos, clusters, "r"))
    requires imageSql == OrTokens(Parts(ImageKind, images, a)) && imageArgs == Binds(Parts(ImageKind, images, a))
    ensures sql == Tokens(AnyOf(ImageParts(repos, clusters, images, hidden, a)))
    ensures args == Args(AnyOf(ImageParts(repos, clusters, images, hidden, a)))
  {
    ghost var f1, f2 := [SourcePart(repos, clusters, a)], Wrapped(Parts(ImageKind, images, a));
    ghost var f3 := InheritParts(clusters, a, hidden);
    var parts;
    parts, args := SourceFragment(repoClause, a, repos, clusters);
    parts, args := AddWrapped(parts, args, imageSql, imageArgs, f1, Parts(ImageKind, images, a));
    var nsSql, nsArgs := HiddenNamespaces.ExclusionSql(Col("", "namespace"), hidden);
    var clusterSql, clusterArgs := CompileClusterImageInheritance(clusters, a, nsSql, nsArgs, hidden);
    AppendBoth(f1 + f2, f3);
    if clusterSql != [] {
      parts := parts + [clusterSql];
      args := args + clusterArgs;
    }
    assert parts == Texts(f1 + f2 + f3) && args == Binds(f1 + f2 + f3);
    JoinedOr(f1 + f2 + f3);
    sql := Joined(parts, OrWord);
  }
}

/** The whole clauses as trees, and the theorem that each admits exactly the rows its grants are meant to open. */
module AclScopes {
  import opened Wrappers
  import opened SqlSyntax
  import opened SqlMeaning
  import opened SqlParts
  import opened AclGrants
  import opened AclTrees
  import HiddenNamespaces

  // Cluster grants seen from a row of the inventory.

  /** The condition on the inventory's cluster id. */
  function ClusterTest(c: Ref, ps: seq<ScopePattern>): Factor {
    if HasWildcard(ps) then Always else InSelect([c], ResolveQuery(Ids(ps)))
  }

  predicate Opening(ps: seq<ScopePattern>) {
    HasWildcard(ps) || Ids(ps) != []
  }

  lemma IdsNonEmpty(ps: seq<ScopePattern>)
    ensures "" !in Ids(ps)
  {}

  lemma OpenedById(db: Db, ps: seq<ScopePattern>, running: Row)
    requires !HasWildcard(ps)
    ensures Opened(db, ps, running) <==>
      Cell(running, "cluster_id").Some?
      && exists k, id :: k in Rows(db, "clusters") && id in Ids(ps) && Names(k, id) && Is(k, "cluster_id", Cell(running, "cluster_id").value)
  {}

  lemma OpenedByWildcard(db: Db, ps: seq<ScopePattern>, running: Row)
    requires HasWildcard(ps)
    ensures Opened(db, ps, running)
  {}

  lemma ClusterTestMeaning(db: Db, env: Env, c: Ref, ps: seq<ScopePattern>, running: Row)
    requires Read(env, c) == Cell(running, "cluster_id")
    ensures HoldsF(db, env, ClusterTest(c, ps)) <==> Opened(db, ps, running)
    ensures FineF(ClusterTest(c, ps))
  {
    if HasWildcard(ps) {
      OpenedByWildcard(db, ps, running);
    } else {
      IdsNonEmpty(ps);
      ResolveMeaning(db, env, c, Ids(ps));
      OpenedById(db, ps, running);
    }
  }

  lemma NotOpening(db: Db, ps: seq<ScopePattern>, running: Row)
    requires !Opening(ps)
    ensures !Opened(db, ps, running)
  {
    OpenedById(db, ps, running);
  }

  // The bridge from running images to their source repositories.

  function OnTests(): seq<Factor> {
    [Test(Col("cii", "raw_registry"), EqCol(Col("d", "registry"))),
     Test(Col("cii", "image"), EqCol(Col("d", "repository"))),
     Test(Col("cii", "digest"), EqCol(Col("d", "digest")))]
  }

  function SourceTests(): seq<Factor> {
    [Test(Col("d", "verified_source"), EqBool(true)), Test(Col("d", "source_repo_id"), NonEmpty)]
  }

  function BridgeTests(ps: seq<ScopePattern>): seq<Factor> {
    if HasWildcard(ps) then SourceTests() else SourceTests() + [ClusterTest(Col("cii", "cluster_id"), ps)]
  }

  function BridgeQuery(ps: seq<ScopePattern>): Query {
    Joining(true, [Col("d", "source_repo_id")], "image_digests", "d", "cluster_image_inventory", "cii",
            Last(AllOf(OnTests())), Last(AllOf(BridgeTests(ps))))
  }

  function BridgeParts(ps: seq<ScopePattern>, a: string): seq<Factor> {
    if Opening(ps) then [InSelect([Col(a, "id")], BridgeQuery(ps))] else []
  }

  lemma OnMeaning(db: Db, env: Env, image: Row, running: Row)
    requires "d" in env && "cii" in env && env["d"] == image && env["cii"] == running
    ensures HoldsE(db, env, Last(AllOf(OnTests()))) <==> Runs(running, image)
    ensures FineE(Last(AllOf(OnTests())))
  {}

  lemma SourceTestsMeaning(db: Db, env: Env, image: Row)
    requires "d" in env && env["d"] == image
    ensures HoldsAll(db, env, SourceTests()) <==> Verified(image) && HasSource(image)
    ensures Fine(SourceTests())
  {
    var fs := SourceTests();
    assert HoldsAll(db, env, fs) <==> HoldsF(db, env, fs[0]) && HoldsF(db, env, fs[1]);
    assert HoldsF(db, env, fs[0]) <==> Verified(image);
    assert HoldsF(db, env, fs[1]) <==> HasSource(image);
  }

  lemma BridgeTestsMeaning(db: Db, env: Env, ps: seq<ScopePattern>, image: Row, running: Row)
    requires "d" in env && "cii" in env && env["d"] == image && env["cii"] == running
    ensures HoldsE(db, env, Last(AllOf(BridgeTests(ps)))) <==> Verified(image) && HasSource(image) && Opened(db, ps, running)
    ensures FineE(Last(AllOf(BridgeTests(ps))))
  {
    var c := Col("cii", "cluster_id");
    SourceTestsMeaning(db, env, image);
    ClusterTestMeaning(db, env, c, ps, running);
    AllOfHolds(db, env, BridgeTests(ps));
    if !HasWildcard(ps) {
      HoldsAllAppend(db, env, SourceTests(), [ClusterTest(c, ps)]);
      assert HoldsAll(db, env, [ClusterTest(c, ps)]) <==> HoldsF(db, env, [ClusterTest(c, ps)][0]);
      FineAppend(SourceTests(), [ClusterTest(c, ps)]);
    }
    JoinedAnd(BridgeTests(ps));
  }

  lemma CarriesMeaning(db: Db, env: Env, ps: seq<ScopePattern>, a: string, image: Row, running: Row)
    requires a in env
    ensures Joins(db, env, [Col(a, "id")], BridgeQuery(ps), image, running) <==> Carries(db, ps, env[a], image, running)
    ensures FineQ(BridgeQuery(ps))
  {
    var en := InsideJoin(env, "d", image, "cii", running);
    OnMeaning(db, en, image, running);
    BridgeTestsMeaning(db, en, ps, image, running);
    SameOne(env, Col(a, "id"), en, Col("d", "source_repo_id"));
    assert Read(env, Col(a, "id")) == Cell(env[a], "id");
    assert Read(en, Col("d", "source_repo_id")) == Cell(image, "source_repo_id");
  }

  lemma BridgeMeaning(db: Db, env: Env, ps: seq<ScopePattern>, a: string)
    requires a in env
    ensures HoldsSome(db, env, BridgeParts(ps, a)) <==> Bridged(db, ps, env[a])
    ensures Fine(BridgeParts(ps, a))
  {
    if Opening(ps) {
      var cs, q := [Col(a, "id")], BridgeQuery(ps);
      CarriesMeaning(db, env, ps, a, map[], map[]);
      assert q.Joining?;
      assert HoldsSome(db, env, BridgeParts(ps, a)) <==> HoldsF(db, env, BridgeParts(ps, a)[0]);
      assert HoldsF(db, env, InSelect(cs, q)) <==> Selects(db, env, cs, q);
      if Selects(db, env, cs, q) {
        var r, s :| Joins(db, env, cs, q, r, s);
        CarriesMeaning(db, env, ps, a, r, s);
      }
      if Bridged(db, ps, env[a]) {
        var r, s :| Carries(db, ps, env[a], r, s);
        CarriesMeaning(db, env, ps, a, r, s);
      }
    } else {
      forall s: Row ensures !Opened(db, ps, s) { NotOpening(db, ps, s); }
    }
  }

  // Images running in opened clusters.

  function ImageKey(a: string): seq<Ref> {
    [Col(a, "registry"), Col(a, "repository"), Col(a, "digest")]
  }

  function InventoryKey(): seq<Ref> {
    [Col("", "raw_registry"), Col("", "image"), Col("", "digest")]
  }

  function InventoryTests(ps: seq<ScopePattern>, hidden: seq<string>): seq<Factor> {
    [ClusterTest(Col("", "cluster_id"), ps)] + HiddenNamespaces.Factors(Col("", "namespace"), hidden)
  }

  function InventoryQuery(ps: seq<ScopePattern>, hidden: seq<string>): Query {
    Simple(false, InventoryKey(), "cluster_image_inventory", "cluster_image_inventory", Last(AllOf(InventoryTests(ps, hidden))))
  }

  function InheritParts(ps: seq<ScopePattern>, a: string, hidden: seq<string>): seq<Factor> {
    if Opening(ps) then [Paren(Last(Only(InSelect(ImageKey(a), InventoryQuery(ps, hidden)))))] else []
  }

  lemma InventoryTestsMeaning(db: Db, env: Env, ps: seq<ScopePattern>, hidden: seq<string>, running: Row)
    requires "" in env && env[""] == running
    ensures HoldsE(db, env, Last(AllOf(InventoryTests(ps, hidden)))) <==>
      Opened(db, ps, running) && HiddenNamespaces.Visible(hidden, Cell(running, "namespace"))
    ensures FineE(Last(AllOf(InventoryTests(ps, hidden))))
  {
    var head, ns := [ClusterTest(Col("", "cluster_id"), ps)], HiddenNamespaces.Factors(Col("", "namespace"), hidden);
    ClusterTestMeaning(db, env, Col("", "cluster_id"), ps, running);
    HiddenNamespaces.FactorsMeaning(db, env, Col("", "namespace"), hidden);
    HiddenNamespaces.FactorsFine(Col("", "namespace"), hidden);
    assert Read(env, Col("", "namespace")) == Cell(running, "namespace");
    HoldsAllAppend(db, env, head, ns);
    assert HoldsAll(db, env, head) <==> HoldsF(db, env, head[0]);
    FineAppend(head, ns);
    AllOfHolds(db, env, head + ns);
    JoinedAnd(head + ns);
  }

  lemma KeyMeaning(env: Env, a: string, running: Row)
    requires a in env
    ensures SameCells(env, ImageKey(a), Inside(env, "cluster_image_inventory", running), InventoryKey()) <==> Runs(running, env[a])
  {
    var en := Inside(env, "cluster_image_inventory", running);
    var cs, ds := ImageKey(a), InventoryKey();
    assert SameCells(env, cs, en, ds) <==>
      && (Read(env, cs[0]).Some? && Read(env, cs[0]) == Read(en, ds[0]))
      && (Read(env, cs[1]).Some? && Read(env, cs[1]) == Read(en, ds[1]))
      && (Read(env, cs[2]).Some? && Read(env, cs[2]) == Read(en, ds[2]));
  }

  lemma InheritsMeaning(db: Db, env: Env, ps: seq<ScopePattern>, hidden: seq<string>, a: string, running: Row)
    requires a in env
    ensures Picks(db, env, ImageKey(a), InventoryQuery(ps, hidden), running) <==> Inherits(db, ps, hidden, env[a], running)
    ensures FineQ(InventoryQuery(ps, hidden))
  {
    InventoryTestsMeaning(db, Inside(env, "cluster_image_inventory", running), ps, hidden, running);
    KeyMeaning(env, a, running);
  }

  lemma InheritMeaning(db: Db, env: Env, ps: seq<ScopePattern>, a: string, hidden: seq<string>)
    requires a in env
    ensures HoldsSome(db, env, InheritParts(ps, a, hidden)) <==> RunsOpenly(db, ps, hidden, env[a])
    ensures Fine(InheritParts(ps, a, hidden))
  {
    if Opening(ps) {
      var cs, q := ImageKey(a), InventoryQuery(ps, hidden);
      var f := InSelect(cs, q);
      InheritsMeaning(db, env, ps, hidden, a, map[]);
      OnlyMeaning(db, env, f);
      assert HoldsSome(db, env, InheritParts(ps, a, hidden)) <==> HoldsF(db, env, InheritParts(ps, a, hidden)[0]);
      assert HoldsF(db, env, f) <==> Selects(db, env, cs, q);
      if Selects(db, env, cs, q) {
        var r :| Picks(db, env, cs, q, r);
        InheritsMeaning(db, env, ps, hidden, a, r);
      }
      if RunsOpenly(db, ps, hidden, env[a]) {
        var r :| Inherits(db, ps, hidden, env[a], r);
        InheritsMeaning(db, env, ps, hidden, a, r);
      }
    } else {
      forall s: Row ensures !Opened(db, ps, s) { NotOpening(db, ps, s); }
    }
  }

  lemma OnlyMeaning(db: Db, env: Env, f: Factor)
    ensures HoldsF(db, env, Paren(Last(Only(f)))) <==> HoldsF(db, env, f)
    ensures FineF(Paren(Last(Only(f)))) <==> FineF(f)
  {
    var t := Only(f);
    assert HoldsT(db, env, t) <==> HoldsF(db, env, f);
    assert HoldsE(db, env, Last(t)) <==> HoldsT(db, env, t);
    assert FineE(Last(t)) <==> FineT(t);
    assert FineT(t) <==> FineF(f);
  }

  // Whole clauses.

  /** Either no restriction at all or a condition. */
  datatype Scope = Everything | Filter(e: Expr)

  /** The parts between parentheses, when there are any. */
  function Wrapped(fs: seq<Factor>): seq<Factor> {
    if fs == [] then [] else [Paren(AnyOf(fs))]
  }

  function Denied(): Expr { Last(Only(Never)) }

  function AnyOrDenied(fs: seq<Factor>): Expr {
    if fs == [] then Denied() else AnyOf(fs)
  }

  function StrictParts(repos: seq<ScopePattern>, clusters: seq<ScopePattern>, a: string): seq<Factor> {
    Wrapped(Parts(RepoKind, repos, a)) + Wrapped(BridgeParts(clusters, a))
  }

  function PublicTest(a: string): Factor { Test(Col(a, "is_private"), EqBool(false)) }

  function RepoExpr(repos: seq<ScopePattern>, clusters: seq<ScopePattern>, a: string): Expr {
    var parts := StrictParts(repos, clusters, a);
    if parts == [] then Last(Only(PublicTest(a))) else Last(Only(Paren(AnyOf([PublicTest(a)] + parts))))
  }

  function RepoScope(repos: seq<ScopePattern>, clusters: seq<ScopePattern>, a: string): Scope {
    if HasWildcard(repos) then Everything else Filter(RepoExpr(repos, clusters, a))
  }

  function RepoScopeStrict(repos: seq<ScopePattern>, clusters: seq<ScopePattern>, a: string): Scope {
    if HasWildcard(repos) then Everything else Filter(AnyOrDenied(StrictParts(repos, clusters, a)))
  }

  function ClusterScope(clusters: seq<ScopePattern>, a: string): Scope {
    if HasWildcard(clusters) then Everything else Filter(AnyOrDenied(Parts(ClusterKind, clusters, a)))
  }

  function VerifiedTest(a: string): Factor { Test(Col(a, "verified_source"), EqBool(true)) }

  function SourceTest(repos: seq<ScopePattern>, clusters: seq<ScopePattern>, a: string): Factor {
    if HasWildcard(repos) then Test(Col(a, "source_repo_id"), NonEmpty)
    else InSelect([Col(a, "source_repo_id")], SourceQuery(repos, clusters))
  }

  function SourceQuery(repos: seq<ScopePattern>, clusters: seq<ScopePattern>): Query {
    Simple(false, [Col("r", "id")], "repos", "r", RepoExpr(repos, clusters, "r"))
  }

  function SourcePart(repos: seq<ScopePattern>, clusters: seq<ScopePattern>, a: string): Factor {
    Paren(Last(AllOf([VerifiedTest(a), SourceTest(repos, clusters, a)])))
  }

  function ImageParts(repos: seq<ScopePattern>, clusters: seq<ScopePattern>, images: seq<ScopePattern>, hidden: seq<string>, a: string): seq<Factor> {
    [SourcePart(repos, clusters, a)] + Wrapped(Parts(ImageKind, images, a)) + InheritParts(clusters, a, hidden)
  }

  function ImageScope(repos: seq<ScopePattern>, clusters: seq<ScopePattern>, images: seq<ScopePattern>, hidden: seq<string>, a: string): Scope {
    if HasWildcard(images) then Everything else Filter(AnyOf(ImageParts(repos, clusters, images, hidden, a)))
  }

  ghost predicate ScopeAdmits(db: Db, env: Env, s: Scope) {
    s.Everything? || HoldsE(db, env, s.e)
  }

  predicate FineScope(s: Scope) { s.Filter? ==> FineE(s.e) }

  lemma WrappedMeaning(db: Db, env: Env, fs: seq<Factor>)
    requires Fine(fs)
    ensures HoldsSome(db, env, Wrapped(fs)) <==> HoldsSome(db, env, fs)
    ensures Fine(Wrapped(fs))
  {
    if fs != [] {
      AnyOfHolds(db, env, fs);
      JoinedOr(fs);
      assert HoldsSome(db, env, Wrapped(fs)) <==> HoldsF(db, env, Wrapped(fs)[0]);
    }
  }

  lemma AnyOrDeniedMeaning(db: Db, env: Env, fs: seq<Factor>)
    requires Fine(fs)
    ensures HoldsE(db, env, AnyOrDenied(fs)) <==> HoldsSome(db, env, fs)
    ensures FineE(AnyOrDenied(fs))
  {
    if fs == [] {
      assert !HoldsT(db, env, Only(Never));
      assert FineT(Only(Never));
    } else {
      AnyOfHolds(db, env, fs);
      JoinedOr(fs);
    }
  }

  lemma WildcardGrants(kind: Kind, ps: seq<ScopePattern>, row: Row)
    requires HasWildcard(ps)
    ensures Granted(kind, ps, row)
  {}

  lemma StrictPartsMeaning(db: Db, env: Env, repos: seq<ScopePattern>, clusters: seq<ScopePattern>, a: string)
    requires a in env && !HasWildcard(repos)
    ensures HoldsSome(db, env, StrictParts(repos, clusters, a)) <==> RepoReadableStrict(db, repos, clusters, env[a])
    ensures Fine(StrictParts(repos, clusters, a))
  {
    var fs, gs := Parts(RepoKind, repos, a), BridgeParts(clusters, a);
    PartsMeaning(db, env, RepoKind, repos, a);
    BridgeMeaning(db, env, clusters, a);
    WrappedMeaning(db, env, fs);
    WrappedMeaning(db, env, gs);
    HoldsSomeAppend(db, env, Wrapped(fs), Wrapped(gs));
    FineAppend(Wrapped(fs), Wrapped(gs));
    GrantedIsRepoGranted(repos, env[a]);
  }

  lemma GrantedIsRepoGranted(ps: seq<ScopePattern>, row: Row)
    ensures Granted(RepoKind, ps, row) <==> RepoGranted(ps, row)
  {}

  lemma GrantedIsClusterGranted(ps: seq<ScopePattern>, row: Row)
    ensures Granted(ClusterKind, ps, row) <==> ClusterGranted(ps, row)
  {}

  lemma GrantedIsImageGranted(ps: seq<ScopePattern>, row: Row)
    ensures Granted(ImageKind, ps, row) <==> ImageGranted(ps, row)
  {}

  lemma RepoExprMeaning(db: Db, env: Env, repos: seq<ScopePattern>, clusters: seq<ScopePattern>, a: string)
    requires a in env && !HasWildcard(repos)
    ensures HoldsE(db, env, RepoExpr(repos, clusters, a)) <==> RepoReadable(db, repos, clusters, env[a])
    ensures FineE(RepoExpr(repos, clusters, a))
  {
    var pub, parts := PublicTest(a), StrictParts(repos, clusters, a);
    StrictPartsMeaning(db, env, repos, clusters, a);
    assert HoldsF(db, env, pub) <==> Public(env[a]);
    var all := [pub] + parts;
    HoldsSomeAppend(db, env, [pub], parts);
    assert HoldsSome(db, env, [pub]) <==> HoldsF(db, env, [pub][0]);
    FineAppend([pub], parts);
    AnyOfHolds(db, env, all);
    JoinedOr(all);
    LastOnly(db, env, if parts == [] then pub else Paren(AnyOf(all)));
  }

  lemma LastOnly(db: Db, env: Env, f: Factor)
    ensures HoldsE(db, env, Last(Only(f))) <==> HoldsF(db, env, f)
    ensures FineE(Last(Only(f))) <==> FineF(f)
  {
    assert HoldsT(db, env, Only(f)) <==> HoldsF(db, env, f);
    assert FineT(Only(f)) <==> FineF(f);
  }

  lemma RepoScopeMeaning(db: Db, env: Env, repos: seq<ScopePattern>, clusters: seq<ScopePattern>, a: string)
    requires a in env
    ensures ScopeAdmits(db, env, RepoScope(repos, clusters, a)) <==> RepoReadable(db, repos, clusters, env[a])
    ensures FineScope(RepoScope(repos, clusters, a))
  {
    if HasWildcard(repos) {
      WildcardGrants(RepoKind, repos, env[a]);
      GrantedIsRepoGranted(repos, env[a]);
    } else {
      RepoExprMeaning(db, env, repos, clusters, a);
    }
  }

  lemma RepoScopeStrictMeaning(db: Db, env: Env, repos: seq<ScopePattern>, clusters: seq<ScopePattern>, a: string)
    requires a in env
    ensures ScopeAdmits(db, env, RepoScopeStrict(repos, clusters, a)) <==> RepoReadableStrict(db, repos, clusters, env[a])
    ensures FineScope(RepoScopeStrict(repos, clusters, a))
  {
    if HasWildcard(repos) {
      WildcardGrants(RepoKind, repos, env[a]);
      GrantedIsRepoGranted(repos, env[a]);
    } else {
      StrictPartsMeaning(db, env, repos, clusters, a);
      AnyOrDeniedMeaning(db, env, StrictParts(repos, clusters, a));
    }
  }

  lemma ClusterScopeMeaning(db: Db, env: Env, clusters: seq<ScopePattern>, a: string)
    requires a in env
    ensures ScopeAdmits(db, env, ClusterScope(clusters, a)) <==> ClusterGranted(clusters, env[a])
    ensures FineScope(ClusterScope(clusters, a))
  {
    GrantedIsClusterGranted(clusters, env[a]);
    if HasWildcard(clusters) {
      WildcardGrants(ClusterKind, clusters, env[a]);
    } else {
      PartsMeaning(db, env, ClusterKind, clusters, a);
      AnyOrDeniedMeaning(db, env, Parts(ClusterKind, clusters, a));
    }
  }

  lemma SourceTestMeaning(db: Db, env: Env, repos: seq<ScopePattern>, clusters: seq<ScopePattern>, a: string)
    requires a in env
    ensures HoldsF(db, env, SourceTest(repos, clusters, a)) <==> SourceReadable(db, repos, clusters, env[a])
    ensures FineF(SourceTest(repos, clusters, a))
  {
    var c := Col(a, "source_repo_id");
    assert Read(env, c) == Cell(env[a], "source_repo_id");
    if !HasWildcard(repos) {
      var q := SourceQuery(repos, clusters);
      SourcePick(db, env, repos, clusters, a, map[]);
      assert HoldsF(db, env, InSelect([c], q)) <==> Selects(db, env, [c], q);
      if Selects(db, env, [c], q) {
        var r :| Picks(db, env, [c], q, r);
        SourcePick(db, env, repos, clusters, a, r);
      }
      if SourceReadable(db, repos, clusters, env[a]) {
        var r :| ReadableSource(db, repos, clusters, env[a], r);
        SourcePick(db, env, repos, clusters, a, r);
      }
    }
  }

  lemma SourcePick(db: Db, env: Env, repos: seq<ScopePattern>, clusters: seq<ScopePattern>, a: string, r: Row)
    requires a in env && !HasWildcard(repos)
    ensures Picks(db, env, [Col(a, "source_repo_id")], SourceQuery(repos, clusters), r) <==> ReadableSource(db, repos, clusters, env[a], r)
    ensures FineQ(SourceQuery(repos, clusters))
  {
    var c, en := Col(a, "source_repo_id"), Inside(env, "r", r);
    RepoExprMeaning(db, en, repos, clusters, "r");
    SameOne(env, c, en, Col("r", "id"));
    assert Read(env, c) == Cell(env[a], "source_repo_id");
    assert Read(en, Col("r", "id")) == Cell(r, "id");
  }

  lemma ImageScopeMeaning(db: Db, env: Env, repos: seq<ScopePattern>, clusters: seq<ScopePattern>, images: seq<ScopePattern>,
                          hidden: seq<string>, a: string)
    requires a in env
    ensures ScopeAdmits(db, env, ImageScope(repos, clusters, images, hidden, a))
       <==> ImageReadable(db, repos, clusters, images, hidden, env[a])
    ensures FineScope(ImageScope(repos, clusters, images, hidden, a))
  {
    GrantedIsImageGranted(images, env[a]);
    if HasWildcard(images) {
      WildcardGrants(ImageKind, images, env[a]);
    } else {
      var f1, f2, f3 := [SourcePart(repos, clusters, a)], Wrapped(Parts(ImageKind, images, a)), InheritParts(clusters, a, hidden);
      SourceTestMeaning(db, env, repos, clusters, a);
      PairHolds(db, env, VerifiedTest(a), SourceTest(repos, clusters, a));
      assert HoldsF(db, env, VerifiedTest(a)) <==> Verified(env[a]);
      assert HoldsSome(db, env, f1) <==> HoldsF(db, env, f1[0]);
      PartsMeaning(db, env, ImageKind, images, a);
      WrappedMeaning(db, env, Parts(ImageKind, images, a));
      InheritMeaning(db, env, clusters, a, hidden);
      HoldsSomeAppend(db, env, f1, f2);
      HoldsSomeAppend(db, env, f1 + f2, f3);
      FineAppend(f1, f2);
      FineAppend(f1 + f2, f3);
      AnyOfHolds(db, env, f1 + f2 + f3);
      JoinedOr(f1 + f2 + f3);
    }
  }
}

/** Laws of the readable sets: the strict clause is the smaller one, grants only add, and their order and repetition do not matter. */
module AclLaws {
  import opened Wrappers
  import opened SqlSyntax
  import opened SqlMeaning
  import opened AclGrants
  import opened AclScopes
  import opened AclCompiler

  datatype Grants = Grants(repos: seq<ScopePattern>, clusters: seq<ScopePattern>, images: seq<ScopePattern>)

  predicate Within(ps: seq<ScopePattern>, qs: seq<ScopePattern>) {
    forall i | 0 <= i < |ps| :: ps[i] in qs
  }

  predicate Below(g: Grants, h: Grants) {
    Within(g.repos, h.repos) && Within(g.clusters, h.clusters) && Within(g.images, h.images)
  }

  /** No field of the grant is set. */
  predicate SetsNothing(p: ScopePattern) {
    && p.provider == "" && p.instance == "" && p.owner == "" && p.slug == "" && p.clusterId == ""
    && p.registry == "" && p.repository == "" && p.digest == ""
  }

  /** A single grant opens every repository, every cluster or every image exactly when it sets no field at all, of whatever
      scope. */
  lemma WildcardExactly(p: ScopePattern)
    ensures (forall row :: RepoReadableStrict(map[], [p], [], row)) <==> SetsNothing(p)
    ensures (forall row :: ClusterGranted([p], row)) <==> SetsNothing(p)
    ensures (forall row :: ImageReadable(map[], [], [], [p], [], row)) <==> SetsNothing(p)
  {
    var none: Row := map[];
    if SetsNothing(p) {
      forall row ensures RepoGranted([p], row) && ClusterGranted([p], row) && ImageGranted([p], row) {
        assert RepoPatternMatches([p][0], RepoAttributes(row)) && ClusterPatternMatches([p][0], row) && ImagePatternMatches([p][0], row);
      }
    } else {
      assert !RepoPatternMatches(p, RepoAttributes(none)) && !RepoReadableStrict(map[], [p], [], none);
      assert !ClusterGranted([p], none);
      assert !ImageReadable(map[], [], [], [p], [], none);
    }
  }

  lemma HasWildcardGrows(ps: seq<ScopePattern>, qs: seq<ScopePattern>)
    requires Within(ps, qs) && HasWildcard(ps)
    ensures HasWildcard(qs)
  {}

  lemma RepoGrantedGrows(ps: seq<ScopePattern>, qs: seq<ScopePattern>, row: Row)
    requires Within(ps, qs) && RepoGranted(ps, row)
    ensures RepoGranted(qs, row)
  {}

  lemma ImageGrantedGrows(ps: seq<ScopePattern>, qs: seq<ScopePattern>, row: Row)
    requires Within(ps, qs) && ImageGranted(ps, row)
    ensures ImageGranted(qs, row)
  {}

  lemma OpenedGrows(db: Db, ps: seq<ScopePattern>, qs: seq<ScopePattern>, running: Row)
    requires Within(ps, qs) && Opened(db, ps, running)
    ensures Opened(db, qs, running)
  {}

  lemma BridgedGrows(db: Db, ps: seq<ScopePattern>, qs: seq<ScopePattern>, repo: Row)
    requires Within(ps, qs) && Bridged(db, ps, repo)
    ensures Bridged(db, qs, repo)
  {
    var image, running :| Carries(db, ps, repo, image, running);
    OpenedGrows(db, ps, qs, running);
    assert Carries(db, qs, repo, image, running);
  }

  lemma RunsOpenlyGrows(db: Db, ps: seq<ScopePattern>, qs: seq<ScopePattern>, hidden: seq<string>, image: Row)
    requires Within(ps, qs) && RunsOpenly(db, ps, hidden, image)
    ensures RunsOpenly(db, qs, hidden, image)
  {
    var running :| Inherits(db, ps, hidden, image, running);
    OpenedGrows(db, ps, qs, running);
    assert Inherits(db, qs, hidden, image, running);
  }

  /** More grants, more repositories, through both clauses. */
  lemma RepoGrows(db: Db, g: Grants, h: Grants, repo: Row)
    requires Below(g, h)
    ensures RepoReadableStrict(db, g.repos, g.clusters, repo) ==> RepoReadableStrict(db, h.repos, h.clusters, repo)
    ensures RepoReadable(db, g.repos, g.clusters, repo) ==> RepoReadable(db, h.repos, h.clusters, repo)
  {
    if RepoGranted(g.repos, repo) { RepoGrantedGrows(g.repos, h.repos, repo); }
    if Bridged(db, g.clusters, repo) { BridgedGrows(db, g.clusters, h.clusters, repo); }
  }

  lemma ClusterGrows(g: Grants, h: Grants, cluster: Row)
    requires Below(g, h) && ClusterGranted(g.clusters, cluster)
    ensures ClusterGranted(h.clusters, cluster)
  {}

  ghost predicate CanReadImage(db: Db, g: Grants, hidden: seq<string>, image: Row) {
    ImageReadable(db, g.repos, g.clusters, g.images, hidden, image)
  }

  lemma SourceGrows(db: Db, g: Grants, h: Grants, image: Row)
    requires Below(g, h) && SourceReadable(db, g.repos, g.clusters, image)
    requires HasWildcard(g.repos) || !HasWildcard(h.repos) || HasSource(image)
    ensures SourceReadable(db, h.repos, h.clusters, image)
  {
    if HasWildcard(g.repos) {
      HasWildcardGrows(g.repos, h.repos);
    } else if !HasWildcard(h.repos) {
      var r :| ReadableSource(db, g.repos, g.clusters, image, r);
      RepoGrows(db, g, h, r);
      assert ReadableSource(db, h.repos, h.clusters, image, r);
    }
  }

  /** More grants, more images, unless the new ones turn the repository side unrestricted and the image names no source. */
  lemma ImageGrows(db: Db, g: Grants, h: Grants, hidden: seq<string>, image: Row)
    requires Below(g, h) && CanReadImage(db, g, hidden, image)
    requires HasWildcard(g.repos) || !HasWildcard(h.repos) || HasSource(image)
    ensures CanReadImage(db, h, hidden, image)
  {
    if Verified(image) && SourceReadable(db, g.repos, g.clusters, image) {
      SourceGrows(db, g, h, image);
    } else if ImageGranted(g.images, image) {
      ImageGrantedGrows(g.images, h.images, image);
    } else {
      RunsOpenlyGrows(db, g.clusters, h.clusters, hidden, image);
    }
  }

  /** On this database no new grant ever takes an image away. */
  ghost predicate GrantsOnlyAdd(db: Db) {
    forall g: Grants, h: Grants, hidden: seq<string>, image: Row |
      Below(g, h) && CanReadImage(db, g, hidden, image) :: CanReadImage(db, h, hidden, image)
  }

  /** A repository with an empty id that can be read by someone who may not read everything. */
  predicate NamelessAndReachable(r: Row) {
    "id" in r && TextIn(r, "id") == "" && (Public(r) || RepoAttributes(r) != ANYTHING)
  }

  lemma NamelessIsReachable(db: Db, g: Grants, r: Row)
    requires !HasWildcard(g.repos) && "id" in r && TextIn(r, "id") == ""
    requires RepoReadable(db, g.repos, g.clusters, r)
    ensures NamelessAndReachable(r)
  {}

  /** The smallest grants that open such a repository, and a verified image that names it as its source. */
  function Opener(r: Row): seq<ScopePattern> {
    if Public(r) then [] else [RepoAttributes(r)]
  }

  function ImageOf(r: Row): Row
    requires "id" in r
  {
    map["verified_source" := Bool(true), "source_repo_id" := r["id"]]
  }

  lemma ImageIsReadable(db: Db, r: Row)
    requires r in Rows(db, "repos") && NamelessAndReachable(r)
    ensures CanReadImage(db, Grants(Opener(r), [], []), [], ImageOf(r))
  {
    var ps := Opener(r);
    if !Public(r) { assert RepoPatternMatches(ps[0], RepoAttributes(r)); }
    assert ReadableSource(db, ps, [], ImageOf(r), r);
  }

  lemma WildcardHidesImage(db: Db, r: Row, ps: seq<ScopePattern>)
    requires NamelessAndReachable(r)
    ensures !CanReadImage(db, Grants(ps + [ANYTHING], [], []), [], ImageOf(r))
  {
    var qs := ps + [ANYTHING];
    assert IsWildcard(qs[|ps|]);
    assert TextIn(ImageOf(r), "source_repo_id") == TextIn(r, "id");
    assert !RunsOpenly(db, [], [], ImageOf(r));
  }

  /** They lose that image when a wildcard joins them. */
  lemma NamelessLosesImages(db: Db, r: Row)
    requires r in Rows(db, "repos") && NamelessAndReachable(r)
    ensures !GrantsOnlyAdd(db)
  {
    ImageIsReadable(db, r);
    WildcardHidesImage(db, r, Opener(r));
    assert Below(Grants(Opener(r), [], []), Grants(Opener(r) + [ANYTHING], [], []));
  }

  /**
   * Adding grants never removes a readable image exactly on the databases where every repository with an
   * empty id is private and carries no attribute a grant could name.
   */
  lemma ImageGrowsExactly(db: Db)
    ensures GrantsOnlyAdd(db) <==> forall r | r in Rows(db, "repos") :: !NamelessAndReachable(r)
  {
    if r :| r in Rows(db, "repos") && NamelessAndReachable(r) {
      NamelessLosesImages(db, r);
    } else {
      forall g: Grants, h: Grants, hidden: seq<string>, image: Row | Below(g, h) && CanReadImage(db, g, hidden, image)
        ensures CanReadImage(db, h, hidden, image)
      {
        ImageGrowsHere(db, g, h, hidden, image);
      }
    }
  }

  lemma ImageGrowsHere(db: Db, g: Grants, h: Grants, hidden: seq<string>, image: Row)
    requires forall r | r in Rows(db, "repos") :: !NamelessAndReachable(r)
    requires Below(g, h) && CanReadImage(db, g, hidden, image)
    ensures CanReadImage(db, h, hidden, image)
  {
    if Verified(image) && SourceReadable(db, g.repos, g.clusters, image) {
      if !HasWildcard(g.repos) && !HasSource(image) {
        var r :| ReadableSource(db, g.repos, g.clusters, image, r);
        assert TextIn(r, "id") == TextIn(image, "source_repo_id");
        NamelessIsReachable(db, g, r);
      }
      SourceGrows(db, g, h, image);
    } else if ImageGranted(g.images, image) {
      ImageGrantedGrows(g.images, h.images, image);
    } else {
      RunsOpenlyGrows(db, g.clusters, h.clusters, hidden, image);
    }
  }

  /** Grants are a set: neither their order nor their repetition changes what can be read, wildcards included. */
  lemma OrderAndRepetition(db: Db, g: Grants, h: Grants, hidden: seq<string>, row: Row)
    requires Below(g, h) && Below(h, g)
    ensures RepoReadable(db, g.repos, g.clusters, row) <==> RepoReadable(db, h.repos, h.clusters, row)
    ensures RepoReadableStrict(db, g.repos, g.clusters, row) <==> RepoReadableStrict(db, h.repos, h.clusters, row)
    ensures ClusterGranted(g.clusters, row) <==> ClusterGranted(h.clusters, row)
    ensures CanReadImage(db, g, hidden, row) <==> CanReadImage(db, h, hidden, row)
  {
    RepoGrows(db, g, h, row);
    RepoGrows(db, h, g, row);
    if ClusterGranted(g.clusters, row) { ClusterGrows(g, h, row); }
    if ClusterGranted(h.clusters, row) { ClusterGrows(h, g, row); }
    if HasWildcard(g.repos) { HasWildcardGrows(g.repos, h.repos); }
    if HasWildcard(h.repos) { HasWildcardGrows(h.repos, g.repos); }
    if CanReadImage(db, g, hidden, row) { ImageGrows(db, g, h, hidden, row); }
    if CanReadImage(db, h, hidden, row) { ImageGrows(db, h, g, hidden, row); }
  }

  // ---------------------------------------------------------------- the laws of the emitted clauses

  /** The clauses that a subject without privileges gets for its grants. */
  function RepoClause(g: Grants, a: string): Clause { Render(RepoScope(g.repos, g.clusters, a)) }

  function StrictClause(g: Grants, a: string): Clause { Render(RepoScopeStrict(g.repos, g.clusters, a)) }

  function ClusterClause(g: Grants, a: string): Clause { Render(ClusterScope(g.clusters, a)) }

  function ImageClause(g: Grants, hidden: seq<string>, a: string): Clause {
    Render(ImageScope(g.repos, g.clusters, g.images, hidden, a))
  }

  /** What each emitted text, parsed and bound, admits. */
  lemma Emitted(db: Db, env: Env, g: Grants, hidden: seq<string>, a: string)
    requires a in env
    ensures Admits(db, env, RepoClause(g, a)) <==> RepoReadable(db, g.repos, g.clusters, env[a])
    ensures Admits(db, env, StrictClause(g, a)) <==> RepoReadableStrict(db, g.repos, g.clusters, env[a])
    ensures Admits(db, env, ClusterClause(g, a)) <==> ClusterGranted(g.clusters, env[a])
    ensures Admits(db, env, ImageClause(g, hidden, a)) <==> CanReadImage(db, g, hidden, env[a])
  {
    RepoScopeMeaning(db, env, g.repos, g.clusters, a);
    RepoScopeStrictMeaning(db, env, g.repos, g.clusters, a);
    ClusterScopeMeaning(db, env, g.clusters, a);
    EmittedImage(db, env, g, hidden, a);
    RenderAdmits(db, env, RepoScope(g.repos, g.clusters, a));
    RenderAdmits(db, env, RepoScopeStrict(g.repos, g.clusters, a));
    RenderAdmits(db, env, ClusterScope(g.clusters, a));
  }

  lemma EmittedImage(db: Db, env: Env, g: Grants, hidden: seq<string>, a: string)
    requires a in env
    ensures Admits(db, env, ImageClause(g, hidden, a)) <==> CanReadImage(db, g, hidden, env[a])
  {
    ImageScopeMeaning(db, env, g.repos, g.clusters, g.images, hidden, a);
    RenderAdmits(db, env, ImageScope(g.repos, g.clusters, g.images, hidden, a));
  }

  /** The two emitted repository clauses differ by the public repositories and by nothing else. */
  lemma StrictIsSmaller(db: Db, env: Env, g: Grants, a: string)
    requires a in env
    ensures Admits(db, env, RepoClause(g, a)) <==> Admits(db, env, StrictClause(g, a)) || Public(env[a])
  {
    Emitted(db, env, g, [], a);
  }

  /** The emitted clauses of more grants admit every repository and every cluster that those of fewer did. */
  lemma ClausesGrow(db: Db, env: Env, g: Grants, h: Grants, a: string)
    requires a in env && Below(g, h)
    ensures Admits(db, env, RepoClause(g, a)) ==> Admits(db, env, RepoClause(h, a))
    ensures Admits(db, env, StrictClause(g, a)) ==> Admits(db, env, StrictClause(h, a))
    ensures Admits(db, env, ClusterClause(g, a)) ==> Admits(db, env, ClusterClause(h, a))
  {
    Emitted(db, env, g, [], a);
    Emitted(db, env, h, [], a);
    RepoGrows(db, g, h, env[a]);
    if ClusterGranted(g.clusters, env[a]) { ClusterGrows(g, h, env[a]); }
  }

  /** On this database no emitted image clause loses a row when grants are added. */
  ghost predicate ClausesOnlyAdd(db: Db, a: string) {
    forall g: Grants, h: Grants, hidden: seq<string>, env: Env |
      a in env && Below(g, h) && Admits(db, env, ImageClause(g, hidden, a)) :: Admits(db, env, ImageClause(h, hidden, a))
  }

  /** For images that is so exactly on the databases where every repository with an empty id is private and carries no
      attribute a grant could name. */
  lemma ImageClausesGrowExactly(db: Db, a: string)
    ensures ClausesOnlyAdd(db, a) <==> forall r | r in Rows(db, "repos") :: !NamelessAndReachable(r)
  {
    ImageGrowsExactly(db);
    if GrantsOnlyAdd(db) {
      forall g: Grants, h: Grants, hidden: seq<string>, env: Env | a in env && Below(g, h) && Admits(db, env, ImageClause(g, hidden, a))
        ensures Admits(db, env, ImageClause(h, hidden, a))
      {
        EmittedImage(db, env, g, hidden, a);
        EmittedImage(db, env, h, hidden, a);
      }
    } else {
      var g, h, hidden, image :| Below(g, h) && CanReadImage(db, g, hidden, image) && !CanReadImage(db, h, hidden, image);
      ClauseLosesImage(db, a, g, h, hidden, image);
    }
  }

  lemma ClauseLosesImage(db: Db, a: string, g: Grants, h: Grants, hidden: seq<string>, image: Row)
    requires Below(g, h) && CanReadImage(db, g, hidden, image) && !CanReadImage(db, h, hidden, image)
    ensures !ClausesOnlyAdd(db, a)
  {
    var env: Env := map[a := image];
    EmittedImage(db, env, g, hidden, a);
    EmittedImage(db, env, h, hidden, a);
  }

  /** The order and the repetition of grants change no emitted clause's meaning. */
  lemma ClausesOrderAndRepetition(db: Db, env: Env, g: Grants, h: Grants, hidden: seq<string>, a: string)
    requires a in env && Below(g, h) && Below(h, g)
    ensures Admits(db, env, RepoClause(g, a)) <==> Admits(db, env, RepoClause(h, a))
    ensures Admits(db, env, StrictClause(g, a)) <==> Admits(db, env, StrictClause(h, a))
    ensures Admits(db, env, ClusterClause(g, a)) <==> Admits(db, env, ClusterClause(h, a))
    ensures Admits(db, env, ImageClause(g, hidden, a)) <==> Admits(db, env, ImageClause(h, hidden, a))
  {
    Emitted(db, env, g, hidden, a);
    Emitted(db, env, h, hidden, a);
    OrderAndRepetition(db, g, h, hidden, env[a]);
  }
}

/** The conditions that the grant compiler emits, as trees, and what they mean. */
module AclTrees {
  import opened Wrappers
  import opened SqlSyntax
  import opened SqlMeaning
  import opened SqlParts
  import opened AclGrants
  import HiddenNamespaces

  function Col(alias: string, column: string): Ref { Ref(alias, column, false) }

  // One condition per field that is set, one part per grant that sets any.

  function Cond(alias: string, column: string, v: string): seq<Factor> {
    if v == "" then [] else [Test(Col(alias, column), EqArg(v))]
  }

  function RepoConds(p: ScopePattern, a: string): seq<Factor> {
    Cond(a, "provider", p.provider) + Cond(a, "provider_instance_id", p.instance) + Cond(a, "org", p.owner) + Cond(a, "slug", p.slug)
  }

  function ImageConds(p: ScopePattern, a: string): seq<Factor> {
    Cond(a, "registry", p.registry) + Cond(a, "repository", p.repository) + Cond(a, "digest", p.digest)
  }

  function Grouped(conds: seq<Factor>): seq<Factor> {
    if conds == [] then [] else [Paren(Last(AllOf(conds)))]
  }

  datatype Kind = RepoKind | ClusterKind | ImageKind

  function Part(kind: Kind, p: ScopePattern, a: string): seq<Factor> {
    match kind
    case RepoKind => Grouped(RepoConds(p, a))
    case ClusterKind => Cond(a, "cluster_id", p.clusterId)
    case ImageKind => Grouped(ImageConds(p, a))
  }

  function Parts(kind: Kind, ps: seq<ScopePattern>, a: string): seq<Factor> {
    if ps == [] then [] else Parts(kind, ps[..|ps| - 1], a) + Part(kind, ps[|ps| - 1], a)
  }

  predicate Matches(kind: Kind, p: ScopePattern, row: Row) {
    match kind
    case RepoKind => RepoPatternMatches(p, RepoAttributes(row))
    case ClusterKind => ClusterPatternMatches(p, row)
    case ImageKind => ImagePatternMatches(p, row)
  }

  lemma CondMeaning(db: Db, env: Env, a: string, column: string, v: string)
    requires a in env
    ensures HoldsAll(db, env, Cond(a, column, v)) <==> Fits(v, env[a], column)
    ensures HoldsSome(db, env, Cond(a, column, v)) <==> v != "" && Is(env[a], column, Str(v))
    ensures Fine(Cond(a, column, v))
  {
    if v != "" {
      assert HoldsF(db, env, Cond(a, column, v)[0]) <==> Is(env[a], column, Str(v));
    }
  }

  lemma GroupedMeaning(db: Db, env: Env, conds: seq<Factor>)
    requires Fine(conds)
    ensures HoldsSome(db, env, Grouped(conds)) <==> conds != [] && HoldsAll(db, env, conds)
    ensures Fine(Grouped(conds))
  {
    if conds != [] {
      AllOfHolds(db, env, conds);
      JoinedAnd(conds);
      var f := Grouped(conds)[0];
      assert HoldsF(db, env, f) <==> HoldsE(db, env, Last(AllOf(conds)));
      assert HoldsSome(db, env, Grouped(conds)) <==> HoldsF(db, env, f);
    }
  }

  lemma FineAppend(fs: seq<Factor>, gs: seq<Factor>)
    requires Fine(fs) && Fine(gs)
    ensures Fine(fs + gs)
  {}

  lemma RepoCondsMeaning(db: Db, env: Env, p: ScopePattern, a: string)
    requires a in env
    ensures HoldsAll(db, env, RepoConds(p, a)) <==>
            Fits(p.provider, env[a], "provider") && Fits(p.instance, env[a], "provider_instance_id")
            && Fits(p.owner, env[a], "org") && Fits(p.slug, env[a], "slug")
    ensures Fine(RepoConds(p, a))
  {
    var c1, c2 := Cond(a, "provider", p.provider), Cond(a, "provider_instance_id", p.instance);
    var c3, c4 := Cond(a, "org", p.owner), Cond(a, "slug", p.slug);
    CondMeaning(db, env, a, "provider", p.provider);
    CondMeaning(db, env, a, "provider_instance_id", p.instance);
    CondMeaning(db, env, a, "org", p.owner);
    CondMeaning(db, env, a, "slug", p.slug);
    HoldsAllAppend(db, env, c1, c2);
    HoldsAllAppend(db, env, c1 + c2, c3);
    HoldsAllAppend(db, env, c1 + c2 + c3, c4);
  }

  lemma ImageCondsMeaning(db: Db, env: Env, p: ScopePattern, a: string)
    requires a in env
    ensures HoldsAll(db, env, ImageConds(p, a)) <==>
            Fits(p.registry, env[a], "registry") && Fits(p.repository, env[a], "repository") && Fits(p.digest, env[a], "digest")
    ensures Fine(ImageConds(p, a))
  {
    var c1, c2, c3 := Cond(a, "registry", p.registry), Cond(a, "repository", p.repository), Cond(a, "digest", p.digest);
    CondMeaning(db, env, a, "registry", p.registry);
    CondMeaning(db, env, a, "repository", p.repository);
    CondMeaning(db, env, a, "digest", p.digest);
    HoldsAllAppend(db, env, c1, c2);
    HoldsAllAppend(db, env, c1 + c2, c3);
  }

  lemma PartMeaning(db: Db, env: Env, kind: Kind, p: ScopePattern, a: string)
    requires a in env && !IsWildcard(p)
    ensures HoldsSome(db, env, Part(kind, p, a)) <==> Matches(kind, p, env[a])
    ensures Fine(Part(kind, p, a))
  {
    match kind
    case RepoKind =>
      RepoCondsMeaning(db, env, p, a);
      GroupedMeaning(db, env, RepoConds(p, a));
    case ClusterKind => CondMeaning(db, env, a, "cluster_id", p.clusterId);
    case ImageKind =>
      ImageCondsMeaning(db, env, p, a);
      GroupedMeaning(db, env, ImageConds(p, a));
  }

  ghost predicate Granted(kind: Kind, ps: seq<ScopePattern>, row: Row) {
    exists i :: 0 <= i < |ps| && Matches(kind, ps[i], row)
  }

  lemma GrantedFront(kind: Kind, ps: seq<ScopePattern>, row: Row)
    requires ps != []
    ensures Granted(kind, ps, row) <==> Granted(kind, ps[..|ps| - 1], row) || Matches(kind, ps[|ps| - 1], row)
  {}

  /** The parts of a grant list hold of a row exactly when some grant matches it. */
  lemma {:induction false} PartsMeaning(db: Db, env: Env, kind: Kind, ps: seq<ScopePattern>, a: string)
    requires a in env && !HasWildcard(ps)
    ensures HoldsSome(db, env, Parts(kind, ps, a)) <==> Granted(kind, ps, env[a])
    ensures Fine(Parts(kind, ps, a))
  {
    if ps != [] {
      var front, p := ps[..|ps| - 1], ps[|ps| - 1];
      PartsMeaning(db, env, kind, front, a);
      PartMeaning(db, env, kind, p, a);
      HoldsSomeAppend(db, env, Parts(kind, front, a), Part(kind, p, a));
      FineAppend(Parts(kind, front, a), Part(kind, p, a));
      GrantedFront(kind, ps, env[a]);
    }
  }

  // Cluster ids named by grants, resolved against the clusters table.

  /** The ids collected before the first wildcard. */
  function Ids(ps: seq<ScopePattern>): seq<string> {
    if ps == [] then [] else
      Ids(ps[..|ps| - 1]) + (if ps[|ps| - 1].clusterId != "" then [ps[|ps| - 1].clusterId] else [])
  }

  predicate SomeId(ps: seq<ScopePattern>, id: string) {
    exists i :: 0 <= i < |ps| && ps[i].clusterId == id
  }

  lemma SomeIdFront(ps: seq<ScopePattern>, id: string)
    requires ps != []
    ensures SomeId(ps, id) <==> SomeId(ps[..|ps| - 1], id) || ps[|ps| - 1].clusterId == id
  {}

  lemma {:induction false} IdsHas(ps: seq<ScopePattern>, id: string)
    ensures id in Ids(ps) <==> id != "" && SomeId(ps, id)
  {
    if ps != [] {
      IdsHas(ps[..|ps| - 1], id);
      SomeIdFront(ps, id);
    }
  }

  function SlugTests(ids: seq<string>): seq<Factor> {
    [Test(Ref("", "ror_slug", true), NonEmpty), Test(Ref("", "ror_slug", true), InList(ids))]
  }

  function UidTests(ids: seq<string>): seq<Factor> {
    [Test(Col("", "ror_cluster_uid"), NonEmpty), Test(Col("", "ror_cluster_uid"), InList(ids))]
  }

  function ResolveTests(ids: seq<string>): seq<Factor> {
    [Test(Col("", "cluster_id"), InList(ids)), Paren(Last(AllOf(SlugTests(ids)))), Paren(Last(AllOf(UidTests(ids))))]
  }

  function ResolveQuery(ids: seq<string>): Query {
    Simple(false, [Col("", "cluster_id")], "clusters", "clusters", AnyOf(ResolveTests(ids)))
  }

  lemma PairHolds(db: Db, env: Env, f: Factor, g: Factor)
    ensures HoldsF(db, env, Paren(Last(AllOf([f, g])))) <==> HoldsF(db, env, f) && HoldsF(db, env, g)
    ensures FineF(f) && FineF(g) ==> FineF(Paren(Last(AllOf([f, g]))))
  {
    var fs := [f, g];
    AllOfHolds(db, env, fs);
    JoinedAnd(fs);
    assert HoldsAll(db, env, fs) <==> HoldsF(db, env, fs[0]) && HoldsF(db, env, fs[1]);
    assert HoldsE(db, env, Last(AllOf(fs))) <==> HoldsT(db, env, AllOf(fs));
    assert FineE(Last(AllOf(fs))) <==> FineT(AllOf(fs));
  }

  /** The guards against empty slugs and uids add nothing, since a grant never carries an empty id. */
  lemma ResolveTestsMeaning(db: Db, env: Env, ids: seq<string>)
    requires "" in env && "" !in ids
    ensures HoldsE(db, env, AnyOf(ResolveTests(ids))) <==> exists id :: id in ids && Names(env[""], id)
    ensures FineE(AnyOf(ResolveTests(ids)))
  {
    var k, fs := env[""], ResolveTests(ids);
    var slugs, uids := SlugTests(ids), UidTests(ids);
    PairHolds(db, env, slugs[0], slugs[1]);
    PairHolds(db, env, uids[0], uids[1]);
    AnyOfHolds(db, env, fs);
    JoinedOr(fs);
    assert HoldsSome(db, env, fs) <==> HoldsF(db, env, fs[0]) || HoldsF(db, env, fs[1]) || HoldsF(db, env, fs[2]);
    assert HoldsF(db, env, fs[0]) <==> exists id :: id in ids && Is(k, "cluster_id", Str(id));
    assert HoldsF(db, env, fs[1]) <==> exists id :: id in ids && "ror_slug" in k && Trimmed(k["ror_slug"]) == Str(id);
    assert HoldsF(db, env, fs[2]) <==> exists id :: id in ids && Is(k, "ror_cluster_uid", Str(id));
  }

  /** `c IN (<resolve>)` for a column holding a cluster id. */
  lemma ResolveMeaning(db: Db, env: Env, c: Ref, ids: seq<string>)
    requires "" !in ids
    ensures HoldsF(db, env, InSelect([c], ResolveQuery(ids))) <==>
      Read(env, c).Some? && exists k, id :: k in Rows(db, "clusters") && id in ids && Names(k, id) && Is(k, "cluster_id", Read(env, c).value)
    ensures FineF(InSelect([c], ResolveQuery(ids)))
  {
    var q := ResolveQuery(ids);
    forall k | k in Rows(db, "clusters")
      ensures HoldsE(db, Inside(env, "clusters", k), q.filter) <==> exists id :: id in ids && Names(k, id)
      ensures SameCells(env, [c], Inside(env, "clusters", k), q.cols) <==>
        Read(env, c).Some? && Is(k, "cluster_id", Read(env, c).value)
    {
      ResolveTestsMeaning(db, Inside(env, "clusters", k), ids);
      assert Read(Inside(env, "clusters", k), q.cols[0]) == Cell(k, "cluster_id");
      SameOne(env, c, Inside(env, "clusters", k), q.cols[0]);
    }
    ResolveTestsMeaning(db, Inside(env, "clusters", map[]), ids);
    assert HoldsF(db, env, InSelect([c], q)) <==> Selects(db, env, [c], q);
    if Selects(db, env, [c], q) {
      var k :| Picks(db, env, [c], q, k);
      assert Is(k, "cluster_id", Read(env, c).value);
    }
    if Read(env, c).Some? && exists k, id :: k in Rows(db, "clusters") && id in ids && Names(k, id) && Is(k, "cluster_id", Read(env, c).value) {
      var k, id :| k in Rows(db, "clusters") && id in ids && Names(k, id) && Is(k, "cluster_id", Read(env, c).value);
      assert Picks(db, env, [c], q, k);
    }
  }

  lemma SameOne(env: Env, c: Ref, env': Env, d: Ref)
    ensures SameCells(env, [c], env', [d]) <==> Read(env, c).Some? && Read(env, c) == Read(env', d)
  {
    assert [c][0] == c && [d][0] == d;
  }
}

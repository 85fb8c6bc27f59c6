/** Grants and what they are meant to open, stated on rows without any SQL. */
module AclGrants {
  import opened Wrappers
  import opened SqlMeaning
  import HiddenNamespaces

  /** Every field is optional; the empty string means unset. */
  datatype ScopePattern = ScopePattern(
    provider: string, instance: string, owner: string, slug: string,
    clusterId: string,
    registry: string, repository: string, digest: string)

  const ANYTHING := ScopePattern("", "", "", "", "", "", "", "")

  predicate IsWildcard(p: ScopePattern) { p == ANYTHING }

  predicate HasWildcard(ps: seq<ScopePattern>) {
    exists i :: 0 <= i < |ps| && IsWildcard(ps[i])
  }

  /** The in-memory form of a repository grant. */
  predicate RepoPatternMatches(p: ScopePattern, a: ScopePattern) {
    if IsWildcard(p) then true
    else if p.provider != "" && p.provider != a.provider then false
    else if p.instance != "" && p.instance != a.instance then false
    else if p.owner != "" && p.owner != a.owner then false
    else if p.slug != "" && p.slug != a.slug then false
    else p.provider != "" || p.instance != "" || p.owner != "" || p.slug != ""
  }

  function TextIn(row: Row, column: string): string {
    if column in row && row[column].Str? then row[column].text else ""
  }

  predicate Is(row: Row, column: string, v: Value) {
    column in row && row[column] == v
  }

  function RepoAttributes(row: Row): ScopePattern {
    ANYTHING.(provider := TextIn(row, "provider"), instance := TextIn(row, "provider_instance_id"),
              owner := TextIn(row, "org"), slug := TextIn(row, "slug"))
  }

  predicate RepoGranted(ps: seq<ScopePattern>, row: Row) {
    exists i :: 0 <= i < |ps| && RepoPatternMatches(ps[i], RepoAttributes(row))
  }

  predicate Fits(field: string, row: Row, column: string) {
    field == "" || Is(row, column, Str(field))
  }

  predicate ImagePatternMatches(p: ScopePattern, row: Row) {
    || IsWildcard(p)
    || (&& (p.registry != "" || p.repository != "" || p.digest != "")
        && Fits(p.registry, row, "registry") && Fits(p.repository, row, "repository") && Fits(p.digest, row, "digest"))
  }

  predicate ImageGranted(ps: seq<ScopePattern>, row: Row) {
    exists i :: 0 <= i < |ps| && ImagePatternMatches(ps[i], row)
  }

  predicate ClusterPatternMatches(p: ScopePattern, row: Row) {
    IsWildcard(p) || (p.clusterId != "" && Is(row, "cluster_id", Str(p.clusterId)))
  }

  predicate ClusterGranted(ps: seq<ScopePattern>, row: Row) {
    exists i :: 0 <= i < |ps| && ClusterPatternMatches(ps[i], row)
  }

  /** A grant may name a cluster by its id, by its slug or by its uid in the cluster registry. */
  predicate Names(cluster: Row, id: string) {
    || Is(cluster, "cluster_id", Str(id))
    || ("ror_slug" in cluster && Trimmed(cluster["ror_slug"]) == Str(id))
    || Is(cluster, "ror_cluster_uid", Str(id))
  }

  /** The cluster that a row of the inventory runs in is opened by the grant. */
  ghost predicate Opens(db: Db, p: ScopePattern, running: Row) {
    || IsWildcard(p)
    || (&& p.clusterId != "" && "cluster_id" in running
        && exists k :: k in Rows(db, "clusters") && Names(k, p.clusterId) && Is(k, "cluster_id", running["cluster_id"]))
  }

  ghost predicate Opened(db: Db, ps: seq<ScopePattern>, running: Row) {
    exists i :: 0 <= i < |ps| && Opens(db, ps[i], running)
  }

  predicate Same(row: Row, column: string, other: Row, column': string) {
    column in row && column' in other && row[column] == other[column']
  }

  /** A row of the inventory runs the image of a row of the digests. */
  predicate Runs(running: Row, image: Row) {
    && Same(image, "registry", running, "raw_registry")
    && Same(image, "repository", running, "image")
    && Same(image, "digest", running, "digest")
  }

  predicate Verified(image: Row) { Is(image, "verified_source", Bool(true)) }

  predicate HasSource(image: Row) { TextIn(image, "source_repo_id") != "" }

  /** A verified image built from this repository runs in an opened cluster. */
  ghost predicate Bridged(db: Db, ps: seq<ScopePattern>, repo: Row) {
    exists image, running :: Carries(db, ps, repo, image, running)
  }

  ghost predicate Carries(db: Db, ps: seq<ScopePattern>, repo: Row, image: Row, running: Row) {
    && image in Rows(db, "image_digests") && running in Rows(db, "cluster_image_inventory")
    && Runs(running, image) && Opened(db, ps, running)
    && Verified(image) && HasSource(image) && Same(repo, "id", image, "source_repo_id")
  }

  predicate Public(repo: Row) { Is(repo, "is_private", Bool(false)) }

  ghost predicate RepoReadableStrict(db: Db, repos: seq<ScopePattern>, clusters: seq<ScopePattern>, repo: Row) {
    RepoGranted(repos, repo) || Bridged(db, clusters, repo)
  }

  ghost predicate RepoReadable(db: Db, repos: seq<ScopePattern>, clusters: seq<ScopePattern>, repo: Row) {
    Public(repo) || RepoReadableStrict(db, repos, clusters, repo)
  }

  /** The image's source repository is readable; with a wildcard repository grant it need only be named. */
  ghost predicate SourceReadable(db: Db, repos: seq<ScopePattern>, clusters: seq<ScopePattern>, image: Row) {
    if HasWildcard(repos) then HasSource(image) else exists r :: ReadableSource(db, repos, clusters, image, r)
  }

  ghost predicate ReadableSource(db: Db, repos: seq<ScopePattern>, clusters: seq<ScopePattern>, image: Row, r: Row) {
    r in Rows(db, "repos") && RepoReadable(db, repos, clusters, r) && Same(image, "source_repo_id", r, "id")
  }

  /** The image runs in an opened cluster, in a namespace that is not hidden. */
  ghost predicate RunsOpenly(db: Db, clusters: seq<ScopePattern>, hidden: seq<string>, image: Row) {
    exists running :: Inherits(db, clusters, hidden, image, running)
  }

  ghost predicate Inherits(db: Db, clusters: seq<ScopePattern>, hidden: seq<string>, image: Row, running: Row) {
    && running in Rows(db, "cluster_image_inventory")
    && Runs(running, image) && Opened(db, clusters, running)
    && HiddenNamespaces.Visible(hidden, Cell(running, "namespace"))
  }

  ghost predicate ImageReadable(db: Db, repos: seq<ScopePattern>, clusters: seq<ScopePattern>, images: seq<ScopePattern>,
                                hidden: seq<string>, image: Row) {
    || (Verified(image) && SourceReadable(db, repos, clusters, image))
    || ImageGranted(images, image)
    || RunsOpenly(db, clusters, hidden, image)
  }
}

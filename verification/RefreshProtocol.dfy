/** The refresh protocol of one family of materialized views, run by any number of replicas.

    A replica runs its family's refresh loop as a sequence of atomic actions on the shared database: a debounce
    query, a fingerprint query, the advisory lock, one snapshot and one commit per view, the upsert of the stamp
    rows, the unlock. `Pc` is the program counter of that loop, `Execute` performs one action, and a run interleaves
    the actions of all replicas with clock ticks, source changes and triggers.

    Fields marked "history" are written by the actions and read by no action: they only serve the statements. */
module RefreshProtocol {
  import opened Wrappers

  /** What distinguishes the families: the number of views, the debounce interval, the greatest age at which a
      matching fingerprint may skip, whether there is a fingerprint, whether each view also reads its predecessor
      (`exposed_digests` reads `host_exposure`), and the trailing-edge retry budget of the trigger loop. Then what the
      environment may do: make the re-check under the lock fail, which the source takes for "not recently refreshed",
      or drop the connection that holds the lock, while the refresh goes on over another one. */
  datatype Config = Config(
    views: nat,
    debounce: int,
    maxSkipAge: int,
    fingerprint: bool,
    chained: bool,
    retries: nat,
    recheckMayFail: bool,
    lockMayDrop: bool)

  predicate WellFormed(cfg: Config) {
    cfg.views > 0 && cfg.debounce > 0
  }

  /** The connection that holds the lock lives as long as the call. */
  predicate ValidConfig(cfg: Config) {
    WellFormed(cfg) && !cfg.lockMayDrop
  }

  // Times are in seconds.
  const TRAILING_SLACK := 5
  const ASSET_RISK := Config(1, 300, 0, false, false, 2, true, false)
  const HOST_EXPOSURE := Config(2, 300, 1800, true, true, 0, true, false)
  const CLUSTER_SUMMARY := Config(2, 120, 1800, true, false, 0, true, false)
  const VULN_UNIFIED := Config(4, 300, 0, false, false, 0, true, false)   // no fingerprint, so what its views read from each other plays no part
  const SBOM := Config(2, 900, 21600, true, false, 0, true, false)

  /** A row of materialized_view_refreshes. No version stands for the empty string, which never matches. */
  datatype Stamp = Stamp(at: int, version: Option<nat>)

  /** A view body evaluated against the source: the version it reflects and the time of the snapshot. */
  datatype Snap = Snap(version: nat, at: int)

  /** A call of TriggerRefresh: when, and the source version it announces. */
  datatype Trigger = Trigger(at: int, version: nat)

  /** What a refresh call knows when it asks for the lock. */
  datatype Attempt = Attempt(fp: Option<nat>, same: bool)

  /** A debounced attempt: the clock it compared with and the stamp it saw (history). */
  datatype Mark = Mark(clock: int, seen: int)

  /** The (bool, error) pair a refresh call returns; a debounced call also leaves its mark (history). */
  datatype Outcome = Outcome(changed: bool, failed: bool, mark: Option<Mark>)

  const FAILED := Outcome(false, true, None)
  const UNCHANGED := Outcome(false, false, None)

  /** Inside the locked region: before the clock is read, before the re-check, before the snapshot of view i,
      before its commit, before the upsert of the stamps. */
  datatype Stage =
    | Locked
    | Rechecking(clock: int)
    | Refreshing(clock: int, i: nat, last: Snap)
    | Snapped(clock: int, i: nat, last: Snap)
    | Recording(clock: int, at: int, last: Snap)

  datatype Pc =
    | Idle
    | Top
    | Checking(clock: int)
    | Capturing
    | Matching(captured: Option<nat>)
    | Matched(fp: nat)
    | Aging(fp: nat, clock: int)
    | TryLock(a: Attempt)
    | Held(a: Attempt, stage: Stage)
    | Unlocking(o: Outcome)
    | Returned(o: Outcome)
    | Gate(o: Outcome)
    | Sleeping(until: int)

  /** One replica: the mutex-guarded gate fields, its loop, and the triggers its loop works for (history). */
  datatype Proc = Proc(
    inflight: bool,
    pending: bool,
    pc: Pc,
    budget: nat,
    mark: Option<Mark>,
    serving: set<Trigger>,
    waiting: set<Trigger>)

  /** History, written by the actions and read by none. */
  datatype Log = Log(
    cascaded: nat,            // greatest version of the last view handed to the downstream trigger
    recorded: Option<Snap>,   // snapshot of the last view of the latest recorded refresh
    stamps: seq<int>,         // every recorded refreshed_at
    fired: set<Trigger>,
    served: set<Trigger>,     // worked for by an iteration that ended without error
    dropped: set<Trigger>)    // worked for by an iteration that ended with an error

  /** The shared database: clock, source version, stamp rows, the version each view reflects, advisory lock. */
  datatype Db = Db(now: int, source: nat, rows: seq<Option<Stamp>>, views: seq<nat>, lock: Option<nat>, log: Log)

  datatype State = State(db: Db, procs: seq<Proc>)

  /** How a database call ends: normally, without effect, or with its effect but without its reply. */
  datatype Fault = Ok | NoEffect | ReplyLost

  datatype Step =
    | Tick(to: int)
    | Change(version: nat)
    | Fire(p: nat)
    | Run(p: nat, f: Fault)
    | Drop                      // the connection that holds the lock is lost

  const IDLE_PROC := Proc(false, false, Idle, 0, None, {}, {})

  ghost predicate Init(cfg: Config, s: State) {
    && |s.db.rows| == |s.db.views| == cfg.views
    && (forall i | 0 <= i < |s.db.rows| :: s.db.rows[i] == None)
    && (forall i | 0 <= i < |s.db.views| :: s.db.views[i] <= s.db.source)
    && (cfg.chained ==> forall i | 0 < i < |s.db.views| :: s.db.views[i] <= s.db.views[i - 1])
    && s.db.lock == None
    && s.db.log == Log(0, None, [], {}, {}, {})
    && (forall p | 0 <= p < |s.procs| :: s.procs[p] == IDLE_PROC)
  }

  /** Every view of the family has a stamp no older than the cutoff. */
  predicate Recent(rows: seq<Option<Stamp>>, cutoff: int) {
    forall i | 0 <= i < |rows| :: rows[i].Some? && rows[i].value.at >= cutoff
  }

  /** Every view of the family recorded exactly this fingerprint. */
  predicate Matches(rows: seq<Option<Stamp>>, fp: nat) {
    forall i | 0 <= i < |rows| :: rows[i].Some? && rows[i].value.version == Some(fp)
  }

  function Min(a: nat, b: nat): nat { if a <= b then a else b }
  function Max(a: nat, b: nat): nat { if a <= b then b else a }

  /** The version a view reflects when its body is evaluated now. */
  function SnapshotVersion(cfg: Config, db: Db, i: nat): nat
    requires i < |db.views|
  {
    if cfg.chained && i > 0 then Min(db.source, db.views[i - 1]) else db.source
  }

  function LastView(db: Db): nat {
    if |db.views| == 0 then 0 else db.views[|db.views| - 1]
  }

  predicate Holding(pc: Pc) {
    pc.Held? || pc.Unlocking?
  }

  /** Between the re-check under the lock and the record of the stamps. */
  predicate MidRefresh(pc: Pc) {
    pc.Held? && !pc.stage.Locked? && !pc.stage.Rechecking?
  }

  /** TriggerRefresh: start the loop, or leave a pending bit for the loop that runs. */
  function Notify(cfg: Config, r: Proc, t: Trigger): Proc {
    if r.inflight then r.(pending := true, waiting := r.waiting + {t})
    else Proc(true, r.pending, Top, cfg.retries, None, {t}, r.waiting)
  }

  /** A call that finds the stamps recent returns (false, nil). */
  function Debounced(db: Db, clock: int): Outcome {
    Outcome(false, false, if |db.rows| > 0 && db.rows[0].Some? then Some(Mark(clock, db.rows[0].value.at)) else None)
  }

  /** From the top of the loop to the request for the lock; these actions write nothing. */
  function Decide(cfg: Config, db: Db, pc: Pc, f: Fault): Pc {
    match pc
    case Top => Checking(db.now)
    case Checking(clock) =>
      if f.Ok? && Recent(db.rows, clock - cfg.debounce) then Returned(Debounced(db, clock))
      else if cfg.fingerprint then Capturing
      else TryLock(Attempt(None, false))
    case Capturing => Matching(if f.Ok? then Some(db.source) else None)
    case Matching(fp) =>
      if f.Ok? && fp.Some? && Matches(db.rows, fp.value) then Matched(fp.value)
      else TryLock(Attempt(fp, false))
    case Matched(fp) => Aging(fp, db.now)
    case Aging(fp, clock) =>
      if f.Ok? && cfg.maxSkipAge > 0 && Recent(db.rows, clock - cfg.maxSkipAge) then Returned(UNCHANGED)
      else TryLock(Attempt(Some(fp), true))
    case _ => pc
  }

  /** recordMaterializedViewRefresh: one upsert writes the rows of the whole family. */
  function Record(db: Db, at: int, fp: Option<nat>, last: Snap): Db {
    db.(rows := seq(|db.rows|, _ => Some(Stamp(at, fp))),
        log := db.log.(recorded := Some(last), stamps := db.log.stamps + [at]))
  }

  /** One action inside the locked region. */
  function Work(cfg: Config, db: Db, a: Attempt, stage: Stage, f: Fault): (Db, Pc) {
    match stage
    case Locked => (db, Held(a, Rechecking(db.now)))
    case Rechecking(clock) =>
      if f.Ok? && Recent(db.rows, clock - cfg.debounce) then (db, Unlocking(Debounced(db, clock)))
      else (db, Held(a, Refreshing(clock, 0, Snap(0, clock))))
    case Refreshing(clock, i, last) =>
      if i >= |db.views| then (db, Held(a, Recording(clock, db.now, last)))
      else if f.Ok? then (db, Held(a, Snapped(clock, i, Snap(SnapshotVersion(cfg, db, i), db.now))))
      else (db, Unlocking(FAILED))
    case Snapped(clock, i, last) =>
      (if f.NoEffect? || i >= |db.views| then db else db.(views := db.views[i := last.version]),
       if f.Ok? then Held(a, Refreshing(clock, i + 1, last)) else Unlocking(FAILED))
    case Recording(clock, at, last) =>
      (if f.NoEffect? then db else Record(db, at, a.fp, last), Unlocking(Outcome(!a.same, !f.Ok?, None)))
  }

  /** From the request for the lock to its release. A lock that an earlier call of the same replica left behind, because
      its unlock failed or the reply to its request was lost, may be granted to that replica again. */
  function Locking(cfg: Config, db: Db, p: nat, pc: Pc, f: Fault): (Db, Pc) {
    match pc
    case TryLock(a) =>
      if f.NoEffect? || (db.lock != None && db.lock != Some(p)) then (db, Returned(FAILED))
      else (db.(lock := Some(p)), if f.Ok? then Held(a, Locked) else Returned(FAILED))
    case Held(a, stage) => Work(cfg, db, a, stage, f)
    case Unlocking(o) => (if f.NoEffect? then db else db.(lock := None), Returned(o))
    case _ => (db, pc)
  }

  /** After the call: the cascade when contents changed, then the end of the iteration, which retries a skip after
      the debounce window, goes round again for a pending trigger, or stops. */
  function Finish(cfg: Config, db: Db, r: Proc): (Db, Proc) {
    match r.pc
    case Returned(o) =>
      (if o.changed then db.(log := db.log.(cascaded := Max(db.log.cascaded, LastView(db)))) else db,
       r.(pc := Gate(o), mark := if o.mark.Some? then o.mark else r.mark))
    case Gate(o) =>
      if !o.failed && !o.changed && r.budget > 0 then
        (db, r.(pc := Sleeping(db.now + cfg.debounce + TRAILING_SLACK), budget := r.budget - 1))
      else
        (db.(log := if o.failed then db.log.(dropped := db.log.dropped + r.serving)
                    else db.log.(served := db.log.served + r.serving)),
         if r.pending then Proc(true, false, Top, cfg.retries, None, r.waiting, {})
         else r.(inflight := false, pc := Idle, serving := {}, mark := None))
    case Sleeping(until) => (db, r.(pc := Top))
    case _ => (db, r)
  }

  datatype Phase = Deciding | InLock | Finishing

  function PhaseOf(pc: Pc): Phase {
    if pc.Returned? || pc.Gate? || pc.Sleeping? || pc.Idle? then Finishing
    else if pc.TryLock? || Holding(pc) then InLock
    else Deciding
  }

  /** The next atomic action of replica p, whose loop is r. */
  function Execute(cfg: Config, db: Db, p: nat, r: Proc, f: Fault): (Db, Proc) {
    match PhaseOf(r.pc)
    case Deciding => (db, r.(pc := Decide(cfg, db, r.pc, f)))
    case InLock => var (db', pc') := Locking(cfg, db, p, r.pc, f); (db', r.(pc := pc'))
    case Finishing => Finish(cfg, db, r)
  }

  ghost predicate CanRun(cfg: Config, db: Db, r: Proc, f: Fault) {
    && !r.pc.Idle?
    && (r.pc.Sleeping? ==> r.pc.until <= db.now)
    && (r.pc.Held? && r.pc.stage.Rechecking? && !f.Ok? ==> cfg.recheckMayFail)
  }

  ghost predicate Enabled(cfg: Config, s: State, step: Step) {
    match step
    case Tick(to) => s.db.now <= to
    case Change(version) => s.db.source <= version
    case Fire(p) => p < |s.procs|
    case Run(p, f) => p < |s.procs| && CanRun(cfg, s.db, s.procs[p], f)
    case Drop => cfg.lockMayDrop
  }

  function Next(cfg: Config, s: State, step: Step): State
    requires Enabled(cfg, s, step)
  {
    match step
    case Tick(to) => s.(db := s.db.(now := to))
    case Change(version) => s.(db := s.db.(source := version))
    case Fire(p) =>
      var t := Trigger(s.db.now, s.db.source);
      State(s.db.(log := s.db.log.(fired := s.db.log.fired + {t})), s.procs[p := Notify(cfg, s.procs[p], t)])
    case Run(p, f) =>
      var (db', r') := Execute(cfg, s.db, p, s.procs[p], f);
      State(db', s.procs[p := r'])
    case Drop => s.(db := s.db.(lock := None))
  }

  /** A run: an initial state, and every later state one enabled step after the one before. */
  ghost predicate IsRun(cfg: Config, states: seq<State>, steps: seq<Step>) {
    && |states| == |steps| + 1
    && Init(cfg, states[0])
    && (forall i | 0 <= i < |steps| ::
          Enabled(cfg, states[i], steps[i]) && states[i + 1] == Next(cfg, states[i], steps[i]))
  }
}

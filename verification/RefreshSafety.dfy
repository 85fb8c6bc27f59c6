/** What every step of the refresh protocol keeps, and the safety theorems over whole runs: mutual exclusion, the
    cross-replica rate limit, and the soundness of skipping on a matching source fingerprint. */
module RefreshSafety {
  import opened Wrappers
  import opened RefreshProtocol

  /** The stamp rows are written by one statement, so they always agree. */
  ghost predicate DbShape(cfg: Config, db: Db) {
    && ValidConfig(cfg)
    && |db.rows| == |db.views| == cfg.views
    && (forall i | 0 <= i < |db.rows| :: db.rows[i] == db.rows[0])
  }

  /** The gate fields describe the loop, and the lock names a replica inside the locked region. */
  ghost predicate ProcShape(db: Db, p: nat, r: Proc) {
    && (r.inflight <==> !r.pc.Idle?)
    && (r.pending ==> r.inflight)
    && (r.pending <==> r.waiting != {})
    && (r.pc.Idle? ==> r.serving == {})
    && (Holding(r.pc) ==> db.lock == Some(p))
  }

  ghost predicate Base(cfg: Config, s: State) {
    DbShape(cfg, s.db) && forall p | 0 <= p < |s.procs| :: ProcShape(s.db, p, s.procs[p])
  }

  lemma InitBase(cfg: Config, s: State)
    requires ValidConfig(cfg) && Init(cfg, s)
    ensures Base(cfg, s)
  {}

  lemma ExecuteShape(cfg: Config, db: Db, p: nat, r: Proc, f: Fault)
    requires DbShape(cfg, db) && ProcShape(db, p, r) && CanRun(cfg, db, r, f)
    ensures var (db', r') := Execute(cfg, db, p, r, f);
      && DbShape(cfg, db') && ProcShape(db', p, r')
      && (db'.lock != db.lock ==> db.lock == None || db.lock == Some(p))
      && (db'.lock == db.lock || db'.lock == None || db'.lock == Some(p))
  {}

  lemma NextBase(cfg: Config, s: State, step: Step)
    requires Base(cfg, s) && Enabled(cfg, s, step)
    ensures Base(cfg, Next(cfg, s, step))
  {
    if step.Run? {
      ExecuteShape(cfg, s.db, step.p, s.procs[step.p], step.f);
    }
  }

  /** Outside the locked region an action touches no stamp, no view and no lock, and stays outside. */
  lemma OutsideLock(cfg: Config, db: Db, p: nat, r: Proc, f: Fault)
    requires PhaseOf(r.pc) != InLock
    ensures var (db', r') := Execute(cfg, db, p, r, f);
      && db' == db.(log := db'.log) && db'.log.stamps == db.log.stamps && db'.log.recorded == db.log.recorded
      && !Holding(r'.pc)
  {}

  /** Under the lock the stamp is no later than the clock that was read there; a refresh under way found it older than
      the debounce interval, unless its re-check failed open. */
  ghost predicate RateProc(cfg: Config, db: Db, pc: Pc)
    requires |db.rows| > 0
  {
    pc.Held? && !pc.stage.Locked? ==>
      && pc.stage.clock <= db.now
      && (db.rows[0].Some? ==> db.rows[0].value.at <= pc.stage.clock)
      && (!pc.stage.Rechecking? && db.rows[0].Some? ==> Follows(cfg, db.rows[0].value.at, pc.stage.clock))
      && (pc.stage.Recording? ==> pc.stage.clock <= pc.stage.at <= db.now)
  }

  /** How far after a stamp the next refresh starts. */
  predicate Follows(cfg: Config, stamp: int, clock: int) {
    if cfg.recheckMayFail then stamp <= clock else stamp + cfg.debounce < clock
  }

  ghost predicate Spaced(cfg: Config, stamps: seq<int>) {
    forall i | 0 < i < |stamps| :: Follows(cfg, stamps[i - 1], stamps[i])
  }

  ghost predicate RateDb(cfg: Config, db: Db)
    requires |db.rows| > 0
  {
    && (db.rows[0].None? <==> db.log.stamps == [])
    && (db.rows[0].Some? ==> db.log.stamps[|db.log.stamps| - 1] == db.rows[0].value.at <= db.now)
    && Spaced(cfg, db.log.stamps)
  }

  ghost predicate Rate(cfg: Config, s: State)
    requires |s.db.rows| > 0
  {
    RateDb(cfg, s.db) && forall p | 0 <= p < |s.procs| :: RateProc(cfg, s.db, s.procs[p].pc)
  }

  lemma WorkRate(cfg: Config, db: Db, a: Attempt, stage: Stage, f: Fault)
    requires DbShape(cfg, db) && (stage.Rechecking? && !f.Ok? ==> cfg.recheckMayFail)
    requires RateDb(cfg, db) && RateProc(cfg, db, Held(a, stage))
    ensures var (db', pc') := Work(cfg, db, a, stage, f);
      |db'.rows| > 0 && RateDb(cfg, db') && RateProc(cfg, db', pc')
  {}

  lemma NextRate(cfg: Config, s: State, step: Step)
    requires Base(cfg, s) && Enabled(cfg, s, step) && Rate(cfg, s)
    ensures |Next(cfg, s, step).db.rows| > 0 && Rate(cfg, Next(cfg, s, step))
  {
    NextBase(cfg, s, step);
    if step.Run? {
      var r := s.procs[step.p];
      if r.pc.Held? {
        WorkRate(cfg, s.db, r.pc.a, r.pc.stage, step.f);
      } else if PhaseOf(r.pc) != InLock {
        OutsideLock(cfg, s.db, step.p, r, step.f);
      }
    }
  }

  /** v is at most the version each of the first n views reflects. */
  ghost predicate Covers(views: seq<nat>, n: nat, v: nat) {
    forall j | 0 <= j < |views| && j < n :: v <= views[j]
  }

  /** The fingerprint the loop carries, if it captured one. */
  function Carried(pc: Pc): Option<nat> {
    match pc
    case Matching(fp) => fp
    case Matched(fp) => Some(fp)
    case Aging(fp, _) => Some(fp)
    case TryLock(a) => a.fp
    case Held(a, _) => a.fp
    case _ => None
  }

  /** The carried fingerprint was found equal to the recorded one. */
  predicate Vouched(pc: Pc) {
    match pc
    case Matched(_) => true
    case Aging(_, _) => true
    case TryLock(a) => a.same
    case Held(a, _) => a.same
    case _ => false
  }

  /** The recorded version is at most the version of every view of the family, which is at most the source. */
  ghost predicate FpDb(cfg: Config, db: Db) {
    && (forall j | 0 <= j < |db.views| :: db.views[j] <= db.source)
    && (cfg.chained ==> forall j | 0 < j < |db.views| :: db.views[j] <= db.views[j - 1])
    && (|db.rows| > 0 && db.rows[0].Some? && db.rows[0].value.version.Some? ==>
          Covers(db.views, |db.views|, db.rows[0].value.version.value))
    && db.log.cascaded <= LastView(db)
  }

  ghost predicate FpPc(cfg: Config, db: Db, pc: Pc, serving: set<Trigger>) {
    && (Carried(pc).Some? ==>
          Carried(pc).value <= db.source && forall t <- serving :: t.version <= Carried(pc).value)
    && (Vouched(pc) ==> Carried(pc).Some? && Covers(db.views, |db.views|, Carried(pc).value))
    && (pc.Held? ==> FpStage(cfg, db, pc.a, pc.stage))
  }

  /** Views committed by this refresh reflect at least the fingerprint captured before it began. */
  ghost predicate FpStage(cfg: Config, db: Db, a: Attempt, stage: Stage) {
    match stage
    case Refreshing(_, i, _) => i <= |db.views| && (a.fp.Some? ==> Covers(db.views, i, a.fp.value))
    case Snapped(_, i, last) =>
      && i < |db.views|
      && db.views[i] <= last.version <= db.source
      && (a.fp.Some? ==> a.fp.value <= last.version && Covers(db.views, i, a.fp.value))
      && (cfg.chained && i > 0 ==> last.version <= db.views[i - 1])
    case Recording(_, _, _) => a.fp.Some? ==> Covers(db.views, |db.views|, a.fp.value)
    case _ => true
  }

  ghost predicate FpProc(cfg: Config, db: Db, r: Proc) {
    && (forall t <- r.serving :: t.version <= db.source)
    && (forall t <- r.waiting :: t.version <= db.source)
    && FpPc(cfg, db, r.pc, r.serving)
  }

  /** The views never go back. */
  ghost predicate Grown(db: Db, db': Db) {
    |db'.views| == |db.views| && db.source <= db'.source && forall j | 0 <= j < |db.views| :: db.views[j] <= db'.views[j]
  }

  lemma DecideFp(cfg: Config, db: Db, pc: Pc, serving: set<Trigger>, f: Fault)
    requires DbShape(cfg, db) && FpDb(cfg, db) && FpPc(cfg, db, pc, serving) && PhaseOf(pc) == Deciding
    requires forall t <- serving :: t.version <= db.source
    ensures FpPc(cfg, db, Decide(cfg, db, pc, f), serving)
  {}

  lemma CommitFp(cfg: Config, db: Db, a: Attempt, stage: Stage)
    requires DbShape(cfg, db) && FpDb(cfg, db) && stage.Snapped? && FpStage(cfg, db, a, stage)
    ensures var db' := db.(views := db.views[stage.i := stage.last.version]);
      && Grown(db, db') && FpDb(cfg, db')
      && (a.fp.Some? ==> Covers(db'.views, stage.i + 1, a.fp.value))
  {}

  lemma SnappedFp(cfg: Config, db: Db, a: Attempt, stage: Stage, serving: set<Trigger>, f: Fault)
    requires DbShape(cfg, db) && FpDb(cfg, db) && stage.Snapped? && FpPc(cfg, db, Held(a, stage), serving)
    ensures var (db', pc') := Work(cfg, db, a, stage, f);
      Grown(db, db') && FpDb(cfg, db') && FpPc(cfg, db', pc', serving)
  {
    CommitFp(cfg, db, a, stage);
  }

  lemma RefreshingFp(cfg: Config, db: Db, a: Attempt, stage: Stage, serving: set<Trigger>, f: Fault)
    requires DbShape(cfg, db) && FpDb(cfg, db) && stage.Refreshing? && FpPc(cfg, db, Held(a, stage), serving)
    ensures var (db', pc') := Work(cfg, db, a, stage, f);
      db' == db && FpPc(cfg, db, pc', serving)
  {}

  lemma WorkFp(cfg: Config, db: Db, a: Attempt, stage: Stage, serving: set<Trigger>, f: Fault)
    requires DbShape(cfg, db) && FpDb(cfg, db) && FpPc(cfg, db, Held(a, stage), serving)
    ensures var (db', pc') := Work(cfg, db, a, stage, f);
      Grown(db, db') && FpDb(cfg, db') && FpPc(cfg, db', pc', serving)
  {
    if stage.Snapped? {
      SnappedFp(cfg, db, a, stage, serving, f);
    } else if stage.Refreshing? {
      RefreshingFp(cfg, db, a, stage, serving, f);
    }
  }

  lemma FinishFp(cfg: Config, db: Db, r: Proc)
    requires DbShape(cfg, db) && FpDb(cfg, db) && FpProc(cfg, db, r) && PhaseOf(r.pc) == Finishing
    ensures var (db', r') := Finish(cfg, db, r);
      Grown(db, db') && FpDb(cfg, db') && FpProc(cfg, db', r')
  {}

  ghost predicate Fp(cfg: Config, s: State) {
    FpDb(cfg, s.db) && forall p | 0 <= p < |s.procs| :: FpProc(cfg, s.db, s.procs[p])
  }

  lemma LockingFp(cfg: Config, db: Db, p: nat, pc: Pc, serving: set<Trigger>, f: Fault)
    requires DbShape(cfg, db) && FpDb(cfg, db) && FpPc(cfg, db, pc, serving) && PhaseOf(pc) == InLock
    ensures var (db', pc') := Locking(cfg, db, p, pc, f);
      Grown(db, db') && FpDb(cfg, db') && FpPc(cfg, db', pc', serving) && (!Holding(pc) ==> db'.views == db.views)
  {
    if pc.Held? { WorkFp(cfg, db, pc.a, pc.stage, serving, f); } else { LockFp(cfg, db, p, pc, serving, f); }
  }

  /** Taking and giving back the lock. */
  lemma LockFp(cfg: Config, db: Db, p: nat, pc: Pc, serving: set<Trigger>, f: Fault)
    requires DbShape(cfg, db) && FpDb(cfg, db) && FpPc(cfg, db, pc, serving) && PhaseOf(pc) == InLock && !pc.Held?
    ensures var (db', pc') := Locking(cfg, db, p, pc, f);
      Grown(db, db') && FpDb(cfg, db') && FpPc(cfg, db', pc', serving) && db'.views == db.views
  {}

  lemma ExecuteFp(cfg: Config, db: Db, p: nat, r: Proc, f: Fault)
    requires DbShape(cfg, db) && FpDb(cfg, db) && FpProc(cfg, db, r)
    ensures var (db', r') := Execute(cfg, db, p, r, f);
      Grown(db, db') && FpDb(cfg, db') && FpProc(cfg, db', r') && (!Holding(r.pc) ==> db'.views == db.views)
  {
    if PhaseOf(r.pc) == Deciding {
      DecideFp(cfg, db, r.pc, r.serving, f);
    } else if PhaseOf(r.pc) == InLock {
      LockingFp(cfg, db, p, r.pc, r.serving, f);
    } else {
      FinishFp(cfg, db, r);
    }
  }

  /** A loop outside the locked region keeps its claims while the views grow. */
  lemma FpStable(cfg: Config, db: Db, db': Db, r: Proc)
    requires FpProc(cfg, db, r) && Grown(db, db')
    requires db'.views == db.views || !Holding(r.pc)
    ensures FpProc(cfg, db', r)
  {}

  lemma NextFp(cfg: Config, s: State, step: Step)
    requires Base(cfg, s) && Enabled(cfg, s, step) && Fp(cfg, s)
    ensures Fp(cfg, Next(cfg, s, step)) && Grown(s.db, Next(cfg, s, step).db)
  {
    var s' := Next(cfg, s, step);
    if step.Run? {
      ExecuteFp(cfg, s.db, step.p, s.procs[step.p], step.f);
    }
    forall q | 0 <= q < |s.procs| ensures FpProc(cfg, s'.db, s'.procs[q]) {
      if !(step.Run? && q == step.p) {
        if s'.db.views != s.db.views {
          assert ProcShape(s.db, q, s.procs[q]) && ProcShape(s.db, step.p, s.procs[step.p]);
        }
        FpStable(cfg, s.db, s'.db, s.procs[q]);
      }
    }
  }

  // ---------------------------------------------------------------- theorems over runs

  lemma {:induction false} RunBase(cfg: Config, states: seq<State>, steps: seq<Step>, n: nat)
    requires ValidConfig(cfg) && IsRun(cfg, states, steps) && n < |states|
    ensures Base(cfg, states[n])
  {
    if n == 0 {
      InitBase(cfg, states[0]);
    } else {
      RunBase(cfg, states, steps, n - 1);
      NextBase(cfg, states[n - 1], steps[n - 1]);
    }
  }

  lemma {:induction false} RunRate(cfg: Config, states: seq<State>, steps: seq<Step>, n: nat)
    requires ValidConfig(cfg) && IsRun(cfg, states, steps) && n < |states|
    ensures |states[n].db.rows| > 0 && Rate(cfg, states[n])
  {
    if n > 0 {
      RunBase(cfg, states, steps, n - 1);
      RunRate(cfg, states, steps, n - 1);
      NextRate(cfg, states[n - 1], steps[n - 1]);
    }
  }

  lemma {:induction false} RunFp(cfg: Config, states: seq<State>, steps: seq<Step>, n: nat)
    requires ValidConfig(cfg) && IsRun(cfg, states, steps) && n < |states|
    ensures Fp(cfg, states[n])
  {
    if n > 0 {
      RunBase(cfg, states, steps, n - 1);
      RunFp(cfg, states, steps, n - 1);
      NextFp(cfg, states[n - 1], steps[n - 1]);
    }
  }

  /** At most one replica is between the lock and its release, hence between re-check and record. */
  lemma MutualExclusion(cfg: Config, states: seq<State>, steps: seq<Step>, n: nat, p: nat, q: nat)
    requires ValidConfig(cfg) && IsRun(cfg, states, steps) && n < |states|
    requires p < |states[n].procs| && q < |states[n].procs|
    requires Holding(states[n].procs[p].pc) && Holding(states[n].procs[q].pc)
    ensures p == q
  {
    RunBase(cfg, states, steps, n);
  }

  lemma {:induction false} SpacedPairs(cfg: Config, stamps: seq<int>, i: nat, j: nat)
    requires ValidConfig(cfg) && Spaced(cfg, stamps) && i < j < |stamps|
    ensures Follows(cfg, stamps[i], stamps[j])
  {
    if i + 1 < j { SpacedPairs(cfg, stamps, i, j - 1); }
  }

  /** The recorded stamps of a family never go back, and any two of them are more than its debounce interval apart when
      the re-check under the lock does not fail open. */
  lemma RateLimit(cfg: Config, states: seq<State>, steps: seq<Step>, n: nat, i: nat, j: nat)
    requires ValidConfig(cfg) && IsRun(cfg, states, steps) && n < |states|
    requires i < j < |states[n].db.log.stamps|
    ensures states[n].db.log.stamps[i] <= states[n].db.log.stamps[j]
    ensures !cfg.recheckMayFail ==> states[n].db.log.stamps[i] + cfg.debounce < states[n].db.log.stamps[j]
  {
    RunRate(cfg, states, steps, n);
    SpacedPairs(cfg, states[n].db.log.stamps, i, j);
  }

  /** In every reachable state the recorded fingerprint is at most the version of every view of the family. */
  lemma RecordedNeverAhead(cfg: Config, states: seq<State>, steps: seq<Step>, n: nat, i: nat, j: nat)
    requires ValidConfig(cfg) && IsRun(cfg, states, steps) && n < |states|
    requires i < |states[n].db.rows| && j < |states[n].db.views|
    requires states[n].db.rows[i].Some? && states[n].db.rows[i].value.version.Some?
    ensures states[n].db.rows[i].value.version.value <= states[n].db.views[j] <= states[n].db.source
  {
    RunBase(cfg, states, steps, n);
    RunFp(cfg, states, steps, n);
    assert states[n].db.rows[i] == states[n].db.rows[0];
  }

  /** Skipping on a matching fingerprint is sound: every view already reflects what the triggers served by the
      call announced, and when the source still is what was captured, a rebuild would change no view. */
  lemma FingerprintSkip(cfg: Config, states: seq<State>, steps: seq<Step>, n: nat, j: nat)
    requires ValidConfig(cfg) && IsRun(cfg, states, steps) && n < |steps|
    requires steps[n].Run? && states[n].procs[steps[n].p].pc.Aging?
    requires states[n + 1].procs[steps[n].p].pc == Returned(UNCHANGED)
    requires j < |states[n].db.views|
    ensures forall t <- states[n].procs[steps[n].p].serving :: t.version <= states[n].db.views[j]
    ensures states[n].db.source == states[n].procs[steps[n].p].pc.fp ==>
              states[n].db.views[j] == SnapshotVersion(cfg, states[n].db, j) == states[n].db.source
  {
    RunFp(cfg, states, steps, n);
    assert FpProc(cfg, states[n].db, states[n].procs[steps[n].p]);
  }
}

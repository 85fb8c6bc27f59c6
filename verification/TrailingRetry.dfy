/** The trailing-edge retry of asset_risk: a trigger that lands in the debounce shadow is never lost. */
module TrailingRetry {
  import opened Wrappers
  import opened RefreshProtocol
  import opened RefreshSafety

  /** How many debounced attempts it takes before the next one proves that someone refreshed meanwhile: one, or two when
      a re-check may fail, since then a refresh may be under way although the stamp is recent. */
  function Needed(cfg: Config): nat {
    if cfg.recheckMayFail then 2 else 1
  }

  /** A one-view family without fingerprint whose loop has the retry budget for it, as asset_risk has. */
  predicate Trailing(cfg: Config) {
    ValidConfig(cfg) && cfg.views == 1 && !cfg.fingerprint && cfg.retries >= Needed(cfg)
  }

  /** A snapshot taken after a trigger sees what the trigger announced. */
  ghost predicate Sees(sn: Snap, t: Trigger) {
    t.at < sn.at ==> t.version <= sn.version
  }

  ghost predicate Covered(db: Db, ts: set<Trigger>) {
    |db.views| == 1 && forall t <- ts :: t.version <= db.views[0]
  }

  ghost predicate TrailDb(cfg: Config, db: Db)
    requires |db.rows| > 0
  {
    && (forall t <- db.log.fired :: t.at <= db.now && t.version <= db.source)
    && (db.rows[0].Some? <==> db.log.recorded.Some?)
    && (db.rows[0].Some? ==>
          && db.log.recorded.value.at <= db.rows[0].value.at <= db.now
          && db.log.recorded.value.version <= LastView(db)
          && forall t <- db.log.fired :: Sees(db.log.recorded.value, t))
    && Covered(db, db.log.served)
  }

  /** Either the stamp the debounced attempt saw still stands, or a refresh that followed it has been recorded. */
  ghost predicate MarkOk(cfg: Config, db: Db, m: Mark)
    requires |db.rows| > 0
  {
    && db.rows[0].Some? && db.log.recorded.Some? && m.seen <= db.now
    && (db.rows[0].value.at == m.seen || Follows(cfg, m.seen, db.log.recorded.value.at))
  }

  /** Whatever follows the stamp seen is later than the triggers. */
  ghost predicate Decisive(cfg: Config, m: Mark, serving: set<Trigger>) {
    forall t <- serving :: if cfg.recheckMayFail then t.at < m.seen else t.at <= m.seen + cfg.debounce
  }

  /** After k debounced attempts: the latest left its mark, and once there are enough of them it is decisive. */
  ghost predicate MarkFits(cfg: Config, db: Db, mark: Option<Mark>, k: int, serving: set<Trigger>)
    requires |db.rows| > 0
  {
    && (mark.Some? <==> k > 0)
    && (mark.Some? ==> MarkOk(cfg, db, mark.value) && (k >= Needed(cfg) ==> Decisive(cfg, mark.value, serving)))
  }

  /** An attempt made after the sleep compares with a clock past the window of the stamp seen before it, and of the
      triggers. */
  ghost predicate Late(cfg: Config, mark: Option<Mark>, clock: int, serving: set<Trigger>) {
    mark.Some? ==> mark.value.seen + cfg.debounce < clock && forall t <- serving :: t.at + cfg.debounce < clock
  }

  ghost predicate TrailStage(cfg: Config, db: Db, stage: Stage, mark: Option<Mark>, serving: set<Trigger>) {
    match stage
    case Locked => Late(cfg, mark, db.now, serving)
    case Rechecking(clock) => Late(cfg, mark, clock, serving) && clock <= db.now && forall t <- serving :: t.at <= clock
    case Refreshing(clock, i, last) => clock <= db.now && (i > 0 ==> SnapOk(db, clock, last, serving) && Taken(db, last))
    case Snapped(clock, i, last) => i == 0 && SnapOk(db, clock, last, serving)
    case Recording(clock, at, last) => SnapOk(db, clock, last, serving) && Taken(db, last) && last.at <= at <= db.now
  }

  ghost predicate SnapOk(db: Db, clock: int, last: Snap, serving: set<Trigger>) {
    && clock <= last.at <= db.now
    && (forall t <- db.log.fired :: Sees(last, t))
    && (forall t <- serving :: t.version <= last.version)
  }

  ghost predicate Taken(db: Db, last: Snap) {
    |db.views| == 1 && db.views[0] == last.version
  }

  /** A call that ended without error covers what it worked for, unless it was debounced and too few calls before it were. */
  ghost predicate OutcomeOk(cfg: Config, db: Db, o: Outcome, k: int, serving: set<Trigger>)
    requires |db.rows| > 0
  {
    && (o.mark.Some? ==> MarkOk(cfg, db, o.mark.value) && (k + 1 >= Needed(cfg) ==> Decisive(cfg, o.mark.value, serving)))
    && (!o.failed && o.changed ==> Covered(db, serving))
    && (!o.failed && !o.changed ==> o.mark.Some? && (k >= Needed(cfg) ==> Covered(db, serving)))
  }

  ghost predicate TrailPc(cfg: Config, db: Db, pc: Pc, mark: Option<Mark>, k: int, serving: set<Trigger>)
    requires |db.rows| > 0
  {
    match pc
    case Idle => true
    case Top => Late(cfg, mark, db.now, serving)
    case Checking(clock) => Late(cfg, mark, clock, serving) && clock <= db.now && forall t <- serving :: t.at <= clock
    case TryLock(a) => a == Attempt(None, false) && Late(cfg, mark, db.now, serving)
    case Held(a, stage) => a == Attempt(None, false) && TrailStage(cfg, db, stage, mark, serving)
    case Unlocking(o) => OutcomeOk(cfg, db, o, k, serving)
    case Returned(o) => OutcomeOk(cfg, db, o, k, serving)
    case Gate(o) => OutcomeOk(cfg, db, o, k, serving) && (!o.failed && !o.changed ==> mark == o.mark)
    case Sleeping(until) => Late(cfg, mark, until, serving)
    case _ => false
  }

  /** How many attempts of this iteration have been debounced, by what is left of the budget. */
  function Skips(cfg: Config, r: Proc): int {
    cfg.retries - r.budget
  }

  ghost predicate TrailProc(cfg: Config, db: Db, r: Proc)
    requires |db.rows| > 0
  {
    && r.serving <= db.log.fired && r.waiting <= db.log.fired
    && (!r.pc.Idle? ==> r.budget <= cfg.retries && TrailPc(cfg, db, r.pc, r.mark, Skips(cfg, r), r.serving))
    && (!r.pc.Idle? && !r.pc.Gate? ==> MarkFits(cfg, db, r.mark, Skips(cfg, r), r.serving))
  }

  /** The heart of the argument: once the mark is decisive, another debounced attempt proves that someone refreshed after
      the triggers; and a debounced attempt leaves a mark that is one step closer to decisive. */
  lemma SkipOutcome(cfg: Config, db: Db, clock: int, mark: Option<Mark>, k: int, serving: set<Trigger>)
    requires WellFormed(cfg) && |db.rows| > 0 && TrailDb(cfg, db) && serving <= db.log.fired && |db.views| == 1
    requires Recent(db.rows, clock - cfg.debounce) && Late(cfg, mark, clock, serving) && clock <= db.now
    requires (forall t <- serving :: t.at <= clock) && MarkFits(cfg, db, mark, k, serving) && k >= 0
    ensures OutcomeOk(cfg, db, Debounced(db, clock), k, serving)
    ensures k >= Needed(cfg) ==> forall t <- serving :: t.at < db.log.recorded.value.at
  {
    var at := db.rows[0].value.at;
    assert clock - cfg.debounce <= at;
    assert k + 1 >= Needed(cfg) ==> Decisive(cfg, Mark(clock, at), serving);
    if k >= Needed(cfg) {
      assert at != mark.value.seen;
      forall t <- serving ensures t.at < db.log.recorded.value.at && t.version <= db.views[0] {
        assert Sees(db.log.recorded.value, t);
      }
    }
  }

  lemma DecideTrail(cfg: Config, db: Db, pc: Pc, mark: Option<Mark>, k: int, serving: set<Trigger>, f: Fault)
    requires Trailing(cfg) && DbShape(cfg, db) && TrailDb(cfg, db) && serving <= db.log.fired && k >= 0
    requires TrailPc(cfg, db, pc, mark, k, serving) && PhaseOf(pc) == Deciding && MarkFits(cfg, db, mark, k, serving)
    ensures var pc' := Decide(cfg, db, pc, f);
      TrailPc(cfg, db, pc', mark, k, serving) && !pc'.Gate? && !pc'.Idle?
  {
    if pc.Checking? && Recent(db.rows, pc.clock - cfg.debounce) { SkipOutcome(cfg, db, pc.clock, mark, k, serving); }
  }

  lemma CommitTrail(cfg: Config, db: Db, stage: Stage, serving: set<Trigger>)
    requires DbShape(cfg, db) && Trailing(cfg) && TrailDb(cfg, db) && FpDb(cfg, db)
    requires stage.Snapped? && SnapOk(db, stage.clock, stage.last, serving) && stage.i == 0
    requires db.views[0] <= stage.last.version
    ensures var db' := db.(views := db.views[0 := stage.last.version]);
      TrailDb(cfg, db') && SnapOk(db', stage.clock, stage.last, serving) && Taken(db', stage.last)
  {}

  lemma RecordTrail(cfg: Config, db: Db, stage: Stage, serving: set<Trigger>)
    requires DbShape(cfg, db) && Trailing(cfg) && TrailDb(cfg, db)
    requires stage.Recording? && TrailStage(cfg, db, stage, None, serving)
    ensures var db' := Record(db, stage.at, None, stage.last);
      |db'.rows| > 0 && TrailDb(cfg, db') && Covered(db', serving)
  {}

  lemma WorkTrail(cfg: Config, db: Db, stage: Stage, mark: Option<Mark>, k: int, serving: set<Trigger>, f: Fault)
    requires Trailing(cfg) && DbShape(cfg, db) && TrailDb(cfg, db) && serving <= db.log.fired && FpDb(cfg, db) && k >= 0
    requires TrailStage(cfg, db, stage, mark, serving) && FpStage(cfg, db, Attempt(None, false), stage)
    requires MarkFits(cfg, db, mark, k, serving)
    ensures var (db', pc') := Work(cfg, db, Attempt(None, false), stage, f);
      |db'.rows| > 0 && TrailDb(cfg, db') && TrailPc(cfg, db', pc', mark, k, serving)
  {
    if stage.Rechecking? && Recent(db.rows, stage.clock - cfg.debounce) {
      SkipOutcome(cfg, db, stage.clock, mark, k, serving);
    } else if stage.Snapped? {
      CommitTrail(cfg, db, stage, serving);
    } else if stage.Recording? {
      RecordTrail(cfg, db, stage, serving);
    }
  }

  /** What another replica's step, a tick, a change or a trigger may do to the database. */
  ghost predicate Evolves(cfg: Config, db: Db, db': Db) {
    && |db.rows| > 0 && |db'.rows| > 0 && Grown(db, db') && db.now <= db'.now
    && db.log.fired <= db'.log.fired
    && (forall t <- db'.log.fired :: t in db.log.fired || db.now <= t.at)
    && (|| (db'.rows[0] == db.rows[0] && db'.log.recorded == db.log.recorded)
        || (&& db'.rows[0].Some? && db'.log.recorded.Some?
            && (db.rows[0].Some? ==> db.rows[0].value.at <= db'.log.recorded.value.at && Follows(cfg, db.rows[0].value.at, db'.log.recorded.value.at))))
  }

  lemma MarkStable(cfg: Config, db: Db, db': Db, m: Mark)
    requires ValidConfig(cfg) && Evolves(cfg, db, db') && TrailDb(cfg, db) && MarkOk(cfg, db, m)
    ensures MarkOk(cfg, db', m)
  {}

  lemma TrailStable(cfg: Config, db: Db, db': Db, r: Proc)
    requires ValidConfig(cfg) && Evolves(cfg, db, db') && TrailDb(cfg, db) && TrailProc(cfg, db, r)
    requires db'.views == db.views || !Holding(r.pc)
    ensures TrailProc(cfg, db', r)
  {
    if r.mark.Some? && !r.pc.Idle? && !r.pc.Gate? { MarkStable(cfg, db, db', r.mark.value); }
    if (r.pc.Unlocking? || r.pc.Returned? || r.pc.Gate?) && r.pc.o.mark.Some? {
      MarkStable(cfg, db, db', r.pc.o.mark.value);
    }
  }

  lemma GateTrail(cfg: Config, db: Db, r: Proc)
    requires Trailing(cfg) && DbShape(cfg, db) && TrailDb(cfg, db) && TrailProc(cfg, db, r) && r.pc.Gate?
    ensures var (db', r') := Finish(cfg, db, r);
      |db'.rows| > 0 && TrailDb(cfg, db') && TrailProc(cfg, db', r')
  {}

  lemma FinishTrail(cfg: Config, db: Db, r: Proc)
    requires Trailing(cfg) && DbShape(cfg, db) && TrailDb(cfg, db) && TrailProc(cfg, db, r)
    requires PhaseOf(r.pc) == Finishing && (r.pc.Sleeping? ==> r.pc.until <= db.now)
    ensures var (db', r') := Finish(cfg, db, r);
      |db'.rows| > 0 && TrailDb(cfg, db') && TrailProc(cfg, db', r')
  {
    if r.pc.Gate? { GateTrail(cfg, db, r); }
  }

  lemma WorkEvolves(cfg: Config, db: Db, stage: Stage, mark: Option<Mark>, serving: set<Trigger>, f: Fault)
    requires Trailing(cfg) && DbShape(cfg, db) && TrailStage(cfg, db, stage, mark, serving)
    requires FpDb(cfg, db) && FpPc(cfg, db, Held(Attempt(None, false), stage), serving)
    requires RateProc(cfg, db, Held(Attempt(None, false), stage))
    ensures Evolves(cfg, db, Work(cfg, db, Attempt(None, false), stage, f).0)
  {}

  lemma ExecuteEvolves(cfg: Config, db: Db, p: nat, r: Proc, f: Fault)
    requires Trailing(cfg) && DbShape(cfg, db) && TrailProc(cfg, db, r)
    requires FpDb(cfg, db) && FpProc(cfg, db, r) && RateProc(cfg, db, r.pc)
    ensures Evolves(cfg, db, Execute(cfg, db, p, r, f).0)
  {}

  lemma HeldTrail(cfg: Config, db: Db, stage: Stage, mark: Option<Mark>, k: int, serving: set<Trigger>, f: Fault)
    requires Trailing(cfg) && DbShape(cfg, db) && TrailDb(cfg, db) && TrailStage(cfg, db, stage, mark, serving) && k >= 0
    requires FpDb(cfg, db) && FpPc(cfg, db, Held(Attempt(None, false), stage), serving) && serving <= db.log.fired
    requires RateProc(cfg, db, Held(Attempt(None, false), stage)) && MarkFits(cfg, db, mark, k, serving)
    ensures var (db', pc') := Work(cfg, db, Attempt(None, false), stage, f);
      && |db'.rows| > 0 && TrailDb(cfg, db') && TrailPc(cfg, db', pc', mark, k, serving)
      && MarkFits(cfg, db', mark, k, serving)
      && db'.log.fired == db.log.fired && !pc'.Gate? && !pc'.Idle?
  {
    WorkTrail(cfg, db, stage, mark, k, serving, f);
    if mark.Some? {
      WorkEvolves(cfg, db, stage, mark, serving, f);
      MarkStable(cfg, db, Work(cfg, db, Attempt(None, false), stage, f).0, mark.value);
    }
  }

  lemma LockingTrail(cfg: Config, db: Db, p: nat, pc: Pc, mark: Option<Mark>, k: int, serving: set<Trigger>, f: Fault)
    requires Trailing(cfg) && DbShape(cfg, db) && TrailDb(cfg, db) && TrailPc(cfg, db, pc, mark, k, serving) && k >= 0
    requires FpDb(cfg, db) && FpPc(cfg, db, pc, serving) && serving <= db.log.fired && RateProc(cfg, db, pc)
    requires PhaseOf(pc) == InLock && MarkFits(cfg, db, mark, k, serving)
    ensures var (db', pc') := Locking(cfg, db, p, pc, f);
      && |db'.rows| > 0 && TrailDb(cfg, db') && TrailPc(cfg, db', pc', mark, k, serving)
      && MarkFits(cfg, db', mark, k, serving)
      && db'.log.fired == db.log.fired && !pc'.Gate? && !pc'.Idle?
  {
    if pc.Held? { HeldTrail(cfg, db, pc.stage, mark, k, serving, f); }
  }

  lemma ExecuteTrail(cfg: Config, db: Db, p: nat, r: Proc, f: Fault)
    requires Trailing(cfg) && DbShape(cfg, db) && TrailDb(cfg, db) && TrailProc(cfg, db, r)
    requires FpDb(cfg, db) && FpProc(cfg, db, r) && RateProc(cfg, db, r.pc) && CanRun(cfg, db, r, f)
    ensures var (db', r') := Execute(cfg, db, p, r, f);
      |db'.rows| > 0 && TrailDb(cfg, db') && TrailProc(cfg, db', r')
  {
    if PhaseOf(r.pc) == Deciding {
      DecideTrail(cfg, db, r.pc, r.mark, Skips(cfg, r), r.serving, f);
    } else if PhaseOf(r.pc) == Finishing {
      FinishTrail(cfg, db, r);
    } else {
      LockingTrail(cfg, db, p, r.pc, r.mark, Skips(cfg, r), r.serving, f);
    }
  }

  ghost predicate Trail(cfg: Config, s: State)
    requires |s.db.rows| > 0
  {
    TrailDb(cfg, s.db) && forall p | 0 <= p < |s.procs| :: TrailProc(cfg, s.db, s.procs[p])
  }

  /** Everything the steps of a trailing family keep. */
  ghost predicate TrailInv(cfg: Config, s: State) {
    Trailing(cfg) && Base(cfg, s) && Rate(cfg, s) && Fp(cfg, s) && Trail(cfg, s) && Ledger(s)
  }

  /** Every trigger is accounted for: a loop works for it or has it pending, or an iteration that worked for it
      has ended. */
  ghost predicate Ledger(s: State) {
    forall t <- s.db.log.fired ::
      t in s.db.log.served || t in s.db.log.dropped || InFlight(s, t)
  }

  ghost predicate InFlight(s: State, t: Trigger) {
    exists p :: 0 <= p < |s.procs| && t in s.procs[p].serving + s.procs[p].waiting
  }

  lemma FireTrail(cfg: Config, s: State, p: nat)
    requires TrailInv(cfg, s) && Enabled(cfg, s, Fire(p))
    ensures var s' := Next(cfg, s, Fire(p));
      |s'.db.rows| > 0 && Evolves(cfg, s.db, s'.db) && TrailDb(cfg, s'.db) && TrailProc(cfg, s'.db, s'.procs[p])
  {
    var s' := Next(cfg, s, Fire(p));
    assert TrailProc(cfg, s.db, s.procs[p]) && ProcShape(s.db, p, s.procs[p]) && RateProc(cfg, s.db, s.procs[p].pc);
    TrailStable(cfg, s.db, s'.db, s.procs[p]);
  }

  lemma RunStepTrail(cfg: Config, s: State, p: nat, f: Fault)
    requires TrailInv(cfg, s) && Enabled(cfg, s, Run(p, f))
    ensures |Next(cfg, s, Run(p, f)).db.rows| > 0 && Trail(cfg, Next(cfg, s, Run(p, f)))
  {
    var s' := Next(cfg, s, Run(p, f));
    ExecuteTrail(cfg, s.db, p, s.procs[p], f);
    ExecuteEvolves(cfg, s.db, p, s.procs[p], f);
    ExecuteFp(cfg, s.db, p, s.procs[p], f);
    forall q | 0 <= q < |s.procs| ensures TrailProc(cfg, s'.db, s'.procs[q]) {
      if q != p {
        assert ProcShape(s.db, q, s.procs[q]) && ProcShape(s.db, p, s.procs[p]);
        TrailStable(cfg, s.db, s'.db, s.procs[q]);
      }
    }
  }

  lemma NextTrail(cfg: Config, s: State, step: Step)
    requires TrailInv(cfg, s) && Enabled(cfg, s, step)
    ensures |Next(cfg, s, step).db.rows| > 0 && Trail(cfg, Next(cfg, s, step))
  {
    if step.Run? {
      RunStepTrail(cfg, s, step.p, step.f);
    } else {
      var s' := Next(cfg, s, step);
      if step.Fire? { FireTrail(cfg, s, step.p); }
      forall q | 0 <= q < |s.procs| ensures TrailProc(cfg, s'.db, s'.procs[q]) {
        if !step.Fire? || q != step.p {
          TrailStable(cfg, s.db, s'.db, s.procs[q]);
        }
      }
    }
  }

  lemma NextLedger(cfg: Config, s: State, step: Step)
    requires Base(cfg, s) && Enabled(cfg, s, step) && Ledger(s)
    ensures Ledger(Next(cfg, s, step))
  {
    var s' := Next(cfg, s, step);
    if step.Fire? || step.Run? {
      var r, r' := s.procs[step.p], s'.procs[step.p];
      assert ProcShape(s.db, step.p, r);
      forall t | t in s'.db.log.fired ensures t in s'.db.log.served || t in s'.db.log.dropped || InFlight(s', t) {
        if t !in s'.db.log.served && t !in s'.db.log.dropped {
          if t in r'.serving + r'.waiting {
          } else {
            var q :| 0 <= q < |s.procs| && t in s.procs[q].serving + s.procs[q].waiting;
            assert s'.procs[q] == s.procs[q];
          }
        }
      }
    } else {
      forall t | InFlight(s, t) ensures InFlight(s', t) {
        var q :| 0 <= q < |s.procs| && t in s.procs[q].serving + s.procs[q].waiting;
        assert s'.procs[q] == s.procs[q];
      }
    }
  }

  lemma NextTrailInv(cfg: Config, s: State, step: Step)
    requires TrailInv(cfg, s) && Enabled(cfg, s, step)
    ensures TrailInv(cfg, Next(cfg, s, step))
  {
    NextBase(cfg, s, step);
    NextRate(cfg, s, step);
    NextFp(cfg, s, step);
    NextTrail(cfg, s, step);
    NextLedger(cfg, s, step);
  }

  lemma InitTrailInv(cfg: Config, s: State)
    requires Trailing(cfg) && Init(cfg, s)
    ensures TrailInv(cfg, s)
  {}

  lemma {:induction false} RunTrail(cfg: Config, states: seq<State>, steps: seq<Step>, n: nat)
    requires Trailing(cfg) && IsRun(cfg, states, steps) && n < |states|
    ensures TrailInv(cfg, states[n])
  {
    if n == 0 {
      InitTrailInv(cfg, states[0]);
    } else {
      RunTrail(cfg, states, steps, n - 1);
      NextTrailInv(cfg, states[n - 1], steps[n - 1]);
    }
  }

  /** A debounced trigger is never lost. In every reachable state, a trigger is still being worked for, or the view
      reflects what it announced, or an iteration that worked for it ended with an error. */
  lemma NeverLost(cfg: Config, states: seq<State>, steps: seq<Step>, n: nat, t: Trigger)
    requires Trailing(cfg) && IsRun(cfg, states, steps) && n < |states|
    requires t in states[n].db.log.fired
    ensures InFlight(states[n], t) || t in states[n].db.log.dropped || t.version <= LastView(states[n].db)
  {
    RunTrail(cfg, states, steps, n);
  }

  /** An attempt that compares with clock c and is debounced shadows no refresh begun before, when re-checks do not fail:
      whoever is between re-check and record at that moment read its own clock after c, and takes its snapshot after c. */
  lemma SkipMeansIdle(cfg: Config, states: seq<State>, steps: seq<Step>, n: nat, q: nat)
    requires ValidConfig(cfg) && IsRun(cfg, states, steps) && n < |steps| && steps[n].Run?
    requires states[n].procs[steps[n].p].pc.Checking? && states[n + 1].procs[steps[n].p].pc.Returned?
    requires q < |states[n].procs| && MidRefresh(states[n].procs[q].pc)
    ensures states[n].procs[steps[n].p].pc.clock <= states[n].procs[q].pc.stage.clock + cfg.debounce
    ensures !cfg.recheckMayFail ==> states[n].procs[steps[n].p].pc.clock < states[n].procs[q].pc.stage.clock
  {
    RunBase(cfg, states, steps, n);
    RunRate(cfg, states, steps, n);
    assert RateProc(cfg, states[n].db, states[n].procs[q].pc);
  }

  /** After enough debounced attempts of an iteration, another one means that a refresh has been recorded whose snapshot is
      later than every trigger the iteration works for. */
  lemma LastSkipMeansRefreshed(cfg: Config, states: seq<State>, steps: seq<Step>, n: nat)
    requires Trailing(cfg) && IsRun(cfg, states, steps) && n < |steps| && steps[n].Run?
    requires states[n].procs[steps[n].p].pc.Checking? && states[n + 1].procs[steps[n].p].pc.Returned?
    requires Skips(cfg, states[n].procs[steps[n].p]) >= Needed(cfg)
    ensures states[n].db.log.recorded.Some?
    ensures forall t <- states[n].procs[steps[n].p].serving :: t.at < states[n].db.log.recorded.value.at
  {
    RunTrail(cfg, states, steps, n);
    var db, r := states[n].db, states[n].procs[steps[n].p];
    assert TrailProc(cfg, db, r);
    SkipOutcome(cfg, db, r.pc.clock, r.mark, Skips(cfg, r), r.serving);
  }
}

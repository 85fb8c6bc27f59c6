/** A refresh call watched from outside: which statements it sent, what the database held then, and how they ended. The
    watch decides what the call must return and write, without reference to how the protocol decides it. */
module RefreshWatch {
  import opened Wrappers
  import opened RefreshProtocol

  /** What has been seen of a replica's current call. */
  datatype Watch = Watch(
    clock: int,               // the clock it last read for a check
    recent: bool,             // its latest debounce check found every stamp within the interval
    captured: Option<nat>,    // the source version it captured
    compared: bool,           // it compared the recorded fingerprints
    matched: bool,            // and every view had recorded the captured one
    young: bool,              // and every stamp was within the greatest skip age
    granted: bool,            // it was given the lock
    broken: bool,             // a view failed to refresh
    evaluated: nat,           // the version of the view it evaluated last
    done: nat,                // how many views it has committed, in order
    doneAt: int,              // when it had committed them all
    refreshed: bool,          // it went on to record the refresh
    saved: bool)              // and was told that it is recorded

  const UNSEEN := Watch(0, false, None, false, false, false, false, false, 0, 0, 0, false, false)

  /** Every view of the family has a stamp at or after t. */
  predicate AllSince(rows: seq<Option<Stamp>>, t: int) {
    forall i | 0 <= i < |rows| :: rows[i] != None && t <= rows[i].value.at
  }

  /** Every view of the family recorded this fingerprint. */
  predicate AllCarry(rows: seq<Option<Stamp>>, fp: nat) {
    forall i | 0 <= i < |rows| :: rows[i] != None && rows[i].value.version == Some(fp)
  }

  /** What a statement of replica p shows: the database it met and how it ended. */
  function See(cfg: Config, w: Watch, db: Db, p: nat, pc: Pc, f: Fault): Watch {
    match pc
    case Top => UNSEEN.(clock := db.now)
    case Checking(_) => w.(recent := f.Ok? && AllSince(db.rows, w.clock - cfg.debounce))
    case Capturing => w.(captured := if f.Ok? then Some(db.source) else None)
    case Matching(_) => w.(compared := true, matched := f.Ok? && w.captured.Some? && AllCarry(db.rows, w.captured.value))
    case Matched(_) => w.(clock := db.now)
    case Aging(_, _) => w.(young := f.Ok? && cfg.maxSkipAge > 0 && AllSince(db.rows, w.clock - cfg.maxSkipAge))
    case TryLock(_) => w.(granted := f.Ok? && (db.lock == None || db.lock == Some(p)))
    case Held(_, Locked) => w.(clock := db.now)
    case Held(_, Rechecking(_)) => w.(recent := f.Ok? && AllSince(db.rows, w.clock - cfg.debounce))
    case Held(_, Refreshing(_, _, _)) =>
      if w.done >= |db.views| then w.(doneAt := db.now)
      else w.(broken := !f.Ok?, evaluated := SnapshotVersion(cfg, db, w.done))
    case Held(_, Snapped(_, _, _)) => w.(broken := !f.Ok?, done := if f.Ok? then w.done + 1 else w.done)
    case Held(_, Recording(_, _, _)) => w.(refreshed := true, saved := f.Ok?)
    case _ => w
  }

  /** The call may stop without a refresh: its stamps are recent, or nothing changed and they are young enough. */
  predicate MayStop(w: Watch) {
    w.recent || (w.matched && w.young)
  }

  /** What the call owes its caller: whether contents may have changed, and whether it ended with an error. */
  function Owed(w: Watch): (bool, bool) {
    if MayStop(w) then (false, false)
    else if !w.granted || w.broken then (false, true)
    else (!w.matched, !w.saved)
  }

  /** A call that has ended has sent all its statements: the fingerprint was compared if the family has one, and a call
      that neither stopped nor failed refreshed every view and recorded that. */
  predicate Complete(cfg: Config, views: nat, w: Watch) {
    && (!w.recent ==> (w.compared <==> cfg.fingerprint))
    && (!MayStop(w) && w.granted && !w.broken <==> w.refreshed)
    && (w.refreshed ==> w.done == views)
  }

  predicate Unlocked(cfg: Config, w: Watch) {
    && !w.recent && (w.compared <==> cfg.fingerprint) && (w.matched ==> w.compared && !w.young) && (w.young ==> w.matched)
    && !w.broken && !w.refreshed && !w.saved
  }

  /** What the replica's program counter says about the watch. */
  predicate Fits(cfg: Config, views: nat, w: Watch, pc: Pc) {
    match pc
    case Checking(c) => w == UNSEEN.(clock := c)
    case Capturing => cfg.fingerprint && w == UNSEEN.(clock := w.clock)
    case Matching(fp) => cfg.fingerprint && w == UNSEEN.(clock := w.clock, captured := fp)
    case Matched(fp) => cfg.fingerprint && w == UNSEEN.(clock := w.clock, captured := Some(fp), compared := true, matched := true)
    case Aging(fp, c) => cfg.fingerprint && w == UNSEEN.(clock := c, captured := Some(fp), compared := true, matched := true)
    case TryLock(a) => Unlocked(cfg, w) && a == Attempt(w.captured, w.matched) && !w.granted && w.done == 0
    case Held(a, stage) => Unlocked(cfg, w) && a == Attempt(w.captured, w.matched) && w.granted && FitsStage(views, w, stage)
    case Unlocking(o) => (o.changed, o.failed) == Owed(w) && Complete(cfg, views, w) && w.granted && !(w.matched && w.young)
    case Returned(o) => (o.changed, o.failed) == Owed(w) && Complete(cfg, views, w)
    case Gate(o) => (o.changed, o.failed) == Owed(w) && Complete(cfg, views, w)
    case _ => true
  }

  predicate FitsStage(views: nat, w: Watch, stage: Stage) {
    match stage
    case Locked => w.done == 0
    case Rechecking(c) => w.done == 0 && w.clock == c
    case Refreshing(_, i, _) => w.done == i <= views
    case Snapped(_, i, last) => w.done == i < views && last.version == w.evaluated
    case Recording(_, at, _) => w.done == views && at == w.doneAt
  }

  lemma WatchDeciding(cfg: Config, db: Db, p: nat, pc: Pc, f: Fault, w: Watch)
    requires |db.rows| == |db.views| > 0 && PhaseOf(pc) == Deciding && Fits(cfg, |db.views|, w, pc)
    ensures Fits(cfg, |db.views|, See(cfg, w, db, p, pc, f), Decide(cfg, db, pc, f))
  {}

  lemma WatchWork(cfg: Config, db: Db, p: nat, a: Attempt, stage: Stage, f: Fault, w: Watch)
    requires |db.rows| == |db.views| > 0 && Fits(cfg, |db.views|, w, Held(a, stage))
    ensures Fits(cfg, |db.views|, See(cfg, w, db, p, Held(a, stage), f), Work(cfg, db, a, stage, f).1)
  {}

  lemma WatchLocking(cfg: Config, db: Db, p: nat, pc: Pc, f: Fault, w: Watch)
    requires |db.rows| == |db.views| > 0 && PhaseOf(pc) == InLock && Fits(cfg, |db.views|, w, pc)
    ensures var (db', pc') := Locking(cfg, db, p, pc, f);
      Fits(cfg, |db.views|, See(cfg, w, db, p, pc, f), pc') && |db'.rows| == |db.rows| && |db'.views| == |db.views|
  {
    if pc.Held? { WatchWork(cfg, db, p, pc.a, pc.stage, f, w); }
  }

  lemma {:induction false} WatchFinish(cfg: Config, db: Db, p: nat, r: Proc, f: Fault, w: Watch)
    requires PhaseOf(r.pc) == Finishing && Fits(cfg, |db.views|, w, r.pc)
    ensures var (db', r') := Finish(cfg, db, r);
      Fits(cfg, |db.views|, See(cfg, w, db, p, r.pc, f), r'.pc) && |db'.rows| == |db.rows| && |db'.views| == |db.views|
  {
    var (db', r') := Finish(cfg, db, r);
    assert db'.rows == db.rows && db'.views == db.views;
    assert if r.pc.Returned? then r'.pc == Gate(r.pc.o) else r'.pc.Top? || r'.pc.Sleeping? || r'.pc.Idle?;
    assert See(cfg, w, db, p, r.pc, f) == w;
  }

  /** One step of the replica keeps its watch in step. */
  lemma WatchStep(cfg: Config, db: Db, p: nat, r: Proc, f: Fault, w: Watch)
    requires |db.rows| == |db.views| > 0 && Fits(cfg, |db.views|, w, r.pc)
    ensures var (db', r') := Execute(cfg, db, p, r, f);
      Fits(cfg, |db.views|, See(cfg, w, db, p, r.pc, f), r'.pc) && |db'.rows| == |db.rows| && |db'.views| == |db.views|
  {
    if PhaseOf(r.pc) == Deciding {
      WatchDeciding(cfg, db, p, r.pc, f, w);
    } else if PhaseOf(r.pc) == InLock {
      WatchLocking(cfg, db, p, r.pc, f, w);
    } else {
      WatchFinish(cfg, db, p, r, f, w);
    }
  }

  /** What has been seen of replica p's current call after n steps of a run. */
  function WatchOf(cfg: Config, states: seq<State>, steps: seq<Step>, n: nat, p: nat): Watch
    requires n <= |steps| && |states| == |steps| + 1
  {
    if n == 0 then UNSEEN
    else
      var w, s := WatchOf(cfg, states, steps, n - 1, p), states[n - 1];
      if steps[n - 1].Run? && steps[n - 1].p == p && p < |s.procs| then See(cfg, w, s.db, p, s.procs[p].pc, steps[n - 1].f) else w
  }

  lemma {:induction false} RunWatch(cfg: Config, states: seq<State>, steps: seq<Step>, n: nat, p: nat)
    requires WellFormed(cfg) && IsRun(cfg, states, steps) && n < |states| && p < |states[n].procs|
    ensures |states[n].db.rows| == |states[n].db.views| == cfg.views
    ensures Fits(cfg, cfg.views, WatchOf(cfg, states, steps, n, p), states[n].procs[p].pc)
  {
    if n > 0 {
      var s, step := states[n - 1], steps[n - 1];
      assert Enabled(cfg, s, step) && states[n] == Next(cfg, s, step);
      RunWatch(cfg, states, steps, n - 1, p);
      if step.Run? {
        var q := step.p;
        RunWatch(cfg, states, steps, n - 1, q);
        WatchStep(cfg, s.db, q, s.procs[q], step.f, WatchOf(cfg, states, steps, n - 1, q));
      }
    }
  }

  /** In every run, a call that has ended returns what it owes by what was seen of it, and has sent every statement that
      it owes. */
  lemma CallOutcome(cfg: Config, states: seq<State>, steps: seq<Step>, n: nat, p: nat)
    requires WellFormed(cfg) && IsRun(cfg, states, steps) && n < |states| && p < |states[n].procs| && states[n].procs[p].pc.Returned?
    ensures var w, o := WatchOf(cfg, states, steps, n, p), states[n].procs[p].pc.o;
      (o.changed, o.failed) == Owed(w) && Complete(cfg, cfg.views, w)
  {
    RunWatch(cfg, states, steps, n, p);
  }

  /** Why a call may return unchanged and without error: every stamp is within the debounce interval of the clock it had
      read; or the captured fingerprint is recorded for every view and every stamp is within the greatest skip age of that
      clock; or it refreshed every view although nothing had changed. */
  predicate Excused(cfg: Config, rows: seq<Option<Stamp>>, pc: Pc, w: Watch) {
    match pc
    case Checking(_) => AllSince(rows, w.clock - cfg.debounce)
    case Aging(_, _) => w.matched && cfg.maxSkipAge > 0 && AllSince(rows, w.clock - cfg.maxSkipAge)
    case Unlocking(_) => w.recent || (w.refreshed && w.matched && w.saved)
    case _ => false
  }

  predicate Unchanged(pc: Pc) { pc.Returned? && !pc.o.changed && !pc.o.failed }

  lemma UnchangedDeciding(cfg: Config, db: Db, pc: Pc, f: Fault, w: Watch)
    requires PhaseOf(pc) == Deciding && Fits(cfg, |db.views|, w, pc) && Unchanged(Decide(cfg, db, pc, f))
    ensures Excused(cfg, db.rows, pc, w)
  {}

  lemma UnchangedLocking(cfg: Config, db: Db, p: nat, pc: Pc, f: Fault, w: Watch)
    requires PhaseOf(pc) == InLock && Fits(cfg, |db.views|, w, pc) && Unchanged(Locking(cfg, db, p, pc, f).1)
    ensures Excused(cfg, db.rows, pc, w)
  {}

  /** In every run, a call that returns unchanged and without error has one of those excuses. */
  lemma UnchangedMeans(cfg: Config, states: seq<State>, steps: seq<Step>, n: nat, p: nat)
    requires WellFormed(cfg) && IsRun(cfg, states, steps) && n < |steps| && p < |states[n].procs|
    requires steps[n].Run? && steps[n].p == p && !Unchanged(states[n].procs[p].pc) && Unchanged(states[n + 1].procs[p].pc)
    ensures Excused(cfg, states[n].db.rows, states[n].procs[p].pc, WatchOf(cfg, states, steps, n, p))
  {
    var s, f, w := states[n], steps[n].f, WatchOf(cfg, states, steps, n, p);
    RunWatch(cfg, states, steps, n, p);
    assert states[n + 1] == Next(cfg, s, steps[n]);
    if PhaseOf(s.procs[p].pc) == Deciding {
      UnchangedDeciding(cfg, s.db, s.procs[p].pc, f, w);
    } else if PhaseOf(s.procs[p].pc) == InLock {
      UnchangedLocking(cfg, s.db, p, s.procs[p].pc, f, w);
    }
  }

  /** At the end of an iteration: a call that stopped is repeated after the debounce interval and five seconds while the
      budget lasts, one that failed is not; otherwise a pending trigger starts the next iteration with a full budget; otherwise
      the loop ends. */
  lemma IterationEnds(cfg: Config, states: seq<State>, steps: seq<Step>, n: nat)
    requires WellFormed(cfg) && IsRun(cfg, states, steps) && n < |steps| && steps[n].Run? && states[n].procs[steps[n].p].pc.Gate?
    ensures var r, r', owed := states[n].procs[steps[n].p], states[n + 1].procs[steps[n].p], Owed(WatchOf(cfg, states, steps, n, steps[n].p));
      if owed == (false, false) && r.budget > 0 then
        r' == r.(pc := Sleeping(states[n].db.now + cfg.debounce + 5), budget := r.budget - 1)
      else if r.pending then
        r'.inflight && !r'.pending && r'.pc == Top && r'.budget == cfg.retries && r'.serving == r.waiting && r'.waiting == {}
      else
        !r'.inflight && !r'.pending && r'.pc == Idle
  {
    RunWatch(cfg, states, steps, n, steps[n].p);
    assert Enabled(cfg, states[n], steps[n]) && states[n + 1] == Next(cfg, states[n], steps[n]);
  }

  /** What one step of a replica may write: a granted request takes the lock and an unlock gives it back; a commit writes
      the evaluated version into the next view; a record gives every view the same stamp, taken when all views were done,
      and the captured fingerprint; nothing else writes. */
  lemma StepWrites(cfg: Config, states: seq<State>, steps: seq<Step>, n: nat)
    requires WellFormed(cfg) && IsRun(cfg, states, steps) && n < |steps| && steps[n].Run?
    ensures var p, f := steps[n].p, steps[n].f;
      var db, db', pc, w := states[n].db, states[n + 1].db, states[n].procs[p].pc, WatchOf(cfg, states, steps, n, p);
      && (if pc.Held? && pc.stage.Recording? && !f.NoEffect?
          then |db'.rows| == |db.rows| && (forall i | 0 <= i < |db'.rows| :: db'.rows[i] == Some(Stamp(w.doneAt, w.captured)))
               && db'.log.stamps == db.log.stamps + [w.doneAt]
          else db'.rows == db.rows && db'.log.stamps == db.log.stamps)
      && (if pc.Held? && pc.stage.Snapped? && !f.NoEffect?
          then w.done < |db.views| && db'.views == db.views[w.done := w.evaluated]
          else db'.views == db.views)
      && (if pc.TryLock? && !f.NoEffect? && (db.lock == None || db.lock == Some(p)) then db'.lock == Some(p)
          else if pc.Unlocking? && !f.NoEffect? then db'.lock == None
          else db'.lock == db.lock)
  {
    RunWatch(cfg, states, steps, n, steps[n].p);
    assert Enabled(cfg, states[n], steps[n]) && states[n + 1] == Next(cfg, states[n], steps[n]);
  }
}

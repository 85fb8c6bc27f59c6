/** Exactly when the refresh guarantees hold: each condition is shown to be needed by a run of three replicas. */
module RefreshLimits {
  import opened Wrappers
  import opened RefreshProtocol
  import opened RefreshSafety
  import opened TrailingRetry

  ghost predicate Ends(cfg: Config, states: seq<State>, steps: seq<Step>, s: State) {
    IsRun(cfg, states, steps) && states[|states| - 1] == s
  }

  ghost predicate Reachable(cfg: Config, s: State) {
    exists states, steps :: Ends(cfg, states, steps, s)
  }

  lemma Go(cfg: Config, s: State, step: Step) returns (s': State)
    requires Reachable(cfg, s) && Enabled(cfg, s, step)
    ensures Reachable(cfg, s') && s' == Next(cfg, s, step)
  {
    var states, steps :| Ends(cfg, states, steps, s);
    s' := Next(cfg, s, step);
    assert Ends(cfg, states + [s'], steps + [step], s');
  }

  /** One action of replica p. */
  lemma Act(cfg: Config, s: State, p: nat, f: Fault) returns (s': State)
    requires Reachable(cfg, s) && p < |s.procs| && CanRun(cfg, s.db, s.procs[p], f)
    ensures Reachable(cfg, s')
    ensures s' == State(Execute(cfg, s.db, p, s.procs[p], f).0, s.procs[p := Execute(cfg, s.db, p, s.procs[p], f).1])
  {
    s' := Go(cfg, s, Run(p, f));
  }

  function Start(cfg: Config): State {
    State(Db(0, 0, seq(cfg.views, _ => None), seq(cfg.views, _ => 0), None, Log(0, None, [], {}, {}, {})),
          [IDLE_PROC, IDLE_PROC, IDLE_PROC])
  }

  lemma StartReachable(cfg: Config)
    ensures Reachable(cfg, Start(cfg))
  {
    assert Ends(cfg, [Start(cfg)], [], Start(cfg));
  }

  // ---------------------------------------------------------------- stretches of one replica's call

  /** The states agree on everything but replica p, the lock and the triggers. */
  ghost predicate Beside(s: State, s': State, p: nat) {
    && |s'.procs| == |s.procs| && (forall q | 0 <= q < |s.procs| && q != p :: s'.procs[q] == s.procs[q])
    && s'.db.now == s.db.now && s'.db.source == s.db.source
    && s'.db.log.dropped == s.db.log.dropped && s.db.log.fired <= s'.db.log.fired
  }

  /** ... and the stamps and views stand as they were. */
  ghost predicate Quietly(s: State, s': State, p: nat) {
    Beside(s, s', p) && s'.db.rows == s.db.rows && s'.db.views == s.db.views && s'.db.log.stamps == s.db.log.stamps
  }

  const ATTEMPT := Attempt(None, false)

  /** What replica p's loop is, at a given point of its first call for one trigger. */
  ghost predicate At(s: State, p: nat, pc: Pc, budget: nat, t: Trigger) {
    p < |s.procs| && s.procs[p] == Proc(true, false, pc, budget, s.procs[p].mark, {t}, {})
  }

  lemma ToChecking(cfg: Config, s: State, p: nat) returns (s': State)
    requires Reachable(cfg, s) && p < |s.procs| && s.procs[p] == IDLE_PROC
    ensures Reachable(cfg, s') && Quietly(s, s', p) && s'.db.lock == s.db.lock
    ensures At(s', p, Checking(s.db.now), cfg.retries, Trigger(s.db.now, s.db.source))
    ensures s'.db.log.fired == s.db.log.fired + {Trigger(s.db.now, s.db.source)}
  {
    s' := Go(cfg, s, Fire(p));
    s' := Act(cfg, s', p, Ok);
  }

  /** Past the debounce and the fingerprint, whose queries both fail, to the request for the lock. */
  lemma ToTryLock(cfg: Config, s: State, p: nat) returns (s': State)
    requires Reachable(cfg, s) && p < |s.procs| && s.procs[p] == IDLE_PROC
    ensures Reachable(cfg, s') && Quietly(s, s', p) && s'.db.lock == s.db.lock
    ensures At(s', p, TryLock(ATTEMPT), cfg.retries, Trigger(s.db.now, s.db.source))
  {
    s' := ToChecking(cfg, s, p);
    s' := Act(cfg, s', p, NoEffect);
    if cfg.fingerprint {
      s' := Act(cfg, s', p, NoEffect);
      s' := Act(cfg, s', p, Ok);
    }
  }

  lemma ToLock(cfg: Config, s: State, p: nat) returns (s': State)
    requires Reachable(cfg, s) && p < |s.procs| && s.procs[p] == IDLE_PROC && s.db.lock == None
    ensures Reachable(cfg, s') && Quietly(s, s', p) && s'.db.lock == Some(p)
    ensures At(s', p, Held(ATTEMPT, Rechecking(s.db.now)), cfg.retries, Trigger(s.db.now, s.db.source))
  {
    s' := ToTryLock(cfg, s, p);
    s' := Act(cfg, s', p, Ok);
    s' := Act(cfg, s', p, Ok);
  }

  /** Past the re-check: no stamp is recent, or the query fails. */
  lemma ToRefreshing(cfg: Config, s: State, p: nat, f: Fault) returns (s': State)
    requires Reachable(cfg, s) && p < |s.procs| && s.procs[p] == IDLE_PROC && s.db.lock == None
    requires if f.Ok? then !Recent(s.db.rows, s.db.now - cfg.debounce) else cfg.recheckMayFail
    ensures Reachable(cfg, s') && Quietly(s, s', p) && s'.db.lock == Some(p)
    ensures At(s', p, Held(ATTEMPT, Refreshing(s.db.now, 0, Snap(0, s.db.now))), cfg.retries, Trigger(s.db.now, s.db.source))
  {
    s' := ToLock(cfg, s, p);
    s' := Act(cfg, s', p, f);
  }

  /** One view refreshed and committed. */
  lemma OneView(cfg: Config, s: State, p: nat, clock: int, i: nat, last: Snap, t: Trigger) returns (s': State, last': Snap)
    requires Reachable(cfg, s) && i < |s.db.views| && At(s, p, Held(ATTEMPT, Refreshing(clock, i, last)), cfg.retries, t)
    ensures Reachable(cfg, s') && Beside(s, s', p) && s'.db.rows == s.db.rows && s'.db.log.stamps == s.db.log.stamps
    ensures |s'.db.views| == |s.db.views| && s'.db.lock == s.db.lock
    ensures At(s', p, Held(ATTEMPT, Refreshing(clock, i + 1, last')), cfg.retries, t)
  {
    last' := Snap(SnapshotVersion(cfg, s.db, i), s.db.now);
    s' := Act(cfg, s, p, Ok);
    s' := Act(cfg, s', p, Ok);
  }

  lemma {:induction false} AllViews(cfg: Config, s: State, p: nat, clock: int, i: nat, last: Snap, t: Trigger) returns (s': State, last': Snap)
    requires Reachable(cfg, s) && i <= |s.db.views| && At(s, p, Held(ATTEMPT, Refreshing(clock, i, last)), cfg.retries, t)
    ensures Reachable(cfg, s') && Beside(s, s', p) && s'.db.rows == s.db.rows && s'.db.log.stamps == s.db.log.stamps
    ensures |s'.db.views| == |s.db.views| && s'.db.lock == s.db.lock
    ensures At(s', p, Held(ATTEMPT, Refreshing(clock, |s.db.views|, last')), cfg.retries, t)
    decreases |s.db.views| - i
  {
    if i == |s.db.views| {
      s', last' := s, last;
    } else {
      var s1, last1 := OneView(cfg, s, p, clock, i, last, t);
      s', last' := AllViews(cfg, s1, p, clock, i + 1, last1, t);
    }
  }

  /** All views are done: the stamps are recorded. */
  lemma ToRecorded(cfg: Config, s: State, p: nat, clock: int, last: Snap, t: Trigger) returns (s': State)
    requires Reachable(cfg, s) && At(s, p, Held(ATTEMPT, Refreshing(clock, |s.db.views|, last)), cfg.retries, t)
    ensures Reachable(cfg, s') && Beside(s, s', p) && s'.db.views == s.db.views && s'.db.lock == s.db.lock
    ensures s'.db.rows == seq(|s.db.rows|, _ => Some(Stamp(s.db.now, None))) && s'.db.log.stamps == s.db.log.stamps + [s.db.now]
    ensures At(s', p, Unlocking(Outcome(true, false, None)), cfg.retries, t)
  {
    s' := Act(cfg, s, p, Ok);
    s' := Act(cfg, s', p, Ok);
  }

  /** From the refresh under way to its record and the unlock. */
  lemma ToReturned(cfg: Config, s: State, p: nat, clock: int, i: nat, last: Snap, t: Trigger) returns (s': State)
    requires Reachable(cfg, s) && i <= |s.db.views| && At(s, p, Held(ATTEMPT, Refreshing(clock, i, last)), cfg.retries, t)
    ensures Reachable(cfg, s') && Beside(s, s', p) && |s'.db.views| == |s.db.views| && s'.db.lock == None
    ensures s'.db.rows == seq(|s.db.rows|, _ => Some(Stamp(s.db.now, None))) && s'.db.log.stamps == s.db.log.stamps + [s.db.now]
    ensures At(s', p, Returned(Outcome(true, false, None)), cfg.retries, t)
  {
    var s1, last1 := AllViews(cfg, s, p, clock, i, last, t);
    s' := ToRecorded(cfg, s1, p, clock, last1, t);
    s' := Act(cfg, s', p, Ok);
  }

  /** A whole refresh of replica p, by a re-check that sees no stamp or fails. */
  lemma Refresh(cfg: Config, s: State, p: nat, f: Fault) returns (s': State)
    requires Reachable(cfg, s) && p < |s.procs| && s.procs[p] == IDLE_PROC && s.db.lock == None
    requires if f.Ok? then !Recent(s.db.rows, s.db.now - cfg.debounce) else cfg.recheckMayFail
    ensures Reachable(cfg, s') && Beside(s, s', p) && |s'.db.views| == |s.db.views| && s'.db.lock == None
    ensures s'.db.rows == seq(|s.db.rows|, _ => Some(Stamp(s.db.now, None))) && s'.db.log.stamps == s.db.log.stamps + [s.db.now]
    ensures At(s', p, Returned(Outcome(true, false, None)), cfg.retries, Trigger(s.db.now, s.db.source))
  {
    var s1 := ToRefreshing(cfg, s, p, f);
    s' := ToReturned(cfg, s1, p, s.db.now, 0, Snap(0, s.db.now), Trigger(s.db.now, s.db.source));
  }

  // ---------------------------------------------------------------- mutual exclusion and the rate limit

  ghost predicate Exclusive(cfg: Config) {
    forall s, p, q :: Reachable(cfg, s) && 0 <= p < |s.procs| && 0 <= q < |s.procs| && Holding(s.procs[p].pc) && Holding(s.procs[q].pc) ==> p == q
  }

  /** At most one replica is in the locked region exactly when the connection that holds the lock outlives the call. */
  lemma MutualExclusionExactly(cfg: Config)
    requires WellFormed(cfg)
    ensures Exclusive(cfg) <==> !cfg.lockMayDrop
  {
    if cfg.lockMayDrop {
      StartReachable(cfg);
      var s := ToLock(cfg, Start(cfg), 0);
      s := Go(cfg, s, Drop);
      s := ToLock(cfg, s, 1);
      assert Holding(s.procs[0].pc) && Holding(s.procs[1].pc);
    } else {
      forall s, p, q | Reachable(cfg, s) && 0 <= p < |s.procs| && 0 <= q < |s.procs| && Holding(s.procs[p].pc) && Holding(s.procs[q].pc)
        ensures p == q
      {
        var states, steps :| Ends(cfg, states, steps, s);
        MutualExclusion(cfg, states, steps, |states| - 1, p, q);
      }
    }
  }

  /** The stamps of every run are more than the debounce interval apart. */
  ghost predicate RateLimited(cfg: Config) {
    forall s, i, j :: Reachable(cfg, s) && 0 <= i < j < |s.db.log.stamps| ==> s.db.log.stamps[i] + cfg.debounce < s.db.log.stamps[j]
  }

  /** For every family the rate limit holds exactly when a failed query under the lock cannot pass for "not recently
      refreshed" and the connection that holds the lock outlives the call. */
  lemma RateLimitExactly(cfg: Config)
    requires WellFormed(cfg)
    ensures RateLimited(cfg) <==> !cfg.recheckMayFail && !cfg.lockMayDrop
  {
    if cfg.recheckMayFail {
      var s := TwiceByFailure(cfg);
      assert s.db.log.stamps[0] == s.db.log.stamps[1] == 0;
    } else if cfg.lockMayDrop {
      var s := TwiceByDrop(cfg);
      assert s.db.log.stamps[0] == s.db.log.stamps[1] == 0;
    } else {
      forall s, i, j | Reachable(cfg, s) && 0 <= i < j < |s.db.log.stamps|
        ensures s.db.log.stamps[i] + cfg.debounce < s.db.log.stamps[j]
      {
        var states, steps :| Ends(cfg, states, steps, s);
        RateLimit(cfg, states, steps, |states| - 1, i, j);
      }
    }
  }

  /** The second replica's re-check fails. */
  lemma TwiceByFailure(cfg: Config) returns (s: State)
    requires WellFormed(cfg) && cfg.recheckMayFail
    ensures Reachable(cfg, s) && s.db.log.stamps == [0, 0]
  {
    StartReachable(cfg);
    s := Refresh(cfg, Start(cfg), 0, NoEffect);
    s := Refresh(cfg, s, 1, NoEffect);
  }

  /** The first replica loses the lock while it refreshes, and both record. */
  lemma TwiceByDrop(cfg: Config) returns (s: State)
    requires WellFormed(cfg) && cfg.lockMayDrop
    ensures Reachable(cfg, s) && s.db.log.stamps == [0, 0]
  {
    StartReachable(cfg);
    var s0 := Start(cfg);
    assert s0.db.rows[0] == None;
    s := ToRefreshing(cfg, s0, 0, Ok);
    s := Go(cfg, s, Drop);
    s := Refresh(cfg, s, 1, Ok);
    s := ToReturned(cfg, s, 0, 0, 0, Snap(0, 0), Trigger(0, 0));
  }

  // ---------------------------------------------------------------- debounced triggers

  /** A skip with clock c never shadows a refresh that read its clock by then. */
  ghost predicate ShadowsNothing(cfg: Config) {
    forall s, p, q :: Reachable(cfg, s) && 0 <= p < |s.procs| && 0 <= q < |s.procs| && Skipping(cfg, s, p) && MidRefresh(s.procs[q].pc)
      ==> s.procs[p].pc.clock < s.procs[q].pc.stage.clock
  }

  predicate Skipping(cfg: Config, s: State, p: nat)
    requires p < |s.procs|
  {
    s.procs[p].pc.Checking? && Recent(s.db.rows, s.procs[p].pc.clock - cfg.debounce)
  }

  lemma ShadowsNothingExactly(cfg: Config)
    requires ValidConfig(cfg)
    ensures ShadowsNothing(cfg) <==> !cfg.recheckMayFail
  {
    if cfg.recheckMayFail {
      StartReachable(cfg);
      var s := Refresh(cfg, Start(cfg), 2, NoEffect);
      s := ToRefreshing(cfg, s, 1, NoEffect);
      s := ToChecking(cfg, s, 0);
      assert Skipping(cfg, s, 0) && MidRefresh(s.procs[1].pc);
    } else {
      forall s, p, q | Reachable(cfg, s) && 0 <= p < |s.procs| && 0 <= q < |s.procs| && Skipping(cfg, s, p) && MidRefresh(s.procs[q].pc)
        ensures s.procs[p].pc.clock < s.procs[q].pc.stage.clock
      {
        var states, steps :| Ends(cfg, states, steps, s);
        var s' := Next(cfg, s, Run(p, Ok));
        assert IsRun(cfg, states + [s'], steps + [Run(p, Ok)]);
        SkipMeansIdle(cfg, states + [s'], steps + [Run(p, Ok)], |steps|, q);
      }
    }
  }

  /** asset_risk, with the budget and the failing re-check as parameters. */
  function Variant(retries: nat, recheckMayFail: bool): Config {
    ASSET_RISK.(retries := retries, recheckMayFail := recheckMayFail)
  }

  /** No run of a loop ends without error while the view misses what one of its triggers announced. */
  ghost predicate LosesNothing(cfg: Config) {
    forall s, t :: Reachable(cfg, s) && t in s.db.log.fired ==>
      InFlight(s, t) || t in s.db.log.dropped || t.version <= LastView(s.db)
  }

  /** Triggers are never lost exactly because of the retry budget: two retries suffice whatever the re-check does, one
      suffices when it cannot fail, and with fewer a debounced trigger can be lost. */
  lemma LosesNothingExactly(retries: nat, recheckMayFail: bool)
    ensures LosesNothing(Variant(retries, recheckMayFail)) <==> retries >= 2 || (retries == 1 && !recheckMayFail)
  {
    var cfg := Variant(retries, recheckMayFail);
    if retries >= Needed(cfg) {
      forall s, t | Reachable(cfg, s) && t in s.db.log.fired
        ensures InFlight(s, t) || t in s.db.log.dropped || t.version <= LastView(s.db)
      {
        var states, steps :| Ends(cfg, states, steps, s);
        NeverLost(cfg, states, steps, |states| - 1, t);
      }
    } else if retries == 0 {
      var s := LostAtOnce(cfg);
      assert Trigger(0, 1) in s.db.log.fired;
    } else {
      var s := LostAfterSleep(cfg);
      assert Trigger(0, 1) in s.db.log.fired;
    }
  }

  /** The trigger of version 1 has gone while the view is of version 0. */
  ghost predicate Lost(s: State) {
    && Trigger(0, 1) in s.db.log.fired && LastView(s.db) == 0
    && Trigger(0, 1) !in s.db.log.dropped && !InFlight(s, Trigger(0, 1))
  }

  /** Replica 2 has just refreshed when the source changes. */
  lemma FreshStamp(cfg: Config) returns (s: State)
    requires cfg == Variant(cfg.retries, cfg.recheckMayFail)
    ensures Reachable(cfg, s) && |s.procs| == 3 && s.procs[0] == IDLE_PROC == s.procs[1] && s.db.lock == None
    ensures s.procs[2].serving == {Trigger(0, 0)} && s.procs[2].waiting == {}
    ensures s.db.now == 0 && s.db.source == 0 && s.db.rows == [Some(Stamp(0, None))] && s.db.views == [0] && s.db.log.dropped == {}
  {
    StartReachable(cfg);
    var s0 := Start(cfg);
    assert s0.db.rows[0] == None;
    s := Refresh(cfg, s0, 2, Ok);
    ViewsNeverAhead(cfg, s);
  }

  lemma ViewsNeverAhead(cfg: Config, s: State)
    requires ValidConfig(cfg) && Reachable(cfg, s)
    ensures forall j | 0 <= j < |s.db.views| :: s.db.views[j] <= s.db.source
  {
    var states, steps :| Ends(cfg, states, steps, s);
    RunFp(cfg, states, steps, |states| - 1);
  }

  /** Replica 0 is triggered for version 1 and debounced. */
  lemma FirstSkip(cfg: Config, s: State) returns (s': State)
    requires cfg == Variant(cfg.retries, cfg.recheckMayFail)
    requires Reachable(cfg, s) && |s.procs| > 0 && s.procs[0] == IDLE_PROC && s.db.now == 0 && s.db.source == 0 && s.db.rows == [Some(Stamp(0, None))]
    ensures Reachable(cfg, s') && |s'.procs| == |s.procs| && (forall q | 0 < q < |s.procs| :: s'.procs[q] == s.procs[q])
    ensures s'.db == s.db.(source := 1, log := s'.db.log) && s'.db.log.dropped == s.db.log.dropped && Trigger(0, 1) in s'.db.log.fired
    ensures At(s', 0, Gate(Debounced(s.db, 0)), cfg.retries, Trigger(0, 1))
  {
    s' := Go(cfg, s, Change(1));
    s' := ToChecking(cfg, s', 0);
    s' := Act(cfg, s', 0, Ok);
    s' := Act(cfg, s', 0, Ok);
  }

  lemma LostAtOnce(cfg: Config) returns (s: State)
    requires cfg == Variant(0, cfg.recheckMayFail)
    ensures Reachable(cfg, s) && Lost(s)
  {
    s := FreshStamp(cfg);
    s := FirstSkip(cfg, s);
    s := Act(cfg, s, 0, Ok);
  }

  /** Replica 1 has taken its snapshot, of version 0, although the stamp is fresh. */
  lemma Straggler(cfg: Config) returns (s: State)
    requires cfg == Variant(1, true)
    ensures Reachable(cfg, s) && |s.procs| == 3 && s.procs[0] == IDLE_PROC
    ensures At(s, 1, Held(ATTEMPT, Snapped(0, 0, Snap(0, 0))), 1, Trigger(0, 0))
    ensures s.procs[2].serving == {Trigger(0, 0)} && s.procs[2].waiting == {}
    ensures s.db.now == 0 && s.db.source == 0 && s.db.rows == [Some(Stamp(0, None))] && s.db.views == [0] && s.db.log.dropped == {}
  {
    s := FreshStamp(cfg);
    s := ToRefreshing(cfg, s, 1, NoEffect);
    s := Act(cfg, s, 1, Ok);
  }

  /** It records its old snapshot while replica 0 sleeps. */
  lemma StragglerRecords(cfg: Config) returns (s: State)
    requires cfg == Variant(1, true)
    ensures Reachable(cfg, s) && |s.procs| == 3 && At(s, 0, Sleeping(305), 0, Trigger(0, 1))
    ensures Trigger(0, 1) !in s.procs[1].serving + s.procs[1].waiting + s.procs[2].serving + s.procs[2].waiting
    ensures s.db.now == 305 && s.db.rows == [Some(Stamp(305, None))] && s.db.views == [0] && s.db.log.dropped == {}
    ensures Trigger(0, 1) in s.db.log.fired
  {
    s := Straggler(cfg);
    s := FirstSkip(cfg, s);
    s := Act(cfg, s, 0, Ok);
    s := Go(cfg, s, Tick(305));
    s := Act(cfg, s, 1, Ok);
    assert At(s, 1, Held(ATTEMPT, Refreshing(0, 1, Snap(0, 0))), 1, Trigger(0, 0));
    s := ToRecorded(cfg, s, 1, 0, Snap(0, 0), Trigger(0, 0));
  }

  /** Replica 0 wakes up and compares with the new stamp. */
  lemma SecondCheck(cfg: Config, s: State) returns (s': State)
    requires cfg == Variant(1, true) && Reachable(cfg, s) && At(s, 0, Sleeping(305), 0, Trigger(0, 1)) && s.db.now == 305
    ensures Reachable(cfg, s') && At(s', 0, Checking(305), 0, Trigger(0, 1)) && s'.db == s.db
    ensures |s'.procs| == |s.procs| && forall q | 0 < q < |s.procs| :: s'.procs[q] == s.procs[q]
  {
    s' := Act(cfg, s, 0, Ok);
    s' := Act(cfg, s', 0, Ok);
  }

  lemma LostAfterSleep(cfg: Config) returns (s: State)
    requires cfg == Variant(1, true)
    ensures Reachable(cfg, s) && Lost(s)
  {
    s := StragglerRecords(cfg);
    s := SecondCheck(cfg, s);
    s := Act(cfg, s, 0, Ok);
    s := Act(cfg, s, 0, Ok);
    s := Act(cfg, s, 0, Ok);
  }
}

/** One refresh call as straight-line code over the database, and the proof that it performs exactly the protocol's atomic
    actions. Time passes and the source changes between its statements, and every statement may fail, as the world has
    it; other replicas are not part of this module. */
module RefreshCall {
  import opened Wrappers
  import opened RefreshProtocol
  import RefreshWatch

  /** What happens before a statement, and how the statement ends. */
  datatype Weather = Weather(delay: nat, growth: nat, fault: Fault)

  /** The weather at each point of the call. */
  type World = Pc -> Weather

  function Weathered(db: Db, w: Weather): Db {
    db.(now := db.now + w.delay, source := db.source + w.growth)
  }

  /** The next action of a call; a call that has returned takes none. */
  function Act(cfg: Config, world: World, db: Db, p: nat, pc: Pc): (Db, Pc) {
    var db' := Weathered(db, world(pc));
    match PhaseOf(pc)
    case Deciding => (db', Decide(cfg, db', pc, world(pc).fault))
    case InLock => Locking(cfg, db', p, pc, world(pc).fault)
    case Finishing => (db, pc)
  }

  /** An action is a tick, a source change and a step of the replica's loop. */
  lemma ActIsSteps(cfg: Config, world: World, s: State, p: nat)
    requires p < |s.procs| && PhaseOf(s.procs[p].pc) != Finishing
    requires var w := world(s.procs[p].pc); CanRun(cfg, Weathered(s.db, w), s.procs[p], w.fault)
    ensures var w := world(s.procs[p].pc);
      var (db', pc') := Act(cfg, world, s.db, p, s.procs[p].pc);
      var s1 := Next(cfg, s, Tick(s.db.now + w.delay));
      var s2 := Next(cfg, s1, Change(s.db.source + w.growth));
      Next(cfg, s2, Run(p, w.fault)) == State(db', s.procs[p := s.procs[p].(pc := pc')])
  {}

  function Acts(cfg: Config, world: World, db: Db, p: nat, pc: Pc, n: nat): (Db, Pc) {
    if n == 0 then (db, pc)
    else
      var (db', pc') := Acts(cfg, world, db, p, pc, n - 1);
      Act(cfg, world, db', p, pc')
  }

  lemma {:induction false} ActsStep(cfg: Config, world: World, db: Db, p: nat, pc: Pc, n: nat, db2: Db, pc2: Pc)
    requires n > 0 && Acts(cfg, world, db, p, pc, n - 1) == (db2, pc2)
    ensures Acts(cfg, world, db, p, pc, n) == Act(cfg, world, db2, p, pc2)
  {}

  /** The actions lead from one point of the call to another. */
  ghost predicate Leads(cfg: Config, world: World, db: Db, p: nat, pc: Pc, db': Db, pc': Pc) {
    exists n: nat :: Acts(cfg, world, db, p, pc, n) == (db', pc')
  }

  lemma Then(cfg: Config, world: World, db: Db, p: nat, pc: Pc, db1: Db, pc1: Pc)
    requires Leads(cfg, world, db, p, pc, db1, pc1)
    ensures var (db2, pc2) := Act(cfg, world, db1, p, pc1); Leads(cfg, world, db, p, pc, db2, pc2)
  {
    var n: nat :| Acts(cfg, world, db, p, pc, n) == (db1, pc1);
    ActsStep(cfg, world, db, p, pc, n + 1, db1, pc1);
  }

  lemma Here(cfg: Config, world: World, db: Db, p: nat, pc: Pc)
    ensures Leads(cfg, world, db, p, pc, db, pc)
  {
    assert Acts(cfg, world, db, p, pc, 0) == (db, pc);
  }

  /** In every world the actions decide the outcome: a call ends in one way only. */
  lemma OutcomeIsUnique(cfg: Config, world: World, db: Db, p: nat, pc: Pc, db1: Db, o1: Outcome, db2: Db, o2: Outcome)
    requires Leads(cfg, world, db, p, pc, db1, Returned(o1)) && Leads(cfg, world, db, p, pc, db2, Returned(o2))
    ensures db1 == db2 && o1 == o2
  {
    var m: nat :| Acts(cfg, world, db, p, pc, m) == (db1, Returned(o1));
    var n: nat :| Acts(cfg, world, db, p, pc, n) == (db2, Returned(o2));
    if m <= n {
      ReturnedOnce(cfg, world, db, p, pc, m, n, db1, o1);
    } else {
      ReturnedOnce(cfg, world, db, p, pc, n, m, db2, o2);
    }
  }

  /** A call that has returned takes no further action. */
  lemma {:induction false} ReturnedOnce(cfg: Config, world: World, db: Db, p: nat, pc: Pc, m: nat, n: nat, db1: Db, o1: Outcome)
    requires m <= n && Acts(cfg, world, db, p, pc, m) == (db1, Returned(o1))
    ensures Acts(cfg, world, db, p, pc, n) == (db1, Returned(o1))
    decreases n - m
  {
    if m < n {
      ActsStep(cfg, world, db, p, pc, m + 1, db1, Returned(o1));
      ReturnedOnce(cfg, world, db, p, pc, m + 1, n, db1, o1);
    }
  }

  // ---------------------------------------------------------------- a call without faults

  ghost predicate CleanWorld(world: World) { forall pc :: world(pc).fault.Ok? }

  /** Some view has no stamp, or one older than both the debounce interval and the greatest skip age. */
  predicate Overdue(cfg: Config, db: Db) {
    exists i :: 0 <= i < |db.rows| && (db.rows[i] == None || (db.rows[i].value.at < db.now - cfg.debounce && db.rows[i].value.at < db.now - cfg.maxSkipAge))
  }

  /** Only time and the source have moved on. */
  predicate Later(db: Db, db': Db) {
    db.now <= db'.now && db.source <= db'.source && db' == db.(now := db'.now, source := db'.source)
  }

  lemma OverdueStays(cfg: Config, db: Db, db': Db, clock: int)
    requires WellFormed(cfg) && Overdue(cfg, db) && Later(db, db') && db.now <= clock
    ensures !Recent(db'.rows, clock - cfg.debounce) && !Recent(db'.rows, clock - cfg.maxSkipAge)
  {}

  /** An overdue family leads past the debounce check. */
  lemma CleanCheck(cfg: Config, world: World, db: Db, p: nat) returns (db': Db, pc: Pc)
    requires WellFormed(cfg) && CleanWorld(world) && Overdue(cfg, db)
    ensures Leads(cfg, world, db, p, Top, db', pc) && Later(db, db')
    ensures pc == if cfg.fingerprint then Capturing else TryLock(Attempt(None, false))
  {
    Here(cfg, world, db, p, Top);
    Then(cfg, world, db, p, Top, db, Top);
    var db1 := Weathered(db, world(Top));
    Then(cfg, world, db, p, Top, db1, Checking(db1.now));
    db' := Weathered(db1, world(Checking(db1.now)));
    OverdueStays(cfg, db, db', db1.now);
    pc := Decide(cfg, db', Checking(db1.now), Ok);
  }

  /** With a fingerprint: past the comparison. */
  lemma CleanMatch(cfg: Config, world: World, db: Db, p: nat, db1: Db) returns (db': Db, fp: nat, pc: Pc)
    requires CleanWorld(world) && Leads(cfg, world, db, p, Top, db1, Capturing) && Later(db, db1)
    ensures Leads(cfg, world, db, p, Top, db', pc) && Later(db, db') && db.source <= fp <= db'.source
    ensures pc == if RefreshWatch.AllCarry(db.rows, fp) then Matched(fp) else TryLock(Attempt(Some(fp), false))
  {
    Then(cfg, world, db, p, Top, db1, Capturing);
    var db2 := Weathered(db1, world(Capturing));
    fp := db2.source;
    Then(cfg, world, db, p, Top, db2, Matching(Some(fp)));
    db' := Weathered(db2, world(Matching(Some(fp))));
    pc := Decide(cfg, db', Matching(Some(fp)), Ok);
  }

  /** An overdue family asks for the lock although its fingerprint matches. */
  lemma CleanAge(cfg: Config, world: World, db: Db, p: nat, db1: Db, fp: nat) returns (db': Db)
    requires WellFormed(cfg) && CleanWorld(world) && Overdue(cfg, db) && Leads(cfg, world, db, p, Top, db1, Matched(fp)) && Later(db, db1)
    ensures Leads(cfg, world, db, p, Top, db', TryLock(Attempt(Some(fp), true))) && Later(db, db') && db1.source <= db'.source
  {
    Then(cfg, world, db, p, Top, db1, Matched(fp));
    var db2 := Weathered(db1, world(Matched(fp)));
    Then(cfg, world, db, p, Top, db2, Aging(fp, db2.now));
    db' := Weathered(db2, world(Aging(fp, db2.now)));
    OverdueStays(cfg, db, db', db2.now);
  }

  /** What an attempt that asks for the lock carries. */
  predicate Carries(cfg: Config, db: Db, db': Db, a: Attempt) {
    if cfg.fingerprint then
      a.fp.Some? && db.source <= a.fp.value <= db'.source && (a.same <==> RefreshWatch.AllCarry(db.rows, a.fp.value))
    else a == Attempt(None, false)
  }

  lemma CleanDecide(cfg: Config, world: World, db: Db, p: nat) returns (db': Db, a: Attempt)
    requires WellFormed(cfg) && CleanWorld(world) && Overdue(cfg, db)
    ensures Leads(cfg, world, db, p, Top, db', TryLock(a)) && Later(db, db') && Carries(cfg, db, db', a)
  {
    var db1, pc := CleanCheck(cfg, world, db, p);
    if !cfg.fingerprint {
      db', a := db1, Attempt(None, false);
    } else {
      var db2, fp, pc2 := CleanMatch(cfg, world, db, p, db1);
      if RefreshWatch.AllCarry(db.rows, fp) {
        db' := CleanAge(cfg, world, db, p, db2, fp);
        a := Attempt(Some(fp), true);
      } else {
        db', a := db2, Attempt(Some(fp), false);
      }
    }
  }

  /** Only time, the source, the views and the lock have moved on. */
  predicate Under(db: Db, db': Db) {
    db.now <= db'.now && db.source <= db'.source && |db'.views| == |db.views|
    && db' == db.(now := db'.now, source := db'.source, views := db'.views, lock := db'.lock)
  }

  /** The lock is free, so the call gets past its re-check. */
  lemma CleanLock(cfg: Config, world: World, db: Db, p: nat, db1: Db, a: Attempt) returns (db': Db, clock: int)
    requires WellFormed(cfg) && CleanWorld(world) && Overdue(cfg, db) && db.lock == None
    requires Leads(cfg, world, db, p, Top, db1, TryLock(a)) && Later(db, db1)
    ensures Leads(cfg, world, db, p, Top, db', Held(a, Refreshing(clock, 0, Snap(0, clock)))) && Under(db, db') && db1.source <= db'.source
  {
    Then(cfg, world, db, p, Top, db1, TryLock(a));
    var db2 := Weathered(db1, world(TryLock(a))).(lock := Some(p));
    Then(cfg, world, db, p, Top, db2, Held(a, Locked));
    var db3 := Weathered(db2, world(Held(a, Locked)));
    clock := db3.now;
    Then(cfg, world, db, p, Top, db3, Held(a, Rechecking(clock)));
    db' := Weathered(db3, world(Held(a, Rechecking(clock))));
    OverdueStays(cfg, db, db'.(lock := None), clock);
  }

  lemma CleanSnap(cfg: Config, world: World, db: Db, p: nat, db1: Db, a: Attempt, clock: int, i: nat, last: Snap)
    returns (db': Db, last': Snap)
    requires CleanWorld(world) && i < |db1.views|
    requires Leads(cfg, world, db, p, Top, db1, Held(a, Refreshing(clock, i, last))) && Under(db, db1)
    ensures Leads(cfg, world, db, p, Top, db', Held(a, Snapped(clock, i, last'))) && Under(db, db') && db1.source <= db'.source
  {
    var pc1 := Held(a, Refreshing(clock, i, last));
    Then(cfg, world, db, p, Top, db1, pc1);
    db' := Weathered(db1, world(pc1));
    last' := Snap(SnapshotVersion(cfg, db', i), db'.now);
  }

  lemma CleanCommit(cfg: Config, world: World, db: Db, p: nat, db1: Db, a: Attempt, clock: int, i: nat, last: Snap) returns (db': Db)
    requires CleanWorld(world) && i < |db1.views|
    requires Leads(cfg, world, db, p, Top, db1, Held(a, Snapped(clock, i, last))) && Under(db, db1)
    ensures Leads(cfg, world, db, p, Top, db', Held(a, Refreshing(clock, i + 1, last))) && Under(db, db') && db1.source <= db'.source
  {
    var pc1 := Held(a, Snapped(clock, i, last));
    Then(cfg, world, db, p, Top, db1, pc1);
    var db2 := Weathered(db1, world(pc1));
    db' := db2.(views := db2.views[i := last.version]);
    assert Act(cfg, world, db1, p, pc1) == (db', Held(a, Refreshing(clock, i + 1, last)));
  }

  lemma CleanView(cfg: Config, world: World, db: Db, p: nat, db1: Db, a: Attempt, clock: int, i: nat, last: Snap)
    returns (db': Db, last': Snap)
    requires CleanWorld(world) && i < |db1.views|
    requires Leads(cfg, world, db, p, Top, db1, Held(a, Refreshing(clock, i, last))) && Under(db, db1)
    ensures Leads(cfg, world, db, p, Top, db', Held(a, Refreshing(clock, i + 1, last'))) && Under(db, db') && db1.source <= db'.source
  {
    var db2, snap := CleanSnap(cfg, world, db, p, db1, a, clock, i, last);
    last' := snap;
    db' := CleanCommit(cfg, world, db, p, db2, a, clock, i, snap);
  }

  lemma {:induction false} CleanViews(cfg: Config, world: World, db: Db, p: nat, db1: Db, a: Attempt, clock: int, i: nat, last: Snap)
    returns (db': Db, last': Snap)
    requires CleanWorld(world) && i <= |db1.views|
    requires Leads(cfg, world, db, p, Top, db1, Held(a, Refreshing(clock, i, last))) && Under(db, db1)
    ensures Leads(cfg, world, db, p, Top, db', Held(a, Refreshing(clock, |db'.views|, last'))) && Under(db, db') && db1.source <= db'.source
    decreases |db1.views| - i
  {
    if i == |db1.views| {
      db', last' := db1, last;
    } else {
      var db2, last2 := CleanView(cfg, world, db, p, db1, a, clock, i, last);
      db', last' := CleanViews(cfg, world, db, p, db2, a, clock, i + 1, last2);
    }
  }

  /** The call recorded a refresh at this time with this fingerprint, and gave the lock back. */
  predicate Renewed(db: Db, db': Db, at: int, fp: Option<nat>) {
    && db.now <= at <= db'.now && db'.lock == None && |db'.rows| == |db.rows|
    && (forall i | 0 <= i < |db'.rows| :: db'.rows[i] == Some(Stamp(at, fp)))
    && db'.log.stamps == db.log.stamps + [at]
  }

  lemma CleanStamp(cfg: Config, world: World, db: Db, p: nat, db1: Db, a: Attempt, clock: int, last: Snap) returns (db': Db, at: int)
    requires CleanWorld(world) && Leads(cfg, world, db, p, Top, db1, Held(a, Refreshing(clock, |db1.views|, last))) && Under(db, db1)
    ensures Leads(cfg, world, db, p, Top, db', Held(a, Recording(clock, at, last))) && Under(db, db')
    ensures db.now <= at <= db'.now && db1.source <= db'.source
  {
    var pc1 := Held(a, Refreshing(clock, |db1.views|, last));
    Then(cfg, world, db, p, Top, db1, pc1);
    db' := Weathered(db1, world(pc1));
    at := db'.now;
  }

  lemma CleanRecord(cfg: Config, world: World, db: Db, p: nat, db1: Db, a: Attempt, clock: int, last: Snap) returns (db': Db, at: int)
    requires CleanWorld(world) && Leads(cfg, world, db, p, Top, db1, Held(a, Refreshing(clock, |db1.views|, last))) && Under(db, db1)
    ensures Leads(cfg, world, db, p, Top, db', Returned(Outcome(!a.same, false, None))) && Renewed(db, db', at, a.fp) && db1.source <= db'.source
  {
    var db2, at2 := CleanStamp(cfg, world, db, p, db1, a, clock, last);
    at := at2;
    var pc2, pc3 := Held(a, Recording(clock, at, last)), Unlocking(Outcome(!a.same, false, None));
    Then(cfg, world, db, p, Top, db2, pc2);
    var db3 := Record(Weathered(db2, world(pc2)), at, a.fp, last);
    assert Act(cfg, world, db2, p, pc2) == (db3, pc3);
    Then(cfg, world, db, p, Top, db3, pc3);
    db' := Weathered(db3, world(pc3)).(lock := None);
  }

  /** The age backstop: without faults and with a free lock, a call on an overdue family records a new stamp, even when its
      fingerprint matches. It reports a change exactly when the fingerprint it captured was not recorded for every view. */
  lemma BackstopRefreshes(cfg: Config, world: World, db: Db, p: nat) returns (db': Db, at: int, a: Attempt)
    requires WellFormed(cfg) && CleanWorld(world) && Overdue(cfg, db) && db.lock == None
    ensures Leads(cfg, world, db, p, Top, db', Returned(Outcome(!a.same, false, None)))
    ensures Renewed(db, db', at, a.fp) && Carries(cfg, db, db', a)
  {
    var db1, b := CleanDecide(cfg, world, db, p);
    var db2, clock := CleanLock(cfg, world, db, p, db1, b);
    var db3, last := CleanViews(cfg, world, db, p, db2, b, clock, 0, Snap(0, clock));
    db', at := CleanRecord(cfg, world, db, p, db3, b, clock, last);
    a := b;
  }

  /** Whether and how a call ended before it asked for the lock. */
  datatype Decision = Stop | Ask(fp: Option<nat>, same: bool)

  class ViewFamily {
    const cfg: Config
    const world: World
    var now: int
    var source: nat
    var rows: seq<Option<Stamp>>
    var views: seq<nat>
    var lock: Option<nat>
    ghost var log: Log

    ghost function View(): Db
      reads this
    {
      Db(now, source, rows, views, lock, log)
    }

    ghost predicate Valid()
      reads this
    {
      WellFormed(cfg) && |rows| == |views| == cfg.views
    }

    constructor (cfg: Config, world: World, db: Db)
      requires WellFormed(cfg) && |db.rows| == |db.views| == cfg.views
      ensures Valid() && this.cfg == cfg && this.world == world && View() == db
    {
      this.cfg, this.world := cfg, world;
      now, source, rows, views, lock, log := db.now, db.source, db.rows, db.views, db.lock, db.log;
    }

    /** Time passes, and the statement at this point of the call is sent. */
    method Send(pc: Pc) returns (f: Fault)
      modifies this`now, this`source
      ensures View() == Weathered(old(View()), world(pc)) && f == world(pc).fault
    {
      now, source := now + world(pc).delay, source + world(pc).growth;
      f := world(pc).fault;
    }

    /** The actions so far have led here. */
    ghost predicate Led(start: Db, p: nat, pc: Pc)
      reads this
    {
      Leads(cfg, world, start, p, Top, View(), pc)
    }

    /** The count of fresh rows against the number of names; a failed query counts as not fresh. */
    method RecentlyRefreshed(clock: int, maxAge: int, f: Fault) returns (recent: bool)
      requires Valid()
      ensures recent <==> f.Ok? && maxAge > 0 && Recent(rows, clock - maxAge)
    {
      if maxAge <= 0 { return false; }
      var cutoff, count := clock - maxAge, 0;
      for i := 0 to |rows|
        invariant 0 <= count <= i && (count == i <==> Recent(rows[..i], cutoff))
      {
        assert Recent(rows[..i + 1], cutoff) <==> Recent(rows[..i], cutoff) && rows[i].Some? && rows[i].value.at >= cutoff by {
          assert rows[..i + 1] == rows[..i] + [rows[i]];
        }
        if rows[i].Some? && rows[i].value.at >= cutoff { count := count + 1; }
      }
      assert rows[..|rows|] == rows;
      return f.Ok? && count == |rows|;
    }

    method SourceVersionMatches(current: Option<nat>, f: Fault) returns (same: bool)
      requires Valid()
      ensures same <==> f.Ok? && current.Some? && Matches(rows, current.value)
    {
      if current.None? { return false; }
      var matched := 0;
      for i := 0 to |rows|
        invariant 0 <= matched <= i && (matched == i <==> Matches(rows[..i], current.value))
      {
        assert Matches(rows[..i + 1], current.value) <==> Matches(rows[..i], current.value) && rows[i].Some? && rows[i].value.version == current by {
          assert rows[..i + 1] == rows[..i] + [rows[i]];
        }
        if rows[i].Some? && rows[i].value.version == current { matched := matched + 1; }
      }
      assert rows[..|rows|] == rows;
      return f.Ok? && matched == |rows|;
    }

    /** The upsert of all stamp rows, unless it fails without effect. */
    method RecordRefresh(at: int, fp: Option<nat>, f: Fault, last: Snap)
      requires Valid()
      modifies this`rows, this`log
      ensures Valid() && View() == if f.NoEffect? then old(View()) else RefreshProtocol.Record(old(View()), at, fp, last)
    {
      if !f.NoEffect? {
        var upserted: seq<Option<Stamp>> := [];
        for i := 0 to |rows|
          invariant upserted == seq(i, _ => Some(Stamp(at, fp)))
        {
          upserted := upserted + [Some(Stamp(at, fp))];
        }
        rows := upserted;
        log := log.(recorded := Some(last), stamps := log.stamps + [at]);
      }
    }

    /** From the entry of the call to its request for the lock. */
    method DecideRefresh(ghost p: nat) returns (d: Decision)
      requires Valid()
      modifies this`now, this`source
      ensures Valid()
      ensures d.Ask? ==> Led(old(View()), p, TryLock(Attempt(d.fp, d.same)))
      ensures d.Stop? ==> exists o :: Led(old(View()), p, Returned(o)) && !o.changed && !o.failed
    {
      ghost var start := View();
      Here(cfg, world, start, p, Top);
      Then(cfg, world, start, p, Top, start, Top);
      var _ := Send(Top);
      var clock := now;
      Then(cfg, world, start, p, Top, View(), Checking(clock));
      var f := Send(Checking(clock));
      var recent := RecentlyRefreshed(clock, cfg.debounce, f);
      if recent {
        assert Led(start, p, Returned(Debounced(View(), clock)));
        return Stop;
      }
      if !cfg.fingerprint { return Ask(None, false); }
      d := MatchSource(p, start);
    }

    /** The fingerprint, captured before anything is refreshed, may end the call while the views are young enough. */
    method MatchSource(ghost p: nat, ghost start: Db) returns (d: Decision)
      requires Valid() && Led(start, p, Capturing)
      modifies this`now, this`source
      ensures Valid()
      ensures d.Ask? ==> Led(start, p, TryLock(Attempt(d.fp, d.same)))
      ensures d.Stop? ==> exists o :: Led(start, p, Returned(o)) && !o.changed && !o.failed
    {
      Then(cfg, world, start, p, Top, View(), Capturing);
      var f := Send(Capturing);
      var fp := if f.Ok? then Some(source) else None;
      Then(cfg, world, start, p, Top, View(), Matching(fp));
      f := Send(Matching(fp));
      var same := SourceVersionMatches(fp, f);
      if !same { return Ask(fp, false); }
      d := CheckAge(p, fp, start);
    }

    /** A matching fingerprint still leads to a refresh once the views are too old. */
    method CheckAge(ghost p: nat, fp: Option<nat>, ghost start: Db) returns (d: Decision)
      requires Valid() && fp.Some? && Led(start, p, Matched(fp.value))
      modifies this`now, this`source
      ensures Valid()
      ensures d.Ask? ==> Led(start, p, TryLock(Attempt(d.fp, d.same)))
      ensures d.Stop? ==> exists o :: Led(start, p, Returned(o)) && !o.changed && !o.failed
    {
      Then(cfg, world, start, p, Top, View(), Matched(fp.value));
      var _ := Send(Matched(fp.value));
      var clock := now;
      Then(cfg, world, start, p, Top, View(), Aging(fp.value, clock));
      var f := Send(Aging(fp.value, clock));
      var young := RecentlyRefreshed(clock, cfg.maxSkipAge, f);
      if young {
        assert Led(start, p, Returned(UNCHANGED));
        return Stop;
      }
      return Ask(fp, true);
    }

    /** The loop over the views: each is evaluated and committed in order, and the first failure ends it. */
    method RefreshViews(ghost p: nat, a: Attempt, clock: int, ghost start: Db) returns (failed: bool, last: Snap)
      requires Valid() && Led(start, p, Held(a, Refreshing(clock, 0, Snap(0, clock))))
      modifies this`now, this`source, this`views
      ensures Valid() && Led(start, p, if failed then Unlocking(FAILED) else Held(a, Refreshing(clock, |views|, last)))
    {
      last := Snap(0, clock);
      for i := 0 to |views|
        invariant |views| == |old(views)| && Valid() && Led(start, p, Held(a, Refreshing(clock, i, last)))
      {
        failed, last := RefreshView(i, p, a, clock, last, start);
        if failed { return; }
      }
      return false, last;
    }

    /** One view: its body is evaluated, and the result committed. */
    method RefreshView(i: nat, ghost p: nat, a: Attempt, clock: int, last: Snap, ghost start: Db) returns (failed: bool, last': Snap)
      requires Valid() && i < |views| && Led(start, p, Held(a, Refreshing(clock, i, last)))
      modifies this`now, this`source, this`views
      ensures Valid() && |views| == |old(views)|
      ensures Led(start, p, if failed then Unlocking(FAILED) else Held(a, Refreshing(clock, i + 1, last')))
    {
      Then(cfg, world, start, p, Top, View(), Held(a, Refreshing(clock, i, last)));
      var f := Send(Held(a, Refreshing(clock, i, last)));
      if !f.Ok? { return true, last; }
      var version := if cfg.chained && i > 0 then (if source <= views[i - 1] then source else views[i - 1]) else source;
      last' := Snap(version, now);
      assert version == SnapshotVersion(cfg, View(), i);
      failed := Commit(i, p, a, clock, last', start);
    }

    method Commit(i: nat, ghost p: nat, a: Attempt, clock: int, last: Snap, ghost start: Db) returns (failed: bool)
      requires Valid() && i < |views| && Led(start, p, Held(a, Snapped(clock, i, last)))
      modifies this`now, this`source, this`views
      ensures Valid() && |views| == |old(views)|
      ensures Led(start, p, if failed then Unlocking(FAILED) else Held(a, Refreshing(clock, i + 1, last)))
    {
      Then(cfg, world, start, p, Top, View(), Held(a, Snapped(clock, i, last)));
      var f := Send(Held(a, Snapped(clock, i, last)));
      if !f.NoEffect? { views := views[i := last.version]; }
      failed := !f.Ok?;
    }

    /** The call itself: what it returns and leaves behind is what the protocol's actions decide in this world. */
    method Refresh(p: nat) returns (changed: bool, failed: bool)
      requires Valid()
      modifies this
      ensures Valid()
      ensures exists o :: Leads(cfg, world, old(View()), p, Top, View(), Returned(o)) && o.changed == changed && o.failed == failed
      ensures old(lock) == None && (forall pc :: world(pc).fault.Ok?) ==> lock == None
    {
      ghost var start := View();
      var d := DecideRefresh(p);
      if d.Stop? { return false, false; }
      var a := Attempt(d.fp, d.same);
      Then(cfg, world, start, p, Top, View(), TryLock(a));
      var f := Send(TryLock(a));
      if f.NoEffect? || (lock != None && lock != Some(p)) {
        assert Led(start, p, Returned(FAILED));
        return false, true;
      }
      lock := Some(p);
      if !f.Ok? {
        assert Led(start, p, Returned(FAILED));
        return false, true;
      }
      changed, failed := RefreshLocked(p, a, start);
    }

    /** Under the lock: re-check, refresh, record; the unlock is sent on every path. */
    method RefreshLocked(ghost p: nat, a: Attempt, ghost start: Db) returns (changed: bool, failed: bool)
      requires Valid() && Led(start, p, Held(a, Locked))
      modifies this
      ensures Valid() && ((forall pc :: world(pc).fault.Ok?) ==> lock == None)
      ensures exists o :: Led(start, p, Returned(o)) && o.changed == changed && o.failed == failed
    {
      Then(cfg, world, start, p, Top, View(), Held(a, Locked));
      var _ := Send(Held(a, Locked));
      var clock := now;
      Then(cfg, world, start, p, Top, View(), Held(a, Rechecking(clock)));
      var f := Send(Held(a, Rechecking(clock)));
      var recent := RecentlyRefreshed(clock, cfg.debounce, f);
      if recent {
        var o := Outcome(false, false, if |rows| > 0 && rows[0].Some? then Some(Mark(clock, rows[0].value.at)) else None);
        Release(p, o, start);
        return false, false;
      }
      var last;
      failed, last := RefreshViews(p, a, clock, start);
      if failed {
        Release(p, FAILED, start);
        return false, true;
      }
      failed := RecordAndRelease(p, a, clock, last, start);
      changed := !a.same;
    }

    method RecordAndRelease(ghost p: nat, a: Attempt, clock: int, last: Snap, ghost start: Db) returns (failed: bool)
      requires Valid() && Led(start, p, Held(a, Refreshing(clock, |views|, last)))
      modifies this
      ensures Valid() && ((forall pc :: world(pc).fault.Ok?) ==> lock == None)
      ensures Led(start, p, Returned(Outcome(!a.same, failed, None)))
    {
      Then(cfg, world, start, p, Top, View(), Held(a, Refreshing(clock, |views|, last)));
      var _ := Send(Held(a, Refreshing(clock, |views|, last)));
      var at := now;
      Then(cfg, world, start, p, Top, View(), Held(a, Recording(clock, at, last)));
      var f := Send(Held(a, Recording(clock, at, last)));
      RecordRefresh(at, a.fp, f, last);
      failed := !f.Ok?;
      Release(p, Outcome(!a.same, failed, None), start);
    }

    /** The unlock, whose result nobody looks at. */
    method Release(ghost p: nat, o: Outcome, ghost start: Db)
      requires Valid() && Led(start, p, Unlocking(o))
      modifies this`now, this`source, this`lock
      ensures Valid() && Led(start, p, Returned(o)) && ((forall pc :: world(pc).fault.Ok?) ==> lock == None)
    {
      Then(cfg, world, start, p, Top, View(), Unlocking(o));
      var f := Send(Unlocking(o));
      if !f.NoEffect? { lock := None; }
    }
  }
}

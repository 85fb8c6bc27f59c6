/** Leader election of the scanner operator by a single lease row, and the cap on the pods it spawns. */
module ScannerLease {
  import opened Wrappers

  const TTL := 30   // seconds

  /** The singleton row; an empty holder is nobody. */
  datatype Lease = Lease(holder: string, expires: int)

  /** INSERT ... ON CONFLICT DO NOTHING. */
  function Bootstrapped(row: Option<Lease>, now: int): Lease {
    if row.Some? then row.value else Lease("", now)
  }

  /** The conditional UPDATE: renew my own lease, or take an expired one. */
  function Taken(row: Lease, me: string, now: int): (Lease, bool) {
    if row.holder == me || row.expires < now then (Lease(me, now + TTL), true) else (row, false)
  }

  function Released(row: Lease, me: string, now: int): Lease {
    if row.holder == me then row.(expires := now) else row
  }

  class LeaseTable {
    var row: Option<Lease>

    constructor ()
      ensures row == None
    {
      row := None;
    }

    /** The two statements run at two instants. */
    method AcquireLease(me: string, insertAt: int, updateAt: int) returns (leader: bool)
      requires insertAt <= updateAt
      modifies this
      ensures row.Some? && (row.value, leader) == Taken(Bootstrapped(old(row), insertAt), me, updateAt)
      ensures leader ==> row.value == Lease(me, updateAt + 30)
      ensures leader <==> match old(row) {
        case None => me == "" || insertAt < updateAt
        case Some(held) => held.holder == me || held.expires < updateAt
      }
      ensures !leader && old(row).Some? ==> row == old(row)
    {
      if row.None? {
        row := Some(Lease("", insertAt));
      }
      if row.value.holder == me || row.value.expires < updateAt {
        row := Some(Lease(me, updateAt + TTL));
        return true;
      }
      return false;
    }

    method ReleaseLease(me: string, now: int)
      modifies this
      ensures row == (if old(row).Some? then Some(Released(old(row).value, me, now)) else None)
      ensures old(row).Some? && old(row).value.holder == me ==> row == Some(Lease(me, now))
      ensures !(old(row).Some? && old(row).value.holder == me) ==> row == old(row)
    {
      if row.Some? && row.value.holder == me {
        row := Some(row.value.(expires := now));
      }
    }
  }

  /** Where an operator is in its reconcile pass: between passes, holding the lease, or with pods left to spawn. */
  datatype Pass = Resting | Leading(until: int) | Spawning(until: int, left: nat)

  /** A successful acquire, or a release, in the order they happen (history). */
  datatype Entry = Took(who: string, at: int) | Freed(who: string, at: int)

  datatype State = State(now: int, row: Option<Lease>, ops: map<string, Pass>, pods: nat, log: seq<Entry>)

  datatype Step =
    | Tick(to: int)
    | Insert                          // the bootstrap insert of any operator
    | Acquire(me: string)
    | Observe(me: string, depth: nat) // queue depth, then the count of active pods
    | Spawn(me: string)
    | Abandon(me: string)             // an error, a failed spawn or a cancelled context ends the pass
    | PodDone
    | Release(me: string)

  ghost predicate Init(max: nat, s: State) {
    && s.row == None && s.pods <= max && s.log == []
    && (forall h | h in s.ops :: h != "" && s.ops[h] == Resting)
  }

  ghost predicate Enabled(s: State, step: Step) {
    match step
    case Tick(to) => s.now <= to
    case Insert => true
    case Acquire(me) => me in s.ops && s.ops[me].Resting? && s.row.Some?
    case Observe(me, _) => me in s.ops && s.ops[me].Leading?
    case Spawn(me) => me in s.ops && s.ops[me].Spawning? && s.ops[me].left > 0
    case Abandon(me) => me in s.ops && !s.ops[me].Resting?
    case PodDone => s.pods > 0
    case Release(me) => me in s.ops && s.ops[me].Resting? && s.row.Some?
  }

  function MinInt(a: int, b: int): int { if a <= b then a else b }

  function Next(max: nat, s: State, step: Step): State
    requires Enabled(s, step)
  {
    match step
    case Tick(to) => s.(now := to)
    case Insert => s.(row := Some(Bootstrapped(s.row, s.now)))
    case Acquire(me) =>
      var (row', leader) := Taken(s.row.value, me, s.now);
      if leader then s.(row := Some(row'), ops := s.ops[me := Leading(s.now + TTL)], log := s.log + [Took(me, s.now)])
      else s
    case Observe(me, depth) =>
      var diff := MinInt(depth, max) - s.pods;
      s.(ops := s.ops[me := if diff <= 0 then Resting else Spawning(s.ops[me].until, diff)])
    case Spawn(me) =>
      var left := s.ops[me].left - 1;
      s.(pods := s.pods + 1, ops := s.ops[me := if left == 0 then Resting else s.ops[me].(left := left)])
    case Abandon(me) => s.(ops := s.ops[me := Resting])
    case PodDone => s.(pods := s.pods - 1)
    case Release(me) => s.(row := Some(Released(s.row.value, me, s.now)), log := s.log + [Freed(me, s.now)])
  }

  ghost predicate IsRun(max: nat, states: seq<State>, steps: seq<Step>) {
    && |states| == |steps| + 1 && Init(max, states[0])
    && forall i | 0 <= i < |steps| :: Enabled(states[i], steps[i]) && states[i + 1] == Next(max, states[i], steps[i])
  }

  // ---------------------------------------------------------------- the lease

  /** No release between entries i and j. */
  ghost predicate Unreleased(log: seq<Entry>, i: nat, j: nat) {
    forall k | i < k < j && k < |log| :: log[k].Took?
  }

  /** Different holders' acquires i and j, with no release in between, are more than a TTL apart. */
  ghost predicate Apart(log: seq<Entry>, i: nat, j: nat)
    requires i < j < |log|
  {
    log[i].Took? && log[j].Took? && log[i].who != log[j].who && Unreleased(log, i, j) ==> log[i].at + 30 < log[j].at
  }

  /** The row is at least as late as every unreleased acquire, and names the latest of them. */
  ghost predicate LeaseInv(s: State) {
    && (forall i | 0 <= i < |s.log| :: s.log[i].at <= s.now)
    && (forall i | 0 <= i < |s.log| && s.log[i].Took? && Unreleased(s.log, i, |s.log|) ::
          s.row.Some? && s.log[i].at + TTL <= s.row.value.expires)
    && (|s.log| > 0 && s.log[|s.log| - 1].Took? ==> s.row.Some? && s.row.value.holder == s.log[|s.log| - 1].who)
    && (forall i, j | 0 <= i < j < |s.log| :: Apart(s.log, i, j))
  }

  lemma ApartAppend(log: seq<Entry>, e: Entry)
    requires forall i, j | 0 <= i < j < |log| :: Apart(log, i, j)
    requires forall i | 0 <= i < |log| :: Apart(log + [e], i, |log|)
    ensures forall i, j | 0 <= i < j < |log + [e]| :: Apart(log + [e], i, j)
  {
    forall i, j | 0 <= i < j < |log + [e]| ensures Apart(log + [e], i, j) {
      if j < |log| && Unreleased(log + [e], i, j) {
        assert Apart(log, i, j);
        forall k | i < k < j ensures log[k].Took? { assert (log + [e])[k].Took?; }
      }
    }
  }

  lemma UnreleasedPrefix(log: seq<Entry>, e: Entry, i: nat)
    requires Unreleased(log + [e], i, |log|)
    ensures Unreleased(log, i, |log|)
  {
    forall k | i < k < |log| ensures log[k].Took? { assert (log + [e])[k].Took?; }
  }

  lemma AcquireInv(max: nat, s: State, me: string)
    requires LeaseInv(s) && Enabled(s, Acquire(me)) && Taken(s.row.value, me, s.now).1
    ensures LeaseInv(Next(max, s, Acquire(me)))
  {
    var e, j := Took(me, s.now), |s.log|;
    forall i | 0 <= i < j ensures Apart(s.log + [e], i, j) {
      if s.log[i].Took? && s.log[i].who != me && Unreleased(s.log + [e], i, j) {
        UnreleasedPrefix(s.log, e, i);
        if s.row.value.holder == me {
          // A renewal: the latest entry is my own acquire, and it came after i.
          if i < j - 1 { assert s.log[j - 1].Took? && Apart(s.log, i, j - 1) && Unreleased(s.log, i, j - 1); }
        }
      }
    }
    ApartAppend(s.log, e);
  }

  lemma NextLease(max: nat, s: State, step: Step)
    requires LeaseInv(s) && Enabled(s, step)
    ensures LeaseInv(Next(max, s, step))
  {
    match step
    case Acquire(me) => if Taken(s.row.value, me, s.now).1 { AcquireInv(max, s, me); }
    case Release(me) =>
      var e := Freed(me, s.now);
      ApartAppend(s.log, e);
      forall i | 0 <= i < |s.log| ensures !Unreleased(s.log + [e], i, |s.log + [e]|) {
        assert (s.log + [e])[|s.log|].Freed?;
      }
    case _ =>
  }

  lemma {:induction false} RunLease(max: nat, states: seq<State>, steps: seq<Step>, n: nat)
    requires IsRun(max, states, steps) && n < |states|
    ensures LeaseInv(states[n])
  {
    if n > 0 {
      RunLease(max, states, steps, n - 1);
      NextLease(max, states[n - 1], steps[n - 1]);
    }
  }

  /** Two different holders never both acquire the lease within one TTL without a release in between. */
  lemma LeaseExclusive(max: nat, states: seq<State>, steps: seq<Step>, n: nat, i: nat, j: nat)
    requires IsRun(max, states, steps) && n < |states| && i < j < |states[n].log|
    requires states[n].log[i].Took? && states[n].log[j].Took? && states[n].log[i].who != states[n].log[j].who
    requires Unreleased(states[n].log, i, j)
    ensures states[n].log[i].at + 30 < states[n].log[j].at
  {
    RunLease(max, states, steps, n);
    assert Apart(states[n].log, i, j);
  }

  // ---------------------------------------------------------------- the pod cap

  /** Each pass finishes inside its lease. */
  ghost predicate Timely(s: State) {
    forall h | h in s.ops && !s.ops[h].Resting? :: s.now <= s.ops[h].until
  }

  /** An operator in a pass is the holder of the row, and its plan fits under the cap. */
  ghost predicate CapInv(max: nat, s: State) {
    && s.pods <= max
    && (forall h | h in s.ops :: h != "")
    && (forall h | h in s.ops && !s.ops[h].Resting? :: s.row == Some(Lease(h, s.ops[h].until)))
    && (forall h | h in s.ops && s.ops[h].Spawning? :: s.pods + s.ops[h].left <= max)
  }

  lemma NextCap(max: nat, s: State, step: Step)
    requires CapInv(max, s) && Timely(s) && Enabled(s, step)
    ensures CapInv(max, Next(max, s, step))
  {}

  lemma {:induction false} RunCap(max: nat, states: seq<State>, steps: seq<Step>, n: nat)
    requires IsRun(max, states, steps) && n < |states|
    requires forall i | 0 <= i < n :: Timely(states[i])
    ensures CapInv(max, states[n])
  {
    if n > 0 {
      RunCap(max, states, steps, n - 1);
      NextCap(max, states[n - 1], steps[n - 1]);
    }
  }

  /** If every pass so far finished inside its lease, at most one operator is in a pass and the active pods are
      within the cap. */
  lemma PodCap(max: nat, states: seq<State>, steps: seq<Step>, n: nat)
    requires IsRun(max, states, steps) && n < |states|
    requires forall i | 0 <= i < n :: Timely(states[i])
    ensures states[n].pods <= max
    ensures forall a, b | a in states[n].ops && b in states[n].ops ::
              !states[n].ops[a].Resting? && !states[n].ops[b].Resting? ==> a == b
  {
    RunCap(max, states, steps, n);
  }

  /** A planned pass spawns its pods one by one and then rests. */
  function Spawned(max: nat, s: State, me: string, k: nat): State
    requires k == 0 || (Enabled(s, Spawn(me)) && k <= s.ops[me].left)
    decreases k
  {
    if k == 0 then s
    else
      var s' := Next(max, s, Spawn(me));
      if k == 1 then s' else Spawned(max, s', me, k - 1)
  }

  lemma {:induction false} SpawnsAll(max: nat, s: State, me: string, k: nat)
    requires Enabled(s, Spawn(me)) && s.ops[me].left == k
    ensures Spawned(max, s, me, k) == s.(pods := s.pods + k, ops := s.ops[me := Resting])
    decreases k
  {
    var s' := Next(max, s, Spawn(me));
    if k > 1 {
      SpawnsAll(max, s', me, k - 1);
      assert s'.ops[me := Resting] == s.ops[me := Resting];
    }
  }

  /** A pass aims at as many pods as there are queued scans, up to the cap: undisturbed it spawns exactly what is missing, and
      nothing when nothing is. */
  lemma PassReachesTarget(max: nat, s: State, me: string, depth: nat)
    requires Enabled(s, Observe(me, depth))
    ensures var target, s' := if depth < max then depth else max, Next(max, s, Observe(me, depth));
      if s.pods >= target then s' == s.(ops := s.ops[me := Resting])
      else
        && s' == s.(ops := s.ops[me := Spawning(s.ops[me].until, target - s.pods)])
        && Spawned(max, s', me, target - s.pods) == s.(pods := target, ops := s.ops[me := Resting])
  {
    var target, s' := if depth < max then depth else max, Next(max, s, Observe(me, depth));
    if s.pods < target {
      SpawnsAll(max, s', me, target - s.pods);
      assert s'.ops[me := Resting] == s.ops[me := Resting];
    }
  }

  ghost predicate Reachable(max: nat, s: State) {
    exists states, steps :: IsRun(max, states, steps) && states[|states| - 1] == s
  }

  lemma Go(max: nat, s: State, step: Step) returns (s': State)
    requires Reachable(max, s) && Enabled(s, step)
    ensures Reachable(max, s') && s' == Next(max, s, step)
  {
    var states, steps :| IsRun(max, states, steps) && states[|states| - 1] == s;
    s' := Next(max, s, step);
    assert IsRun(max, states + [s'], steps + [step]) && (states + [s'])[|states|] == s';
  }

  lemma Begin(max: nat, s: State)
    requires Init(max, s)
    ensures Reachable(max, s)
  {
    assert IsRun(max, [s], []) && [s][|[s]| - 1] == s;
  }

  lemma Leader() returns (s: State)
    ensures Reachable(1, s) && s.now == 1 && s.pods == 0 && s.row == Some(Lease("a", 31))
    ensures s.ops == map["a" := Leading(31), "b" := Resting]
  {
    s := State(0, None, map["a" := Resting, "b" := Resting], 0, []);
    Begin(1, s);
    s := Go(1, s, Insert);
    s := Go(1, s, Tick(1));
    s := Go(1, s, Acquire("a"));
  }

  /** A pass that has planned its one pod while its lease runs out. */
  lemma Overrun() returns (s: State)
    ensures Reachable(1, s) && s.now == 32 && s.pods == 0 && s.row == Some(Lease("a", 31))
    ensures s.ops == map["a" := Spawning(31, 1), "b" := Resting]
  {
    s := Leader();
    s := Go(1, s, Observe("a", 1));
    s := Go(1, s, Tick(32));
  }

  /** Without that, the cap can be broken: a pass that outlives its lease spawns beside its successor's. */
  lemma OverrunBreaksCap()
    ensures exists s :: Reachable(1, s) && s.pods == 2
  {
    var s := Overrun();
    s := Go(1, s, Acquire("b"));
    s := Go(1, s, Observe("b", 1));
    s := Go(1, s, Spawn("b"));
    s := Go(1, s, Spawn("a"));
  }
}

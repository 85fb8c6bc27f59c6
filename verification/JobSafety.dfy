/** What holds over whole runs of the job queue: exclusive execution and the retry budget. */
module JobSafety {
  import opened Wrappers
  import opened JobQueue
  import opened JobRuns

  // ---------------------------------------------------------------- one job among all

  /** Attempt e is a live one of job j. */
  predicate Holds(s: State, e: nat, j: nat) {
    e < |s.execs| && Live(s.execs[e]) && s.execs[e].job == j
  }

  /** The job whose row or attempts a step may change. */
  predicate Touches(s: State, step: Step, j: nat) {
    match step
    case Tick(_) => false
    case Create(_, _, _) => j == |s.jobs|
    case Claim(k, _, _) => k == j
    case Beat(e, _) => e < |s.execs| && s.execs[e].job == j
    case RequeueStale(k, _) => k == j
    case Defer(e, _, _) => e < |s.execs| && s.execs[e].job == j
    case Conclude(e, _, _) => e < |s.execs| && s.execs[e].job == j
    case Drop(e) => e < |s.execs| && s.execs[e].job == j
    case Reconcile(k, _) => k == j
  }

  /** Jobs are independent: a step on another job changes neither the row, nor the live attempts, nor the failures. */
  lemma Elsewhere(async: nat, s: State, step: Step, j: nat, e: nat)
    requires Enabled(async, s, step) && j < |s.jobs| && !Touches(s, step, j)
    ensures var s' := Next(s, step);
      && j < |s'.jobs| && s'.jobs[j] == s.jobs[j] && Failures(s'.execs, j) == Failures(s.execs, j)
      && (Holds(s', e, j) <==> Holds(s, e, j)) && (Holds(s, e, j) ==> s'.execs[e] == s.execs[e])
  {
    var s' := Next(s, step);
    if step.Claim? {
      FailuresAppend(s.execs, s'.execs[|s.execs|], j);
    } else if step.Defer? || step.Conclude? || step.Drop? {
      FailuresUpdate(s.execs, step.e, s'.execs[step.e], j);
    }
  }

  // ---------------------------------------------------------------- exclusive execution

  /** The row says that this attempt is the one at work. */
  predicate Owns(job: Job, x: Exec) {
    job.status == Running && job.lockedBy == x.worker && job.lockedAt.Some?
  }

  /** The stamp of the job's live attempt is not older than the timeout after which it would be reclaimed. */
  ghost predicate Punctual(s: State, j: nat) {
    forall e: nat | Holds(s, e, j) && j < |s.jobs| && s.jobs[j].lockedAt.Some? :: s.now - s.jobs[j].lockedAt.value <= SYNC_TIMEOUT
  }

  ghost predicate ExclusiveInv(s: State, j: nat) {
    j < |s.jobs| && InProcess(s.jobs[j].kind) ==>
      && (forall e: nat | Holds(s, e, j) :: Owns(s.jobs[j], s.execs[e]))
      && (forall e: nat, f: nat | Holds(s, e, j) && Holds(s, f, j) :: e == f)
  }

  /** A row that may be claimed or reclaimed has no live attempt. */
  lemma Unattended(async: nat, s: State, step: Step, j: nat, e: nat)
    requires ExclusiveInv(s, j) && Punctual(s, j) && Enabled(async, s, step) && (step.Claim? || step.RequeueStale?) && step.j == j
    requires InProcess(s.jobs[j].kind)
    ensures !Holds(s, e, j)
  {}

  /** Steps on this job. */
  lemma OwnExclusive(async: nat, s: State, step: Step, j: nat)
    requires ExclusiveInv(s, j) && Punctual(s, j) && Enabled(async, s, step) && j < |s.jobs| && Touches(s, step, j)
    ensures ExclusiveInv(Next(s, step), j)
  {
    var s' := Next(s, step);
    if InProcess(s.jobs[j].kind) {
      forall e: nat | Holds(s', e, j)
        ensures Owns(s'.jobs[j], s'.execs[e]) && (step.Claim? ==> e == |s.execs|) && (!step.Claim? ==> Holds(s, e, j))
      {
        if step.Claim? || step.RequeueStale? { Unattended(async, s, step, j, e); }
        if e < |s.execs| && Holds(s, e, j) { assert Owns(s.jobs[j], s.execs[e]); }
        if (step.Conclude? || step.Drop?) && e != step.e { assert Holds(s, step.e, j); }
      }
    }
  }

  lemma NextExclusive(async: nat, s: State, step: Step, j: nat)
    requires LedgerInv(s) && ExclusiveInv(s, j) && Punctual(s, j) && Enabled(async, s, step)
    ensures ExclusiveInv(Next(s, step), j)
  {
    var s' := Next(s, step);
    if j < |s.jobs| && Touches(s, step, j) {
      OwnExclusive(async, s, step, j);
    } else if j < |s.jobs| {
      forall e: nat ensures Holds(s', e, j) <==> Holds(s, e, j)
        ensures s'.jobs[j] == s.jobs[j] && (Holds(s, e, j) ==> s'.execs[e] == s.execs[e])
      {
        Elsewhere(async, s, step, j, e);
      }
    } else {
      forall e: nat ensures j < |s'.jobs| ==> !Holds(s', e, j) {
        if e < |s.execs| { assert Known(s.execs[e], s.jobs); }
      }
    }
  }

  lemma {:induction false} RunExclusive(async: nat, states: seq<State>, steps: seq<Step>, n: nat, j: nat)
    requires IsRun(async, states, steps) && n < |states|
    requires forall i | 0 <= i < n :: Punctual(states[i], j)
    ensures ExclusiveInv(states[n], j)
  {
    if n > 0 {
      RunExclusive(async, states, steps, n - 1, j);
      RunLedger(async, states, steps, n - 1);
      NextExclusive(async, states[n - 1], steps[n - 1], j);
    }
  }

  /**
   * While the live attempt of a job keeps its stamp within the timeout, a job run in-process has at most one live attempt,
   * and from its claim to its final update nobody reclaims or claims the job, whatever happens to other jobs.
   */
  lemma ExclusiveExecution(async: nat, states: seq<State>, steps: seq<Step>, n: nat, j: nat, e: nat)
    requires IsRun(async, states, steps) && n < |states| && j < |states[n].jobs| && InProcess(states[n].jobs[j].kind)
    requires Holds(states[n], e, j) && forall i | 0 <= i <= n :: Punctual(states[i], j)
    ensures Owns(states[n].jobs[j], states[n].execs[e])
    ensures forall f: nat | Holds(states[n], f, j) :: f == e
    ensures n < |steps| && (steps[n].RequeueStale? || steps[n].Claim?) ==> steps[n].j != j
  {
    RunExclusive(async, states, steps, n, j);
    if n < |steps| && (steps[n].RequeueStale? || steps[n].Claim?) && steps[n].j == j {
      Unattended(async, states[n], steps[n], j, e);
    }
  }

  // ---------------------------------------------------------------- the retry budget

  /** A step that is no stale requeue, no requeue of an orphaned run and no circuit deferral of this job. */
  predicate Quiet(s: State, step: Step, j: nat) {
    && !(step.RequeueStale? && step.j == j)
    && !(step.Reconcile? && step.j == j && step.finding == Orphaned)
    && !(step.Conclude? && step.o == CircuitOpen && step.e < |s.execs| && s.execs[step.e].job == j)
  }

  /** A live attempt holds its row out of the queue, and at work its copy of the counters is current. */
  predicate Accounted(job: Job, x: Exec) {
    && !Waiting(job) && x.maxAttempts == job.maxAttempts
    && (x.phase == Working ==> x.attempts == job.attempts)
    && (job.kind != CREATE_RUN ==> job.status == Running)
  }

  ghost predicate Attended(s: State, j: nat) { exists e: nat :: Holds(s, e, j) }

  /** A job that is in the queue or at work has failures left, and one that has none left is FAILED unless it is a run,
      whose row reconciliation may still move. */
  ghost predicate BudgetInv(s: State, j: nat) {
    j < |s.jobs| ==>
      var job, failures := s.jobs[j], Failures(s.execs, j);
      && job.maxAttempts >= 1
      && (forall e: nat | Holds(s, e, j) :: Accounted(job, s.execs[e]))
      && (forall e: nat, f: nat | Holds(s, e, j) && Holds(s, f, j) :: e == f)
      && failures <= job.maxAttempts
      && (Waiting(job) || Attended(s, j) ==> failures < job.maxAttempts)
      && (failures == job.maxAttempts && job.kind != CREATE_RUN ==> job.status == Failed)
  }

  /** Steps on the row of this job alone. */
  lemma RowBudget(async: nat, s: State, step: Step, j: nat)
    requires BudgetInv(s, j) && Enabled(async, s, step) && Quiet(s, step, j) && j < |s.jobs| && Touches(s, step, j)
    requires step.Beat? || step.Reconcile?
    ensures BudgetInv(Next(s, step), j)
  {
    var s' := Next(s, step);
    assert s'.execs == s.execs;
    forall e: nat | Holds(s', e, j) ensures Holds(s, e, j) && Accounted(s'.jobs[j], s'.execs[e]) {
      assert Holds(s, e, j) && Accounted(s.jobs[j], s.execs[e]);
    }
    assert Attended(s', j) ==> Attended(s, j);
  }

  lemma ClaimBudget(async: nat, s: State, step: Step, j: nat)
    requires BudgetInv(s, j) && Enabled(async, s, step) && j < |s.jobs| && step.Claim? && step.j == j
    ensures BudgetInv(Next(s, step), j)
  {
    var s', n := Next(s, step), |s.execs|;
    FailuresAppend(s.execs, s'.execs[n], j);
    forall e: nat | Holds(s', e, j) ensures e == n {}
  }

  /** The row of an attempt that concludes. A counted failure is charged to the attempts the decision looks at. */
  lemma ConcludedRow(s: State, step: Step, j: nat)
    requires step.Conclude? && step.o != CircuitOpen && j < |s.jobs| && Holds(s, step.e, j) && Concludes(s.execs[step.e].phase, step.o)
    requires Accounted(s.jobs[j], s.execs[step.e]) && Failures(s.execs, j) < s.jobs[j].maxAttempts
    requires s.execs[step.e].phase == Working ==> Failures(s.execs, j) < s.jobs[j].attempts
    ensures var job := Ended(s.jobs[j], s.execs[step.e], step.o, step.refused, s.now);
      var failures := Failures(s.execs, j) + (if step.o == Countable then 1 else 0);
      && job.maxAttempts == s.jobs[j].maxAttempts && job.kind == s.jobs[j].kind && failures <= job.maxAttempts
      && (Waiting(job) ==> failures < job.maxAttempts) && (failures == job.maxAttempts ==> job.status == Failed)
  {}

  /** Steps by an attempt of this job. */
  lemma OwnBudget(async: nat, s: State, step: Step, j: nat)
    requires BudgetInv(s, j) && LedgerInv(s) && FreshWork(s) && Enabled(async, s, step) && Quiet(s, step, j) && j < |s.jobs|
    requires (step.Defer? || step.Conclude? || step.Drop?) && s.execs[step.e].job == j
    ensures BudgetInv(Next(s, step), j)
  {
    var s', x := Next(s, step), s.execs[step.e];
    assert Holds(s, step.e, j) && Accounted(s.jobs[j], x);
    FailuresUpdate(s.execs, step.e, s'.execs[step.e], j);
    if x.phase == Working {
      assert RowInv(s.jobs[j], s.execs, j);
      FailuresAreClaims(s.execs, j);
    }
    if step.Conclude? { ConcludedRow(s, step, j); }
    forall e: nat | Holds(s', e, j) ensures step.Defer? && e == step.e { assert Holds(s, e, j); }
  }

  lemma NextBudget(async: nat, s: State, step: Step, j: nat)
    requires BudgetInv(s, j) && LedgerInv(s) && FreshWork(s) && Enabled(async, s, step) && Quiet(s, step, j)
    ensures BudgetInv(Next(s, step), j)
  {
    if j >= |s.jobs| {
      NewBudget(async, s, step, j);
    } else if !Touches(s, step, j) {
      AwayBudget(async, s, step, j);
    } else if step.Defer? || step.Conclude? || step.Drop? {
      OwnBudget(async, s, step, j);
    } else if step.Claim? {
      ClaimBudget(async, s, step, j);
    } else {
      RowBudget(async, s, step, j);
    }
  }

  /** Steps on other jobs. */
  lemma AwayBudget(async: nat, s: State, step: Step, j: nat)
    requires BudgetInv(s, j) && Enabled(async, s, step) && j < |s.jobs| && !Touches(s, step, j)
    ensures BudgetInv(Next(s, step), j)
  {
    var s' := Next(s, step);
    Elsewhere(async, s, step, j, 0);
    forall e: nat | Holds(s', e, j) ensures Holds(s, e, j) && s'.execs[e] == s.execs[e] {
      Elsewhere(async, s, step, j, e);
    }
    assert Attended(s', j) ==> Attended(s, j);
  }

  /** A job that is created now has no attempts. */
  lemma NewBudget(async: nat, s: State, step: Step, j: nat)
    requires LedgerInv(s) && FreshWork(s) && Enabled(async, s, step) && j >= |s.jobs|
    ensures BudgetInv(Next(s, step), j)
  {
    var s' := Next(s, step);
    if j < |s'.jobs| {
      NoClaimsYet(s.execs, s.jobs);
      FailuresAreClaims(s.execs, j);
      forall e: nat ensures !Holds(s', e, j) {
        if e < |s.execs| { assert Known(s.execs[e], s.jobs); }
      }
    }
  }

  lemma {:induction false} RunBudget(async: nat, states: seq<State>, steps: seq<Step>, n: nat, j: nat)
    requires IsRun(async, states, steps) && n < |states|
    requires forall i | 0 <= i < n :: Quiet(states[i], steps[i], j)
    ensures BudgetInv(states[n], j)
  {
    if n > 0 {
      RunBudget(async, states, steps, n - 1, j);
      RunLedger(async, states, steps, n - 1);
      NextBudget(async, states[n - 1], steps[n - 1], j);
    }
  }

  /**
   * On every run that requeues the job neither as stale nor as orphaned and meets no open circuit for it, the job has at most
   * maxAttempts counted failures, however many uncounted deferrals and lost rollbacks interleave. When they are used up it
   * is out of the queue with no attempt at work, is FAILED unless reconciliation has the say, and is never claimed.
   */
  lemma RetryBudget(async: nat, states: seq<State>, steps: seq<Step>, n: nat, j: nat)
    requires IsRun(async, states, steps) && n < |states| && j < |states[n].jobs|
    requires forall i | 0 <= i < n :: Quiet(states[i], steps[i], j)
    ensures var job, failures := states[n].jobs[j], Failures(states[n].execs, j);
      && failures <= job.maxAttempts
      && (failures == job.maxAttempts ==> !Waiting(job) && !Attended(states[n], j) && (job.kind != CREATE_RUN ==> job.status == Failed))
      && (n < |steps| && steps[n].Claim? && steps[n].j == j ==> failures < job.maxAttempts)
  {
    RunBudget(async, states, steps, n, j);
  }

  /** The counted failure that uses up the budget leaves the job FAILED, a run included. */
  lemma LastFailure(async: nat, states: seq<State>, steps: seq<Step>, n: nat, j: nat)
    requires IsRun(async, states, steps) && n < |steps| && j < |states[n].jobs|
    requires forall i | 0 <= i < n :: Quiet(states[i], steps[i], j)
    requires steps[n].Conclude? && steps[n].o == Countable && states[n].execs[steps[n].e].job == j
    requires Failures(states[n].execs, j) + 1 == states[n].jobs[j].maxAttempts
    ensures states[n + 1].jobs[j].status == Failed && Failures(states[n + 1].execs, j) == states[n + 1].jobs[j].maxAttempts
  {
    var s, step := states[n], steps[n];
    RunBudget(async, states, steps, n, j);
    RunLedger(async, states, steps, n);
    assert Holds(s, step.e, j) && Accounted(s.jobs[j], s.execs[step.e]) && RowInv(s.jobs[j], s.execs, j);
    FailuresAreClaims(s.execs, j);
    FailuresUpdate(s.execs, step.e, states[n + 1].execs[step.e], j);
    ConcludedRow(s, step, j);
  }

  lemma FailedStays(async: nat, s: State, step: Step, j: nat)
    requires BudgetInv(s, j) && Enabled(async, s, step) && Quiet(s, step, j)
    requires j < |s.jobs| && s.jobs[j].status == Failed && s.jobs[j].kind != CREATE_RUN
    ensures var s' := Next(s, step); j < |s'.jobs| && s'.jobs[j].status == Failed && s'.jobs[j].kind != CREATE_RUN
  {
    if step.Conclude? && s.execs[step.e].job == j { assert Holds(s, step.e, j); }
  }

  /** On such a run a failed job that is not a run stays failed, and so is never claimed again. */
  lemma {:induction false} FailedIsFinal(async: nat, states: seq<State>, steps: seq<Step>, i: nat, n: nat, j: nat)
    requires IsRun(async, states, steps) && i <= n < |states| && j < |states[i].jobs|
    requires forall k | 0 <= k < n :: Quiet(states[k], steps[k], j)
    requires states[i].jobs[j].status == Failed && states[i].jobs[j].kind != CREATE_RUN
    ensures j < |states[n].jobs| && states[n].jobs[j].status == Failed && states[n].jobs[j].kind != CREATE_RUN
  {
    if i < n {
      FailedIsFinal(async, states, steps, i, n - 1, j);
      RunBudget(async, states, steps, n - 1, j);
      FailedStays(async, states[n - 1], steps[n - 1], j);
    }
  }

  // ---------------------------------------------------------------- why the conditions are there

  ghost predicate Reachable(async: nat, s: State) {
    exists states, steps :: IsRun(async, states, steps) && states[|states| - 1] == s
  }

  lemma Go(async: nat, s: State, step: Step) returns (s': State)
    requires Reachable(async, s) && Enabled(async, s, step)
    ensures Reachable(async, s') && s' == Next(s, step)
  {
    var states, steps :| IsRun(async, states, steps) && states[|states| - 1] == s;
    s' := Next(s, step);
    assert IsRun(async, states + [s'], steps + [step]) && (states + [s'])[|states|] == s';
  }

  /** One late heartbeat is enough for two workers to run a job at once and for its attempts to pass the maximum. */
  lemma LateStamp(async: nat) returns (s: State)
    ensures Reachable(async, s) && |s.jobs| == 1 && |s.execs| == 2 && s.jobs[0].kind == "OSV_SCAN"
    ensures s.jobs[0].maxAttempts == 1 && s.jobs[0].attempts == 2
    ensures s.execs == [Exec(0, "a", 1, 1, Working, false), Exec(0, "b", 2, 1, Working, false)]
  {
    s := State(0, [], []);
    assert IsRun(async, [s], []) && [s][|[s]| - 1] == s;
    s := Go(async, s, Create("OSV_SCAN", None, 1));
    s := Go(async, s, Claim(0, "a", 0));
    s := Go(async, s, Tick(46_000_000_000));
    s := Go(async, s, RequeueStale(0, 46_000_000_000));
    s := Go(async, s, Tick(106_000_000_000));
    s := Go(async, s, Claim(0, "b", 106_000_000_000));
  }

  /** Then both fail, and the counted failures pass the maximum too. */
  lemma LateStampBreaksBoth(async: nat)
    ensures exists s :: Reachable(async, s) && Holds(s, 0, 0) && Holds(s, 1, 0) && |s.jobs| > 0 && s.jobs[0].attempts > s.jobs[0].maxAttempts
    ensures exists s :: Reachable(async, s) && |s.jobs| > 0 && Failures(s.execs, 0) > s.jobs[0].maxAttempts
  {
    var s := LateStamp(async);
    assert Holds(s, 0, 0) && Holds(s, 1, 0);
    var t := Go(async, s, Conclude(0, Countable, false));
    FailuresUpdate(s.execs, 0, t.execs[0], 0);
    var u := Go(async, t, Conclude(1, Countable, false));
    FailuresUpdate(t.execs, 1, u.execs[1], 0);
  }
}

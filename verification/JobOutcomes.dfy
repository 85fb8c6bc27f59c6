/** What the outcomes of attempts leave, over whole runs: failed jobs are retried, and fail for good only when they must. */
module JobOutcomes {
  import opened Wrappers
  import opened JobQueue
  import opened JobRuns
  import opened JobSafety
  import Backoff

  /** The concluding step of an attempt leaves the row as its outcome says. */
  lemma ConclusionExactly(async: nat, states: seq<State>, steps: seq<Step>, n: nat)
    requires IsRun(async, states, steps) && n < |steps| && steps[n].Conclude? && !steps[n].refused
    ensures var s, s', x, o := states[n], states[n + 1], states[n].execs[steps[n].e], steps[n].o;
      && x.job < |s.jobs|
      && var job, job' := s.jobs[x.job], s'.jobs[x.job];
         var attempts, max := if job.kind == "IMAGE_SCAN" then job.attempts else x.attempts, if job.kind == "IMAGE_SCAN" then job.maxAttempts else x.maxAttempts;
         && s'.jobs == s.jobs[x.job := job'] && job'.attempts == job.attempts && job'.lockedBy == "" && job'.lockedAt == None
         && (o == Success ==> job'.status == if job.kind == "CREATE_RUN" then Running else Succeeded)
         && (o == NonRetryable || (o == Countable && max <= attempts) ==> job'.status == Failed)
         && (o == Countable && attempts < max ==> job'.status == Retry && (attempts <= 28 ==> job'.runAt == s.now + Backoff.Ideal(attempts)))
         && (o == Transient ==> job'.status == Retry && job'.runAt == s.now + 10_000_000_000)
         && (o == Outage || o == CircuitOpen ==> job'.status == Retry && job'.runAt == s.now + 300_000_000_000)
  {
    var s, step := states[n], steps[n];
    assert Enabled(async, s, step) && states[n + 1] == Next(s, step);
    var x := s.execs[step.e];
    ConcludedMeaning(s.jobs[x.job], Judged(s.jobs[x.job], x).0, Judged(s.jobs[x.job], x).1, step.o, false, s.now);
  }

  /** A step that in addition loses no rollback and has no update refused for this job. */
  predicate Diligent(s: State, step: Step, j: nat) {
    && Quiet(s, step, j)
    && !(step.Defer? && step.counted && step.e < |s.execs| && s.execs[step.e].job == j)
    && !(step.Conclude? && step.refused && step.e < |s.execs| && s.execs[step.e].job == j)
  }

  /** Some attempt of the job ended in a failure that is not to be retried. */
  ghost predicate Hopeless(execs: seq<Exec>, j: nat) {
    exists e :: 0 <= e < |execs| && execs[e].job == j && execs[e].phase == Over(Some(NonRetryable))
  }

  /** The attempts are the counted failures and the one at work; and only a hopeless job fails before its budget is used. */
  ghost predicate ExactInv(s: State, j: nat) {
    j < |s.jobs| ==>
      var job, failures := s.jobs[j], Failures(s.execs, j);
      && (Waiting(job) ==> job.attempts == failures)
      && (forall e: nat | Holds(s, e, j) :: job.attempts == failures + (if s.execs[e].phase == Working then 1 else 0))
      && (job.status == Failed && job.kind != CREATE_RUN ==> failures == job.maxAttempts || Hopeless(s.execs, j))
  }

  lemma HopelessStays(async: nat, s: State, step: Step, j: nat)
    requires Enabled(async, s, step) && Hopeless(s.execs, j)
    ensures Hopeless(Next(s, step).execs, j)
  {
    var e :| 0 <= e < |s.execs| && s.execs[e].job == j && s.execs[e].phase == Over(Some(NonRetryable));
    assert Next(s, step).execs[e] == s.execs[e];
  }

  /** Steps by an attempt of this job. */
  lemma OwnExact(async: nat, s: State, step: Step, j: nat)
    requires ExactInv(s, j) && BudgetInv(s, j) && Enabled(async, s, step) && Diligent(s, step, j) && j < |s.jobs|
    requires (step.Defer? || step.Conclude? || step.Drop?) && s.execs[step.e].job == j
    ensures ExactInv(Next(s, step), j)
  {
    var s', x := Next(s, step), s.execs[step.e];
    assert Holds(s, step.e, j) && Accounted(s.jobs[j], x) && Attended(s, j);
    FailuresUpdate(s.execs, step.e, s'.execs[step.e], j);
    forall e: nat | Holds(s', e, j) ensures step.Defer? && e == step.e { assert Holds(s, e, j); }
    if step.Conclude? {
      ConcludedMeaning(s.jobs[j], Judged(s.jobs[j], x).0, Judged(s.jobs[j], x).1, step.o, false, s.now);
      if step.o == NonRetryable { assert s'.execs[step.e].phase == Over(Some(NonRetryable)); }
    }
  }

  /** Steps on the row of this job alone. */
  lemma RowExact(async: nat, s: State, step: Step, j: nat)
    requires ExactInv(s, j) && BudgetInv(s, j) && Enabled(async, s, step) && Diligent(s, step, j) && j < |s.jobs| && Touches(s, step, j)
    requires step.Beat? || step.Reconcile?
    ensures ExactInv(Next(s, step), j)
  {
    var s' := Next(s, step);
    assert s'.execs == s.execs && s'.jobs[j].attempts == s.jobs[j].attempts;
    forall e: nat | Holds(s', e, j) ensures Holds(s, e, j) {}
  }

  lemma ClaimExact(async: nat, s: State, step: Step, j: nat)
    requires ExactInv(s, j) && BudgetInv(s, j) && Enabled(async, s, step) && j < |s.jobs| && step.Claim? && step.j == j
    ensures ExactInv(Next(s, step), j)
  {
    var s', n := Next(s, step), |s.execs|;
    FailuresAppend(s.execs, s'.execs[n], j);
    forall e: nat | Holds(s', e, j) ensures e == n {}
  }

  lemma NextExact(async: nat, s: State, step: Step, j: nat)
    requires ExactInv(s, j) && BudgetInv(s, j) && LedgerInv(s) && FreshWork(s) && Enabled(async, s, step) && Diligent(s, step, j)
    ensures ExactInv(Next(s, step), j)
  {
    if j >= |s.jobs| {
      NewExact(async, s, step, j);
    } else if !Touches(s, step, j) {
      AwayExact(async, s, step, j);
    } else if step.Defer? || step.Conclude? || step.Drop? {
      OwnExact(async, s, step, j);
    } else if step.Claim? {
      ClaimExact(async, s, step, j);
    } else {
      RowExact(async, s, step, j);
    }
  }

  /** A job that is created now has no attempts. */
  lemma NewExact(async: nat, s: State, step: Step, j: nat)
    requires LedgerInv(s) && FreshWork(s) && Enabled(async, s, step) && j >= |s.jobs|
    ensures ExactInv(Next(s, step), j)
  {
    var s' := Next(s, step);
    if j < |s'.jobs| {
      NoClaimsYet(s.execs, s.jobs);
      FailuresAreClaims(s.execs, j);
      forall e: nat ensures !Holds(s', e, j) {
        if e < |s.execs| { assert Known(s.execs[e], s.jobs); }
      }
    }
  }

  /** Steps on other jobs. */
  lemma AwayExact(async: nat, s: State, step: Step, j: nat)
    requires ExactInv(s, j) && Enabled(async, s, step) && j < |s.jobs| && !Touches(s, step, j)
    ensures ExactInv(Next(s, step), j)
  {
    var s' := Next(s, step);
    Elsewhere(async, s, step, j, 0);
    forall e: nat | Holds(s', e, j) ensures Holds(s, e, j) && s'.execs[e] == s.execs[e] {
      Elsewhere(async, s, step, j, e);
    }
    if Hopeless(s.execs, j) { HopelessStays(async, s, step, j); }
  }

  lemma {:induction false} RunExact(async: nat, states: seq<State>, steps: seq<Step>, n: nat, j: nat)
    requires IsRun(async, states, steps) && n < |states|
    requires forall i | 0 <= i < n :: Diligent(states[i], steps[i], j)
    ensures ExactInv(states[n], j) && BudgetInv(states[n], j)
  {
    RunBudget(async, states, steps, n, j);
    if n > 0 {
      RunExact(async, states, steps, n - 1, j);
      RunLedger(async, states, steps, n - 1);
      NextExact(async, states[n - 1], steps[n - 1], j);
    }
  }

  /** On every diligent run, a waiting job has as many attempts as counted failures, and a job that is not a run is FAILED only
      when its counted failures are exactly maxAttempts or an attempt of it ended in a failure that is not to be retried. */
  lemma FailsOnlyWhenItMust(async: nat, states: seq<State>, steps: seq<Step>, n: nat, j: nat)
    requires IsRun(async, states, steps) && n < |states| && j < |states[n].jobs|
    requires forall i | 0 <= i < n :: Diligent(states[i], steps[i], j)
    ensures var job, failures := states[n].jobs[j], Failures(states[n].execs, j);
      && (Waiting(job) ==> job.attempts == failures < job.maxAttempts)
      && (job.status == Failed && job.kind != CREATE_RUN && !Hopeless(states[n].execs, j) ==> failures == job.maxAttempts)
  {
    RunExact(async, states, steps, n, j);
  }

  /** On every diligent run, a counted failure that leaves some of the budget puts the job back, due by the documented backoff
      for the number of its failures: claimable from then on and not before. */
  lemma FailureIsRetried(async: nat, states: seq<State>, steps: seq<Step>, n: nat, j: nat, t: int)
    requires IsRun(async, states, steps) && n < |steps| && j < |states[n].jobs|
    requires forall i | 0 <= i <= n :: Diligent(states[i], steps[i], j)
    requires steps[n].Conclude? && steps[n].o == Countable && states[n].execs[steps[n].e].job == j
    requires Failures(states[n].execs, j) + 1 < states[n].jobs[j].maxAttempts
    ensures var failures, job := Failures(states[n + 1].execs, j), states[n + 1].jobs[j];
      && failures == Failures(states[n].execs, j) + 1 == job.attempts && job.status == Retry
      && (failures <= 28 ==> (Claimable(job, t) <==> states[n].now + Backoff.Ideal(failures) <= t))
  {
    var s, step := states[n], steps[n];
    assert Enabled(async, s, step) && states[n + 1] == Next(s, step);
    RunExact(async, states, steps, n, j);
    assert Holds(s, step.e, j) && Accounted(s.jobs[j], s.execs[step.e]);
    FailuresUpdate(s.execs, step.e, states[n + 1].execs[step.e], j);
    ConclusionExactly(async, states, steps, n);
  }
}

/** Runs of the job queue: any number of workers claiming, beating, finishing and dying over the shared table. */
module JobRuns {
  import opened Wrappers
  import opened JobQueue

  /** An attempt is at work, waits for its final update after an uncounted failure, or has let go of the job, with an
      outcome unless its worker died or lost the update (history). */
  datatype Phase = Working | Deferring(o: Outcome) | Over(end: Option<Outcome>)

  /** One claim and what became of it, with the counters the worker read when it claimed. */
  datatype Exec = Exec(job: nat, worker: string, attempts: int, maxAttempts: int, phase: Phase, rolledBack: bool)

  datatype State = State(now: int, jobs: seq<Job>, execs: seq<Exec>)

  datatype Step =
    | Tick(to: int)
    | Create(kind: string, runAt: Option<int>, maxAttempts: int)
    | Claim(j: nat, worker: string, at: int)
    | Beat(e: nat, at: int)
    | RequeueStale(j: nat, at: int)          // one row of a sweep whose cutoffs were taken at that time
    | Defer(e: nat, o: Outcome, counted: bool) // the rollback of an uncounted failure; counted when that update fails
    | Conclude(e: nat, o: Outcome, refused: bool)
    | Drop(e: nat)                           // the worker dies, or its final update is lost
    | Reconcile(j: nat, finding: Finding)    // runs only

  predicate Live(x: Exec) { !x.phase.Over? }

  /** Kinds that a worker process runs and heartbeats itself. */
  predicate InProcess(kind: string) { kind != CREATE_RUN && kind != IMAGE_SCAN }

  ghost predicate Init(s: State) { s.jobs == [] && s.execs == [] }

  predicate Enabled(async: nat, s: State, step: Step) {
    match step
    case Tick(to) => s.now <= to
    case Create(kind, _, _) => kind != ""
    case Claim(j, worker, at) => j < |s.jobs| && worker != "" && at <= s.now && Claimable(s.jobs[j], at)
    case Beat(e, at) => e < |s.execs| && s.execs[e].job < |s.jobs| && at <= s.now && InProcess(s.jobs[s.execs[e].job].kind)
    case RequeueStale(j, at) => j < |s.jobs| && at <= s.now && Stale(s.jobs[j], at - SYNC_TIMEOUT, at - async)
    case Defer(e, o, _) => e < |s.execs| && s.execs[e].phase == Working && s.execs[e].job < |s.jobs| && (o == Transient || o == Outage)
      && s.jobs[s.execs[e].job].kind != IMAGE_SCAN
    case Conclude(e, o, refused) =>
      e < |s.execs| && s.execs[e].job < |s.jobs| && Concludes(s.execs[e].phase, o) && CanEnd(s.jobs[s.execs[e].job].kind, o, refused)
    case Drop(e) => e < |s.execs| && Live(s.execs[e])
    case Reconcile(j, _) => j < |s.jobs| && s.jobs[j].kind == CREATE_RUN
  }

  /** An uncounted failure passes through its rollback first; every other outcome concludes at once. */
  predicate Concludes(phase: Phase, o: Outcome) {
    if o == Transient || o == Outage then phase == Deferring(o) else phase == Working
  }

  /** Only runs meet the circuit breaker; a scanner's refused report is lost, which is a drop. */
  predicate CanEnd(kind: string, o: Outcome, refused: bool) {
    (o == CircuitOpen ==> kind == CREATE_RUN) && (kind == IMAGE_SCAN ==> !refused)
  }

  /** The attempts that the decision looks at: the worker's copy, or the row itself for a scanner's report. */
  function Judged(job: Job, x: Exec): (int, int) {
    if job.kind == IMAGE_SCAN then (job.attempts, job.maxAttempts) else (x.attempts, x.maxAttempts)
  }

  function Ended(job: Job, x: Exec, o: Outcome, refused: bool, now: int): Job {
    Concluded(job, Judged(job, x).0, Judged(job, x).1, o, refused, now)
  }

  function Next(s: State, step: Step): State
    requires exists async: nat :: Enabled(async, s, step)
  {
    match step
    case Tick(to) => s.(now := to)
    case Create(kind, runAt, max) => s.(jobs := s.jobs + [Created(kind, runAt, max, s.now)])
    case Claim(j, worker, at) =>
      var job := Claimed(s.jobs[j], worker, at);
      s.(jobs := s.jobs[j := job], execs := s.execs + [Exec(j, worker, job.attempts, job.maxAttempts, Working, false)])
    case Beat(e, at) =>
      var x := s.execs[e];
      s.(jobs := s.jobs[x.job := Beaten(s.jobs[x.job], x.worker, at)])
    case RequeueStale(j, at) => s.(jobs := s.jobs[j := Requeued(s.jobs[j], at)])
    case Defer(e, o, counted) =>
      var x := s.execs[e];
      if counted then s.(execs := s.execs[e := x.(phase := Deferring(o))])
      else s.(jobs := s.jobs[x.job := RolledBack(s.jobs[x.job])], execs := s.execs[e := x.(phase := Deferring(o), rolledBack := true)])
    case Conclude(e, o, refused) =>
      var x := s.execs[e];
      s.(jobs := s.jobs[x.job := Ended(s.jobs[x.job], x, o, refused, s.now)], execs := s.execs[e := x.(phase := Over(Some(o)))])
    case Drop(e) => s.(execs := s.execs[e := s.execs[e].(phase := Over(None))])
    case Reconcile(j, finding) => s.(jobs := s.jobs[j := Reconciled(s.jobs[j], finding, s.now)])
  }

  /** The step is possible and leads from s to s'. */
  predicate Takes(async: nat, s: State, step: Step, s': State) {
    Enabled(async, s, step) && s' == Next(s, step)
  }

  ghost predicate IsRun(async: nat, states: seq<State>, steps: seq<Step>) {
    && |states| == |steps| + 1 && Init(states[0])
    && forall i | 0 <= i < |steps| :: Enabled(async, states[i], steps[i]) && states[i + 1] == Next(states[i], steps[i])
  }

  // ---------------------------------------------------------------- the attempt ledger and the locks

  function Claims(execs: seq<Exec>, j: nat): nat {
    if execs == [] then 0 else Claims(execs[..|execs| - 1], j) + (if execs[|execs| - 1].job == j then 1 else 0)
  }

  function Rollbacks(execs: seq<Exec>, j: nat): nat {
    if execs == [] then 0
    else Rollbacks(execs[..|execs| - 1], j) + (if execs[|execs| - 1].job == j && execs[|execs| - 1].rolledBack then 1 else 0)
  }

  /** A row's count is what its claims and rollbacks leave, and it is locked only while running. */
  predicate RowInv(job: Job, execs: seq<Exec>, j: nat) {
    job.attempts == Claims(execs, j) - Rollbacks(execs, j) && (job.status != Running ==> Unlocked(job))
  }

  predicate Known(x: Exec, jobs: seq<Job>) { x.job < |jobs| }

  ghost predicate LedgerInv(s: State) {
    && (forall j | 0 <= j < |s.jobs| :: RowInv(s.jobs[j], s.execs, j))
    && (forall e | 0 <= e < |s.execs| :: Known(s.execs[e], s.jobs))
  }

  lemma {:induction false} CountsUpdate(execs: seq<Exec>, e: nat, x: Exec, j: nat)
    requires e < |execs| && x.job == execs[e].job
    ensures Claims(execs[e := x], j) == Claims(execs, j)
    ensures Rollbacks(execs[e := x], j) - Rollbacks(execs, j)
         == (if x.job == j then (if x.rolledBack then 1 else 0) - (if execs[e].rolledBack then 1 else 0) else 0)
  {
    var n := |execs| - 1;
    if e == n {
      assert execs[e := x][..n] == execs[..n];
    } else {
      CountsUpdate(execs[..n], e, x, j);
      assert execs[e := x][..n] == execs[..n][e := x];
    }
  }

  lemma {:induction false} CountsAppend(execs: seq<Exec>, x: Exec, j: nat)
    ensures Claims(execs + [x], j) == Claims(execs, j) + (if x.job == j then 1 else 0)
    ensures Rollbacks(execs + [x], j) == Rollbacks(execs, j) + (if x.job == j && x.rolledBack then 1 else 0)
  {
    assert (execs + [x])[..|execs|] == execs;
  }

  /** The claims of an attempt that was not rolled back exceed the rollbacks, so the floor at zero is never needed. */
  lemma {:induction false} FloorNeverBites(execs: seq<Exec>, j: nat)
    ensures Rollbacks(execs, j) <= Claims(execs, j)
    ensures (exists e :: 0 <= e < |execs| && execs[e].job == j && !execs[e].rolledBack) ==> Rollbacks(execs, j) < Claims(execs, j)
  {
    if execs != [] {
      var front := execs[..|execs| - 1];
      FloorNeverBites(front, j);
      if e :| 0 <= e < |execs| && execs[e].job == j && !execs[e].rolledBack {
        if e < |front| { assert front[e].job == j && !front[e].rolledBack; }
      }
    }
  }

  lemma {:induction false} NoClaimsYet(execs: seq<Exec>, jobs: seq<Job>)
    requires forall e | 0 <= e < |execs| :: Known(execs[e], jobs)
    ensures Claims(execs, |jobs|) == 0 && Rollbacks(execs, |jobs|) == 0
  {
    if execs != [] {
      NoClaimsYet(execs[..|execs| - 1], jobs);
      assert Known(execs[|execs| - 1], jobs);
    }
  }

  /** A step that rewrites one row and one attempt: enough to check that row, and the counts of the others. */
  lemma RewriteLedger(s: State, s': State, k: nat, e: nat)
    requires LedgerInv(s) && k < |s.jobs| && e < |s.execs| && s.execs[e].job == k
    requires |s'.jobs| == |s.jobs| && s'.jobs == s.jobs[k := s'.jobs[k]] && |s'.execs| == |s.execs| && s'.execs == s.execs[e := s'.execs[e]]
    requires s'.execs[e].job == k && RowInv(s'.jobs[k], s'.execs, k)
    ensures LedgerInv(s')
  {
    forall j | 0 <= j < |s'.jobs| ensures RowInv(s'.jobs[j], s'.execs, j) {
      assert RowInv(s.jobs[j], s.execs, j);
      CountsUpdate(s.execs, e, s'.execs[e], j);
    }
    forall i | 0 <= i < |s'.execs| ensures Known(s'.execs[i], s'.jobs) { assert Known(s.execs[i], s.jobs); }
  }

  lemma CreateLedger(async: nat, s: State, step: Step)
    requires LedgerInv(s) && Enabled(async, s, step) && step.Create?
    ensures LedgerInv(Next(s, step))
  {
    var s' := Next(s, step);
    NoClaimsYet(s.execs, s.jobs);
    forall j | 0 <= j < |s'.jobs| ensures RowInv(s'.jobs[j], s'.execs, j) {
      if j < |s.jobs| { assert RowInv(s.jobs[j], s.execs, j); }
    }
    forall i | 0 <= i < |s'.execs| ensures Known(s'.execs[i], s'.jobs) { assert Known(s.execs[i], s.jobs); }
  }

  lemma ClaimLedger(async: nat, s: State, step: Step)
    requires LedgerInv(s) && Enabled(async, s, step) && step.Claim?
    ensures LedgerInv(Next(s, step))
  {
    var s' := Next(s, step);
    var x := s'.execs[|s.execs|];
    forall j | 0 <= j < |s'.jobs| ensures RowInv(s'.jobs[j], s'.execs, j) {
      assert RowInv(s.jobs[j], s.execs, j);
      CountsAppend(s.execs, x, j);
    }
    forall i | 0 <= i < |s'.execs| ensures Known(s'.execs[i], s'.jobs) {
      if i < |s.execs| { assert Known(s.execs[i], s.jobs); }
    }
  }

  lemma DeferLedger(async: nat, s: State, step: Step)
    requires LedgerInv(s) && Enabled(async, s, step) && step.Defer? && !s.execs[step.e].rolledBack
    ensures LedgerInv(Next(s, step))
  {
    var s', x := Next(s, step), s.execs[step.e];
    assert RowInv(s.jobs[x.job], s.execs, x.job);
    FloorNeverBites(s.execs, x.job);
    CountsUpdate(s.execs, step.e, s'.execs[step.e], x.job);
    RewriteLedger(s, s', x.job, step.e);
  }

  lemma ConcludeLedger(async: nat, s: State, step: Step)
    requires LedgerInv(s) && Enabled(async, s, step) && (step.Conclude? || step.Drop?)
    ensures LedgerInv(Next(s, step))
  {
    var s', x := Next(s, step), s.execs[step.e];
    assert Known(x, s.jobs);
    assert RowInv(s.jobs[x.job], s.execs, x.job);
    CountsUpdate(s.execs, step.e, s'.execs[step.e], x.job);
    RewriteLedger(s, s', x.job, step.e);
  }

  /** Steps that rewrite one row and leave the attempts alone. */
  lemma RowLedger(async: nat, s: State, step: Step)
    requires LedgerInv(s) && Enabled(async, s, step) && (step.Beat? || step.RequeueStale? || step.Reconcile?)
    ensures LedgerInv(Next(s, step))
  {
    var s' := Next(s, step);
    forall j | 0 <= j < |s'.jobs| ensures RowInv(s'.jobs[j], s'.execs, j) { assert RowInv(s.jobs[j], s.execs, j); }
    forall i | 0 <= i < |s'.execs| ensures Known(s'.execs[i], s'.jobs) { assert Known(s.execs[i], s.jobs); }
  }

  /** An attempt that failed and counts. */
  predicate FailedAttempt(x: Exec) { x.phase == Over(Some(Countable)) }

  /** Neither an attempt at work nor a counted failure has been rolled back. */
  ghost predicate FreshWork(s: State) {
    forall e | 0 <= e < |s.execs| :: s.execs[e].phase == Working || FailedAttempt(s.execs[e]) ==> !s.execs[e].rolledBack
  }

  /** The counted failures of a job. */
  function Failures(execs: seq<Exec>, j: nat): nat {
    if execs == [] then 0
    else Failures(execs[..|execs| - 1], j) + (if execs[|execs| - 1].job == j && FailedAttempt(execs[|execs| - 1]) then 1 else 0)
  }

  lemma {:induction false} FailuresUpdate(execs: seq<Exec>, e: nat, x: Exec, j: nat)
    requires e < |execs| && x.job == execs[e].job
    ensures Failures(execs[e := x], j) - Failures(execs, j)
         == (if x.job == j then (if FailedAttempt(x) then 1 else 0) - (if FailedAttempt(execs[e]) then 1 else 0) else 0)
  {
    var n := |execs| - 1;
    if e == n {
      assert execs[e := x][..n] == execs[..n];
    } else {
      FailuresUpdate(execs[..n], e, x, j);
      assert execs[e := x][..n] == execs[..n][e := x];
    }
  }

  lemma FailuresAppend(execs: seq<Exec>, x: Exec, j: nat)
    ensures Failures(execs + [x], j) == Failures(execs, j) + (if x.job == j && FailedAttempt(x) then 1 else 0)
  {
    assert (execs + [x])[..|execs|] == execs;
  }

  /** Counted failures, and an attempt at work beside them, are among the claims that were not rolled back. */
  lemma {:induction false} FailuresAreClaims(execs: seq<Exec>, j: nat)
    requires forall e | 0 <= e < |execs| :: execs[e].phase == Working || FailedAttempt(execs[e]) ==> !execs[e].rolledBack
    ensures Failures(execs, j) <= Claims(execs, j) - Rollbacks(execs, j)
    ensures (exists e :: 0 <= e < |execs| && execs[e].job == j && execs[e].phase == Working) ==>
              Failures(execs, j) < Claims(execs, j) - Rollbacks(execs, j)
  {
    if execs != [] {
      var front := execs[..|execs| - 1];
      FailuresAreClaims(front, j);
      if e :| 0 <= e < |execs| && execs[e].job == j && execs[e].phase == Working {
        if e < |front| { assert front[e].job == j && front[e].phase == Working; }
      }
    }
  }

  lemma NextLedger(async: nat, s: State, step: Step)
    requires LedgerInv(s) && FreshWork(s) && Enabled(async, s, step)
    ensures LedgerInv(Next(s, step)) && FreshWork(Next(s, step))
  {
    match step
    case Tick(_) =>
    case Create(_, _, _) => CreateLedger(async, s, step);
    case Claim(_, _, _) => ClaimLedger(async, s, step);
    case Defer(_, _, _) => DeferLedger(async, s, step);
    case Conclude(_, _, _) => ConcludeLedger(async, s, step);
    case Drop(_) => ConcludeLedger(async, s, step);
    case _ => RowLedger(async, s, step);
  }

  lemma {:induction false} RunLedger(async: nat, states: seq<State>, steps: seq<Step>, n: nat)
    requires IsRun(async, states, steps) && n < |states|
    ensures LedgerInv(states[n]) && FreshWork(states[n])
  {
    if n > 0 {
      RunLedger(async, states, steps, n - 1);
      NextLedger(async, states[n - 1], steps[n - 1]);
    }
  }

  /** In every state of every run a job's attempts are its claims less its rollbacks, and no waiting job is locked. */
  lemma AttemptLedger(async: nat, states: seq<State>, steps: seq<Step>, n: nat, j: nat)
    requires IsRun(async, states, steps) && n < |states| && j < |states[n].jobs|
    ensures states[n].jobs[j].attempts == Claims(states[n].execs, j) - Rollbacks(states[n].execs, j) >= 0
    ensures states[n].jobs[j].status != Running ==> Unlocked(states[n].jobs[j])
  {
    RunLedger(async, states, steps, n);
    assert RowInv(states[n].jobs[j], states[n].execs, j);
    FloorNeverBites(states[n].execs, j);
  }
}

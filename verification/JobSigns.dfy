/** Signs of life: what the stale sweep looks at, read off the steps of a run, and what follows for workers that beat. */
module JobSigns {
  import opened Wrappers
  import opened JobQueue
  import opened JobRuns
  import opened JobSafety

  /** The time of the job's latest claim or heartbeat by the worker its row names, among the first n steps. */
  function LastBeat(states: seq<State>, steps: seq<Step>, n: nat, j: nat): int
    requires n <= |steps| && |states| == |steps| + 1
  {
    if n == 0 then 0
    else
      var s, step := states[n - 1], steps[n - 1];
      if step.Claim? && step.j == j then step.at
      else if step.Beat? && IsOwnBeat(s, step.e, j) then step.at
      else LastBeat(states, steps, n - 1, j)
  }

  /** Attempt e is of job j, and of the worker that the running row names. */
  predicate IsOwnBeat(s: State, e: nat, j: nat) {
    e < |s.execs| && s.execs[e].job == j && j < |s.jobs| && s.jobs[j].status == Running && s.jobs[j].lockedBy == s.execs[e].worker
  }

  /** The time of the job's latest creation, conclusion, requeue or reconciliation. */
  function LastTouch(states: seq<State>, steps: seq<Step>, n: nat, j: nat): int
    requires n <= |steps| && |states| == |steps| + 1
  {
    if n == 0 then 0
    else
      var s, step := states[n - 1], steps[n - 1];
      if step.Create? && j == |s.jobs| then s.now
      else if step.RequeueStale? && step.j == j then step.at
      else if step.Reconcile? && step.j == j then s.now
      else if step.Conclude? && step.e < |s.execs| && s.execs[step.e].job == j && !(step.o == CircuitOpen && step.refused) then s.now
      else LastTouch(states, steps, n - 1, j)
  }

  /** The lock columns are set and cleared together, and hold the latest beat; an unlocked row holds the latest touch. */
  predicate Signed(job: Job, beat: int, touch: int) {
    && (job.lockedBy == "" <==> job.lockedAt == None)
    && (if job.lockedAt.Some? then job.lockedAt.value == beat else job.updatedAt == touch)
  }

  ghost predicate SignInv(states: seq<State>, steps: seq<Step>, n: nat, j: nat)
    requires n <= |steps| && |states| == |steps| + 1
  {
    && (forall e | 0 <= e < |states[n].execs| :: states[n].execs[e].worker != "" && Known(states[n].execs[e], states[n].jobs))
    && (j < |states[n].jobs| ==> Signed(states[n].jobs[j], LastBeat(states, steps, n, j), LastTouch(states, steps, n, j)))
  }

  lemma {:induction false} RunSigns(async: nat, states: seq<State>, steps: seq<Step>, n: nat, j: nat)
    requires IsRun(async, states, steps) && n < |states|
    ensures SignInv(states, steps, n, j)
  {
    if n > 0 {
      var s, s', step := states[n - 1], states[n], steps[n - 1];
      RunSigns(async, states, steps, n - 1, j);
      assert Enabled(async, s, step) && s' == Next(s, step);
      forall e | 0 <= e < |s'.execs| ensures s'.execs[e].worker != "" && Known(s'.execs[e], s'.jobs) {
        if e < |s.execs| { assert s.execs[e].worker != "" && Known(s.execs[e], s.jobs); }
      }
      if j < |s'.jobs| { StepSigns(async, states, steps, n, j); }
    }
  }

  lemma StepSigns(async: nat, states: seq<State>, steps: seq<Step>, n: nat, j: nat)
    requires IsRun(async, states, steps) && 0 < n < |states| && SignInv(states, steps, n - 1, j) && j < |states[n].jobs|
    ensures Signed(states[n].jobs[j], LastBeat(states, steps, n, j), LastTouch(states, steps, n, j))
  {
    var s, s', step := states[n - 1], states[n], steps[n - 1];
    assert Enabled(async, s, step) && s' == Next(s, step);
    if j < |s.jobs| && !Touches(s, step, j) {
      Elsewhere(async, s, step, j, 0);
    } else if j < |s.jobs| {
      SignRow(async, s, step, j, LastBeat(states, steps, n - 1, j), LastTouch(states, steps, n - 1, j));
    }
  }

  /** A step on the job renews the sign that its row then shows. */
  lemma SignRow(async: nat, s: State, step: Step, j: nat, beat: int, touch: int)
    requires Enabled(async, s, step) && j < |s.jobs| && Touches(s, step, j) && Signed(s.jobs[j], beat, touch)
    requires forall e | 0 <= e < |s.execs| :: s.execs[e].worker != ""
    ensures var beat' := if step.Claim? || (step.Beat? && IsOwnBeat(s, step.e, j)) then step.at else beat;
      var touch' := if step.RequeueStale? then step.at
                    else if step.Reconcile? || (step.Conclude? && !(step.o == CircuitOpen && step.refused)) then s.now else touch;
      Signed(Next(s, step).jobs[j], beat', touch')
  {}

  // ---------------------------------------------------------------- beating in time

  /** Whenever the job has a live attempt, its worker claimed or beat within the last 45 seconds. */
  ghost predicate BeatsInTime(states: seq<State>, steps: seq<Step>, n: nat, j: nat)
    requires n <= |steps| && |states| == |steps| + 1
  {
    forall i | 0 <= i <= n && Attended(states[i], j) :: states[i].now - LastBeat(states, steps, i, j) <= 45_000_000_000
  }

  /** A worker that beats in time is punctual: the stamp the sweep looks at is its latest beat. */
  lemma BeatingIsPunctual(async: nat, states: seq<State>, steps: seq<Step>, n: nat, i: nat, j: nat)
    requires IsRun(async, states, steps) && i <= n < |states| && BeatsInTime(states, steps, n, j)
    ensures Punctual(states[i], j)
  {
    RunSigns(async, states, steps, i, j);
    forall e: nat | Holds(states[i], e, j) && j < |states[i].jobs| && states[i].jobs[j].lockedAt.Some?
      ensures states[i].now - states[i].jobs[j].lockedAt.value <= SYNC_TIMEOUT
    {
      assert Attended(states[i], j);
    }
  }

  /** So exclusive execution follows from the claims and heartbeats alone. */
  lemma ExclusiveByBeats(async: nat, states: seq<State>, steps: seq<Step>, n: nat, j: nat, e: nat)
    requires IsRun(async, states, steps) && n < |states| && j < |states[n].jobs| && InProcess(states[n].jobs[j].kind)
    requires Holds(states[n], e, j) && BeatsInTime(states, steps, n, j)
    ensures Owns(states[n].jobs[j], states[n].execs[e]) && forall f: nat | Holds(states[n], f, j) :: f == e
    ensures n < |steps| && (steps[n].RequeueStale? || steps[n].Claim?) ==> steps[n].j != j
  {
    forall i | 0 <= i <= n ensures Punctual(states[i], j) { BeatingIsPunctual(async, states, steps, n, i, j); }
    ExclusiveExecution(async, states, steps, n, j, e);
  }

  /** A heartbeat renews the stamp of a running row that names its worker, and changes nothing else; any other is without
      effect. */
  lemma BeatExactly(async: nat, states: seq<State>, steps: seq<Step>, n: nat)
    requires IsRun(async, states, steps) && n < |steps| && steps[n].Beat?
    ensures var s, s', e := states[n], states[n + 1], steps[n].e;
      var j := s.execs[e].job;
      if j < |s.jobs| && s.jobs[j].status == Running && s.jobs[j].lockedBy == s.execs[e].worker
      then s' == s.(jobs := s.jobs[j := s.jobs[j].(lockedAt := Some(steps[n].at), updatedAt := steps[n].at)])
      else s' == s
  {
    assert Enabled(async, states[n], steps[n]) && states[n + 1] == Next(states[n], steps[n]);
  }

  // ---------------------------------------------------------------- the sweep

  /** How long a job may be silent: 45 seconds, or the longer timeout of a run. */
  function Patience(async: nat, kind: string): int {
    if kind == "CREATE_RUN" then async else 45_000_000_000
  }

  /** In every run, a sweep at a given time may requeue a job exactly when it is running and its latest sign of life, a beat
      while it is locked and a touch otherwise, is longer ago than its patience. */
  lemma RequeuedExactly(async: nat, states: seq<State>, steps: seq<Step>, n: nat, j: nat, at: int)
    requires IsRun(async, states, steps) && n < |states| && j < |states[n].jobs| && at <= states[n].now
    ensures var job := states[n].jobs[j];
      var sign := if job.lockedBy != "" then LastBeat(states, steps, n, j) else LastTouch(states, steps, n, j);
      Enabled(async, states[n], RequeueStale(j, at)) <==> job.status == Running && sign + Patience(async, job.kind) < at
  {
    RunSigns(async, states, steps, n, j);
  }

  /** A new job is queued, unlocked and without attempts, allowed three unless told otherwise, and claimable from its due time
      on, which is now unless told otherwise. */
  lemma CreatedJob(async: nat, states: seq<State>, steps: seq<Step>, n: nat, t: int)
    requires IsRun(async, states, steps) && n < |steps| && steps[n].Create?
    ensures var s, s', step := states[n], states[n + 1], steps[n];
      && |s'.jobs| == |s.jobs| + 1 && s'.jobs[..|s.jobs|] == s.jobs && s'.execs == s.execs
      && var job := s'.jobs[|s.jobs|];
         && job.kind == step.kind && job.status == Queued && job.attempts == 0 && job.lockedBy == "" && job.lockedAt == None
         && job.maxAttempts == (if step.maxAttempts >= 1 then step.maxAttempts else 3)
         && (Claimable(job, t) <==> (if step.runAt == None then s.now else step.runAt.value) <= t)
  {
    assert Enabled(async, states[n], steps[n]) && states[n + 1] == Next(states[n], steps[n]);
  }
}

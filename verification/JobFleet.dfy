/** The workers at the job table: each operation of the table is a step of the machine, so whatever holds over runs of the
    machine holds of the table. */
module JobFleet {
  import opened Wrappers
  import opened JobQueue
  import opened JobRuns

  class Fleet {
    const table: JobTable
    ghost var now: int
    ghost var execs: seq<Exec>

    ghost function View(): State
      reads this, table
    {
      State(now, table.rows, execs)
    }

    ghost predicate Valid()
      reads this, table
    {
      LedgerInv(View()) && FreshWork(View())
    }

    constructor (now: int)
      ensures Valid() && View() == State(now, [], []) && fresh(table)
    {
      table := new JobTable();
      this.now := now;
      execs := [];
    }

    method Create(kind: string, runAt: Option<int>, maxAttempts: int, at: int) returns (id: Option<nat>)
      requires Valid() && at == now
      modifies this, table
      ensures Valid()
      ensures if kind == "" then View() == old(View()) else Takes(0, old(View()), Step.Create(kind, runAt, maxAttempts), View())
    {
      ghost var s := View();
      id := table.CreateJob(kind, runAt, maxAttempts, at);
      if kind != "" { NextLedger(0, s, Step.Create(kind, runAt, maxAttempts)); }
    }

    method ClaimNext(worker: string, at: int, busy: set<nat>, excluded: set<string>) returns (id: Option<nat>)
      requires Valid() && worker != "" && at <= now
      modifies this, table
      ensures Valid()
      ensures if id.Some? then Takes(0, old(View()), Claim(id.value, worker, at), View()) else View() == old(View())
    {
      ghost var s := View();
      id := table.ClaimNextJob(worker, at, busy, excluded);
      if id.Some? {
        execs := execs + [Exec(id.value, worker, table.rows[id.value].attempts, table.rows[id.value].maxAttempts, Working, false)];
        NextLedger(0, s, Claim(id.value, worker, at));
      }
    }

    method Beat(ghost e: nat, id: nat, worker: string, at: int)
      requires Valid() && Enabled(0, View(), Step.Beat(e, at)) && execs[e].job == id && execs[e].worker == worker
      modifies table
      ensures Valid() && Takes(0, old(View()), Step.Beat(e, at), View())
    {
      ghost var s := View();
      table.Heartbeat(id, worker, at);
      NextLedger(0, s, Step.Beat(e, at));
    }

    /** The end of an attempt that counts, or succeeds, or meets an open circuit. */
    method Finish(ghost e: nat, id: nat, attempts: int, maxAttempts: int, o: Outcome, refused: bool, at: int)
      requires Valid() && at == now && o != Transient && o != Outage && Enabled(0, View(), Conclude(e, o, refused))
      requires execs[e].job == id && Judged(table.rows[id], execs[e]) == (attempts, maxAttempts)
      modifies this, table
      ensures Valid() && Takes(0, old(View()), Conclude(e, o, refused), View())
    {
      ghost var s := View();
      table.ConcludeJob(id, attempts, maxAttempts, o, false, refused, at);
      execs := execs[e := execs[e].(phase := Over(Some(o)))];
      NextLedger(0, s, Conclude(e, o, refused));
    }

    /** The end of an attempt that does not count: the rollback, which may be lost, and the update are two steps. */
    method Postpone(ghost e: nat, id: nat, attempts: int, maxAttempts: int, o: Outcome, lost: bool, refused: bool, at: int)
      requires Valid() && at == now && Enabled(0, View(), Defer(e, o, lost))
      requires execs[e].job == id && Judged(table.rows[id], execs[e]) == (attempts, maxAttempts)
      modifies this, table
      ensures Valid()
      ensures exists t :: Takes(0, old(View()), Defer(e, o, lost), t) && Takes(0, t, Conclude(e, o, refused), View())
    {
      ghost var s := View();
      ghost var t := Next(s, Defer(e, o, lost));
      NextLedger(0, s, Defer(e, o, lost));
      NextLedger(0, t, Conclude(e, o, refused));
      assert Enabled(0, t, Conclude(e, o, refused));
      ghost var u := Next(t, Conclude(e, o, refused));
      assert Takes(0, s, Defer(e, o, lost), t) && Takes(0, t, Conclude(e, o, refused), u);
      table.ConcludeJob(id, attempts, maxAttempts, o, lost, refused, at);
      execs := execs[e := t.execs[e].(phase := Over(Some(o)))];
      assert execs == u.execs && table.rows == u.jobs;
    }

    /** A scanner's report on its lease. */
    method Report(ghost e: nat, id: nat, report: string, at: int) returns (reply: Reply)
      requires Valid() && at == now && e < |execs| && execs[e].phase == Working && execs[e].job == id
      modifies this, table
      ensures Valid() && reply == ReplyTo(old(table.rows), id, report)
      ensures if reply == Accepted then Takes(0, old(View()), Conclude(e, OutcomeOf(report).value, false), View()) else View() == old(View())
    {
      ghost var s := View();
      assert Known(s.execs[e], s.jobs);
      reply := table.CompleteImageScan(id, report, at);
      if reply == Accepted {
        execs := execs[e := execs[e].(phase := Over(Some(OutcomeOf(report).value)))];
        NextLedger(0, s, Conclude(e, OutcomeOf(report).value, false));
      }
    }

    method Reconcile(id: nat, c: Cluster, at: int)
      requires Valid() && at == now && id < |table.rows| && table.rows[id].kind == CREATE_RUN
      modifies table
      ensures Valid() && Takes(0, old(View()), Step.Reconcile(id, FindingOf(c)), View())
    {
      ghost var s := View();
      table.ReconcileRun(id, c, at);
      NextLedger(0, s, Step.Reconcile(id, FindingOf(c)));
    }

    /** A sweep is a series of requeues, one per stale row. */
    method Sweep(at: int, async: nat, busy: set<nat>) returns (n: nat)
      requires Valid() && at <= now
      modifies table
      ensures Valid() && Swept(async, old(View()), View(), at, busy, |table.rows|)
    {
      ghost var s := View();
      n := table.RequeueStaleJobs(at - SYNC_TIMEOUT, at - async, at, busy);
      SweepIsSteps(async, s, View(), at, busy, |table.rows|);
    }
  }

  /** The rows before n have been swept, and only those. */
  ghost predicate SweptTo(async: nat, s: State, s': State, at: int, busy: set<nat>, n: nat) {
    && s'.now == s.now && s'.execs == s.execs && |s'.jobs| == |s.jobs| && n <= |s.jobs|
    && (forall k | 0 <= k < n :: s'.jobs[k] ==
          if Stale(s.jobs[k], at - SYNC_TIMEOUT, at - async) && k !in busy then Requeued(s.jobs[k], at) else s.jobs[k])
    && (forall k | n <= k < |s.jobs| :: s'.jobs[k] == s.jobs[k])
  }

  /** Requeue steps for the stale rows before n, in order, lead from s to s'. */
  ghost predicate Swept(async: nat, s: State, s': State, at: int, busy: set<nat>, n: nat)
    decreases n
  {
    if n == 0 then s' == s
    else var k: nat := n - 1; exists t :: Swept(async, s, t, at, busy, k) && SweptRow(async, t, s', at, busy, k)
  }

  /** One row of a sweep. */
  predicate SweptRow(async: nat, t: State, s': State, at: int, busy: set<nat>, k: nat) {
    if k < |t.jobs| && Stale(t.jobs[k], at - SYNC_TIMEOUT, at - async) && k !in busy then Takes(async, t, RequeueStale(k, at), s')
    else s' == t
  }

  lemma {:induction false} SweepIsSteps(async: nat, s: State, s': State, at: int, busy: set<nat>, n: nat)
    requires LedgerInv(s) && FreshWork(s) && at <= s.now && SweptTo(async, s, s', at, busy, n)
    ensures Swept(async, s, s', at, busy, n) && LedgerInv(s') && FreshWork(s')
    decreases n
  {
    if n == 0 {
      assert s'.jobs == s.jobs;
    } else {
      var k: nat := n - 1;
      var t := s'.(jobs := s'.jobs[k := s.jobs[k]]);
      assert SweptTo(async, s, t, at, busy, k);
      SweepIsSteps(async, s, t, at, busy, k);
      RowIsStep(async, s, t, s', at, busy, k);
      assert Swept(async, s, t, at, busy, k) && SweptRow(async, t, s', at, busy, k);
    }
  }

  lemma RowIsStep(async: nat, s: State, t: State, s': State, at: int, busy: set<nat>, k: nat)
    requires at <= s.now && SweptTo(async, s, s', at, busy, k + 1) && t == s'.(jobs := s'.jobs[k := s.jobs[k]])
    requires LedgerInv(t) && FreshWork(t)
    ensures SweptRow(async, t, s', at, busy, k) && LedgerInv(s') && FreshWork(s')
  {
    if Stale(t.jobs[k], at - SYNC_TIMEOUT, at - async) && k !in busy {
      NextLedger(async, t, RequeueStale(k, at));
      assert s'.jobs == t.jobs[k := Requeued(t.jobs[k], at)];
    } else {
      assert s'.jobs == t.jobs;
    }
  }
}

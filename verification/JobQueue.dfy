/** The job table: one row per job, and the statements that change it. Times are in nanoseconds. */
module JobQueue {
  import opened Wrappers
  import Backoff

  const CREATE_RUN := "CREATE_RUN"
  const IMAGE_SCAN := "IMAGE_SCAN"

  const SYNC_TIMEOUT := 45_000_000_000     // a running in-process job is stale after 45 s without a stamp
  const DEFERRAL := 10_000_000_000         // a transient condition is retried after 10 s
  const OUTAGE := 300_000_000_000          // an unavailable provider, or an open circuit, after 5 min

  datatype Status = Queued | Running | Retry | Succeeded | Failed

  datatype Job = Job(kind: string, status: Status, attempts: int, maxAttempts: int, runAt: int, createdAt: int,
                     lockedBy: string, lockedAt: Option<int>, updatedAt: int)

  predicate Waiting(job: Job) { job.status == Queued || job.status == Retry }

  predicate Claimable(job: Job, at: int) { Waiting(job) && job.runAt <= at }

  /** Neither lock column is set. */
  predicate Unlocked(job: Job) { job.lockedBy == "" && job.lockedAt == None }

  function Created(kind: string, runAt: Option<int>, maxAttempts: int, now: int): Job {
    Job(kind, Queued, 0, if maxAttempts <= 0 then 3 else maxAttempts, if runAt.Some? then runAt.value else now, now, "", None, now)
  }

  function Claimed(job: Job, worker: string, at: int): Job {
    job.(status := Running, lockedAt := Some(at), lockedBy := worker, attempts := job.attempts + 1, updatedAt := at)
  }

  /** The heartbeat's guarded update. */
  function Beaten(job: Job, worker: string, at: int): Job {
    if job.status == Running && job.lockedBy == worker then job.(lockedAt := Some(at), updatedAt := at) else job
  }

  predicate Stale(job: Job, syncBefore: int, asyncBefore: int) {
    var before := if job.kind == CREATE_RUN then asyncBefore else syncBefore;
    job.status == Running && (if job.lockedAt.Some? then job.lockedAt.value < before else job.updatedAt < before)
  }

  function Requeued(job: Job, at: int): Job {
    job.(status := Retry, lockedAt := None, lockedBy := "", runAt := at + Backoff.Delay(job.attempts), updatedAt := at)
  }

  /** The unguarded status update; a retry without a time is due now. */
  function Updated(job: Job, status: Status, next: Option<int>, now: int): Job {
    var released := job.(status := status, lockedAt := None, lockedBy := "", updatedAt := now);
    if status == Retry then released.(runAt := if next.Some? then next.value else now) else released
  }

  /** attempts = GREATEST(attempts - 1, 0). */
  function RolledBack(job: Job): Job {
    job.(attempts := if job.attempts - 1 >= 0 then job.attempts - 1 else 0)
  }

  /** What reconciliation with the cluster does to a run. */
  datatype Finding = Orphaned | Done | Broken | Alive

  function Reconciled(job: Job, finding: Finding, now: int): Job {
    match finding
    case Orphaned => job.(status := Queued, lockedAt := None, lockedBy := "", updatedAt := now)
    case Done => job.(status := Succeeded, lockedAt := None, lockedBy := "", updatedAt := now)
    case Broken => job.(status := Failed, lockedAt := None, lockedBy := "", updatedAt := now)
    case Alive => job.(updatedAt := now)
  }

  /** The Kubernetes side of a run: no such job, or its counters and whether its pod is in an error state. */
  datatype Cluster = Missing | Seen(active: nat, succeeded: nat, failed: nat, podError: bool)

  function FindingOf(c: Cluster): Finding {
    if c.Missing? then Broken
    else if c.active > 0 then (if c.podError then Broken else Alive)
    else if c.succeeded > 0 then Done
    else if c.failed > 0 || c.podError then Broken
    else Alive
  }

  /** Where the Kubernetes job leaves the run: one that finished well SUCCEEDED; one that is gone, failed or has a pod in error
      FAILED; any other untouched but for its time stamp. A decided run is unlocked. */
  lemma ReconciledMeaning(job: Job, c: Cluster, now: int)
    ensures var job' := Reconciled(job, FindingOf(c), now);
      var well := c.Seen? && c.active == 0 && c.succeeded > 0;
      var badly := c.Missing? || (!well && (c.podError || (c.active == 0 && c.failed > 0)));
      if well then job' == job.(status := Succeeded, lockedBy := "", lockedAt := None, updatedAt := now)
      else if badly then job' == job.(status := Failed, lockedBy := "", lockedAt := None, updatedAt := now)
      else job' == job.(updatedAt := now)
    ensures Reconciled(job, Orphaned, now) == job.(status := Queued, lockedBy := "", lockedAt := None, updatedAt := now)
  {}

  /** How an attempt ended, as processJob classifies it. */
  datatype Outcome = CircuitOpen | Success | Transient | Outage | NonRetryable | Countable

  function Verdict(kind: string, attempts: int, maxAttempts: int, o: Outcome, now: int): (Status, Option<int>) {
    match o
    case CircuitOpen => (Retry, Some(now + OUTAGE))
    case Success => (if kind == CREATE_RUN then Running else Succeeded, None)
    case Transient => (Retry, Some(now + DEFERRAL))
    case Outage => (Retry, Some(now + OUTAGE))
    case NonRetryable => (Failed, None)
    case Countable => if attempts < maxAttempts then (Retry, Some(now + Backoff.Delay(attempts))) else (Failed, None)
  }

  /** The final update. A refused retry, which a newer queued twin causes, falls back to FAILED; a refused circuit deferral
      leaves the row as it is. */
  function Concluded(job: Job, attempts: int, maxAttempts: int, o: Outcome, refused: bool, now: int): Job {
    var (status, next) := Verdict(job.kind, attempts, maxAttempts, o, now);
    if !refused || status != Retry then Updated(job, status, next, now)
    else if o == CircuitOpen then job
    else Updated(job, Failed, None, now)
  }

  /** What every outcome leaves: the status and, for a retry, when it is due. */
  lemma ConcludedMeaning(job: Job, attempts: int, maxAttempts: int, o: Outcome, refused: bool, now: int)
    ensures var job' := Concluded(job, attempts, maxAttempts, o, refused, now);
      && (o == Success ==> job'.status == if job.kind == "CREATE_RUN" then Running else Succeeded)
      && (o == NonRetryable ==> job'.status == Failed)
      && (o == Countable && maxAttempts <= attempts ==> job'.status == Failed)
      && (o == Countable && attempts < maxAttempts && !refused ==> job'.status == Retry && (attempts <= 28 ==> job'.runAt == now + Backoff.Ideal(attempts)))
      && (o == Transient && !refused ==> job'.status == Retry && job'.runAt == now + 10_000_000_000)
      && ((o == Outage || o == CircuitOpen) && !refused ==> job'.status == Retry && job'.runAt == now + 300_000_000_000)
      && (refused && (o == Transient || o == Outage || (o == Countable && attempts < maxAttempts)) ==> job'.status == Failed)
      && (refused && o == CircuitOpen ==> job' == job)
    ensures var job' := Concluded(job, attempts, maxAttempts, o, refused, now);
      (refused && o == CircuitOpen) || job' == job.(status := job'.status, runAt := job'.runAt, lockedBy := "", lockedAt := None, updatedAt := now)
  {
    Backoff.DelayExactly(attempts);
  }

  /** The answer to a scanner's report. */
  datatype Reply = Accepted | NotFound | Forbidden | BadRequest

  function OutcomeOf(report: string): Option<Outcome> {
    if report == "succeeded" then Some(Success)
    else if report == "failed" then Some(NonRetryable)
    else if report == "retry" then Some(Countable)
    else None
  }

  function ReplyTo(rows: seq<Job>, id: nat, report: string): Reply {
    if id >= |rows| then NotFound
    else if rows[id].kind != IMAGE_SCAN then Forbidden
    else if OutcomeOf(report).None? then BadRequest
    else Accepted
  }

  /** A job that comes back from a stale worker cannot be claimed at that instant, exactly while the backoff has not overflowed. */
  lemma RequeuedWaits(job: Job, at: int)
    ensures !Claimable(Requeued(job, at), at) <==> job.attempts <= 28 || Backoff.Lucky(job.attempts)
    ensures job.attempts <= 28 ==> forall t :: Claimable(Requeued(job, at), t) <==> t >= at + Backoff.Ideal(job.attempts)
    ensures Requeued(job, at) == job.(status := Retry, runAt := Requeued(job, at).runAt, lockedBy := "", lockedAt := None, updatedAt := at)
  {
    Backoff.DelayExactly(job.attempts);
  }

  // Claiming order.

  /** ORDER BY run_at, created_at. */
  predicate NoLater(a: Job, b: Job) {
    a.runAt < b.runAt || (a.runAt == b.runAt && a.createdAt <= b.createdAt)
  }

  /** The rows one claim looks at: due, not locked by another transaction, and of a wanted kind. */
  predicate Eligible(rows: seq<Job>, k: nat, at: int, busy: set<nat>, wanted: string -> bool)
    requires k < |rows|
  {
    Claimable(rows[k], at) && k !in busy && wanted(rows[k].kind)
  }

  function NotIn(excluded: set<string>): string -> bool { kind => kind !in excluded }

  function Exactly(kind: string): string -> bool { k => k == kind }

  /** The first eligible row in claiming order. */
  method First(rows: seq<Job>, at: int, busy: set<nat>, wanted: string -> bool) returns (found: Option<nat>)
    ensures found.None? <==> forall k | 0 <= k < |rows| :: !Eligible(rows, k, at, busy, wanted)
    ensures found.Some? ==> found.value < |rows| && Eligible(rows, found.value, at, busy, wanted)
    ensures found.Some? ==> forall k | 0 <= k < |rows| && Eligible(rows, k, at, busy, wanted) :: NoLater(rows[found.value], rows[k])
  {
    found := None;
    for i := 0 to |rows|
      invariant found.None? <==> forall k | 0 <= k < i :: !Eligible(rows, k, at, busy, wanted)
      invariant found.Some? ==> found.value < i && Eligible(rows, found.value, at, busy, wanted)
      invariant found.Some? ==> forall k | 0 <= k < i && Eligible(rows, k, at, busy, wanted) :: NoLater(rows[found.value], rows[k])
    {
      if Eligible(rows, i, at, busy, wanted) && (found.None? || !NoLater(rows[found.value], rows[i])) {
        found := Some(i);
      }
    }
  }

  /** How many of the first n rows a sweep requeues. */
  function StaleCount(rows: seq<Job>, n: nat, syncBefore: int, asyncBefore: int, busy: set<nat>): nat
    requires n <= |rows|
  {
    if n == 0 then 0
    else StaleCount(rows, n - 1, syncBefore, asyncBefore, busy)
         + (if Stale(rows[n - 1], syncBefore, asyncBefore) && n - 1 !in busy then 1 else 0)
  }

  /** Jobs are identified by their position. */
  class JobTable {
    var rows: seq<Job>

    constructor ()
      ensures rows == []
    {
      rows := [];
    }

    method CreateJob(kind: string, runAt: Option<int>, maxAttempts: int, now: int) returns (id: Option<nat>)
      modifies this
      ensures id.None? <==> kind == ""
      ensures rows == if kind == "" then old(rows) else old(rows) + [Created(kind, runAt, maxAttempts, now)]
      ensures id.Some? ==> id.value == |old(rows)| && |rows| == |old(rows)| + 1
      ensures id.Some? ==>
        var job := rows[|old(rows)|];
        && job.kind == kind && job.status == Queued && job.attempts == 0 && job.lockedBy == "" && job.lockedAt == None
        && job.maxAttempts == (if maxAttempts >= 1 then maxAttempts else 3)
        && job.runAt == (if runAt == None then now else runAt.value) && job.createdAt == job.updatedAt == now
    {
      if kind == "" { return None; }
      var due := now;
      if runAt.Some? { due := runAt.value; }
      var max := maxAttempts;
      if max <= 0 { max := 3; }
      id := Some(|rows|);
      rows := rows + [Job(kind, Queued, 0, max, due, now, "", None, now)];
    }

    method Claim(worker: string, at: int, busy: set<nat>, wanted: string -> bool) returns (id: Option<nat>)
      modifies this
      ensures id.None? <==> forall k | 0 <= k < |old(rows)| :: !Eligible(old(rows), k, at, busy, wanted)
      ensures id.None? ==> rows == old(rows)
      ensures id.Some? ==> id.value < |old(rows)| && Eligible(old(rows), id.value, at, busy, wanted)
      ensures id.Some? ==> forall k | 0 <= k < |old(rows)| && Eligible(old(rows), k, at, busy, wanted) :: NoLater(old(rows)[id.value], old(rows)[k])
      ensures id.Some? ==> rows == old(rows)[id.value := Claimed(old(rows)[id.value], worker, at)]
    {
      id := First(rows, at, busy, wanted);
      if id.Some? {
        var job := rows[id.value];
        rows := rows[id.value := job.(status := Running, lockedAt := Some(at), lockedBy := worker, attempts := job.attempts + 1, updatedAt := at)];
      }
    }

    method ClaimNextJob(worker: string, at: int, busy: set<nat>, excluded: set<string>) returns (id: Option<nat>)
      modifies this
      ensures id.None? ==> rows == old(rows)
      ensures id.Some? ==> id.value < |old(rows)|
      ensures id.Some? ==> rows == old(rows)[id.value := Claimed(old(rows)[id.value], worker, at)]
      ensures forall k | 0 <= k < |old(rows)| ::
        var job := old(rows)[k];
        (job.status == Queued || job.status == Retry) && job.runAt <= at && k !in busy && job.kind !in excluded ==>
          && id.Some?
          && var first := old(rows)[id.value];
             first.runAt < job.runAt || (first.runAt == job.runAt && first.createdAt <= job.createdAt)
      ensures id.Some? ==>
        && id.value < |old(rows)| && id.value !in busy
        && (var job := old(rows)[id.value]; (job.status == Queued || job.status == Retry) && job.runAt <= at && job.kind !in excluded)
        && rows[id.value] == old(rows)[id.value].(status := Running, lockedBy := worker, lockedAt := Some(at),
                                                  attempts := old(rows)[id.value].attempts + 1, updatedAt := at)
    {
      id := Claim(worker, at, busy, NotIn(excluded));
      assert forall k | 0 <= k < |old(rows)| :: Eligible(old(rows), k, at, busy, NotIn(excluded)) <==>
        (old(rows)[k].status == Queued || old(rows)[k].status == Retry) && old(rows)[k].runAt <= at && k !in busy && old(rows)[k].kind !in excluded;
    }

    method ClaimNextJobOfType(worker: string, at: int, busy: set<nat>, kind: string) returns (id: Option<nat>)
      modifies this
      ensures id.None? ==> rows == old(rows)
      ensures id.Some? ==> id.value < |old(rows)|
      ensures id.Some? ==> rows == old(rows)[id.value := Claimed(old(rows)[id.value], worker, at)]
      ensures forall k | 0 <= k < |old(rows)| ::
        var job := old(rows)[k];
        (job.status == Queued || job.status == Retry) && job.runAt <= at && k !in busy && job.kind == kind ==>
          && id.Some?
          && var first := old(rows)[id.value];
             first.runAt < job.runAt || (first.runAt == job.runAt && first.createdAt <= job.createdAt)
      ensures id.Some? ==>
        && id.value < |old(rows)| && id.value !in busy
        && (var job := old(rows)[id.value]; (job.status == Queued || job.status == Retry) && job.runAt <= at && job.kind == kind)
        && rows[id.value] == old(rows)[id.value].(status := Running, lockedBy := worker, lockedAt := Some(at),
                                                  attempts := old(rows)[id.value].attempts + 1, updatedAt := at)
    {
      id := Claim(worker, at, busy, Exactly(kind));
      assert forall k | 0 <= k < |old(rows)| :: Eligible(old(rows), k, at, busy, Exactly(kind)) <==>
        (old(rows)[k].status == Queued || old(rows)[k].status == Retry) && old(rows)[k].runAt <= at && k !in busy && old(rows)[k].kind == kind;
    }

    /** Every stale row goes back with a backoff, every other row stays as it is. */
    method RequeueStaleJobs(syncBefore: int, asyncBefore: int, now: int, busy: set<nat>) returns (updated: nat)
      modifies this
      ensures |rows| == |old(rows)|
      ensures forall k | 0 <= k < |rows| ::
        rows[k] == if Stale(old(rows)[k], syncBefore, asyncBefore) && k !in busy then Requeued(old(rows)[k], now) else old(rows)[k]
      ensures updated == StaleCount(old(rows), |old(rows)|, syncBefore, asyncBefore, busy)
    {
      updated := 0;
      var i := 0;
      while i < |rows|
        invariant 0 <= i <= |rows| == |old(rows)|
        invariant forall k | 0 <= k < i ::
          rows[k] == if Stale(old(rows)[k], syncBefore, asyncBefore) && k !in busy then Requeued(old(rows)[k], now) else old(rows)[k]
        invariant forall k | i <= k < |rows| :: rows[k] == old(rows)[k]
        invariant updated == StaleCount(old(rows), i, syncBefore, asyncBefore, busy)
      {
        var job := rows[i];
        if Stale(job, syncBefore, asyncBefore) && i !in busy {
          var runAt := Backoff.NextRetryTime(job.attempts, job.maxAttempts, now);
          rows := rows[i := job.(status := Retry, lockedAt := None, lockedBy := "", runAt := runAt, updatedAt := now)];
          updated := updated + 1;
        }
        i := i + 1;
      }
    }

    /** One tick of the heartbeat; a job that is no longer this worker's is left alone. */
    method Heartbeat(id: nat, worker: string, now: int)
      modifies this
      ensures rows == if id < |old(rows)| then old(rows)[id := Beaten(old(rows)[id], worker, now)] else old(rows)
      ensures id < |old(rows)| && old(rows)[id].status == Running && old(rows)[id].lockedBy == worker ==>
        rows[id] == old(rows)[id].(lockedAt := Some(now), updatedAt := now)
      ensures !(id < |old(rows)| && old(rows)[id].status == Running && old(rows)[id].lockedBy == worker) ==> rows == old(rows)
    {
      if id < |rows| && rows[id].status == Running && rows[id].lockedBy == worker {
        rows := rows[id := rows[id].(lockedAt := Some(now), updatedAt := now)];
      }
    }

    method UpdateJobStatus(id: nat, status: Status, next: Option<int>, now: int) returns (ok: bool)
      modifies this
      ensures ok <==> id < |old(rows)|
      ensures rows == if ok then old(rows)[id := Updated(old(rows)[id], status, next, now)] else old(rows)
      ensures ok ==> var job := old(rows)[id];
        rows[id] == job.(status := status, lockedBy := "", lockedAt := None, updatedAt := now,
                         runAt := if status != Retry then job.runAt else if next == None then now else next.value)
    {
      if id >= |rows| { return false; }
      var job := rows[id].(status := status, lockedAt := None, lockedBy := "", updatedAt := now);
      if status == Retry {
        if next.Some? { job := job.(runAt := next.value); } else { job := job.(runAt := now); }
      }
      rows := rows[id := job];
      return true;
    }

    method RollbackAttempt(id: nat)
      modifies this
      ensures rows == if id < |old(rows)| then old(rows)[id := RolledBack(old(rows)[id])] else old(rows)
    {
      if id < |rows| {
        rows := rows[id := rows[id].(attempts := if rows[id].attempts - 1 >= 0 then rows[id].attempts - 1 else 0)];
      }
    }

    /** processJob after the attempt: roll back what does not count, decide, write, and fall back if a retry is refused. */
    method ConcludeJob(id: nat, attempts: int, maxAttempts: int, o: Outcome, rollbackFails: bool, refused: bool, now: int)
      requires id < |rows|
      modifies this
      ensures var job := old(rows)[id];
        var counted := if (o == Transient || o == Outage) && !rollbackFails then RolledBack(job) else job;
        rows == old(rows)[id := Concluded(counted, attempts, maxAttempts, o, refused, now)]
      ensures o == Countable && attempts < maxAttempts && !refused ==>
        rows[id].status == Retry && (attempts <= 28 ==> rows[id].runAt == now + Backoff.Ideal(attempts))
    {
      Backoff.DelayExactly(attempts);
      var kind := rows[id].kind;
      var status, next := Failed, None;
      match o {
        case CircuitOpen => status, next := Retry, Some(now + OUTAGE);
        case Success => status := if kind == CREATE_RUN then Running else Succeeded;
        case Transient =>
          status, next := Retry, Some(now + DEFERRAL);
          if !rollbackFails { RollbackAttempt(id); }
        case Outage =>
          status, next := Retry, Some(now + OUTAGE);
          if !rollbackFails { RollbackAttempt(id); }
        case NonRetryable =>
        case Countable =>
          if attempts < maxAttempts {
            var at := Backoff.NextRetryTime(attempts, maxAttempts, now);
            status, next := Retry, Some(at);
          }
      }
      if refused && status == Retry {
        if o == CircuitOpen { return; }
        status, next := Failed, None;
      }
      var _ := UpdateJobStatus(id, status, next, now);
    }

    /** A scanner pod reports the end of its lease; a retry counts against the row's own attempts. */
    method CompleteImageScan(id: nat, report: string, now: int) returns (reply: Reply)
      modifies this
      ensures reply == ReplyTo(old(rows), id, report)
      ensures reply != Accepted ==> rows == old(rows)
      ensures reply == Accepted ==>
        var job := old(rows)[id];
        rows == old(rows)[id := Concluded(job, job.attempts, job.maxAttempts, OutcomeOf(report).value, false, now)]
      ensures reply == NotFound <==> id >= |old(rows)|
      ensures reply == Forbidden <==> id < |old(rows)| && old(rows)[id].kind != "IMAGE_SCAN"
      ensures reply == Accepted <==>
        id < |old(rows)| && old(rows)[id].kind == "IMAGE_SCAN" && (report == "succeeded" || report == "failed" || report == "retry")
      ensures reply == Accepted ==>
        var job, job' := old(rows)[id], rows[id];
        && (report == "succeeded" ==> job'.status == Succeeded)
        && (report == "failed" || (report == "retry" && job.attempts >= job.maxAttempts) ==> job'.status == Failed)
        && (report == "retry" && job.attempts < job.maxAttempts ==>
              job'.status == Retry && (job.attempts <= 28 ==> job'.runAt == now + Backoff.Ideal(job.attempts)))
    {
      if id < |rows| { Backoff.DelayExactly(rows[id].attempts); }
      if id >= |rows| { return NotFound; }
      var job := rows[id];
      if job.kind != IMAGE_SCAN { return Forbidden; }
      var status, next := Failed, None;
      if report == "succeeded" {
        status := Succeeded;
      } else if report == "failed" {
        status := Failed;
      } else if report == "retry" {
        if job.attempts < job.maxAttempts {
          var at := Backoff.NextRetryTime(job.attempts, job.maxAttempts, now);
          status, next := Retry, Some(at);
        }
      } else {
        return BadRequest;
      }
      var _ := UpdateJobStatus(id, status, next, now);
      return Accepted;
    }

    method ReconcileRun(id: nat, c: Cluster, now: int)
      requires id < |rows|
      modifies this
      ensures rows == old(rows)[id := Reconciled(old(rows)[id], FindingOf(c), now)]
    {
      var job := rows[id].(updatedAt := now);
      if c.Missing? {
        job := job.(status := Failed, lockedAt := None, lockedBy := "");
      } else if c.active > 0 {
        if c.podError { job := job.(status := Failed, lockedAt := None, lockedBy := ""); }
      } else if c.succeeded > 0 {
        job := job.(status := Succeeded, lockedAt := None, lockedBy := "");
      } else if c.failed > 0 {
        job := job.(status := Failed, lockedAt := None, lockedBy := "");
      } else if c.podError {
        job := job.(status := Failed, lockedAt := None, lockedBy := "");
      }
      rows := rows[id := job];
    }
  }
}

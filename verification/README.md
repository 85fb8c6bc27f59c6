# SPAM: verified core

A Dafny model of the parts of SPAM (a security and asset portal: Go API, worker and scanner) whose behaviour is decided by
interleavings or by unbounded inputs, with proofs of what they promise.

| component | modules |
|---|---|
| Refresh of materialized views by several replicas: debounce stamps, source fingerprint, advisory lock, re-check, record, trigger gate, trailing retry, cascade | `RefreshProtocol`, `RefreshCall`, `RefreshWatch`, `RefreshSafety`, `TrailingRetry`, `RefreshCascade`, `RefreshLimits`, `RefreshGate` |
| Job queue: claim, heartbeat, stale requeue, status update, attempt rollback, reconciliation, backoff, circuit breaker | `JobQueue`, `JobRuns`, `JobSafety`, `JobSigns`, `JobOutcomes`, `JobFleet`, `Backoff`, `CircuitBreaker` |
| Scanner operator: leader lease and pod cap | `ScannerLease` |
| Access control: grants compiled to SQL text with positional arguments, hidden namespaces | `SqlSyntax`, `SqlMeaning`, `SqlParts`, `Glob`, `HiddenNamespaces`, `AclGrants`, `AclTrees`, `AclScopes`, `AclCompiler`, `AclClauses`, `AclLaws` |
| Server-sent-event hub and line splitter | `StreamIds`, `EventStream`, `EventDispatch`, `LineWriter` |

`dafny verify dfyconfig.toml` checks everything.

## How to read the model

**Refresh protocol.** A refresh loop is a program counter (`Pc`) over a shared database value, and one `Execute` is one
statement of the source: a query, a lock attempt, the evaluation of a view, its commit, the upsert of the stamps, the unlock,
the cascade, the end of an iteration. A run interleaves these with clock ticks, source changes and triggers of any number of
replicas. Queries, the lock request, view refreshes, the upsert and the unlock may fail, with or without effect; the re-check
under the lock fails only in configurations that say so, as the source's own do. `RefreshCall` writes the same call as
straight-line code with its loops over views and stamp rows, and proves that it performs exactly those actions. `RefreshWatch`
observes a call from outside, and derives what it must return and write from what its statements met. The theorems
quantify over the family's configuration; `RefreshCascade.Families` instantiates them for `asset_risk`, `host_exposure`,
`cluster_summary`, the unified vulnerability views and the SBOM views. Assumed: one clock for all replicas and the database, a
fingerprint that strictly grows with every source change, views that stay populated, no process death between the record and
the cascade, and a connection holding the lock that outlives the call (`RefreshLimits.MutualExclusionExactly` and
`RateLimitExactly` say what depends on the last).

**Job queue.** `JobQueue` has the table as an object whose methods are the statements; the row functions in their contracts
are the steps of the machine in `JobRuns`, which also keeps one entry per claim, and `JobFleet` shows that every operation of
the table is a step of the machine. Theorems about a job ask conditions of the steps on that job only.

**Access control.** The compilers emit tokens. `SqlSyntax` has a recursive-descent parser with the precedence of AND over OR that
binds each `?` from left to right, and `SqlMeaning` says when a parsed condition is true of a row, NULL columns and subqueries
included. The contracts of the clause builders speak only of the parsed text and of `AclGrants`, which says on rows, without any
SQL, what grants are meant to open.

**Where code and comments differ, the model follows the code.** The debounce queries count a failed query as "not recently
refreshed" (`api/internal/db/views.go:662-684`), so the rate limit of the comments needs a re-check that does not fail
(`RefreshLimits.RateLimitExactly`), and so does the comment that a second consecutive skip covers the trigger
(`api/internal/assetrisk/metrics.go:261-263`); the code's two retries make up for it (`RefreshLimits.LosesNothingExactly`).
Dispatches of events may overlap and then reach clients in different orders: `EventDispatch.OrderExactly`. The backoff is documented as capped doubling, and overflows from the 29th attempt on:
`Backoff.DelayExactly`. The global and the per-provider circuit check disagree at the last instant of a cooldown:
`CircuitBreaker.ChecksDisagreeExactly`. A wildcard repository grant can take images away: `AclLaws.ImageGrowsExactly`. `releaseLease`
is modelled although nothing calls it.

## Model

| member | source | states |
|---|---|---|
| `RefreshCall.ViewFamily.Refresh` | api/internal/db/host_exposure_view.go:53-114 | In every world of delays, source changes and failing statements, the call ends in the state and with the (changed, error) pair that the protocol's actions lead to in that world; without failures a free lock is free again |
| `RefreshCall.OutcomeIsUnique` | api/internal/db/host_exposure_view.go:53-114 | In every world the actions have one outcome, so the previous row pins down the call's result and final state |
| `RefreshCall.ActIsSteps` | api/internal/db/host_exposure_view.go:53-114 | An action of a call is a tick, a source change and one step of the replica's loop in the machine that the safety theorems are about |
| `RefreshCall.BackstopRefreshes` | api/internal/db/host_exposure_view.go:69-114 | Without faults and with a free lock, a call on a family with a stamp older than both the debounce interval and the greatest skip age records a new stamp and the captured fingerprint for every view, matching fingerprint or not, and reports a change exactly when the captured fingerprint was not recorded for every view |
| `RefreshWatch.CallOutcome` | api/internal/db/host_exposure_view.go:53-114 | In every run, a call that has ended returns the (changed, error) pair that an observer derives from the stamps, clocks, lock and faults its statements met, and has sent every statement it owes |
| `RefreshWatch.UnchangedMeans` | api/internal/db/host_exposure_view.go:55-77 | In every run, a call that returns (false, nil) found every stamp within the debounce interval of its clock, or the captured fingerprint recorded for every view with every stamp within the greatest skip age of its clock, or refreshed every view on the backstop |
| `RefreshWatch.StepWrites` | api/internal/db/views.go:566-582 | In every run, a record gives every view the time at which all views were done and the captured fingerprint, a commit writes the version just evaluated into the next view, lock and unlock do that, and no other statement writes |
| `RefreshWatch.IterationEnds` | api/internal/assetrisk/metrics.go:273-288 | In every run, a skipped call is repeated after the debounce interval and five seconds while the budget lasts and a failed one is not; otherwise a pending trigger starts over with a full budget, or the loop ends |
| `RefreshCall.ViewFamily.DecideRefresh` | api/internal/db/host_exposure_view.go:55-77 | Debounce, fingerprint and age checks stop with (false, nil) or ask for the lock as the actions do in the same world, with the same captured fingerprint |
| `RefreshCall.ViewFamily.RefreshViews` | api/internal/db/host_exposure_view.go:107-111 | The loop over the views is the chain of evaluate and commit actions in order, each at its own time, and the first failure leads to an unlock with an error |
| `RefreshCall.ViewFamily.RefreshLocked` | api/internal/db/asset_risk_view.go:80-101 | Re-check, refresh and record under the lock follow the actions, and the unlock is sent on every path |
| `RefreshCall.ViewFamily.RecentlyRefreshed` | api/internal/db/views.go:662-684 | True exactly when the query succeeds, the age is positive and every view of the family has a stamp at or after the cutoff |
| `RefreshCall.ViewFamily.SourceVersionMatches` | api/internal/db/views.go:600-621 | True exactly when the query succeeds, there is a fingerprint and every view recorded it |
| `RefreshCall.ViewFamily.RecordRefresh` | api/internal/db/views.go:566-582 | One upsert gives every row of the family the same stamp and fingerprint |
| `RefreshSafety.MutualExclusion` | api/internal/db/asset_risk_view.go:68-92 | In every run, lost replies and failed unlocks included, at most one replica is between acquiring and releasing a family's lock |
| `RefreshLimits.MutualExclusionExactly` | api/internal/db/asset_risk_view.go:68-92 | For every family, mutual exclusion holds of all runs if and only if the connection that holds the lock outlives the call |
| `RefreshSafety.RateLimit` | api/internal/db/views.go:766-812 | In every run of any number of replicas the recorded stamps of a family never go back, and any two are more than its debounce interval apart unless a re-check may fail open |
| `RefreshLimits.RateLimitExactly` | api/internal/db/asset_risk_view.go:85-89 | For every family, the rate limit holds of all runs if and only if the re-check under the lock cannot fail open and the lock's connection outlives the call |
| `RefreshSafety.RecordedNeverAhead` | api/internal/db/views.go:566-582 | In every reachable state, after partial failures and stale captures too, the recorded fingerprint is at most the version of every view, and no view is ahead of the source |
| `RefreshSafety.FingerprintSkip` | api/internal/db/cluster_summary_view.go:76-80 | When a call skips on its fingerprint, every view reflects what the call's triggers announced, and if the source is still what was captured a rebuild changes nothing |
| `TrailingRetry.NeverLost` | api/internal/assetrisk/metrics.go:242-290 | In every reachable state, failing re-checks included, each trigger is still being worked for, or its change is in the view, or an iteration for it ended with an error |
| `TrailingRetry.SkipMeansIdle` | api/internal/db/asset_risk_view.go:53-58 | In every run, when an attempt at clock t0 is skipped as recently refreshed, any refresh under way read its clock at most one interval before t0, and after t0 unless a re-check may fail open |
| `RefreshLimits.ShadowsNothingExactly` | api/internal/db/asset_risk_view.go:53-89 | For every family, no skip at t0 shadows a refresh begun by t0 if and only if re-checks cannot fail open |
| `TrailingRetry.LastSkipMeansRefreshed` | api/internal/assetrisk/metrics.go:252-276 | In every run, a skip after one earlier skip of the iteration (two if re-checks may fail) means that some replica has recorded a refresh whose snapshot is later than every trigger the iteration works for |
| `RefreshLimits.LosesNothingExactly` | api/internal/assetrisk/metrics.go:264-277 | No trigger is lost if and only if the loop has two retries, or one and a re-check that cannot fail |
| `RefreshCascade.CascadeComplete` | api/internal/hostexposure/refresh.go:87-126 | In every run the recorded fingerprint never runs ahead of the `exposed_digests` version for which the downstream trigger was fired, or is owed by an iteration that has not fired it yet |
| `RefreshCascade.CascadeReachesTriage` | api/internal/hostexposure/refresh.go:96-111 | With both families run together: once a fingerprint is recorded and no cascade is owed, `asset_risk` reflects that version or later, unless a loop is still at work for it or ended with an error |
| `RefreshCascade.CascadeExactly` | api/internal/hostexposure/refresh.go:96-111 | In every run of the two families, a host-exposure move triggers `asset_risk` on its replica exactly when its call has returned after refreshing every view without having found the captured fingerprint recorded for all of them; debounced, fingerprint-matched and backstop calls leave the `asset_risk` loops as they were |
| `RefreshCascade.CouplingFree` | api/internal/hostexposure/refresh.go:87-126 | The composition of the two families never blocks a host-exposure action, since `exposed_digests` never goes back |
| `RefreshCascade.Families` | api/internal/db/views.go:53-84 | The five families as configured meet the conditions of the theorems, `asset_risk` those of the never-lost theorem with a re-check that fails open |
| `RefreshCascade.HostExposureReachesTriage` | api/internal/hostexposure/refresh.go:96-111 | The end-to-end result for `host_exposure` and `asset_risk` as configured |
| `RefreshGate.RefreshGate.TriggerRefresh` | api/internal/clustersummary/refresh.go:42-51 | Starts a loop exactly when none is running, otherwise leaves the pending bit; keeps the gate invariant |
| `RefreshGate.RefreshGate.EndIteration` | api/internal/clustersummary/refresh.go:60-68 | Goes round again exactly when a trigger is pending; when the gate opens, the latest call had seen every trigger |
| `RefreshGate.CoalescingLosesNothing` | api/internal/clustersummary/refresh.go:42-70 | In every interleaving: at most one loop, pending implies inflight, calls never outnumber triggers, and whenever inflight is false every earlier trigger was followed by a call that started after it |
| `JobQueue.First` | api/internal/jobs/worker.go:23-38 | None exactly when no row is eligible; otherwise an eligible row that is first by run_at, then created_at |
| `JobQueue.JobTable.ClaimNextJob` | api/internal/jobs/worker.go:18-67 | Claims a row that is queued or in retry, due, not locked by another transaction and not of an excluded type, first by run_at and then created_at: RUNNING, stamped, owned, one attempt more; every other row unchanged; none only when there is no such row |
| `JobQueue.JobTable.ClaimNextJobOfType` | api/internal/jobs/worker.go:73-116 | The same, among the rows of one type |
| `JobQueue.JobTable.RequeueStaleJobs` | api/internal/jobs/worker.go:132-178 | Exactly the stale rows (45 s rule, longer for CREATE_RUN, updated_at where the stamp is NULL) go back with backoff; all others stay; the count is the number of them |
| `JobQueue.JobTable.Heartbeat` | api/internal/jobs/runtime.go:29-38 | Sets the stamp to now exactly when the row is RUNNING and names this worker; otherwise no row changes |
| `JobQueue.JobTable.CreateJob` | api/internal/jobs/jobs.go:43-77 | Refuses an empty type; otherwise appends a queued row with zero attempts, three allowed by default, due now by default |
| `JobQueue.JobTable.UpdateJobStatus` | api/internal/jobs/jobs.go:80-140 | Fails on a missing row; otherwise sets any status over any status, clears the lock, and for a retry sets the time given, or now |
| `JobQueue.JobTable.RollbackAttempt` | api/cmd/worker/main.go:515-518 | One attempt fewer, floored at zero |
| `JobQueue.JobTable.ConcludeJob` | api/cmd/worker/main.go:484-567 | For each of the six outcomes: which failures give the attempt back, the next status and time, FAILED when a retry is refused, and an untouched row when a circuit deferral is; a counted failure below the maximum is retried by the documented backoff |
| `JobQueue.ConcludedMeaning` | api/cmd/worker/main.go:505-567 | What each outcome leaves: SUCCEEDED, or RUNNING for a CREATE_RUN; RETRY due by the documented backoff, in 10 s or in 5 min; FAILED |
| `JobQueue.JobTable.CompleteImageScan` | api/internal/runner/image_lease_handlers.go:147-204 | The four replies and exactly when each is given; on acceptance the row ends as reported, and a retry is put back by the documented backoff while attempts are left and fails otherwise |
| `JobQueue.JobTable.ReconcileRun` | api/internal/runner/reconcile.go:76-133 | The row follows the Kubernetes job: missing, failed or stuck ends FAILED, succeeded ends SUCCEEDED, otherwise only touched |
| `JobQueue.ReconciledMeaning` | api/internal/runner/reconcile.go:76-166 | A run whose Kubernetes job finished well is SUCCEEDED, one whose job is gone, failed or stuck is FAILED, any other is only touched; an orphan is QUEUED |
| `JobQueue.RequeuedWaits` | api/internal/jobs/worker.go:151-160 | A requeued job is in RETRY, unlocked and claimable from the documented backoff on; it is not claimable at its requeue instant if and only if its attempts are at most 28 or one of ten lucky overflows |
| `JobRuns.AttemptLedger` | api/cmd/worker/main.go:508-529 | In every state of every run a job's attempts are its claims less its rollbacks, and a job that is not RUNNING has neither lock column set |
| `JobRuns.FloorNeverBites` | api/cmd/worker/main.go:515-516 | While an attempt that was not rolled back exists, claims exceed rollbacks, so the floor at zero is never reached from below |
| `JobRuns.NextLedger` | api/internal/runner/reconcile.go:135-166 | Every step, reconciliation and lost updates included, keeps the ledger and the lock discipline |
| `JobFleet.Fleet.ClaimNext` | api/internal/jobs/worker.go:18-67 | The claim of the table is the claim step of the machine, and keeps the ledger |
| `JobFleet.Fleet.Beat` | api/internal/jobs/runtime.go:29-38 | A heartbeat of the table is the machine's, and keeps the ledger |
| `JobFleet.Fleet.Finish` | api/cmd/worker/main.go:530-567 | The end of an attempt at the table is the machine's concluding step, and keeps the ledger |
| `JobFleet.Fleet.Postpone` | api/cmd/worker/main.go:508-529 | An uncounted failure at the table is the machine's rollback, lost or not, followed by its concluding step |
| `JobFleet.Fleet.Report` | api/internal/runner/image_lease_handlers.go:147-204 | An accepted report of a scanner is the machine's concluding step, and a refused one changes nothing |
| `JobFleet.Fleet.Reconcile` | api/internal/runner/reconcile.go:76-133 | Reconciliation of a run at the table is the machine's step, and keeps the ledger |
| `JobFleet.Fleet.Sweep` | api/internal/jobs/worker.go:132-178 | A sweep of the table is a series of the machine's requeue steps, one per stale row in order, and keeps the ledger |
| `JobSafety.ExclusiveExecution` | api/internal/jobs/worker.go:132-178 | If the live attempt of a job keeps its stamp within 45 s, then from claim to final update a job run in-process has one live attempt, which its row names, and no step claims or requeues it, whatever happens to other jobs |
| `JobSigns.BeatingIsPunctual` | api/internal/jobs/runtime.go:18-40 | In every run in which the job's latest claim or own heartbeat is at most 45 s old whenever it has a live attempt, its stamp is punctual in every state |
| `JobSigns.ExclusiveByBeats` | api/internal/jobs/runtime.go:18-40 | So exclusive execution follows from the times of claims and heartbeats alone |
| `JobSigns.BeatExactly` | api/internal/jobs/runtime.go:29-38 | In every run a heartbeat renews the stamp of a running row that names its worker and changes nothing else; any other heartbeat changes nothing |
| `JobSigns.RequeuedExactly` | api/internal/jobs/worker.go:137-147 | In every run a sweep may requeue a job exactly when it is RUNNING and its latest claim or heartbeat, or its latest update when unlocked, is more than 45 s ago, or more than the longer timeout for a CREATE_RUN |
| `JobSigns.CreatedJob` | api/internal/jobs/jobs.go:43-77 | In every run a new job is queued, unlocked and without attempts, allowed three by default, and claimable exactly from its due time on |
| `JobSafety.LateStampBreaksBoth` | api/internal/jobs/worker.go:151-160 | One late stamp suffices for two live attempts of one job, and for attempts and counted failures above the maximum |
| `JobSafety.RetryBudget` | api/cmd/worker/main.go:505-554 | On every run without stale requeue, orphan requeue or circuit deferral of the job, it has at most MaxAttempts counted failures, however many deferrals and lost rollbacks interleave; with that many it has no attempt at work, is out of the queue, is FAILED unless it is a CREATE_RUN that reconciliation moved, and is never claimed |
| `JobSafety.LastFailure` | api/cmd/worker/main.go:533-541 | On such a run the counted failure that uses up the budget leaves the job FAILED, a CREATE_RUN included |
| `JobOutcomes.FailureIsRetried` | api/cmd/worker/main.go:533-536 | On runs without requeues, circuit deferrals, lost rollbacks and refused updates of the job, a counted failure below the maximum leaves it in RETRY, claimable from the documented backoff for its number of failures on and not before |
| `JobOutcomes.FailsOnlyWhenItMust` | api/cmd/worker/main.go:505-554 | On such runs a waiting job has as many attempts as counted failures, and a job that is not a CREATE_RUN is FAILED only with exactly MaxAttempts counted failures or after a non-retryable one |
| `JobOutcomes.ConclusionExactly` | api/cmd/worker/main.go:484-567 | In every run, the status and due time that the end of an attempt leaves, for each outcome |
| `JobRuns.FailuresAreClaims` | api/cmd/worker/main.go:505-554 | Counted failures, with an attempt at work beside them, are among the claims that were not rolled back |
| `JobSafety.FailedIsFinal` | api/internal/runner/image_lease_handlers.go:178-190 | On such a run a FAILED job that is not a CREATE_RUN stays FAILED, lost rollbacks included |
| `Backoff.NextRetryTime` | api/internal/jobs/processor.go:574-588 | The loop computes the doubled delay in 64-bit arithmetic, capped |
| `Backoff.DelayExactly` | api/internal/jobs/processor.go:574-588 | The delay is min(2^(attempts-1), 30) minutes exactly for attempts up to 28 and ten overflowing values, and is not even positive for all others |
| `Backoff.DelayMonotone` | api/internal/jobs/processor.go:578-586 | Up to 28 attempts the delay grows with the attempts, between one minute and thirty |
| `CircuitBreaker.Breaker.RecordRunResult` | api/cmd/worker/main.go:76-96 | Keeps the table equal to the replay of the history with this result appended |
| `CircuitBreaker.Breaker.IsProviderCircuitOpen` | api/cmd/worker/main.go:63-74 | Open exactly when the provider's last five results failed and the last failure is less than a cooldown ago |
| `CircuitBreaker.Breaker.IsCircuitOpen` | api/cmd/worker/main.go:46-61 | Open exactly when some provider is known and every known provider is tripped |
| `CircuitBreaker.ReplayMeaning` | api/cmd/worker/main.go:76-96 | For every history the counter is the length of the provider's trailing run of failures, and a tripped circuit stays open until a cooldown after the last of them |
| `CircuitBreaker.ChecksDisagreeExactly` | api/cmd/worker/main.go:46-74 | The two checks disagree about a provider exactly at the instant its cooldown ends |
| `ScannerLease.LeaseTable.AcquireLease` | api/internal/imagescan/lease.go:41-67 | Leader exactly when the row is one's own or expired, or was missing and its bootstrap has expired; then it is held for 30 s, and a loser changes nothing |
| `ScannerLease.LeaseTable.ReleaseLease` | api/internal/imagescan/lease.go:70-79 | Expires the lease if it is one's own, and changes nothing otherwise |
| `ScannerLease.LeaseExclusive` | api/internal/imagescan/lease.go:41-67 | In every run, acquires by two holders without a release in between are more than a TTL apart |
| `ScannerLease.PodCap` | api/internal/imagescan/operator.go:81-137 | If every pass finishes inside its lease, at most one operator is in a pass and the active pods never exceed the maximum |
| `ScannerLease.PassReachesTarget` | api/internal/imagescan/operator.go:97-137 | A pass plans exactly the pods missing from the queue depth, up to the cap, and undisturbed ends with that many |
| `ScannerLease.OverrunBreaksCap` | api/internal/imagescan/operator.go:81-137 | A pass that outlives its lease can break the cap |
| `SqlSyntax.ParsePrint` | api/internal/acl/scope.go:370-548 | Every printable condition parses back to the same tree under SQL precedence, with no token and no argument left over |
| `SqlParts.PlaceholderCount` | api/internal/acl/scope.go:370-548 | As many placeholders as arguments through every level of nesting |
| `SqlParts.JoinedOr` | api/internal/acl/scope.go:400-403 | Parts joined by OR, and their arguments in order, are the text and arguments of the disjunction |
| `SqlParts.JoinedAnd` | api/internal/hiddenns/hiddenns.go:164-167 | The same for AND |
| `AclTrees.PartsMeaning` | api/internal/acl/scope.go:370-404 | Without a wildcard, the parts compiled for repository, cluster or image grants hold of a row exactly when some grant matches it; for repositories, as `repoPatternMatches` says |
| `AclTrees.ResolveMeaning` | api/internal/acl/scope.go:436-439 | A column is in the resolving subquery exactly when it is the id of a cluster that a grant names by id, trimmed slug or uid |
| `AclScopes.BridgeMeaning` | api/internal/acl/scope.go:169-205 | The bridge holds of a repository exactly when a verified image built from it runs in an opened cluster |
| `AclScopes.InheritMeaning` | api/internal/acl/scope.go:462-496 | The inheritance holds of an image exactly when it runs in an opened cluster in a namespace that is not hidden |
| `AclCompiler.CompilePatterns` | api/internal/acl/scope.go:370-423 | The compile loops report a wildcard wherever it stands, and otherwise emit the text and arguments of the parts of all grants |
| `AclCompiler.AliasMeaning` | api/internal/acl/scope.go:47-50 | An alias is taken without the spaces around it, and replaced by the default when nothing is left |
| `AclCompiler.CompileClusterRepoBridge` | api/internal/acl/scope.go:169-205 | Emits the text and arguments of the bridge, or nothing when no grant names a cluster |
| `AclCompiler.CompileClusterImageInheritance` | api/internal/acl/scope.go:462-496 | Emits the text and arguments of the inheritance with the namespace conditions behind it, or nothing |
| `AclClauses.RepoClauseParts` | api/internal/acl/scope.go:135-151 | Fails exactly when a lookup that is needed fails; cluster grants are not needed after a wildcard |
| `AclClauses.ReadableRepoClause` | api/internal/acl/scope.go:43-78 | For every grant list, database and row: the emitted text, parsed and bound, admits the row exactly when the subject is privileged, or the row is public, or a grant matches, or the bridge reaches it |
| `AclClauses.ReadableRepoClauseStrict` | api/internal/acl/scope.go:91-125 | The same without the public rule, denying everything when nothing is granted |
| `AclClauses.ReadableClusterClause` | api/internal/acl/scope.go:213-235 | Admits exactly the clusters whose id a grant names, or all for a wildcard |
| `AclClauses.ReadableImageClause` | api/internal/acl/scope.go:252-313 | Admits exactly the images with a verified readable source, with a matching grant, or running openly in an opened cluster |
| `AclClauses.RepoNeverDenies` | api/internal/acl/scope.go:285-292 | A repository clause is never the denying text, so the image clause always has its source part |
| `AclLaws.StrictIsSmaller` | api/internal/acl/scope.go:80-125 | The two emitted repository clauses differ by the public repositories and nothing else |
| `AclLaws.WildcardExactly` | api/internal/acl/models.go:87-91 | A single grant opens every repository, every cluster or every image if and only if it sets no field of any scope |
| `AclLaws.RepoGrows` | api/internal/acl/scope.go:43-205 | More grants never remove a repository, with and without the public rule |
| `AclLaws.ClusterGrows` | api/internal/acl/scope.go:406-423 | More grants never remove a cluster |
| `AclLaws.Emitted` | api/internal/acl/scope.go:43-313 | What the four emitted texts admit, parsed and bound, in terms of the grants |
| `AclLaws.ClausesGrow` | api/internal/acl/scope.go:43-235 | The emitted repository, strict and cluster clauses of more grants admit every row that those of fewer admit |
| `AclLaws.ImageGrowsExactly` | api/internal/acl/scope.go:283-292 | More grants never remove an image if and only if every repository with an empty id is private and has no attribute that a grant could name |
| `AclLaws.ImageClausesGrowExactly` | api/internal/acl/scope.go:252-313 | The same, of the emitted image clauses |
| `AclLaws.OrderAndRepetition` | api/internal/acl/scope.go:370-548 | Grant lists with the same elements open the same repositories, clusters and images, wildcards included |
| `AclLaws.ClausesOrderAndRepetition` | api/internal/acl/scope.go:370-548 | Their emitted clauses admit the same rows |
| `HiddenNamespaces.ExclusionSql` | api/internal/hiddenns/hiddenns.go:140-168 | On every row the emitted fragment holds exactly when no non-empty pattern matches the namespace, and is empty when there is none |
| `HiddenNamespaces.MatcherFor` | api/internal/hiddenns/hiddenns.go:196-208 | For any matching function of the library, true exactly when it matches some pattern; a malformed pattern matches nothing |
| `HiddenNamespaces.SqlAgreesWithMatcher` | api/internal/hiddenns/hiddenns.go:190-208 | For validated patterns and namespaces without a slash, SQL keeps a row exactly when the matcher rejects it |
| `Glob.GlobToLike` | api/internal/hiddenns/hiddenns.go:170-184 | The loop writes the escaped translation of every character |
| `Glob.LikeAgrees` | api/internal/hiddenns/hiddenns.go:170-184 | For every glob and every text, LIKE on the translation is star matching |
| `Glob.PathAgrees` | api/internal/hiddenns/hiddenns.go:190-195 | On texts without a slash, path matching of plain patterns is star matching |
| `Glob.HidesEverything` | api/internal/hiddenns/hiddenns.go:47-61 | Among namespace-shaped patterns, the all-star ones are exactly those that would hide every namespace |
| `Glob.ValidatePattern` | api/internal/hiddenns/hiddenns.go:47-61 | Accepts exactly the patterns of at most 63 characters that become a label by putting letters for the stars and hold more than stars; and which objection is raised first |
| `EventStream.StreamHub.RegisterStream` | api/internal/events/stream.go:40-58 | A new open client with this user and these rights under a new id, indexed under its user; the index and the channels stay consistent |
| `EventStream.StreamHub.UnregisterStream` | api/internal/events/stream.go:60-76 | The client leaves the index, an empty user entry goes, and its channel closes |
| `EventStream.StreamHub.Dispatch` | api/internal/events/stream.go:98-115 | Exactly the indexed clients that may see the event and have fewer than eight buffered get it, and nothing else changes |
| `EventDispatch.HubSafety` | api/internal/events/stream.go:40-115 | In every interleaving no send meets a closed channel, buffers hold at most eight, non-admins get no admin-only event, and clients get genuine events, none twice, and none after one of a dispatch that began when its own was over |
| `EventDispatch.JoinDecides` | api/internal/events/stream.go:40-46 | In every run a client has the user and rights it joined with and is connected until it leaves; one that did not join as an admin never gets an admin-only event |
| `EventDispatch.DeliveryExactly` | api/internal/events/stream.go:98-115 | In every run what a client has got grows by exactly the events of the dispatches that visit it while fewer than eight are buffered and it may see them, and its handler takes them in that order |
| `EventDispatch.OrderExactly` | api/internal/events/stream.go:98-115 | Every client's events are an in-order selection of the dispatched ones, over all runs, if and only if dispatches do not overlap |
| `EventDispatch.OverlapReorders` | api/internal/events/stream.go:98-115 | Wherever two dispatches overlap before a client that wants both and has room, the client can get the later one first |
| `StreamIds.Itoa` | api/internal/events/stream.go:122-134 | Filling the 20-byte buffer backwards never underruns on a uint64 and leaves its decimal form |
| `StreamIds.DecimalDenotes` | api/internal/events/stream.go:122-134 | The digits denote the number in decimal |
| `StreamIds.IdsDistinct` | api/internal/events/stream.go:117-134 | Different counters give different ids |
| `LineWriter.Writer.Write` | runner/imagescan/imagescan.go:669-686 | Whatever the division into writes, the log is that of the whole stream and the buffer is its tail |
| `LineWriter.LoggedMeaning` | runner/imagescan/imagescan.go:669-686 | What is logged are the non-empty complete lines in order, with the prefix |
| `LineWriter.SplitJoin` | runner/imagescan/imagescan.go:669-686 | Complete lines with their newlines and the tail rebuild the stream |
| `LineWriter.SplitUnique` | runner/imagescan/imagescan.go:669-686 | No other newline-free lines and tail rebuild it |
| `LineWriter.SplitResumes` | runner/imagescan/imagescan.go:669-686 | Splitting resumes from the buffered tail: later bytes never disturb complete lines |

## Left out

- Refresh calls are proved as methods for one call, with time and source moving on but no other replica in between (`RefreshCall`); calls of several replicas are actions of a state machine on values, because others act between any two statements.
- Startup paths of the views (`EnsureViews`, `EnsureViewsPopulated`, the `EnsureFirstPopulate` loops), which bypass debounce and cascade, and the SQL bodies of the views: a view is the version it reflects.
- Advisory lock ids: each family has its own lock here, although two ids in the repository coincide.
- A lock-held error on the first `asset_risk` attempt: the loop does not retry it, and the never-lost theorem counts it as an iteration that ended with an error.
- The wake-up of host resolution next to the cascade: it changes nothing the model holds.
- Job columns that no decision reads (payload, result, error text, finished_at, last_attempted_at) and the worker's slot and concurrency limits.
- Run updates outside the worker: websocket reports, the retry and reschedule buttons (which reset attempts to zero), status corrections by the UI, deletion. They concern CREATE_RUN and IMAGE_SCAN rows only.
- Exclusive execution of CREATE_RUN and IMAGE_SCAN, and terminal states that absorb every step: the code does not provide them.
- The scanner's completion handler reads the row and updates it in one step, and a lease reports once.
- The limit of 50 and the age filter of reconciliation: any run may be reconciled at any time.
- `CanReadRepo` and `CanReadCluster`: they ignore global readers and the bridge, so they are not equal to the clauses.
- The text level below tokens: a column list, and a table with its alias, are single tokens; TRIM and the trimming of an alias act on spaces only; an alias is taken to be an identifier.
- The branch of the image clause for an empty list of parts, which `RepoNeverDenies` shows to be dead.
- The pattern cache with its 30 s lifetime, and the fail-open on a read error: the pattern list is a parameter.
- path.Match itself is a parameter: only what it does on patterns without `?`, `[` and backslash is assumed.
- The wrap-around of the stream counter after 2^64 clients; clients are keyed by their counter, and a channel is the sequence of what it holds.
- The writing of events to HTTP responses, logging, configuration parsing, Kubernetes objects, HTTP clients, manifest parsers, triage scoring.
- RefreshSafety.MutualExclusion: does not cover a connection that is lost while it holds the lock, because the refresh then goes on without it; `RefreshLimits.MutualExclusionExactly` states that this is the only gap.

# Verification of VOODOO-SKILLSET's coordination core

A Dafny model of the parts of the repository whose correctness spans many calls: the durable executor fleet with its
leases, retries and hash-chained log; the same log under interleaved Postgres transactions; the signed executor-v1
protocol with its replay ledger; and the planner that stages and checks a plan before anything may be enqueued.

`dafny verify dfyconfig.toml` checks everything.

## How the model is laid out

- `Basics`, `Json`, `PlannerSort`: options, text order, sums, JSON values with the Python operations applied to them,
  sorting.
- `HashChain`, `Evidence`: hash-chained logs for any hash function, and the evidence ledger, which also hashes positions.
- `FleetModel`, `FleetOps`: the coordinator's tables as values; what may happen to one job (`Move`), one row update with
  its one event (`Change`), and what each call decides. `FleetStore` holds the mutable `DurableFleetStore`, each of whose
  methods is proved to do to its tables what `FleetOps.Exec` says. `FleetEffects` says of each call, in its own arguments and
  without those functions, what it answers and leaves behind (`RecordPlanSays`, `ClaimSays`, ...); the methods promise that as
  well, and it is what the texts below refer to. `FleetPlans` tells the plan table of a run by its calls.
- `FleetInvariant`, `FleetReplay`, `FleetProvenance`, `FleetCounts`, `FleetLeases`, `FleetFairness`: what holds in every
  reachable state and over every run of calls, proved once per change and lifted to runs.
- `FleetWorker`, `FleetChecks`, `FleetVerifier`: worker, heartbeat thread and independent verifier, with arbitrary turns of
  everybody else between their own calls. `Called` says that a call was made in a given state on the store's way from the
  grant to the present.
- `PostgresGuards`, `PostgresWrites`, `PostgresFleet`, `PostgresPlans`, `PostgresRuns`, `PostgresProvenance`, `PostgresLeases`:
  the guards with SQL's nulls and what each row's events tell; that the functions write what the SQLite store writes;
  transactions as sequences of statements under row locks, snapshots taken per statement (READ COMMITTED, the default), an
  advisory lock held to the end of the transaction, aborts at any point; and what every schedule keeps. `Tx.checked`,
  `since` and `marks` are history the model adds: where in the log a plan was checked.
- `ExecutorRequest`, `ExecutorReplay`, `ExecutorService`, `ExecutorProtocol`: request, nonce ledger, service, and service
  and client together over a network that may lose, repeat, reorder and invent messages.
- `PlannerDag`, `PlannerVerifier`, `PlannerModel`, `PlannerOrchestrator`: staging, plan verification, routing and gates,
  and the orchestrator.

## Hypotheses

Hash functions are parameters and nothing is assumed about them in general. Where a result needs collision resistance
it says so about the rows, or the requests, at hand (`CollisionFree`, `DigestsDiffer`). Signatures are ideal only where
agreement is claimed (`NoForgery`: what verifies was signed earlier by client or executor). Fresh tokens are assumed only
by `LeaseExclusivity`, and for one token by `LeaseLifetime`, `DeadTokenStaysDead` and the worker and verifier methods.
For the verifier it is a premise of one clause only.
Clock readings are arbitrary parameters of each call; only the fairness results about waiting and the at-most-once results
restrict them. `HashRejected` is the one case in which an admitted call is still refused: the event's hash is already stored, which
`NoHashRejection` rules out unless the hash collides. Events are hashed as structured values, which stands for an injective JSON encoding; the Postgres modules claim
nothing that needs it, since the text hashed there, joined with '|', is not injective.

## What the code does not quite promise

- At-most-once execution needs two things the code does not enforce: that the claim's clock reading is no later than the
  request's expiry (the service reads the clock twice), and that claims reach the ledger in the order of their clock
  readings (the clock is read before the lock is taken). `LateClaimRunsTwice` and `ClaimsOutOfClockOrderRunTwice` give the
  executions that fail, for every well-formed request; `SecondUseExactly` says exactly when a nonce is accepted again.
- A failure report is accepted from an expired lease until somebody reaps it (`FailAdmission`); heartbeats and completions
  are not.
- `Orchestrator.plan` raises exactly when it selects a registry entry whose authority is not one of the seven names (`Plan`).
- The Postgres functions compare with SQL's nulls. A null token is not compared, and a null lease length leaves a lease
  that never runs out (`LeaseCheckExactly`, `NullTokenExactly`); with both given the guards are the SQLite store's
  (`GuardsAgree` and its companions).
- `voodoo_enqueue_job` reads the plan and inserts the job in two statements, so the plan's last record before the enqueuing may
  be BLOCKED (`PlanMayLapse`); the SQLite store excludes that (`VerifiedProvenance`). It is VERIFIED_PLAN if and only if the
  records of the plan since the check, if any, end on VERIFIED_PLAN (`CheckedPlanExactly`, `EnqueuedFromVerifiedPlan`), which is
  the case if and only if a second look at the plan, under the advisory lock and just before the event is inserted, still finds it
  verified (`SecondLookExactly`).

## Model

| member | source | states |
|---|---|---|
| `HashChain.VerifyRows` | src/voodoo_skillset/fleet.py:582-605 | accepts exactly the chains in which every row links to the one before it and carries its own hash; otherwise names the first bad row and which of the two comparisons fails there |
| `HashChain.SharedHashSameHistory` | src/voodoo_skillset/fleet.py:168-184 | two valid chains that share a hash at positions i and j have i = j and agree in content, link and hash on everything up to there, unless the hash collides on rows of these chains |
| `HashChain.DistinctHashes` | src/voodoo_skillset/fleet.py:128-137 | a valid chain without collisions repeats no hash, so the UNIQUE column is never violated |
| `HashChain.AppendIsUnique` | src/voodoo_skillset/fleet.py:168-184 | appending to a valid chain cannot be rejected by the UNIQUE hash column |
| `HashChain.EqualHeadsEqualLogs` | src/voodoo_skillset/fleet.py:557-563 | equal heads mean equal logs |
| `HashChain.TamperingDetected` | src/voodoo_skillset/fleet.py:582-605 | keeping only the head of a valid log is enough to detect any edit, insertion or removal |
| `FleetModel.ParentIsComponent` | src/voodoo_skillset/fleet.py:161-163 | a directory is refused for ".." exactly if that is one of its components |
| `FleetOps.ReapLoop` | src/voodoo_skillset/fleet.py:306-325 | reaping row by row, in any order, is the same as rewriting each expired row from its original value |
| `FleetOps.ReapIsPointwise` | src/voodoo_skillset/fleet.py:299-325 | whatever order the rows come back in, reaping updates exactly the expired rows, one event each, and is allowed step by step |
| `FleetOps.ReapIdempotent` | src/voodoo_skillset/fleet.py:299-325 | after reaping, nothing is left to reap at the same clock reading |
| `FleetOps.DecisionAllowed` | src/voodoo_skillset/fleet.py:186-549 | everything an operation commits is a run of single-row changes, each with its one event and each permitted by the row it changes |
| `FleetInvariant.ReachableOk` | src/voodoo_skillset/fleet.py:186-549 | in every reachable state each row has the lease, receipt and verification columns its state calls for, its plan exists, and the log is a valid gap-free chain |
| `FleetInvariant.NoHashRejection` | src/voodoo_skillset/fleet.py:168-184 | without a hash collision on the rows concerned, no operation that passes its checks is ever refused by the hash column |
| `FleetInvariant.RunKeeps` | src/voodoo_skillset/fleet.py:327-549 | over any further run a job keeps its order and creation time, never loses attempts or an accepted receipt with its digest and worker, and stays in a final state once there |
| `FleetStore.DurableFleetStore.InsertEvent` | src/voodoo_skillset/fleet.py:168-184 | appends one event linked to the current head, or changes nothing when the hash is already stored |
| `FleetStore.DurableFleetStore.UpdateAndRecord` | src/voodoo_skillset/fleet.py:413-428 | writes one row and its event together or restores the tables |
| `FleetStore.DurableFleetStore.ReapRow` | src/voodoo_skillset/fleet.py:306-325 | takes back one expired row with its event, or reports a rejected event |
| `FleetStore.DurableFleetStore.GrantNext` | src/voodoo_skillset/fleet.py:336-356 | after reaping, grants the one job that is first in line, or answers idle exactly when none is claimable; a rejected event restores the tables of the transaction start |
| `FleetStore.DurableFleetStore.AssignNext` | src/voodoo_skillset/fleet.py:467-484 | the same for verification |
| `FleetStore.DurableFleetStore.ReapExpired` | src/voodoo_skillset/fleet.py:299-325 | the loop over the expired rows ends in the pointwise update of exactly those rows, or reports a rejected event |
| `FleetStore.DurableFleetStore.RecordPlan` | src/voodoo_skillset/fleet.py:186-206 | answers Done exactly if the id is non-empty, the status one of the two and the event hash free; the plan then has this status and body and its first creation time, every other plan and all jobs are unchanged, and one event with this id and status is new; otherwise nothing changes |
| `FleetStore.DurableFleetStore.Enqueue` | src/voodoo_skillset/fleet.py:216-270 | each refusal in the order of the source, leaving everything as it was; otherwise one fresh queued row carrying the order submitted, and its event, unless that event's hash is taken |
| `FleetStore.DurableFleetStore.ClaimExecution` | src/voodoo_skillset/fleet.py:327-361 | takes back every expired lease, then answers idle exactly if nobody is in line, or leases the first by priority, age and id to this worker under this token and expiry; one linked event each, in scan order; nothing at all if a hash would be stored twice |
| `FleetStore.DurableFleetStore.Heartbeat` | src/voodoo_skillset/fleet.py:363-383 | each refusal; otherwise the row's expiry is the clock plus the length asked for, and its event carries it |
| `FleetStore.DurableFleetStore.CompleteExecution` | src/voodoo_skillset/fleet.py:385-429 | each refusal, signature and receipt before the lease; otherwise the row holds this receipt and its digest, its lease is gone, and its event names both |
| `FleetStore.DurableFleetStore.FailExecution` | src/voodoo_skillset/fleet.py:431-458 | each refusal; otherwise the row is queued again while attempts are left, else failed, available after the delay given, with the error text cut at 2048 and in the event at 512 |
| `FleetStore.DurableFleetStore.ClaimVerification` | src/voodoo_skillset/fleet.py:460-489 | takes back every expired lease, then answers idle exactly if no executed job of another worker is left, or assigns the least recently updated to this verifier; one linked event each; nothing at all if a hash would be stored twice |
| `FleetStore.DurableFleetStore.CompleteVerification` | src/voodoo_skillset/fleet.py:491-549 | each refusal; otherwise the row bears the verdict, this verifier, this proof and the receipt it was given for, and its event the same record |
| `FleetStore.DurableFleetStore.Perform` | src/voodoo_skillset/fleet.py:186-549 | any call, in any sequence, behaves as the specification says and keeps the tables valid |
| `FleetStore.DurableFleetStore.VerifyEventChain` | src/voodoo_skillset/fleet.py:582-605 | on its own log the audit always succeeds and counts every event |
| `FleetStore.NextToExecuteExists` | src/voodoo_skillset/fleet.py:336-343 | a claim finds a job exactly when one is claimable, and priority, age and id leave one right answer |
| `FleetStore.NextToCheckExists` | src/voodoo_skillset/fleet.py:467-474 | the same for verification claims |
| `FleetStore.ClaimExecutionResult` | src/voodoo_skillset/fleet.py:327-361 | a claim is idle exactly when nothing is claimable after reaping, and otherwise grants the one first job |
| `FleetStore.ClaimVerificationResult` | src/voodoo_skillset/fleet.py:460-489 | a verification claim is idle exactly when no other worker's executed job is waiting after reaping, and otherwise grants the first |
| `FleetStore.DurableFleetStore.Stats` | src/voodoo_skillset/fleet.py:551-567 | reports for each of the seven states the number of rows in it, the number of events and the last event hash |
| `FleetPlans.PlanTableIsLastRecord` | src/voodoo_skillset/fleet.py:186-206 | after any run a plan is stored exactly if some call recorded it and was accepted, with the status and body that the last such call was given |
| `FleetPlans.EnqueuedPlanWasRecordedVerified` | src/voodoo_skillset/fleet.py:239-241 | in any run, the last accepted record of an accepted job's plan before its enqueuing was a call given VERIFIED_PLAN |
| `FleetReplay.LogDeterminesTable` | src/voodoo_skillset/fleet.py:168-184 | in every reachable state, folding the log rebuilds for every job its state, attempts, priority, worker, lease expiries, receipt digest, verifier, verification record and times |
| `FleetReplay.MoveReplays` | src/voodoo_skillset/fleet.py:299-549 | each event determines the recoverable columns of the new row from those of the old one |
| `FleetReplay.EqualHeadsEqualTables` | src/voodoo_skillset/fleet.py:557-563 | two coordinators with the same event head agree on every recoverable column of every job |
| `FleetProvenance.VerifiedProvenance` | src/voodoo_skillset/fleet.py:504-542 | a VERIFIED job has in its log, in this order: the then latest record of its plan, as VERIFIED_PLAN; its enqueuing; an execution grant to w; a receipt accepted from w; a verification grant to v; a verdict by v on that receipt with non-empty all-true checks; and v is not w |
| `FleetProvenance.JudgedProvenance` | src/voodoo_skillset/fleet.py:511-542 | no verdict of any kind without an earlier receipt from a different worker, and it cites that receipt |
| `FleetProvenance.ReachableBacked` | src/voodoo_skillset/fleet.py:186-549 | every job of every reachable state is backed by the trail in the log that its state implies |
| `FleetCounts.JobConservation` | src/voodoo_skillset/fleet.py:299-549 | for every reachable job: grants = live lease + expiries + failures + receipts = attempts; at most one receipt and one verdict; verification grants = live check + expiries + verdicts |
| `FleetCounts.FleetConservation` | src/voodoo_skillset/fleet.py:299-549 | in every reachable state the same balances hold for the whole fleet, against the number of jobs in each state and the sum of attempts |
| `FleetCounts.RankDrops` | src/voodoo_skillset/fleet.py:307-313 | the retry measure drops on exactly the events that begin or end an execution lease and never rises |
| `FleetCounts.RetriesBounded` | src/voodoo_skillset/fleet.py:307-313 | a job sees at most 2 * max_attempts such events, and a queued job always has an attempt left |
| `FleetCounts.MoveFlows` | src/voodoo_skillset/fleet.py:299-549 | each kind of event moves its job between exactly the states the flow diagram names |
| `FleetCounts.StatsAreCensus` | src/voodoo_skillset/fleet.py:551-567 | the reported counts add up to the jobs ever enqueued and agree with what the log counts |
| `FleetLeases.HeartbeatComplementsReaper` | src/voodoo_skillset/fleet.py:299-316 | for the holder of the live token a heartbeat passes exactly when the reaper would leave the lease alone |
| `FleetLeases.LeaseLifetime` | src/voodoo_skillset/fleet.py:336-350 | over any run, whatever the clock does, a token works on its job exactly until the first completion, failure, expiry or verdict there, and on no other job |
| `FleetLeases.DeadTokenStaysDead` | src/voodoo_skillset/fleet.py:408-417 | a token that works nowhere never works again unless it is drawn anew |
| `FleetLeases.LeaseExclusivity` | src/voodoo_skillset/fleet.py:344-350 | with fresh tokens no token ever authenticates for two jobs |
| `FleetFairness.ExecutionOvertakingBounded` | src/voodoo_skillset/fleet.py:336-350 | while an available queued job waits and nothing is enqueued ahead of it, grants to other jobs number at most the attempts left to the jobs ahead of it |
| `FleetFairness.ClaimNeverIdle` | src/voodoo_skillset/fleet.py:336-343 | while a job is claimable no valid claim comes back empty |
| `FleetFairness.VerificationOvertakingBounded` | src/voodoo_skillset/fleet.py:467-481 | once the clock has passed an executed job's last update, one more verification grant to others than its worker than there were jobs ahead of it means it was granted itself |
| `FleetFairness.CheckNeverIdle` | src/voodoo_skillset/fleet.py:467-474 | while a job waits for verification no valid claim by another identity comes back empty |
| `FleetFairness.QueueDrainsInOrder` | src/voodoo_skillset/fleet.py:327-356 | claims at one clock reading hand out exactly the waiting jobs, each once, in strictly increasing claim order, and then nothing |
| `FleetWorker.ExecutionLeaseHeartbeat.Beat` | src/voodoo_skillset/fleet_worker.py:43-55 | a beat on its way reaches the store even after the thread has been stopped; one that raises is remembered, with its moment, and none follows it |
| `FleetWorker.LeaseUnderOthers` | src/voodoo_skillset/fleet_worker.py:43-60 | what others do to a held lease is to let it run, same holder and attempt, or to end it for good; its token works exactly while no ending event is in the log |
| `FleetWorker.Worker.WhileWorking` | src/voodoo_skillset/fleet_worker.py:88-105 | under any interleaving of heartbeats, late ones included, and other actors the lease stays so tracked, and a beat is lost only at a moment when the lease had ended or run out |
| `FleetWorker.Worker.TakeLease` | src/voodoo_skillset/fleet_worker.py:88-94 | a claim does and answers what the store's claim says; if granted, exactly one live lease for this worker and token stands, with its grant in the log |
| `FleetWorker.Worker.Complete` | src/voodoo_skillset/fleet.py:385-429 | the completion call is made, and the store takes the receipt if and only if it is signed and admissible and the lease is in force and not run out, a taken event hash apart; it then holds this receipt under this lease |
| `FleetWorker.Worker.Submit` | src/voodoo_skillset/fleet_worker.py:104-140 | reports EXECUTED if and only if no beat was found lost once the thread was stopped and the completion call, really made, meets those conditions; anything else is reported as a failure |
| `FleetWorker.Worker.ReportFailure` | src/voodoo_skillset/fleet_worker.py:141-162 | LEASE_UNCERTAIN if a beat was found lost; otherwise the failure call is made, and the state the queue then has the job in is reported if and only if the lease was still in force; attempt, next state and error text are then in the log under this lease |
| `FleetWorker.Worker.RunOnce` | src/voodoo_skillset/fleet_worker.py:88-162 | the claim raises exactly on a bad worker id, a bad lease length or a taken hash, and IDLE is reported exactly if nobody is in line after reaping; otherwise the first in line is leased and, under any interleaving, EXECUTED is reported if and only if the workload produced a signed, admissible receipt, no beat was found lost, and the lease was in force and not run out at the completion call; the store then holds that receipt under the very lease granted, and anything else is reported as a failure of that job; by then the heartbeat is stopped |
| `FleetWorker.ExecutedPersists` | src/voodoo_skillset/fleet.py:385-429 | an accepted receipt, its lease and its log entries outlast everything others do afterwards |
| `FleetChecks.FillChecks` | src/voodoo_skillset/fleet_worker.py:179-226 | the checks can be filled in exactly when the spec makes a recognised assertion and everything asserted can be looked at; the dictionary then holds exactly the asserted checks, each as it turns out, and they all pass exactly when the two receipt checks and every assertion hold; the observed fields are those of the job |
| `FleetChecks.Assess` | src/voodoo_skillset/fleet_worker.py:232-260 | the verdict is VERIFIED exactly when something recognised is asserted, the spec is well formed and everything holds; FAILED when an assertion fails; BLOCKED otherwise; the proof lists every check by name with its outcome and what was observed, or with BLOCKED the reason alone |
| `FleetChecks.ChecksSpelled` | src/voodoo_skillset/fleet_worker.py:186-222 | the checks dictionary read by its names: each entry is there exactly if the spec asks for it, and true exactly if it holds; the stdout entries are numbered in decimal, and no other name occurs |
| `FleetChecks.ProofAdmission` | src/voodoo_skillset/fleet.py:504-506 | the store admits a proof for VERIFIED exactly when its checks are present and all pass |
| `FleetChecks.StoredReceiptPassesReceiptChecks` | src/voodoo_skillset/fleet_worker.py:186-189 | for a job that came through the store the two receipt checks always hold |
| `FleetVerifier.VerifiedAdmitted` | src/voodoo_skillset/fleet.py:504-517 | to the holder of a live, unexpired verification lease the store grants VERIFIED exactly on present and passing checks |
| `FleetVerifier.VerdictRecorded` | src/voodoo_skillset/fleet.py:518-542 | an accepted verdict stays on the job, on the order and receipt it was given for |
| `FleetVerifier.RowFrozen` | src/voodoo_skillset/fleet.py:477-481 | while a verification lease is in force nothing changes the row |
| `FleetVerifier.JudgesExactly` | src/voodoo_skillset/fleet.py:504-517 | a verdict that can be given is taken if and only if the lease is in force and not run out, a taken event hash apart |
| `FleetVerifier.IndependentVerifier.TakeCheck` | src/voodoo_skillset/fleet_worker.py:228-231 | a claim does and answers what the store's verification claim says; if granted, the job is under check by this verifier |
| `FleetVerifier.IndependentVerifier.Decide` | src/voodoo_skillset/fleet_worker.py:232-278 | the call hands in the deserved verdict with its proof; if the store takes it that is what is reported, if not BLOCKED is submitted and reported; with an unused token each call is taken if and only if it found the lease in force and not run out |
| `FleetVerifier.IndependentVerifier.RunOnce` | src/voodoo_skillset/fleet_worker.py:228-278 | the claim raises exactly on a bad verifier id or a taken hash, and IDLE is reported exactly if no executed job of another worker is left after reaping; otherwise the first of these is judged: the call hands in the verdict it deserves and its proof, and under any interleaving a reported VERIFIED or FAILED is in the store under this verifier's name; with an unused token the deserved verdict is reported if and only if nobody has taken the lease back and its thirty seconds have not run out at the call |
| `Evidence.EvidenceLedger.Append` | src/voodoo_skillset/evidence.py:16-17 | adds one numbered, linked event and keeps an intact ledger intact |
| `Evidence.EvidenceLedger.Verify` | src/voodoo_skillset/evidence.py:20-28 | accepts exactly the intact ledgers and otherwise names the first break and the first of the three comparisons to fail |
| `Evidence.SameHeadSameLedger` | src/voodoo_skillset/evidence.py:16-28 | two intact ledgers with the same last hash are the same, positions included |
| `Evidence.RearrangingDetected` | src/voodoo_skillset/evidence.py:20-28 | a ledger made of an intact ledger's events is intact only if it is a prefix of it; no hash assumption needed |
| `PostgresGuards.LeaseCheckExactly` | supabase/migrations/20260830_r3_executor_fleet.sql:268-270 | the comparison of expiry and token lets a call through if and only if the stored expiry is null or not passed, and the given token is null or the right one |
| `PostgresGuards.GuardsAgree` | supabase/migrations/20260830_r3_executor_fleet.sql:264-334 | for heartbeats and failure reports with a token, on a lease with an expiry, the SQL guards admit exactly what the SQLite store admits |
| `PostgresGuards.CompletionGuardsAgree` | supabase/migrations/20260830_r3_executor_fleet.sql:289-297 | the same for completions with an admissible receipt |
| `PostgresGuards.VerdictGuardsAgree` | supabase/migrations/20260830_r3_executor_fleet.sql:374-385 | the same for verdicts |
| `PostgresGuards.NullTokenExactly` | supabase/migrations/20260830_r3_executor_fleet.sql:266-270 | a holder's call with a null token is admitted exactly while the lease lasts |
| `PostgresGuards.MoveGood` | supabase/migrations/20260830_r3_executor_fleet.sql:186-399 | every row update, null expiries included, keeps the row equal to what its events tell, column by column and count by count |
| `PostgresWrites.HeartbeatWrites` | supabase/migrations/20260830_r3_executor_fleet.sql:256-276 | with token and length given, a heartbeat writes the row and the event that the SQLite store writes |
| `PostgresWrites.CompletionWrites` | supabase/migrations/20260830_r3_executor_fleet.sql:278-308 | the same for completions |
| `PostgresWrites.FailureWrites` | supabase/migrations/20260830_r3_executor_fleet.sql:310-334 | the same for failure reports, delay and error texts included |
| `PostgresWrites.VerdictWrites` | supabase/migrations/20260830_r3_executor_fleet.sql:364-399 | the same for verdicts |
| `PostgresWrites.ReapWrites` | supabase/migrations/20260830_r3_executor_fleet.sql:186-223 | a row is taken back exactly if the SQLite reaper takes it back, in the same way and with the same event |
| `PostgresWrites.ClaimsWrite` | supabase/migrations/20260830_r3_executor_fleet.sql:240-251 | a lease is granted on the row and in the event as the SQLite claim does it |
| `PostgresWrites.CheckClaimsWrite` | supabase/migrations/20260830_r3_executor_fleet.sql:350-360 | the same for verification leases |
| `PostgresWrites.NullWritesNull` | supabase/migrations/20260830_r3_executor_fleet.sql:225-362 | a null length or error text writes null where a value would be written and nothing else differently |
| `PostgresWrites.GuardsIgnoreNulls` | supabase/migrations/20260830_r3_executor_fleet.sql:225-362 | a claim leases a row under exactly the SQLite condition, and no guard depends on the length or the error text |
| `PostgresFleet.LocksStep` | supabase/migrations/20260830_r3_executor_fleet.sql:85-117 | every statement keeps: rows written only under their lock, events and a read head only under the advisory lock |
| `PostgresFleet.ChainStep` | supabase/migrations/20260830_r3_executor_fleet.sql:85-117 | every statement of every transaction, aborts included, keeps the committed log and every transaction's view of it a valid chain with its head known |
| `PostgresFleet.RowsStep` | supabase/migrations/20260830_r3_executor_fleet.sql:119-399 | every statement, under the guards with SQL's nulls, keeps each job and plan row equal to what the events recorded or still owed tell about it |
| `PostgresFleet.CommitView` | supabase/migrations/20260830_r3_executor_fleet.sql:97-98 | after a commit every other transaction sees the committed log and holds no stale head |
| `PostgresPlans.PlansStep` | supabase/migrations/20260830_r3_executor_fleet.sql:119-184 | every statement keeps: each plan a transaction has checked, and each enqueuing, is marked with a position of the log where the plan was last recorded as VERIFIED_PLAN |
| `PostgresPlans.SeenGrows` | supabase/migrations/20260830_r3_executor_fleet.sql:97-98 | while a transaction stays open no statement takes anything from the log it sees |
| `PostgresPlans.LastStatusIsRecorded` | supabase/migrations/20260830_r3_executor_fleet.sql:129-133 | the last status of a plan is that of its last record in the log, and there is none exactly if it was never recorded |
| `PostgresRuns.OneWriter` | supabase/migrations/20260830_r3_executor_fleet.sql:97-97 | in every schedule at most one transaction has uncommitted events |
| `PostgresRuns.CommittedLogIsOneChain` | supabase/migrations/20260830_r3_executor_fleet.sql:85-117 | in every schedule the committed log is one valid chain whose seq order is its link order, gaps allowed |
| `PostgresRuns.InterleavedLogDeterminesTable` | supabase/migrations/20260830_r3_executor_fleet.sql:186-399 | in every schedule the committed log rebuilds the recoverable columns of every committed job, as in the serial store |
| `PostgresRuns.InterleavedJobConservation` | supabase/migrations/20260830_r3_executor_fleet.sql:186-399 | in every schedule each committed job balances against the committed log as in the serial store |
| `PostgresRuns.EnqueuedFromVerifiedPlan` | supabase/migrations/20260830_r3_executor_fleet.sql:162-181 | every enqueuing at n in the committed log has the position m <= n of its plan check, where the plan was last recorded as VERIFIED_PLAN; just before n it still is if and only if the records of the plan in [m, n), if any, end on VERIFIED_PLAN, in particular if there are none |
| `PostgresRuns.CheckedPlanExactly` | supabase/migrations/20260830_r3_executor_fleet.sql:162-181 | for every schedule in which a transaction checks a plan and stays open: what it sees of the plan is still VERIFIED_PLAN if and only if the records of the plan that became visible since, if any, end on VERIFIED_PLAN |
| `PostgresRuns.SecondLookExactly` | supabase/migrations/20260830_r3_executor_fleet.sql:97-115 | when the event of an enqueuing is inserted, the plan's last record is VERIFIED_PLAN if and only if the plan row, looked at again under the advisory lock, still says so |
| `PostgresRuns.PlanMayLapse` | supabase/migrations/20260830_r3_executor_fleet.sql:162-177 | for every plan, id and order there is a schedule in which the plan is blocked between the check and the insert |
| `PostgresProvenance.DueIsTraced` | supabase/migrations/20260830_r3_executor_fleet.sql:186-399 | any log in which each event of a job was due when it came holds the whole trail that the job's columns imply |
| `PostgresProvenance.InterleavedVerifiedProvenance` | supabase/migrations/20260830_r3_executor_fleet.sql:364-399 | in every schedule a VERIFIED job has in the committed log, in this order: a VERIFIED_PLAN record, its enqueuing, a grant to w, the acceptance of w's receipt h under that lease, a verification grant to v other than w, and v's verdict on h with passing checks; h is the digest of the stored receipt |
| `PostgresLeases.InterleavedLeaseExclusivity` | supabase/migrations/20260830_r3_executor_fleet.sql:240-247 | in every schedule with fresh tokens no token works on two jobs, as committed or as any transaction has written them |
| `PostgresRuns.VoodooVerifyEventChain` | supabase/migrations/20260830_r3_executor_fleet.sql:423-450 | the audit accepts the whole committed log at any moment of any schedule |
| `ExecutorRequest.RequestRoundTrip` | src/voodoo_skillset/executor_bridge.py:121-148 | from_dict(to_dict(r)) is r for every request, valid or not |
| `ExecutorRequest.SparseRoundTrip` | src/voodoo_skillset/executor_bridge.py:121-142 | a message that lacks the directory or the hosts reads as the request with the defaults for these; lacking any other key it is refused |
| `ExecutorRequest.RefusalNamesItsCause` | src/voodoo_skillset/executor_bridge.py:150-184 | each kind of refusal says what is wrong: shape, policy, or, exactly when all else is right, the time window |
| `ExecutorRequest.CreatedRequestWindow` | src/voodoo_skillset/executor_bridge.py:90-119 | a created request carries the arguments, survives the wire and is valid from five seconds before creation to its expiry and at no other time |
| `ExecutorRequest.CreateAcceptsGoodArguments` | src/voodoo_skillset/executor_bridge.py:90-119 | creation succeeds exactly on admissible arguments |
| `ExecutorReplay.ReplayGuard.TryClaim` | src/voodoo_skillset/executor_bridge.py:205-221 | accepts exactly when no unexpired entry for the nonce is stored; the ledger then holds this nonce and those unexpired, otherwise it is as it was |
| `ExecutorReplay.StoredUntilOvertaken` | src/voodoo_skillset/executor_bridge.py:205-219 | an accepted nonce is stored with its expiry exactly until an accepted claim reads a later clock |
| `ExecutorReplay.SecondUseExactly` | src/voodoo_skillset/executor_bridge.py:205-219 | a nonce is accepted again exactly when some accepted claim since, or the second one itself, read a clock past the first expiry; no clock assumption |
| `ExecutorReplay.SecondUseWithAscendingClocks` | src/voodoo_skillset/executor_bridge.py:205-219 | with claims in clock order: exactly when the second claim's clock is past the first expiry |
| `ExecutorReplay.StoredOrExpired` | src/voodoo_skillset/executor_bridge.py:205-219 | every accepted nonce is still stored unless a claim has read a clock past its expiry |
| `ExecutorReplay.ClaimedAtMostOnce` | src/voodoo_skillset/executor_bridge.py:205-219 | one nonce and expiry are accepted at most once when claims are prompt and in clock order |
| `ExecutorService.ExecutorService.ExecuteSigned` | src/voodoo_skillset/executor_bridge.py:269-299 | for every message and the request it reads as: refused, with nothing changed, on a bad signature, outside its window, or when its nonce is held; otherwise the nonce is stored and, if the workspace is there, exactly one command with the request's capability, argv, directory, operation and workspace is started, and the signed receipt answered is entry by entry that request's |
| `ExecutorService.ReceiptIssued` | src/voodoo_skillset/executor_bridge.py:289-298 | a receipt has exactly its eight entries: protocol, executor, operation, plan, request digest, time, verification status and result |
| `ExecutorService.AtMostOnce` | src/voodoo_skillset/executor_bridge.py:269-292 | over any run, restarts included, a signed request starts the adapter at most once, given claims in clock order that are no later than the expiry |
| `ExecutorService.SameSecondIsPrompt` | src/voodoo_skillset/executor_bridge.py:273-275 | reading the clock for validation and for the claim in the same second gives that |
| `ExecutorService.ReplayAdmittedExactly` | src/voodoo_skillset/executor_bridge.py:269-292 | whatever the clocks do, a replay that passes validation is admitted exactly when its claim, or an admitted one since, read a clock past the expiry |
| `ExecutorService.ReplayAdmittedExactlyWhenLate` | src/voodoo_skillset/executor_bridge.py:273-276 | a replay that passes validation is admitted exactly when its claim reads a clock past the expiry |
| `ExecutorService.LateClaimRunsTwice` | src/voodoo_skillset/executor_bridge.py:273-276 | for every well-formed request: validated in its last second and claimed in the next, it is run a second time |
| `ExecutorService.ClaimsOutOfClockOrderRunTwice` | src/voodoo_skillset/executor_bridge.py:205-211 | because the clock is read before the lock, another claim with a later clock can get in between and let any request in its last second run twice, all clock pairs being equal |
| `ExecutorService.LedgerWindow` | src/voodoo_skillset/executor_bridge.py:178-186 | right after an admission at clock c every other stored expiry lies in [c, c+125], the admitted one exactly when its claim was prompt |
| `ExecutorProtocol.RanIsServiceRun` | src/voodoo_skillset/executor_bridge.py:269-299 | what runs in a trace is what the service object runs when served the visits of the trace |
| `ExecutorProtocol.StartsExactly` | src/voodoo_skillset/executor_bridge.py:269-288 | an event of a trace hands a command to the adapter exactly if it ran, and then the command of its request |
| `ExecutorProtocol.RunsWereRequested` | src/voodoo_skillset/executor_bridge.py:269-292 | without forged signatures, whatever the executor ran was sent by a client before, unaltered |
| `ExecutorProtocol.ReturnedReceiptAnswers` | src/voodoo_skillset/executor_bridge.py:412-429 | the receipt a client is returned answers an earlier run of exactly its request and carries that run's result |
| `ExecutorProtocol.InjectiveAgreement` | src/voodoo_skillset/executor_bridge.py:412-429 | if execute(r) returns, r was run exactly once in the whole trace, earlier: of all deliveries of r exactly one started a command, it carries r's capability, argv, directory, operation and workspace, and the receipt returned is entry by entry that run's |
| `ExecutorProtocol.AgreementAttained` | src/voodoo_skillset/executor_bridge.py:412-429 | for every well-formed request there is a trace that meets all hypotheses of agreement and in which the call returns |
| `ExecutorProtocol.ReceiptsAreNotShared` | src/voodoo_skillset/executor_bridge.py:421-424 | calls with different requests are never returned the same receipt |
| `ExecutorProtocol.HonestReceiptAccepted` | src/voodoo_skillset/executor_bridge.py:412-429 | the client accepts every receipt the executor issued for its request |
| `ExecutorProtocol.ClientExactly` | src/voodoo_skillset/executor_bridge.py:412-429 | the client accepts exactly a signed receipt with its operation and request digest, and calls only a bad signature an authentication error |
| `PlannerDag.BuildDeps` | src/voodoo_skillset/dag.py:4-9 | the dictionary built from rules and the three sweeping capabilities is the dependency relation |
| `PlannerDag.ComposeStages` | src/voodoo_skillset/dag.py:3-15 | for any list of ids the loop never raises; its stages are non-empty and ascending, hold exactly the ids given, keep every planning rule, leave no id later than the rules make it, and number at most six |
| `PlannerDag.LeveledIsValid` | src/voodoo_skillset/dag.py:10-14 | every id comes after all its dependencies |
| `PlannerDag.LeveledIsOptimal` | src/voodoo_skillset/dag.py:10-14 | no valid schedule has fewer stages or places any id earlier |
| `PlannerDag.LeveledOnce` | src/voodoo_skillset/dag.py:10-14 | no id is in two stages |
| `PlannerDag.LeveledUnique` | src/voodoo_skillset/dag.py:3-15 | the stages depend only on the set of ids |
| `PlannerDag.LeveledExactly` | src/voodoo_skillset/dag.py:2-15 | the levels are the one schedule by the rules: every rule kept, and whatever is in a later stage waits by a rule for something in the stage just before |
| `PlannerDag.StagesByName` | src/voodoo_skillset/dag.py:2-9 | by name: architect, repo-auditor, security-reviewer and reality-checker before implementer, implementer before test-engineer, that before devops-reviewer, everything but red-team, verifier and curator before red-team, everything but these two before verifier and curator; and in the first stage exactly what waits for nothing selected |
| `PlannerVerifier.Places` | src/voodoo_skillset/verifier.py:7-7 | the dictionary maps each staged id to its last stage |
| `PlannerVerifier.VerifyPlan` | src/voodoo_skillset/verifier.py:2-13 | reports exactly the structural problems and the blockers, and fails on a missing key exactly when the verifier is staged and some selected id is not |
| `PlannerVerifier.StructuralSays` | src/voodoo_skillset/verifier.py:4-12 | each problem is reported under its own text exactly if it is there, and no other text appears |
| `PlannerVerifier.AcceptsExactlySoundPlans` | src/voodoo_skillset/verifier.py:2-13 | accepts exactly the plans that stage every selected id once and nothing else, in the required order, with no blocker and, where required, a verifier |
| `PlannerVerifier.ComposedIsSound` | src/voodoo_skillset/verifier.py:3-12 | every composed schedule is sound in that sense |
| `PlannerVerifier.OnlyMissingVerifier` | src/voodoo_skillset/verifier.py:6-6 | on composed stages the only structural problem possible is the missing verifier, and no key is missed |
| `PlannerModel.Route` | src/voodoo_skillset/router.py:13-27 | workers and connectors are exactly the capabilities that the routing rules pick, each with its score and reasons, best score first then by id; blockers are the texts of the unavailable required ones |
| `PlannerModel.PickedExactly` | src/voodoo_skillset/router.py:15-26 | the loop collects exactly the selections of the capabilities that pass its tests |
| `PlannerModel.RequiredScoresEnough` | src/voodoo_skillset/router.py:5-11 | however low its score, a capability the mode requires passes every mode's threshold |
| `PlannerModel.RouteByRule` | src/voodoo_skillset/router.py:5-27 | the rules spelled out: the score floor, the threshold of each mode, tools, connectors, exclusions, intents and authority |
| `PlannerModel.GateMeaning` | src/voodoo_skillset/policy.py:6-20 | when the gate blocks and why, when it allows, and when it asks |
| `PlannerOrchestrator.GateAll` | src/voodoo_skillset/orchestrator.py:13-15 | gates every selection in order, collects the blockers, and fails exactly on an unknown authority |
| `PlannerOrchestrator.ExecutionPlan.Settle` | src/voodoo_skillset/orchestrator.py:16-19 | sets the status and appends each new problem once |
| `PlannerOrchestrator.Plan` | src/voodoo_skillset/orchestrator.py:11-20 | raises exactly when it selects an unknown authority; otherwise VERIFIED_PLAN exactly when every required capability is available, no selected worker is gated out, and the mode is FAST or the verifier is selected; blockers are empty exactly then |
| `PlannerOrchestrator.AcceptedExactlyWhenSanctioned` | src/voodoo_skillset/orchestrator.py:16-16 | the verifier's answer on a composed plan, in terms of registry and query alone |
| `PlannerOrchestrator.VerdictIsStable` | src/voodoo_skillset/orchestrator.py:17-19 | verifying a settled plan again gives the same answer and the same set of problems and adds nothing |
| `PlannerOrchestrator.ReturnedPlanReverifies` | src/voodoo_skillset/orchestrator.py:16-20 | re-verifying a returned plan agrees with its status; a blocked plan lists exactly the unavailable, the gated out and the missing verifier |
| `PlannerOrchestrator.SanctionedPlanStagesRequired` | src/voodoo_skillset/orchestrator.py:11-20 | a verified plan stages every enabled, non-excluded worker its mode requires exactly once, whatever the scores, and no staged worker is gated BLOCK |

## Smaller facts

Lemmas that mostly read a definition back, kept because other proofs and readers use them: `FleetOps.RaisingChangesNothing`,
`FleetInvariant.HashesStayUnique`, `FleetInvariant.NoTypeError`, `FleetLeases.HeartbeatAdmission`, `FleetLeases.CompleteAdmission`,
`FleetLeases.FailAdmission`, `FleetLeases.VerdictAdmission`, `FleetCounts.CountStates`, `FleetChecks.KeyTextInjective`,
`ExecutorRequest.ValidateExactly`, `ExecutorRequest.ToDictInjective`, `ExecutorProtocol.ReceiptIsNoRequest`,
`ExecutorProtocol.RequestIsNoReceipt`, `PlannerDag.DepsRankLower`,
`PlannerModel.RoutedIoBlockedOnlyForRunner`, `ExecutorRequest.WireNames`.

## Left out

- HTTP handlers and clients, CLI, browser UI, the Supabase client, `RunStore`, `blackboard`, `observability`, `workspace` and
  `governed_terminal`: plumbing, or single-branch code.
- Sandboxed execution: the adapter is an arbitrary outcome of each visit, a result dictionary or an exception.
- `learning.py`, score arithmetic and `intent.py`: the score of a capability is an arbitrary real-valued function and the
  intent an arbitrary value; floating-point rounding is an arbitrary function.
- SQLite, Postgres, SHA-256, HMAC and JSON internals. The `plan_json`, `receipt_json` and similar columns hold values, not
  text. JSON numbers are integers, so comparisons with floating-point numbers are not modelled.
- Random tokens, generated job ids, plan ids, clocks, the order in which SQLite returns expired rows, and the worker's
  request nonce are parameters. `record_plan`'s `str(...)` coercions are taken as already applied.
- An event's kind and payload are one constructor; the constant `verification_status` and `next_state` entries of payloads
  are therefore implicit.
- `get_job` after commit in each method: the model states what was committed, not what a later read returns.
- `events`, `get_job` and `verified_plan_exists`: plain queries.
- FleetStore.DurableFleetStore.Heartbeat: makes no claim that an extension is monotone or bounded, because the method does
  not check `lease_seconds`.
- FleetWorker.Worker.RunOnce: the request built and signed by the worker and the service's reply enter as an arbitrary
  receipt or failure. How long `stop()` waits is not modelled: a beat on its way may land before or after the look at `error`.
- FleetWorker.Worker.constructor: the range check on `lease_seconds` is a precondition.
- FleetChecks.Assess: the text of an exception is an arbitrary parameter.
- FleetWorker.Worker.Finish: the text under which a refused completion is reported as a failure is arbitrary.
- PostgresFleet.RowsStep: a transaction may issue its statements in any order that their guards and locks allow, which
  includes the order of each function; of the `voodoo_jobs` check constraints only the attempt limit and the verification
  spec are modelled, and any receipt is accepted, since which receipts SQL's nulls let through does not matter here.
- Deadlock between row locks and the advisory lock in Postgres: an abort may happen at any time, but nothing is claimed
  about progress.
- ExecutorService.ExecutorService.ExecuteSigned: a visit is atomic between its claim and its receipt; a missing workspace
  and one that resolves outside the root are one condition; a signature with non-ASCII characters, on which the comparison
  raises, counts as one that does not verify; regular expressions are spelled out as character tests, and
  `..` components as text.
- ExecutorRequest.RequestRoundTrip: Python's `str`, `int` and `tuple` on values of other kinds are opaque functions.
- ExecutorProtocol.InjectiveAgreement: response size and transport errors end a call without a result and are not modelled.
- PlannerModel.Route: descriptions, tags and numeric attributes of capabilities occur only through the score; the text of
  the lists inside an "unavailable" message is an opaque function.
- `CapabilityRegistry` rejects duplicate ids when it is built; the planner's methods take distinct ids as a precondition.

/** What each call answers and leaves behind, spelled out in its own arguments and the tables it found. */
module FleetEffects {
  import opened Basics
  import opened Json
  import opened HashChain
  import opened FleetModel
  import opened FleetOps

  type Log = seq<Row<Event>>

  /** The log has one more event, linked to the last one, under the next number. */
  predicate Logged(sha: Sha, before: Log, after: Log, e: Event) {
    after == before + [Row(|before| + 1, e, Head(before), sha.event(e, Head(before)))]
  }

  predicate HashFree(sha: Sha, log: Log, e: Event) {
    forall i :: 0 <= i < |log| ==> log[i].hash != sha.event(e, Head(log))
  }

  /** One row and one event are new, nothing else; or, if the event's hash is taken, nothing at all. */
  predicate OneRow(sha: Sha, s: State, id: string, row: Job, e: Event, reply: Reply, t: State, r: Outcome) {
    if HashFree(sha, s.log, e)
    then r == Returned(reply) && t.plans == s.plans && t.jobs == s.jobs[id := row] && Logged(sha, s.log, t.log, e)
    else r == Raised(IntegrityError) && t == s
  }

  predicate Refused(s: State, error: Error, t: State, r: Outcome) {
    r == Raised(error) && t == s
  }

  // ----- the calls about one row -----

  predicate RecordPlanSays(sha: Sha, s: State, planId: string, status: PlanStatus, body: Json, now: int, t: State, r: Outcome) {
    var e := Event(None, "control-plane", PlanRecorded(planId, status), now);
    if planId == "" || !(status == VerifiedPlan || status == BlockedPlan) then Refused(s, ValueError, t, r)
    else if !HashFree(sha, s.log, e) then Refused(s, IntegrityError, t, r)
    else
      && r == Returned(Done) && t.jobs == s.jobs && Logged(sha, s.log, t.log, e)
      && t.plans.Keys == s.plans.Keys + {planId} && (forall p :: p in s.plans && p != planId ==> t.plans[p] == s.plans[p])
      && t.plans[planId].status == status && t.plans[planId].body == body
      && t.plans[planId].createdAt == if planId in s.plans then s.plans[planId].createdAt else now
  }

  predicate EnqueueSays(sha: Sha, s: State, id: string, order: Order, now: int, t: State, r: Outcome) {
    var spec := if Truthy(order.spec) then order.spec else JObj(map[]);
    if !IdOk(order.workspaceId) || !IdOk(order.capabilityId) || !ArgvOk(order.argv) || !CwdOk(order.cwd)
       || !(1 <= order.maxAttempts <= 10) || !spec.JObj?
    then Refused(s, ValueError, t, r)
    else if order.planId !in s.plans || s.plans[order.planId].status != VerifiedPlan then Refused(s, PermissionError, t, r)
    else if id in s.jobs then Refused(s, IntegrityError, t, r)
    else
      OneRow(sha, s, id,
             Job(order.(spec := spec), QUEUED, now, now, now, 0, None, None, None, None, None, None, None, None, None, None),
             Event(Some(id), "control-plane",
                   JobEnqueued(order.planId, order.workspaceId, order.capabilityId, order.priority, order.maxAttempts), now),
             Done, t, r)
  }

  predicate HeartbeatSays(sha: Sha, s: State, id: string, worker: string, token: string, ttl: int, now: int, t: State, r: Outcome) {
    if !OwnerOk(worker) then Refused(s, ValueError, t, r)
    else if id !in s.jobs || s.jobs[id].state != LEASED || s.jobs[id].worker != Some(worker) then Refused(s, PermissionError, t, r)
    else if s.jobs[id].leaseExpires.None? then Refused(s, TypeError, t, r)
    else if s.jobs[id].leaseExpires.value < now || s.jobs[id].leaseHash != Some(sha.token(token)) then Refused(s, PermissionError, t, r)
    else
      OneRow(sha, s, id, s.jobs[id].(leaseExpires := Some(now + ttl), updatedAt := now),
             Event(Some(id), worker, ExecutionHeartbeat(Some(now + ttl)), now), Renewed(now + ttl), t, r)
  }

  predicate CompleteSays(sha: Sha, s: State, id: string, worker: string, token: string, receipt: Json, signatureVerified: bool, now: int,
                         t: State, r: Outcome) {
    var result := Get(receipt, "result");
    if !OwnerOk(worker) then Refused(s, ValueError, t, r)
    else if !signatureVerified then Refused(s, PermissionError, t, r)
    else if !receipt.JObj? then Refused(s, AttributeError, t, r)
    else if Get(receipt, "verification_status") != JStr("UNKNOWN") then Refused(s, PermissionError, t, r)
    else if !result.JObj? || Get(result, "status") != JStr("EXECUTED") || !PyEq(Get(result, "exit_code"), JNum(0))
    then Refused(s, RuntimeError, t, r)
    else if id !in s.jobs || s.jobs[id].state != LEASED || s.jobs[id].worker != Some(worker) then Refused(s, PermissionError, t, r)
    else if s.jobs[id].leaseExpires.None? then Refused(s, TypeError, t, r)
    else if s.jobs[id].leaseExpires.value < now || s.jobs[id].leaseHash != Some(sha.token(token)) then Refused(s, PermissionError, t, r)
    else
      OneRow(sha, s, id,
             s.jobs[id].(state := EXECUTED, receipt := Some(receipt), receiptSha := Some(sha.receipt(receipt)),
                         leaseHash := None, leaseExpires := None, updatedAt := now),
             Event(Some(id), worker, ExecutionReceiptAccepted(sha.receipt(receipt), Get(receipt, "executor_id")), now), Done, t, r)
  }

  /** A failed or expired attempt leaves the job queued while it has attempts left. */
  function Again(job: Job): JobState {
    if job.attempts < job.order.maxAttempts then QUEUED else FAILED
  }

  function Cut(s: string, n: nat): string {
    if |s| <= n then s else s[..n]
  }

  predicate FailSays(sha: Sha, s: State, id: string, worker: string, token: string, error: string, delay: int, now: int, t: State, r: Outcome) {
    if !OwnerOk(worker) then Refused(s, ValueError, t, r)
    else if id !in s.jobs || s.jobs[id].state != LEASED || s.jobs[id].worker != Some(worker) then Refused(s, PermissionError, t, r)
    else if s.jobs[id].leaseHash != Some(sha.token(token)) then Refused(s, PermissionError, t, r)
    else
      OneRow(sha, s, id,
             s.jobs[id].(state := Again(s.jobs[id]), availableAt := if delay < 0 then now else now + delay,
                         worker := None, leaseHash := None, leaseExpires := None, updatedAt := now, lastError := Some(Cut(error, 2048))),
             Event(Some(id), worker, ExecutionFailed(Again(s.jobs[id]), s.jobs[id].attempts, Some(Cut(error, 512))), now), Done, t, r)
  }

  predicate VerdictSays(sha: Sha, s: State, id: string, verifier: string, token: string, verdict: JobState, proof: Json, now: int,
                        t: State, r: Outcome) {
    var checks := Get(proof, "checks");
    if !OwnerOk(verifier) || !(verdict == VERIFIED || verdict == FAILED || verdict == BLOCKED) || !proof.JObj? then Refused(s, ValueError, t, r)
    else if verdict == VERIFIED && !(checks.JObj? && checks.fields != map[] && forall k :: k in checks.fields ==> checks.fields[k] == JBool(true))
    then Refused(s, PermissionError, t, r)
    else if id !in s.jobs || s.jobs[id].state != VERIFYING || s.jobs[id].verifier != Some(verifier) then Refused(s, PermissionError, t, r)
    else if s.jobs[id].worker == Some(verifier) then Refused(s, PermissionError, t, r)
    else if s.jobs[id].checkExpires.None? then Refused(s, TypeError, t, r)
    else if s.jobs[id].checkExpires.value < now || s.jobs[id].checkHash != Some(sha.token(token)) then Refused(s, PermissionError, t, r)
    else
      var record := Verification(verdict, verifier, proof, s.jobs[id].receiptSha, now);
      OneRow(sha, s, id,
             s.jobs[id].(state := verdict, verification := Some(record), checkHash := None, checkExpires := None, updatedAt := now,
                         lastError := if verdict == VERIFIED then None
                                      else if verdict == BLOCKED then Some("independent verification blocked")
                                      else Some("independent verification failed")),
             Event(Some(id), verifier, IndependentVerification(record), now), Done, t, r)
  }

  function RowsIn(jobs: map<string, Job>, st: JobState): set<string> {
    set id | id in jobs && jobs[id].state == st
  }

  // ----- the claims -----

  predicate RanOut(job: Job, now: int) {
    job.state == LEASED && job.leaseExpires.Some? && job.leaseExpires.value < now
  }

  predicate CheckRanOut(job: Job, now: int) {
    job.state == VERIFYING && job.checkExpires.Some? && job.checkExpires.value < now
  }

  /** The row after the reaper has passed. */
  function TakenBack(job: Job, now: int): Job {
    if RanOut(job, now) then
      job.(state := Again(job), worker := None, leaseHash := None, leaseExpires := None, updatedAt := now,
           lastError := Some("execution lease expired"))
    else if CheckRanOut(job, now) then
      job.(state := EXECUTED, verifier := None, checkHash := None, checkExpires := None, updatedAt := now,
           lastError := Some("verification lease expired"))
    else job
  }

  function TakenBackEvent(id: string, job: Job, now: int): Event {
    if job.state == LEASED then Event(Some(id), "fleet-coordinator", ExecutionLeaseExpired(job.worker, Again(job)), now)
    else Event(Some(id), "fleet-coordinator", VerificationLeaseExpired(job.verifier), now)
  }

  function AllTakenBack(jobs: map<string, Job>, now: int): map<string, Job> {
    map id | id in jobs :: TakenBack(jobs[id], now)
  }

  predicate InLine(job: Job, now: int) {
    job.state == QUEUED && job.availableAt <= now && job.attempts < job.order.maxAttempts
  }

  /** First by priority, then by age, then by id. */
  predicate FirstInLine(jobs: map<string, Job>, now: int, id: string) {
    && id in jobs && InLine(jobs[id], now)
    && forall k :: k in jobs && k != id && InLine(jobs[k], now) ==>
         var a, b := jobs[id], jobs[k];
         || a.order.priority < b.order.priority
         || (a.order.priority == b.order.priority && a.createdAt < b.createdAt)
         || (a.order.priority == b.order.priority && a.createdAt == b.createdAt && Below(id, k))
  }

  predicate ToCheck(job: Job, verifier: string) {
    job.state == EXECUTED && job.worker != Some(verifier)
  }

  /** First by last update, then by id. */
  predicate FirstToCheck(jobs: map<string, Job>, verifier: string, id: string) {
    && id in jobs && ToCheck(jobs[id], verifier)
    && forall k :: k in jobs && k != id && ToCheck(jobs[k], verifier) ==>
         jobs[id].updatedAt < jobs[k].updatedAt || (jobs[id].updatedAt == jobs[k].updatedAt && Below(id, k))
  }

  /** The row at this position is numbered and linked to the one before it. */
  predicate FollowsAt(sha: Sha, log: Log, i: nat)
    requires i < |log|
  {
    log[i] == Row(i + 1, log[i].content, Head(log[..i]), sha.event(log[i].content, Head(log[..i])))
  }

  predicate Follows(sha: Sha, log: Log, start: nat) {
    forall i :: start <= i < |log| ==> FollowsAt(sha, log, i)
  }

  /** After the events of the reaping, one for each expired row, come these. */
  predicate LoggedAfterReaping(sha: Sha, s: State, scan: seq<string>, now: int, t: State, more: seq<Event>) {
    && |t.log| == |s.log| + |scan| + |more| && s.log <= t.log && Follows(sha, t.log, |s.log|)
    && (forall i :: 0 <= i < |scan| ==> scan[i] in s.jobs && t.log[|s.log| + i].content == TakenBackEvent(scan[i], s.jobs[scan[i]], now))
    && (forall i :: 0 <= i < |more| ==> t.log[|s.log| + |scan| + i].content == more[i])
  }

  /** What a claim with these arguments writes and would answer: once the leases that have run out are back,
      nobody is in line, or the first in line is granted. */
  predicate ClaimWrites(sha: Sha, s: State, worker: string, ttl: int, token: string, scan: seq<string>, now: int, t: State, reply: Reply) {
    var jobs := AllTakenBack(s.jobs, now);
    && t.plans == s.plans
    && (|| (&& reply == Idle && (forall id :: id in jobs ==> !InLine(jobs[id], now))
            && t.jobs == jobs && LoggedAfterReaping(sha, s, scan, now, t, []))
        || (&& reply.Granted?
            && var id := reply.id;
               && FirstInLine(jobs, now, id) && reply == Granted(id, worker, token, now + ttl)
               && t.jobs == jobs[id := jobs[id].(state := LEASED, worker := Some(worker), leaseHash := Some(sha.token(token)),
                                                 leaseExpires := Some(now + ttl), attempts := jobs[id].attempts + 1, updatedAt := now, lastError := None)]
               && LoggedAfterReaping(sha, s, scan, now, t,
                                     [Event(Some(id), worker, ExecutionLeaseGranted(Some(now + ttl), jobs[id].attempts + 1), now)])))
  }

  /** The claim leaves what it writes, unless a hash would be stored twice. */
  ghost predicate ClaimSays(sha: Sha, s: State, worker: string, ttl: int, token: string, scan: seq<string>, now: int, t: State, r: Outcome) {
    if !OwnerOk(worker) || ttl < 5 || ttl > 300 then Refused(s, ValueError, t, r)
    else exists u, reply :: ClaimWrites(sha, s, worker, ttl, token, scan, now, u, reply)
                            && if UniqueHashes(u.log) then t == u && r == Returned(reply) else Refused(s, IntegrityError, t, r)
  }

  predicate ClaimCheckWrites(sha: Sha, s: State, verifier: string, ttl: int, token: string, scan: seq<string>, now: int, t: State, reply: Reply) {
    var jobs := AllTakenBack(s.jobs, now);
    && t.plans == s.plans
    && (|| (&& reply == Idle && (forall id :: id in jobs ==> !ToCheck(jobs[id], verifier))
            && t.jobs == jobs && LoggedAfterReaping(sha, s, scan, now, t, []))
        || (&& reply.Granted?
            && var id := reply.id;
               && FirstToCheck(jobs, verifier, id) && reply == Granted(id, verifier, token, now + ttl)
               && t.jobs == jobs[id := jobs[id].(state := VERIFYING, verifier := Some(verifier), checkHash := Some(sha.token(token)),
                                                 checkExpires := Some(now + ttl), updatedAt := now)]
               && LoggedAfterReaping(sha, s, scan, now, t, [Event(Some(id), verifier, VerificationLeaseGranted(Some(now + ttl)), now)])))
  }

  ghost predicate ClaimCheckSays(sha: Sha, s: State, verifier: string, ttl: int, token: string, scan: seq<string>, now: int, t: State, r: Outcome) {
    if !OwnerOk(verifier) then Refused(s, ValueError, t, r)
    else exists u, reply :: ClaimCheckWrites(sha, s, verifier, ttl, token, scan, now, u, reply)
                            && if UniqueHashes(u.log) then t == u && r == Returned(reply) else Refused(s, IntegrityError, t, r)
  }

  // ----- proofs -----

  lemma AppendUnique(sha: Sha, log: Log, e: Event)
    requires UniqueHashes(log)
    ensures UniqueHashes(AppendEvent(sha, log, e)) <==> HashFree(sha, log, e)
    ensures Logged(sha, log, AppendEvent(sha, log, e), e)
  {
    var more := AppendEvent(sha, log, e);
    assert more[|log|].hash == sha.event(e, Head(log));
    if UniqueHashes(more) {
      forall i | 0 <= i < |log| ensures log[i].hash != sha.event(e, Head(log)) { assert more[i] == log[i]; }
    }
  }

  /** A one-change commit, unfolded. */
  lemma OneCommit(sha: Sha, s: State, op: Op, c: Stamped, t: State, r: Outcome)
    requires !IsClaim(op) && UniqueHashes(s.log) && (t, r) == Exec(sha, s, op)
    requires Decide(sha, s, op).Commit? && Decide(sha, s, op).changes == [c]
    ensures Allowed(s, c)
    ensures var u, e := Effect(sha, s, c), EventOf(sha, s, c);
            if HashFree(sha, s.log, e) then t == u && r == Returned(Decide(sha, s, op).reply) && Logged(sha, s.log, t.log, e)
            else t == s && r == Raised(IntegrityError)
  {
    OneAllowed(sha, s, op);
    assert [c][1..] == [];
    assert RunChanges(sha, Effect(sha, s, c), []) == Effect(sha, s, c);
    AppendUnique(sha, s.log, EventOf(sha, s, c));
  }

  lemma RecordPlanEffect(sha: Sha, s: State, planId: string, status: PlanStatus, body: Json, now: int, t: State, r: Outcome)
    requires UniqueHashes(s.log) && (t, r) == Exec(sha, s, Op.RecordPlan(planId, status, body, now))
    ensures RecordPlanSays(sha, s, planId, status, body, now, t, r)
  {
    if planId != "" && !status.OtherStatus? {
      OneCommit(sha, s, Op.RecordPlan(planId, status, body, now), At(NewPlan(planId, status, body), now), t, r);
    }
  }

  lemma EnqueueEffect(sha: Sha, s: State, id: string, order: Order, now: int, t: State, r: Outcome)
    requires UniqueHashes(s.log) && (t, r) == Exec(sha, s, Op.Enqueue(id, order, now))
    ensures EnqueueSays(sha, s, id, order, now, t, r)
  {
    var op := Op.Enqueue(id, order, now);
    if Decide(sha, s, op).Commit? {
      OneCommit(sha, s, op, At(NewJob(id, order.(spec := SpecOrEmpty(order.spec))), now), t, r);
    }
  }

  lemma HeartbeatEffect(sha: Sha, s: State, id: string, worker: string, token: string, ttl: int, now: int, t: State, r: Outcome)
    requires UniqueHashes(s.log) && (t, r) == Exec(sha, s, Op.Heartbeat(id, worker, token, ttl, now))
    ensures HeartbeatSays(sha, s, id, worker, token, ttl, now, t, r)
  {
    var op := Op.Heartbeat(id, worker, token, ttl, now);
    if Decide(sha, s, op).Commit? { OneCommit(sha, s, op, At(Step(id, Renew(now + ttl)), now), t, r); }
  }

  lemma CompleteEffect(sha: Sha, s: State, id: string, worker: string, token: string, receipt: Json, ok: bool, now: int, t: State, r: Outcome)
    requires UniqueHashes(s.log) && (t, r) == Exec(sha, s, Op.Complete(id, worker, token, receipt, ok, now))
    ensures CompleteSays(sha, s, id, worker, token, receipt, ok, now, t, r)
  {
    var op := Op.Complete(id, worker, token, receipt, ok, now);
    if Decide(sha, s, op).Commit? { OneCommit(sha, s, op, At(Step(id, Accept(receipt)), now), t, r); }
  }

  lemma FailEffect(sha: Sha, s: State, id: string, worker: string, token: string, error: string, delay: int, now: int, t: State, r: Outcome)
    requires UniqueHashes(s.log) && (t, r) == Exec(sha, s, Op.Fail(id, worker, token, error, delay, now))
    ensures FailSays(sha, s, id, worker, token, error, delay, now, t, r)
  {
    var op := Op.Fail(id, worker, token, error, delay, now);
    if Decide(sha, s, op).Commit? { OneCommit(sha, s, op, At(Step(id, GiveUp(error, delay)), now), t, r); }
  }

  lemma VerdictEffect(sha: Sha, s: State, id: string, verifier: string, token: string, verdict: JobState, proof: Json, now: int, t: State, r: Outcome)
    requires UniqueHashes(s.log) && (t, r) == Exec(sha, s, Op.CompleteVerification(id, verifier, token, verdict, proof, now))
    ensures VerdictSays(sha, s, id, verifier, token, verdict, proof, now, t, r)
  {
    var op := Op.CompleteVerification(id, verifier, token, verdict, proof, now);
    if Decide(sha, s, op).Commit? { OneCommit(sha, s, op, At(Step(id, Judge(verdict, proof)), now), t, r); }
  }
}

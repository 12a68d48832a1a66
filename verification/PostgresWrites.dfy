/** What the Postgres functions write, against what the SQLite store writes. */
module PostgresWrites {
  import opened Basics
  import opened Json
  import opened HashChain
  import opened FleetModel
  import opened FleetOps
  import opened FleetEffects
  import opened PostgresGuards

  function Given(owner: string, token: string): Caller {
    Caller(Some(owner), Some(token))
  }

  /** The call left the row and appended the event that the Postgres function would. */
  ghost predicate SameWrite(sha: Sha, s: State, t: State, id: string, m: PgMove, caller: Caller, now: int) {
    && id in s.jobs && Owned(s.jobs[id]) && SqlAdmits(sha, s.jobs[id], m, caller, now)
    && t.plans == s.plans && t.jobs == s.jobs[id := PgMoved(sha, s.jobs[id], m, caller, now)]
    && Logged(sha, s.log, t.log, PgMoveEvent(sha, id, s.jobs[id], m, caller, now))
  }

  lemma HeartbeatWrites(sha: Sha, s: State, id: string, owner: string, token: string, ttl: int, now: int, t: State, r: Outcome)
    requires HeartbeatSays(sha, s, id, owner, token, ttl, now, t, r) && r.Returned? && Owned(s.jobs[id])
    ensures SameWrite(sha, s, t, id, Plain(Renew(now + ttl)), Given(owner, token), now)
  {
  }

  lemma CompletionWrites(sha: Sha, s: State, id: string, owner: string, token: string, receipt: Json, ok: bool, now: int, t: State, r: Outcome)
    requires CompleteSays(sha, s, id, owner, token, receipt, ok, now, t, r) && r.Returned? && Owned(s.jobs[id])
    ensures SameWrite(sha, s, t, id, Plain(Accept(receipt)), Given(owner, token), now)
  {
  }

  lemma FailureWrites(sha: Sha, s: State, id: string, owner: string, token: string, error: string, delay: int, now: int, t: State, r: Outcome)
    requires FailSays(sha, s, id, owner, token, error, delay, now, t, r) && r.Returned? && Owned(s.jobs[id])
    ensures SameWrite(sha, s, t, id, Plain(GiveUp(error, delay)), Given(owner, token), now)
  {
  }

  lemma VerdictWrites(sha: Sha, s: State, id: string, owner: string, token: string, verdict: JobState, proof: Json, now: int, t: State, r: Outcome)
    requires VerdictSays(sha, s, id, owner, token, verdict, proof, now, t, r) && r.Returned? && Owned(s.jobs[id])
    ensures SameWrite(sha, s, t, id, Plain(Judge(verdict, proof)), Given(owner, token), now)
  {
  }

  lemma EnqueuingWrites(sha: Sha, s: State, id: string, order: Order, now: int, t: State, r: Outcome)
    requires EnqueueSays(sha, s, id, order, now, t, r) && r.Returned? && Truthy(order.spec)
    ensures t.jobs == s.jobs[id := FreshJob(order, now)] && Logged(sha, s.log, t.log, EnqueueEvent(id, order, now))
  {
    assert order.(spec := order.spec) == order;
  }

  lemma PlanWrites(sha: Sha, s: State, planId: string, status: PlanStatus, body: Json, now: int, t: State, r: Outcome)
    requires RecordPlanSays(sha, s, planId, status, body, now, t, r) && r.Returned?
    ensures t.plans[planId].status == status && Logged(sha, s.log, t.log, PlanEvent(planId, status, now))
  {
  }

  /** An expired row is taken back as the SQLite reaper does it. */
  lemma ReapWrites(sha: Sha, id: string, job: Job, caller: Caller, now: int)
    requires Owned(job)
    ensures RanOut(job, now) <==> SqlAdmits(sha, job, Plain(Lapse), caller, now)
    ensures CheckRanOut(job, now) <==> SqlAdmits(sha, job, Plain(Release), caller, now)
    ensures RanOut(job, now) ==> PgMoved(sha, job, Plain(Lapse), caller, now) == TakenBack(job, now)
                                 && PgMoveEvent(sha, id, job, Plain(Lapse), caller, now) == TakenBackEvent(id, job, now)
    ensures CheckRanOut(job, now) ==> PgMoved(sha, job, Plain(Release), caller, now) == TakenBack(job, now)
                                      && PgMoveEvent(sha, id, job, Plain(Release), caller, now) == TakenBackEvent(id, job, now)
  {
  }

  /** A claim leases the row, once the expired ones are back, as the SQLite store does it. */
  lemma ClaimsWrite(sha: Sha, s: State, owner: string, ttl: int, token: string, scan: seq<string>, now: int, caller: Caller, t: State, reply: Reply)
    requires ClaimWrites(sha, s, owner, ttl, token, scan, now, t, reply) && reply.Granted? && OwnerOk(owner)
    requires Owned(TakenBack(s.jobs[reply.id], now))
    ensures var id, row, m := reply.id, TakenBack(s.jobs[reply.id], now), Plain(Grant(owner, sha.token(token), now + ttl));
            && SqlAdmits(sha, row, m, caller, now) && t.jobs[id] == PgMoved(sha, row, m, caller, now)
            && t.log[|s.log| + |scan|].content == PgMoveEvent(sha, id, row, m, caller, now)
  {
    var more := [Event(Some(reply.id), owner, ExecutionLeaseGranted(Some(now + ttl), TakenBack(s.jobs[reply.id], now).attempts + 1), now)];
    assert LoggedAfterReaping(sha, s, scan, now, t, more) && t.log[|s.log| + |scan| + 0].content == more[0];
  }

  lemma CheckClaimsWrite(sha: Sha, s: State, owner: string, ttl: int, token: string, scan: seq<string>, now: int, caller: Caller, t: State, reply: Reply)
    requires ClaimCheckWrites(sha, s, owner, ttl, token, scan, now, t, reply) && reply.Granted? && OwnerOk(owner)
    requires Owned(TakenBack(s.jobs[reply.id], now))
    ensures var id, row, m := reply.id, TakenBack(s.jobs[reply.id], now), Plain(Assign(owner, sha.token(token), now + ttl));
            && SqlAdmits(sha, row, m, caller, now) && t.jobs[id] == PgMoved(sha, row, m, caller, now)
            && t.log[|s.log| + |scan|].content == PgMoveEvent(sha, id, row, m, caller, now)
  {
    var more := [Event(Some(reply.id), owner, VerificationLeaseGranted(Some(now + ttl)), now)];
    assert LoggedAfterReaping(sha, s, scan, now, t, more) && t.log[|s.log| + |scan| + 0].content == more[0];
  }

  /** The guard of a claim is the claim's condition on the row, and no other guard asks whether the length or the error
      text is null. */
  lemma GuardsIgnoreNulls(sha: Sha, job: Job, owner: string, h: Digest, expires: int, delay: int, error: string, caller: Caller, now: int)
    ensures SqlAdmits(sha, job, Plain(Grant(owner, h, expires)), caller, now) <==> OwnerOk(owner) && InLine(job, now)
    ensures SqlAdmits(sha, job, Plain(Assign(owner, h, expires)), caller, now) <==> OwnerOk(owner) && ToCheck(job, owner)
    ensures SqlAdmits(sha, job, GrantForever(owner, h), caller, now) <==> SqlAdmits(sha, job, Plain(Grant(owner, h, expires)), caller, now)
    ensures SqlAdmits(sha, job, AssignForever(owner, h), caller, now) <==> SqlAdmits(sha, job, Plain(Assign(owner, h, expires)), caller, now)
    ensures SqlAdmits(sha, job, RenewForever, caller, now) <==> SqlAdmits(sha, job, Plain(Renew(expires)), caller, now)
    ensures SqlAdmits(sha, job, GiveUpSilently(delay), caller, now) <==> SqlAdmits(sha, job, Plain(GiveUp(error, delay)), caller, now)
  {
  }

  /** A null argument writes null where a value would be written, and nothing else differently. */
  lemma NullWritesNull(sha: Sha, id: string, job: Job, m: PgMove, given: Move, caller: Caller, now: int)
    requires Owned(job) && SqlAdmits(sha, job, m, caller, now) && SqlAdmits(sha, job, Plain(given), caller, now)
    requires match m
             case GrantForever(w, h) => given.Grant? && given.worker == w && given.token == h
             case RenewForever => given.Renew?
             case GiveUpSilently(delay) => given.GiveUp? && given.delay == delay
             case AssignForever(v, h) => given.Assign? && given.verifier == v && given.token == h
             case Plain(_) => false
    ensures var a, b := PgMoved(sha, job, m, caller, now), PgMoved(sha, job, Plain(given), caller, now);
            a == if m.GiveUpSilently? then b.(lastError := None) else if m.AssignForever? then b.(checkExpires := None) else b.(leaseExpires := None)
    ensures var a, b := PgMoveEvent(sha, id, job, m, caller, now), PgMoveEvent(sha, id, job, Plain(given), caller, now);
            && a.(payload := b.payload) == b
            && a.payload == if m.GiveUpSilently? then b.payload.(error := None) else b.payload.(expiresAt := None)
  {
  }
}

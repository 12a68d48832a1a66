/** The independent verifier at work: it claims an executed job of somebody else, judges it and hands in its proof,
    while everyone else goes on using the same coordinator. */
module FleetVerifier {
  import opened Basics
  import opened Json
  import opened HashChain
  import opened FleetModel
  import opened FleetOps
  import opened FleetInvariant
  import opened FleetLeases
  import opened FleetEffects
  import opened FleetStore
  import opened FleetWorker
  import opened FleetChecks

  datatype CheckReport =
    | CheckClaimRaised(error: Error)
    | NothingToCheck
    | Judgement(jobId: string, verdict: JobState, queueState: Option<JobState>)

  /** The row bears this verifier's verdict. */
  predicate JudgedBy(s: State, id: string, verifier: string, verdict: JobState, proof: Json) {
    && id in s.jobs && s.jobs[id].state == verdict && s.jobs[id].verifier == Some(verifier)
    && s.jobs[id].verification.Some? && s.jobs[id].verification.value.proof == proof
    && s.jobs[id].verification.value.verifier == verifier
  }

  lemma JudgeRecorded(sha: Sha, t: State, u: State, id: string, verdict: JobState, proof: Json, now: int)
    requires Allowed(t, At(Step(id, Judge(verdict, proof)), now)) && u == Effect(sha, t, At(Step(id, Judge(verdict, proof)), now))
    ensures t.log <= u.log && id in t.jobs && t.jobs[id].verifier.Some? && JudgedBy(u, id, t.jobs[id].verifier.value, verdict, proof)
    ensures SameCase(t.jobs[id], u.jobs[id]) && u.jobs[id].worker != t.jobs[id].verifier
  {
  }

  lemma JudgeDecided(sha: Sha, t: State, op: Op)
    requires op.CompleteVerification? && Decide(sha, t, op).Commit?
    ensures Decide(sha, t, op).changes == [At(Step(op.id, Judge(op.verdict, op.proof)), op.now)]
    ensures HoldsCheck(t, op.id, op.verifier) && Final(op.verdict)
  {
  }

  /** A verdict the store takes is on the row, for the order and receipt it was given for. */
  lemma VerdictTaken(sha: Sha, t: State, op: Op, u: State, r: Outcome)
    requires op.CompleteVerification? && (u, r) == Exec(sha, t, op) && r.Returned?
    ensures t.log <= u.log && JudgedBy(u, op.id, op.verifier, op.verdict, op.proof) && Final(op.verdict)
    ensures op.id in t.jobs && SameCase(t.jobs[op.id], u.jobs[op.id]) && u.jobs[op.id].worker != Some(op.verifier)
  {
    OneResult(sha, t, op);
    JudgeDecided(sha, t, op);
    JudgeRecorded(sha, t, u, op.id, op.verdict, op.proof, op.now);
  }

  /** And it stays there. */
  lemma VerdictRecorded(sha: Sha, t: State, op: Op, u: State, r: Outcome, ops: seq<Op>, v: State)
    requires Inv(sha, t) && op.CompleteVerification? && (u, r) == Exec(sha, t, op) && r.Returned?
    requires LegalRun(sha, u, ops) && v == Run(sha, u, ops)
    ensures Inv(sha, v) && t.log <= v.log && JudgedBy(v, op.id, op.verifier, op.verdict, op.proof)
    ensures op.id in t.jobs && SameCase(t.jobs[op.id], v.jobs[op.id]) && v.jobs[op.id].worker != Some(op.verifier)
  {
    ExecOk(sha, t, op);
    VerdictTaken(sha, t, op, u, r);
    RunKeeps(sha, u, ops, op.id);
    ChangesOk(sha, u, History(sha, u, ops));
    LogGrows(sha, u, History(sha, u, ops));
  }

  /** The verdict in the store is this verifier's and is the right one for the case. */
  predicate JudgedRightly(w: World, s: State, id: string, verifier: string, verdict: JobState) {
    && id in s.jobs && s.jobs[id].state == verdict && s.jobs[id].verifier == Some(verifier) && s.jobs[id].worker != Some(verifier)
    && var job := s.jobs[id];
       && (verdict == VERIFIED ==> Recognised(job.order.spec) && WellFormed(w, job) && SpecHolds(w, job))
       && (verdict == FAILED ==> Recognised(job.order.spec) && WellFormed(w, job) && !SpecHolds(w, job))
  }

  // ----- a verification lease among others -----

  /** The state right after a verification claim with an unused token, as far as its lease is concerned. */
  ghost predicate CheckLeased(s: State, id: string, verifier: string, h: Digest, g: nat, expires: int) {
    && OwnerOk(verifier) && g + 1 == |s.log| && LiveOn(s, id, h) && (forall k :: LiveOn(s, k, h) ==> k == id) && HoldsCheck(s, id, verifier) && s.jobs[id].worker != Some(verifier)
    && s.jobs[id].checkHash == Some(h) && s.jobs[id].checkExpires == Some(expires)
  }

  /** While it lasts, a verification lease freezes the row. */
  lemma RowFrozenStep(sha: Sha, s: State, cs: seq<Stamped>, id: string)
    requires Inv(sha, s) && AllowedRun(sha, s, cs) && cs != [] && id in s.jobs && s.jobs[id].state == VERIFYING
    ensures id in Effect(sha, s, cs[0]).jobs
    ensures Live(Effect(sha, s, cs[0]).jobs[id]).Some? ==> Effect(sha, s, cs[0]).jobs[id] == s.jobs[id]
  {
    if cs[0].change.Step? && cs[0].change.id == id { LiveAfterMove(sha, id, s.jobs[id], cs[0].change.move, cs[0].now); }
  }

  lemma {:induction false} RowFrozen(sha: Sha, s: State, cs: seq<Stamped>, id: string, h: Digest)
    requires Inv(sha, s) && AllowedRun(sha, s, cs) && LiveOn(s, id, h) && s.jobs[id].state == VERIFYING
    requires (forall k :: LiveOn(s, k, h) ==> k == id) && (forall i :: 0 <= i < |cs| ==> Draws(cs[i]) != Some(h))
    requires LiveOn(RunChanges(sha, s, cs), id, h)
    ensures RunChanges(sha, s, cs).jobs[id] == s.jobs[id]
    decreases |cs|
  {
    if cs != [] {
      var u := LiveFirst(sha, s, cs, id, h);
      RowFrozenStep(sha, s, cs, id);
      if LiveOn(u, id, h) { RowFrozen(sha, u, cs[1..], id, h); } else { DeadForever(sha, u, cs[1..], h); }
    }
  }

  /** State t seen from the verification lease granted in s at g. */
  ghost predicate CheckTracked(sha: Sha, s: State, t: State, id: string, h: Digest, g: nat) {
    && Inv(sha, t) && id in s.jobs && s.jobs[id].state == VERIFYING && FollowsLease(t, id, h, g)
    && (LiveOn(t, id, h) ==> t.jobs[id] == s.jobs[id])
  }

  lemma JustAssigned(sha: Sha, s: State, id: string, verifier: string, h: Digest, g: nat, expires: int)
    requires Inv(sha, s) && CheckLeased(s, id, verifier, h, g, expires)
    ensures CheckTracked(sha, s, s, id, h, g)
  {
  }

  lemma CheckUnderOthers(sha: Sha, s: State, t: State, ops: seq<Op>, u: State, id: string, h: Digest, g: nat)
    requires CheckTracked(sha, s, t, id, h, g) && Went(sha, t, ops, u, h)
    ensures CheckTracked(sha, s, u, id, h, g)
  {
    LeaseFollowed(sha, t, ops, u, id, h, g);
    if LiveOn(u, id, h) {
      InForceOn(t.log, u.log, g, id);
      HistoryDraws(sha, t, ops, h);
      RowFrozen(sha, t, History(sha, t, ops), id, h);
    }
  }

  /** A granted verification claim is a reaping followed by one grant. */
  lemma AssignedIsEffect(sha: Sha, s: State, op: Op, t: State, r: Outcome) returns (c: Stamped)
    requires op.ClaimVerification? && Legal(s, op) && (t, r) == Exec(sha, s, op) && r.Returned? && r.reply.Granted?
    ensures c == At(Step(r.reply.id, Assign(op.verifier, sha.token(op.token), op.now + op.ttl)), op.now)
    ensures Allowed(AfterReap(sha, s, op.scan, op.now), c) && t == Effect(sha, AfterReap(sha, s, op.scan, op.now), c)
  {
    var next := ClaimVerificationResult(sha, s, op.verifier, op.ttl, op.token, op.scan, op.now);
    c := At(Step(next.value, Assign(op.verifier, sha.token(op.token), op.now + op.ttl)), op.now);
  }

  lemma AssignMakesLive(sha: Sha, r: State, c: Stamped, t: State, id: string, verifier: string, h: Digest, expires: int)
    requires Allowed(r, c) && c.change == Step(id, Assign(verifier, h, expires)) && t == Effect(sha, r, c)
    ensures HoldsCheck(t, id, verifier) && |t.log| == |r.log| + 1
    ensures Dead(r, h) ==> CheckLeased(t, id, verifier, h, |r.log|, expires)
  {
  }

  /** What a verification claim leaves if it is granted: a job under check, its lease granted at place g of the
      log if the token was unused. */
  lemma CheckTaken(sha: Sha, s: State, op: Op, t: State, r: Outcome, expires: int) returns (g: nat)
    requires op.ClaimVerification? && Legal(s, op) && (t, r) == Exec(sha, s, op) && expires == op.now + op.ttl
    ensures r.Returned? && r.reply.Granted? ==> |s.log| <= g < |t.log| && HoldsCheck(t, r.reply.id, op.verifier)
    ensures r.Returned? && r.reply.Granted? && Dead(s, sha.token(op.token)) ==>
              CheckLeased(t, r.reply.id, op.verifier, sha.token(op.token), g, expires)
  {
    g := 0;
    if r.Returned? && r.reply.Granted? {
      var h, reaped := sha.token(op.token), AfterReap(sha, s, op.scan, op.now);
      var c := AssignedIsEffect(sha, s, op, t, r);
      ReapGrows(sha, s, op.scan, op.now);
      if Dead(s, h) { ReapKeepsDead(sha, s, op.scan, op.now, h); }
      AssignMakesLive(sha, reaped, c, t, r.reply.id, op.verifier, h, expires);
      g := |reaped.log|;
    }
  }

  lemma VerifyingHasReceipt(sha: Sha, s: State, id: string)
    requires Inv(sha, s) && id in s.jobs && s.jobs[id].state == VERIFYING
    ensures s.jobs[id].receipt.Some?
  {
    assert JobOk(sha, s.jobs[id]);
  }

  /** A verdict that can be given is taken exactly while the lease is in force and has not run out, unless the
      event's hash is taken. */
  lemma JudgesExactly(sha: Sha, s: State, t: State, id: string, verifier: string, token: string, verdict: JobState, proof: Json,
                      now: int, g: nat, expires: int)
    requires CheckLeased(s, id, verifier, sha.token(token), g, expires) && CheckTracked(sha, s, t, id, sha.token(token), g)
    requires IsVerdict(verdict) && proof.JObj? && (verdict == VERIFIED ==> ProofPasses(proof))
    ensures var op := Op.CompleteVerification(id, verifier, token, verdict, proof, now);
            Exec(sha, t, op).1.Returned? <==> InForce(t.log, g, |t.log|, id) && now <= expires && !HashRejected(sha, t, op)
  {
    VerdictAdmission(sha, t, id, verifier, token, verdict, proof, now);
    ReturnsExactly(sha, t, Op.CompleteVerification(id, verifier, token, verdict, proof, now));
  }

  /** The verdict call finds the lease granted at g in force and not run out, and its event's hash free. */
  ghost predicate Timely(sha: Sha, seen: State, call: Op, g: nat, expires: int) {
    call.CompleteVerification? && InForce(seen.log, g, |seen.log|, call.id) && call.now <= expires && !HashRejected(sha, seen, call)
  }

  /** The call hands in the verdict this job deserves, with the proof that goes with it. */
  ghost predicate Submits(w: World, job: Job, reason: string, call: Op, id: string, verifier: string, token: string, at: int) {
    && call.CompleteVerification?
    && call == Op.CompleteVerification(id, verifier, token, RightVerdict(w, job), call.proof, at)
    && ProofSays(w, job, call.verdict, reason, call.proof)
  }

  function Blocked(id: string, verifier: string, token: string, reason: string, at: int): Op {
    Op.CompleteVerification(id, verifier, token, BLOCKED, BlockedProof(reason), at)
  }

  /** The course of one judgement between the grant in s and the present u. The call is made in `seen`. If the store
      takes it, its verdict is reported; if not, and it was not BLOCKED already, BLOCKED is submitted in `tried`. */
  ghost predicate VerdictTold(sha: Sha, s: State, id: string, verifier: string, token: string, reason: string, retryAt: int,
                              r: CheckReport, seen: State, call: Op, tried: State, u: State) {
    var h, again := sha.token(token), Blocked(id, verifier, token, reason, retryAt);
    && call.CompleteVerification? && Reaches(sha, s, seen, h)
    && if Exec(sha, seen, call).1.Returned?
       then Reaches(sha, Exec(sha, seen, call).0, u, h) && r == Judgement(id, call.verdict, Some(call.verdict))
       else if call.verdict == BLOCKED
       then Reaches(sha, seen, u, h) && r == Judgement(id, BLOCKED, None)
       else && Reaches(sha, seen, tried, h) && Reaches(sha, Exec(sha, tried, again).0, u, h)
            && r == Judgement(id, BLOCKED, if Exec(sha, tried, again).1.Returned? then Some(BLOCKED) else None)
  }

  /** Both calls are answered as the lease deserves. */
  ghost predicate AnsweredRightly(sha: Sha, id: string, verifier: string, token: string, reason: string, retryAt: int,
                                  r: CheckReport, seen: State, call: Op, tried: State, g: nat, expires: int) {
    && r.Judgement? && call.CompleteVerification?
    && (r == Judgement(id, call.verdict, Some(call.verdict)) <==> Timely(sha, seen, call, g, expires))
    && (!Timely(sha, seen, call, g, expires) && call.verdict != BLOCKED ==>
          (r.queueState.Some? <==> Timely(sha, tried, Blocked(id, verifier, token, reason, retryAt), g, expires)))
  }

  /** The verdict is in the store and right, or nothing is claimed but that the job may be blocked. */
  ghost predicate HonestReport(w: World, s: State, verifier: string, r: CheckReport) {
    && r.Judgement?
    && (if r.queueState.Some? then r.queueState == Some(r.verdict) && JudgedRightly(w, s, r.jobId, verifier, r.verdict) else r.verdict == BLOCKED)
  }

  class IndependentVerifier {
    const store: DurableFleetStore
    const verifierId: string

    constructor (store: DurableFleetStore, verifierId: string)
      ensures this.store == store && this.verifierId == verifierId
    {
      this.store, this.verifierId := store, verifierId;
    }

    /** What is left of the lease granted in s at g; all of it, if the token was unused then. */
    ghost predicate Follows(unused: bool, s: State, id: string, token: string, g: nat, expires: int)
      reads store
    {
      && store.Valid() && Inv(store.sha, store.Contents()) && Reaches(store.sha, s, store.Contents(), store.sha.token(token))
      && (unused ==> CheckLeased(s, id, verifierId, store.sha.token(token), g, expires))
      && (unused ==> CheckTracked(store.sha, s, store.Contents(), id, store.sha.token(token), g))
    }

    /** Others act; what this verifier judges stays the same. */
    method Meanwhile(id: string, token: string, ghost unused: bool, ghost s: State, ghost g: nat, ghost expires: int)
      requires Follows(unused, s, id, token, g, expires) && id in store.jobs && store.jobs[id].receipt.Some?
      modifies store
      ensures Follows(unused, s, id, token, g, expires) && old(store.log) <= store.log
      ensures Reaches(store.sha, old(store.Contents()), store.Contents(), store.sha.token(token))
      ensures id in store.jobs && SameCase(old(store.jobs)[id], store.jobs[id])
    {
      ghost var t, h := store.Contents(), store.sha.token(token);
      ghost var turns := OtherTurns(store, store.sha.token(token));
      ReachesOn(store.sha, s, t, store.Contents(), h);
      ChangesOk(store.sha, t, History(store.sha, t, turns));
      LogGrows(store.sha, t, History(store.sha, t, turns));
      RunKeeps(store.sha, t, turns, id);
      if unused { CheckUnderOthers(store.sha, s, t, turns, store.Contents(), id, h, g); }
    }

    /** Submits one verdict; None when the store refuses it, otherwise the job's state as read back. */
    method Conclude(id: string, token: string, verdict: JobState, proof: Json, at: int, ghost call: Op) returns (state: Option<JobState>)
      requires store.Valid() && Inv(store.sha, store.Contents())
      requires call == Op.CompleteVerification(id, verifierId, token, verdict, proof, at)
      modifies store
      ensures store.Valid() && Inv(store.sha, store.Contents()) && old(store.log) <= store.log
      ensures state.Some? <==> Exec(store.sha, old(store.Contents()), call).1.Returned?
      ensures state.None? ==> store.Contents() == old(store.Contents())
      ensures Reaches(store.sha, Exec(store.sha, old(store.Contents()), call).0, store.Contents(), store.sha.token(token))
      ensures state.Some? ==>
                && state == Some(verdict) && id in old(store.jobs)
                && JudgedBy(store.Contents(), id, verifierId, verdict, proof)
                && SameCase(old(store.jobs)[id], store.jobs[id]) && store.jobs[id].worker != Some(verifierId)
    {
      ghost var t := store.Contents();
      var done := store.CompleteVerification(id, verifierId, token, verdict, proof, at);
      if done.Raised? {
        RaisingChangesNothing(store.sha, t, call);
        ReachesHere(store.sha, t, store.sha.token(token));
        return None;
      }
      ghost var u := store.Contents();
      ghost var turns := OtherTurns(store, store.sha.token(token));
      VerdictRecorded(store.sha, t, call, u, done, turns, store.Contents());
      return Some(store.jobs[id].state);
    }

    /** The try and except branches of one verification, begun in s. */
    method Decide(id: string, token: string, w: World, reason: string, doneAt: int, retryAt: int,
                  ghost unused: bool, ghost s: State, ghost g: nat, ghost expires: int)
      returns (r: CheckReport, ghost seen: State, ghost call: Op, ghost tried: State)
      requires Follows(unused, s, id, token, g, expires) && id in store.jobs && store.jobs[id].receipt.Some?
      requires forall receipt :: |store.sha.receipt(receipt)| == 64
      modifies store
      ensures store.Valid() && Inv(store.sha, store.Contents()) && HonestReport(w, store.Contents(), verifierId, r)
      ensures id in store.jobs && SameCase(old(store.jobs)[id], store.jobs[id])
      ensures Submits(w, old(store.jobs)[id], reason, call, id, verifierId, token, doneAt)
      ensures VerdictTold(store.sha, s, id, verifierId, token, reason, retryAt, r, seen, call, tried, store.Contents())
      ensures unused ==> AnsweredRightly(store.sha, id, verifierId, token, reason, retryAt, r, seen, call, tried, g, expires)
    {
      var job := store.jobs[id];
      StoredReceiptPassesReceiptChecks(store.sha, job);
      var verdict, proof := Assess(w, job, reason);
      Meanwhile(id, token, unused, s, g, expires);
      seen, call := store.Contents(), Op.CompleteVerification(id, verifierId, token, verdict, proof, doneAt);
      tried := seen;
      if unused { JudgesExactly(store.sha, s, seen, id, verifierId, token, verdict, proof, doneAt, g, expires); }
      var state := Conclude(id, token, verdict, proof, doneAt, call);
      if state.Some? {
        SameCaseSameChecks(w, job, store.jobs[id]);
        r := Judgement(id, verdict, state);
      } else if verdict == BLOCKED {
        r := Judgement(id, BLOCKED, None);
        ReachesHere(store.sha, seen, store.sha.token(token));
      } else {
        r, tried := Block(id, token, reason, retryAt, unused, s, g, expires);
      }
    }

    /** The except branch after a refused verdict: submit BLOCKED. */
    method Block(id: string, token: string, reason: string, retryAt: int, ghost unused: bool, ghost s: State, ghost g: nat, ghost expires: int)
      returns (r: CheckReport, ghost tried: State)
      requires Follows(unused, s, id, token, g, expires) && id in store.jobs && store.jobs[id].receipt.Some?
      modifies store
      ensures store.Valid() && Inv(store.sha, store.Contents())
      ensures id in store.jobs && SameCase(old(store.jobs)[id], store.jobs[id])
      ensures Reaches(store.sha, old(store.Contents()), tried, store.sha.token(token))
      ensures var again := Blocked(id, verifierId, token, reason, retryAt);
              && Reaches(store.sha, Exec(store.sha, tried, again).0, store.Contents(), store.sha.token(token))
              && r == Judgement(id, BLOCKED, if Exec(store.sha, tried, again).1.Returned? then Some(BLOCKED) else None)
              && (unused ==> (r.queueState.Some? <==> Timely(store.sha, tried, again, g, expires)))
      ensures r.queueState.Some? ==>
                && store.jobs[id].state == BLOCKED && store.jobs[id].verifier == Some(verifierId) && store.jobs[id].worker != Some(verifierId)
    {
      Meanwhile(id, token, unused, s, g, expires);
      tried := store.Contents();
      ghost var again := Blocked(id, verifierId, token, reason, retryAt);
      if unused { JudgesExactly(store.sha, s, tried, id, verifierId, token, BLOCKED, BlockedProof(reason), retryAt, g, expires); }
      var state := Conclude(id, token, BLOCKED, BlockedProof(reason), retryAt, again);
      r := Judgement(id, BLOCKED, state);
    }

    /** The claim. If it is granted, g is the place of the grant in the log. */
    method TakeCheck(token: string, scan: seq<string>, claimAt: int) returns (lease: Outcome, ghost g: nat)
      requires store.Valid() && Inv(store.sha, store.Contents()) && Enumerates(scan, ExpiredIds(store.jobs, claimAt))
      modifies store
      ensures store.Valid() && Inv(store.sha, store.Contents())
      ensures (store.Contents(), lease) == Exec(store.sha, old(store.Contents()), Op.ClaimVerification(verifierId, 30, token, scan, claimAt))
      ensures ClaimCheckSays(store.sha, old(store.Contents()), verifierId, 30, token, scan, claimAt, store.Contents(), lease)
      ensures lease.Returned? && lease.reply.Granted? ==>
                |old(store.log)| <= g < |store.log| && HoldsCheck(store.Contents(), lease.reply.id, verifierId)
      ensures lease.Returned? && lease.reply.Granted? && Dead(old(store.Contents()), store.sha.token(token)) ==>
                CheckLeased(store.Contents(), lease.reply.id, verifierId, store.sha.token(token), g, claimAt + 30)
    {
      ghost var s, op := store.Contents(), Op.ClaimVerification(verifierId, 30, token, scan, claimAt);
      lease := store.ClaimVerification(verifierId, 30, token, scan, claimAt);
      ExecOk(store.sha, s, op);
      g := CheckTaken(store.sha, s, op, store.Contents(), lease, claimAt + 30);
    }

    /** The rest of one job, once its verification lease has been granted in s, the present state, at g. */
    method AfterClaim(id: string, token: string, w: World, reason: string, doneAt: int, retryAt: int,
                      ghost unused: bool, ghost s: State, ghost g: nat, ghost expires: int)
      returns (r: CheckReport, ghost seen: State, ghost call: Op, ghost tried: State)
      requires store.Valid() && s == store.Contents() && Inv(store.sha, s) && HoldsCheck(s, id, verifierId) && g < |s.log|
      requires unused ==> CheckLeased(s, id, verifierId, store.sha.token(token), g, expires)
      requires forall receipt :: |store.sha.receipt(receipt)| == 64
      modifies store
      ensures store.Valid() && Inv(store.sha, store.Contents()) && HonestReport(w, store.Contents(), verifierId, r)
      ensures id in store.jobs && Submits(w, store.jobs[id], reason, call, id, verifierId, token, doneAt)
      ensures VerdictTold(store.sha, s, id, verifierId, token, reason, retryAt, r, seen, call, tried, store.Contents())
      ensures unused ==> AnsweredRightly(store.sha, id, verifierId, token, reason, retryAt, r, seen, call, tried, g, expires)
    {
      VerifyingHasReceipt(store.sha, s, id);
      ReachesHere(store.sha, s, store.sha.token(token));
      if unused { JustAssigned(store.sha, s, id, verifierId, store.sha.token(token), g, expires); }
      Meanwhile(id, token, unused, s, g, expires);
      ghost var job := store.jobs[id];
      r, seen, call, tried := Decide(id, token, w, reason, doneAt, retryAt, unused, s, g, expires);
      SameCaseSameChecks(w, job, store.jobs[id]);
      SameCaseSameProof(w, job, store.jobs[id], call.verdict, reason, call.proof);
    }

    /** One job: claim, check, conclude; other actors take turns in between. The claim raises exactly on a bad verifier
        id or a taken hash, leaving the store alone; NothingToCheck is reported exactly if, once the expired leases are
        back, no executed job of another worker is left. Otherwise the first of these is judged. The call hands in the
        verdict the job deserves and its proof. A reported VERIFIED or FAILED is in the store under this verifier's name
        and is right for the job's order, receipt and workspace. And with an unused token each call is taken exactly if
        nobody has taken the lease back by then and its thirty seconds have not run out. */
    method RunOnce(token: string, scan: seq<string>, w: World, reason: string, claimAt: int, doneAt: int, retryAt: int)
      returns (r: CheckReport, ghost s: State, ghost g: nat, ghost seen: State, ghost call: Op, ghost tried: State)
      requires store.Valid() && Inv(store.sha, store.Contents()) && Enumerates(scan, ExpiredIds(store.jobs, claimAt))
      requires forall receipt :: |store.sha.receipt(receipt)| == 64
      modifies store
      ensures store.Valid() && Inv(store.sha, store.Contents())
      ensures r.CheckClaimRaised? <==>
                !OwnerOk(verifierId) || HashRejected(store.sha, old(store.Contents()), Op.ClaimVerification(verifierId, 30, token, scan, claimAt))
      ensures r.NothingToCheck? <==>
                !r.CheckClaimRaised? && forall id :: id in old(store.jobs) ==> !ToCheck(TakenBack(old(store.jobs)[id], claimAt), verifierId)
      ensures var claim := if r.CheckClaimRaised? then Raised(r.error) else if r.NothingToCheck? then Returned(Idle)
                           else Returned(Granted(r.jobId, verifierId, token, claimAt + 30));
              ClaimCheckSays(store.sha, old(store.Contents()), verifierId, 30, token, scan, claimAt, s, claim)
      ensures !r.Judgement? ==> store.Contents() == s
      ensures r.Judgement? ==>
                && FirstToCheck(AllTakenBack(old(store.jobs), claimAt), verifierId, r.jobId)
                && HonestReport(w, store.Contents(), verifierId, r)
                && r.jobId in store.jobs && Submits(w, store.jobs[r.jobId], reason, call, r.jobId, verifierId, token, doneAt)
                && VerdictTold(store.sha, s, r.jobId, verifierId, token, reason, retryAt, r, seen, call, tried, store.Contents())
      ensures r.Judgement? && Dead(old(store.Contents()), store.sha.token(token)) ==>
                && CheckLeased(s, r.jobId, verifierId, store.sha.token(token), g, claimAt + 30)
                && AnsweredRightly(store.sha, r.jobId, verifierId, token, reason, retryAt, r, seen, call, tried, g, claimAt + 30)
    {
      ghost var start := store.Contents();
      call := Op.CompleteVerification("", "", "", BLOCKED, JNull, doneAt);
      ghost var unused := Dead(start, store.sha.token(token));
      var lease;
      lease, g := TakeCheck(token, scan, claimAt);
      s := store.Contents();
      seen, tried := s, s;
      CheckAnswer(store.sha, start, verifierId, 30, token, scan, claimAt, s, lease);
      if lease.Raised? {
        r := CheckClaimRaised(lease.error);
      } else if !lease.reply.Granted? {
        r := NothingToCheck;
      } else {
        r, seen, call, tried := AfterClaim(lease.reply.id, token, w, reason, doneAt, retryAt, unused, s, g, claimAt + 30);
      }
    }
  }

  /** The answers of a verification claim, and who gets them. */
  lemma CheckAnswer(sha: Sha, s: State, verifier: string, ttl: int, token: string, scan: seq<string>, now: int, t: State, r: Outcome)
    requires Enumerates(scan, ExpiredIds(s.jobs, now)) && (t, r) == Exec(sha, s, Op.ClaimVerification(verifier, ttl, token, scan, now))
    requires ClaimCheckSays(sha, s, verifier, ttl, token, scan, now, t, r)
    ensures r.Raised? <==> !OwnerOk(verifier) || HashRejected(sha, s, Op.ClaimVerification(verifier, ttl, token, scan, now))
    ensures r.Returned? ==> (r.reply == Idle <==> forall id :: id in s.jobs ==> !ToCheck(TakenBack(s.jobs[id], now), verifier))
    ensures r.Returned? && r.reply != Idle ==> r.reply == Granted(r.reply.id, verifier, token, now + ttl)
                                               && FirstToCheck(AllTakenBack(s.jobs, now), verifier, r.reply.id)
  {
    if r.Returned? { CheckAnswerWritten(sha, s, verifier, ttl, token, scan, now, t, r.reply); }
  }

  lemma CheckAnswerWritten(sha: Sha, s: State, verifier: string, ttl: int, token: string, scan: seq<string>, now: int, t: State, reply: Reply)
    requires ClaimCheckWrites(sha, s, verifier, ttl, token, scan, now, t, reply)
    ensures reply == Idle <==> forall id :: id in s.jobs ==> !ToCheck(TakenBack(s.jobs[id], now), verifier)
    ensures reply != Idle ==> reply == Granted(reply.id, verifier, token, now + ttl) && FirstToCheck(AllTakenBack(s.jobs, now), verifier, reply.id)
  {
    if reply == Idle {
      forall id | id in s.jobs ensures !ToCheck(TakenBack(s.jobs[id], now), verifier) {
        assert id in AllTakenBack(s.jobs, now) && AllTakenBack(s.jobs, now)[id] == TakenBack(s.jobs[id], now);
      }
    }
  }

  /** While the verification lease is live and has not run out, the store takes a VERIFIED verdict with the proof
      the checks produce exactly when every check passes. */
  lemma VerifiedAdmitted(sha: Sha, s: State, id: string, verifier: string, token: string, checks: CheckMap, observed: Json, now: int)
    requires Inv(sha, s) && OwnerOk(verifier) && HoldsCheck(s, id, verifier)
    requires LiveOn(s, id, sha.token(token)) && id !in ExpiredIds(s.jobs, now)
    ensures FleetOps.Decide(sha, s, Op.CompleteVerification(id, verifier, token, VERIFIED, ProofOf(checks, observed), now)).Commit?
            <==> checks != map[] && AllPass(checks)
  {
    ProofAdmission(checks, observed);
    VerdictAdmission(sha, s, id, verifier, token, VERIFIED, ProofOf(checks, observed), now);
  }
}

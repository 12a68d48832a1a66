/** The plan table, and the plan of an accepted job, told by the calls of a run alone. */
module FleetPlans {
  import opened Basics
  import opened Json
  import opened HashChain
  import opened FleetModel
  import opened FleetOps
  import opened FleetEffects
  import opened FleetStore

  /** What the i-th call of a run answers. */
  ghost function Answer(sha: Sha, s: State, ops: seq<Op>, i: nat): Outcome
    requires LegalRun(sha, s, ops) && i < |ops|
    decreases i
  {
    if i == 0 then Exec(sha, s, ops[0]).1 else Answer(sha, Exec(sha, s, ops[0]).0, ops[1..], i - 1)
  }

  /** The i-th call of the run records this plan, and is accepted. */
  ghost predicate RecordedAt(sha: Sha, s: State, ops: seq<Op>, i: nat, planId: string)
    requires LegalRun(sha, s, ops)
  {
    i < |ops| && ops[i].RecordPlan? && ops[i].planId == planId && Answer(sha, s, ops, i).Returned?
  }

  lemma ExecKeepsUnique(sha: Sha, s: State, op: Op, t: State, r: Outcome)
    requires UniqueHashes(s.log) && Legal(s, op) && (t, r) == Exec(sha, s, op)
    ensures UniqueHashes(t.log)
  {
  }

  /** Only an accepted record of a plan writes the plan table. */
  lemma OtherCallsKeepPlans(sha: Sha, s: State, op: Op, t: State, r: Outcome)
    requires UniqueHashes(s.log) && Legal(s, op) && (t, r) == Exec(sha, s, op)
    ensures !op.RecordPlan? || r.Raised? ==> t.plans == s.plans
  {
    match op
    case RecordPlan(planId, status, body, now) => RecordPlanEffect(sha, s, planId, status, body, now, t, r);
    case Enqueue(id, order, now) => EnqueueEffect(sha, s, id, order, now, t, r);
    case ClaimExecution(worker, ttl, token, scan, now) => ClaimEffect(sha, s, worker, ttl, token, scan, now, t, r);
    case Heartbeat(id, worker, token, ttl, now) => HeartbeatEffect(sha, s, id, worker, token, ttl, now, t, r);
    case Complete(id, worker, token, receipt, ok, now) => CompleteEffect(sha, s, id, worker, token, receipt, ok, now, t, r);
    case Fail(id, worker, token, error, delay, now) => FailEffect(sha, s, id, worker, token, error, delay, now, t, r);
    case ClaimVerification(verifier, ttl, token, scan, now) => ClaimCheckEffect(sha, s, verifier, ttl, token, scan, now, t, r);
    case CompleteVerification(id, verifier, token, verdict, proof, now) =>
      VerdictEffect(sha, s, id, verifier, token, verdict, proof, now, t, r);
  }

  /** One call and one plan: an accepted record of it sets its row, nothing else touches the row. */
  lemma PlanAfterCall(sha: Sha, s: State, op: Op, planId: string, t: State, r: Outcome)
    requires UniqueHashes(s.log) && Legal(s, op) && (t, r) == Exec(sha, s, op)
    ensures if op.RecordPlan? && op.planId == planId && r.Returned?
            then planId in t.plans && t.plans[planId].status == op.status && t.plans[planId].body == op.body
            else (planId in t.plans <==> planId in s.plans) && (planId in s.plans ==> t.plans[planId] == s.plans[planId])
  {
    OtherCallsKeepPlans(sha, s, op, t, r);
    if op.RecordPlan? { RecordPlanEffect(sha, s, op.planId, op.status, op.body, op.now, t, r); }
  }

  /** Over any run, a plan's row is what the last accepted record of it said, or what it was before. */
  lemma {:induction false} PlanAfterRun(sha: Sha, s: State, ops: seq<Op>, planId: string) returns (last: Option<nat>)
    requires UniqueHashes(s.log) && LegalRun(sha, s, ops)
    ensures var t := Run(sha, s, ops);
            match last
            case Some(i) =>
              && RecordedAt(sha, s, ops, i, planId) && (forall j :: i < j < |ops| ==> !RecordedAt(sha, s, ops, j, planId))
              && planId in t.plans && t.plans[planId].status == ops[i].status && t.plans[planId].body == ops[i].body
            case None =>
              && (forall j :: 0 <= j < |ops| ==> !RecordedAt(sha, s, ops, j, planId))
              && (planId in t.plans <==> planId in s.plans) && (planId in s.plans ==> t.plans[planId] == s.plans[planId])
    decreases |ops|
  {
    last := None;
    if ops != [] {
      var (t, r) := Exec(sha, s, ops[0]);
      PlanAfterCall(sha, s, ops[0], planId, t, r);
      ExecKeepsUnique(sha, s, ops[0], t, r);
      var later := PlanAfterRun(sha, t, ops[1..], planId);
      LaterRecords(sha, s, ops, planId);
      last := if later.Some? then Some(later.value + 1) else if RecordedAt(sha, s, ops, 0, planId) then Some(0) else None;
    }
  }

  lemma LaterRecords(sha: Sha, s: State, ops: seq<Op>, planId: string)
    requires LegalRun(sha, s, ops) && ops != []
    ensures forall j :: 1 <= j < |ops| ==>
              (RecordedAt(sha, s, ops, j, planId) <==> RecordedAt(sha, Exec(sha, s, ops[0]).0, ops[1..], j - 1, planId))
  {
  }

  /** After any run from the empty store a plan is stored exactly if some call recorded it and was accepted,
      and its status and body are those of the last such call. */
  lemma PlanTableIsLastRecord(sha: Sha, ops: seq<Op>, planId: string) returns (last: nat)
    requires LegalRun(sha, EMPTY, ops)
    ensures planId in Run(sha, EMPTY, ops).plans <==> exists j :: 0 <= j < |ops| && RecordedAt(sha, EMPTY, ops, j, planId)
    ensures planId in Run(sha, EMPTY, ops).plans ==>
              && RecordedAt(sha, EMPTY, ops, last, planId) && (forall j :: last < j < |ops| ==> !RecordedAt(sha, EMPTY, ops, j, planId))
              && Run(sha, EMPTY, ops).plans[planId].status == ops[last].status
              && Run(sha, EMPTY, ops).plans[planId].body == ops[last].body
  {
    var found := PlanAfterRun(sha, EMPTY, ops, planId);
    last := if found.Some? then found.value else 0;
  }

  /** The run up to a call, and what that call finds. */
  lemma {:induction false} RunUpTo(sha: Sha, s: State, ops: seq<Op>, n: nat)
    requires LegalRun(sha, s, ops) && n < |ops|
    ensures LegalRun(sha, s, ops[..n]) && Legal(Run(sha, s, ops[..n]), ops[n])
    ensures Answer(sha, s, ops, n) == Exec(sha, Run(sha, s, ops[..n]), ops[n]).1
    ensures forall j :: 0 <= j < n ==> Answer(sha, s, ops[..n], j) == Answer(sha, s, ops, j)
    decreases n
  {
    if n > 0 {
      var t := Exec(sha, s, ops[0]).0;
      RunUpTo(sha, t, ops[1..], n - 1);
      assert ops[..n][1..] == ops[1..][..n - 1];
    }
  }

  /** Every accepted job belongs to a plan whose last accepted record, before it in the run, was a call with
      the status VERIFIED_PLAN. */
  lemma EnqueuedPlanWasRecordedVerified(sha: Sha, ops: seq<Op>, n: nat) returns (i: nat)
    requires LegalRun(sha, EMPTY, ops) && n < |ops| && ops[n].Enqueue? && Answer(sha, EMPTY, ops, n).Returned?
    ensures i < n && RecordedAt(sha, EMPTY, ops, i, ops[n].order.planId) && ops[i].status == VerifiedPlan
    ensures forall j :: i < j < n ==> !RecordedAt(sha, EMPTY, ops, j, ops[n].order.planId)
  {
    RunUpTo(sha, EMPTY, ops, n);
    var s, op := Run(sha, EMPTY, ops[..n]), ops[n];
    i := PlanTableIsLastRecord(sha, ops[..n], op.order.planId);
    EnqueueNeedsVerified(sha, s, op);
    assert forall j :: 0 <= j < n ==>
      (RecordedAt(sha, EMPTY, ops[..n], j, op.order.planId) <==> RecordedAt(sha, EMPTY, ops, j, op.order.planId));
  }

  lemma EnqueueNeedsVerified(sha: Sha, s: State, op: Op)
    requires op.Enqueue?
    ensures Exec(sha, s, op).1.Returned? ==> op.order.planId in s.plans && s.plans[op.order.planId].status == VerifiedPlan
  {
  }
}

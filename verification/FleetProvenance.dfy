/** Where a verdict comes from: every judged job has its whole story in the log, in order. */
module FleetProvenance {
  import opened Basics
  import opened HashChain
  import opened FleetModel
  import opened FleetOps
  import opened FleetInvariant

  type Log = seq<Row<Event>>

  /** Positions in the log of a job's story: plan, enqueue, execution grant, receipt, verification grant, verdict. */
  datatype Trail = Trail(plan: nat, enqueue: nat, grant: nat, receipt: nat, check: nat, verdict: nat)

  predicate About(e: Event, id: string) {
    e.jobId == Some(id)
  }

  predicate PlanEvent(e: Event, planId: string) {
    e.payload.PlanRecorded? && e.payload.planId == planId
  }

  /** Position p records the plan's status as of just before position `end`. */
  predicate LatestPlan(log: Log, planId: string, p: nat, end: nat) {
    p < end <= |log| && PlanEvent(log[p].content, planId) && forall k :: p < k < end ==> !PlanEvent(log[k].content, planId)
  }

  predicate EnqueuedAt(log: Log, k: nat, id: string, planId: string) {
    k < |log| && About(log[k].content, id) && log[k].content.payload.JobEnqueued? && log[k].content.payload.plan == planId
  }

  predicate GrantedAt(log: Log, k: nat, id: string, worker: Option<string>) {
    k < |log| && About(log[k].content, id) && log[k].content.payload.ExecutionLeaseGranted? && Some(log[k].content.actor) == worker
  }

  predicate AcceptedAt(log: Log, k: nat, id: string, worker: Option<string>, digest: Option<Digest>) {
    && k < |log| && About(log[k].content, id) && log[k].content.payload.ExecutionReceiptAccepted?
    && Some(log[k].content.actor) == worker && Some(log[k].content.payload.receiptSha) == digest
  }

  predicate CheckGrantedAt(log: Log, k: nat, id: string, verifier: Option<string>) {
    k < |log| && About(log[k].content, id) && log[k].content.payload.VerificationLeaseGranted? && Some(log[k].content.actor) == verifier
  }

  predicate JudgedAt(log: Log, k: nat, id: string, verifier: Option<string>, v: Option<Verification>) {
    && k < |log| && About(log[k].content, id) && log[k].content.payload.IndependentVerification?
    && Some(log[k].content.actor) == verifier && Some(log[k].content.payload.verification) == v
  }

  /** Strictly between the positions the job only had heartbeats: one lease reaches from one to the other. */
  predicate OnlyHeartbeats(log: Log, id: string, from: nat, to: nat)
    requires to <= |log|
  {
    forall k :: from < k < to && About(log[k].content, id) ==> log[k].content.payload.ExecutionHeartbeat?
  }

  predicate NothingAbout(log: Log, id: string, from: nat, to: nat)
    requires to <= |log|
  {
    forall k :: from < k < to ==> !About(log[k].content, id)
  }

  /** The trail backs up what the row claims. */
  predicate Backs(log: Log, id: string, job: Job, t: Trail) {
    && LatestPlan(log, job.order.planId, t.plan, t.enqueue) && log[t.plan].content.payload.status == VerifiedPlan
    && EnqueuedAt(log, t.enqueue, id, job.order.planId)
    && (job.state == LEASED || job.receipt.Some? ==> t.enqueue < t.grant && GrantedAt(log, t.grant, id, job.worker))
    && (job.state == LEASED ==> OnlyHeartbeats(log, id, t.grant, |log|))
    && (job.receipt.Some? ==>
          t.grant < t.receipt && AcceptedAt(log, t.receipt, id, job.worker, job.receiptSha) && OnlyHeartbeats(log, id, t.grant, t.receipt))
    && (job.state == VERIFYING || job.verification.Some? ==>
          t.receipt < t.check && CheckGrantedAt(log, t.check, id, job.verifier))
    && (job.state == VERIFYING ==> NothingAbout(log, id, t.check, |log|))
    && (job.verification.Some? ==>
          t.check < t.verdict && JudgedAt(log, t.verdict, id, job.verifier, job.verification) && NothingAbout(log, id, t.check, t.verdict))
  }

  /** Where the next event leaves the trail. */
  function NextTrail(t: Trail, m: Move, n: nat): Trail {
    match m
    case Grant(_, _, _) => t.(grant := n)
    case Accept(_) => t.(receipt := n)
    case Assign(_, _, _) => t.(check := n)
    case Judge(_, _) => t.(verdict := n)
    case _ => t
  }

  lemma OtherBacks(sha: Sha, log: Log, e: Event, id: string, job: Job, t: Trail)
    requires Backs(log, id, job, t) && !About(e, id)
    ensures Backs(AppendEvent(sha, log, e), id, job, t)
  {
  }

  lemma StepBacks(sha: Sha, log: Log, id: string, job: Job, m: Move, now: int, t: Trail)
    requires JobOk(sha, job) && CanMove(job, m, now) && Backs(log, id, job, t)
    ensures Backs(AppendEvent(sha, log, MoveEvent(sha, id, job, m, now)), id, Moved(sha, job, m, now), NextTrail(t, m, |log|))
  {
  }

  ghost predicate PlanLogged(log: Log, planId: string, status: PlanStatus) {
    exists p: nat :: LatestPlan(log, planId, p, |log|) && log[p].content.payload.status == status
  }

  ghost predicate JobLogged(log: Log, id: string, job: Job) {
    exists t: Trail :: Backs(log, id, job, t)
  }

  ghost predicate AllLogged(s: State) {
    && (forall planId :: planId in s.plans ==> PlanLogged(s.log, planId, s.plans[planId].status))
    && (forall id :: id in s.jobs ==> JobLogged(s.log, id, s.jobs[id]))
  }

  lemma PlanStaysLogged(sha: Sha, log: Log, e: Event, planId: string, status: PlanStatus)
    requires PlanLogged(log, planId, status) && !PlanEvent(e, planId)
    ensures PlanLogged(AppendEvent(sha, log, e), planId, status)
  {
    var p: nat :| LatestPlan(log, planId, p, |log|) && log[p].content.payload.status == status;
    assert LatestPlan(AppendEvent(sha, log, e), planId, p, |log| + 1);
  }

  lemma PlanNowLogged(sha: Sha, log: Log, e: Event, planId: string, status: PlanStatus)
    requires e.payload == PlanRecorded(planId, status)
    ensures PlanLogged(AppendEvent(sha, log, e), planId, status)
  {
    assert LatestPlan(AppendEvent(sha, log, e), planId, |log|, |log| + 1);
  }

  lemma JobStaysLogged(sha: Sha, log: Log, e: Event, id: string, job: Job)
    requires JobLogged(log, id, job) && !About(e, id)
    ensures JobLogged(AppendEvent(sha, log, e), id, job)
  {
    var t: Trail :| Backs(log, id, job, t);
    OtherBacks(sha, log, e, id, job, t);
  }

  lemma JobNowLogged(sha: Sha, log: Log, e: Event, id: string, order: Order, now: int)
    requires PlanLogged(log, order.planId, VerifiedPlan)
    requires About(e, id) && e.payload.JobEnqueued? && e.payload.plan == order.planId
    ensures JobLogged(AppendEvent(sha, log, e), id, FreshJob(order, now))
  {
    var p: nat :| LatestPlan(log, order.planId, p, |log|) && log[p].content.payload.status == VerifiedPlan;
    assert Backs(AppendEvent(sha, log, e), id, FreshJob(order, now), Trail(p, |log|, 0, 0, 0, 0));
  }

  lemma StepLogged(sha: Sha, log: Log, id: string, job: Job, m: Move, now: int)
    requires JobOk(sha, job) && CanMove(job, m, now) && JobLogged(log, id, job)
    ensures JobLogged(AppendEvent(sha, log, MoveEvent(sha, id, job, m, now)), id, Moved(sha, job, m, now))
  {
    var t: Trail :| Backs(log, id, job, t);
    StepBacks(sha, log, id, job, m, now, t);
  }

  lemma EffectLogsPlans(sha: Sha, s: State, c: Stamped, planId: string)
    requires Allowed(s, c) && (planId in s.plans ==> PlanLogged(s.log, planId, s.plans[planId].status))
    requires planId in Effect(sha, s, c).plans
    ensures PlanLogged(Effect(sha, s, c).log, planId, Effect(sha, s, c).plans[planId].status)
  {
    var e := EventOf(sha, s, c);
    if PlanEvent(e, planId) {
      PlanNowLogged(sha, s.log, e, planId, e.payload.status);
    } else {
      PlanStaysLogged(sha, s.log, e, planId, s.plans[planId].status);
    }
  }

  lemma EffectLogsJobs(sha: Sha, s: State, c: Stamped, id: string)
    requires Inv(sha, s) && Allowed(s, c) && AllLogged(s) && id in Effect(sha, s, c).jobs
    ensures JobLogged(Effect(sha, s, c).log, id, Effect(sha, s, c).jobs[id])
  {
    var e := EventOf(sha, s, c);
    match c.change
    case NewPlan(_, _, _) =>
      JobStaysLogged(sha, s.log, e, id, s.jobs[id]);
    case NewJob(k, order) =>
      if k == id { JobNowLogged(sha, s.log, e, id, order, c.now); } else { JobStaysLogged(sha, s.log, e, id, s.jobs[id]); }
    case Step(k, m) =>
      if k == id { StepLogged(sha, s.log, id, s.jobs[id], m, c.now); } else { JobStaysLogged(sha, s.log, e, id, s.jobs[id]); }
  }

  lemma {:induction false} ChangesLogged(sha: Sha, s: State, cs: seq<Stamped>)
    requires Inv(sha, s) && AllowedRun(sha, s, cs) && AllLogged(s)
    ensures AllLogged(RunChanges(sha, s, cs))
    decreases |cs|
  {
    if cs != [] {
      var t := Effect(sha, s, cs[0]);
      EffectOk(sha, s, cs[0]);
      forall planId | planId in t.plans ensures PlanLogged(t.log, planId, t.plans[planId].status) { EffectLogsPlans(sha, s, cs[0], planId); }
      forall id | id in t.jobs ensures JobLogged(t.log, id, t.jobs[id]) { EffectLogsJobs(sha, s, cs[0], id); }
      ChangesLogged(sha, t, cs[1..]);
    }
  }

  // ----- what a verdict rests on -----

  /** The whole story of a VERIFIED verdict by v on digest h produced by w. */
  predicate Provenance(log: Log, id: string, planId: string, w: string, v: string, h: Digest, t: Trail) {
    && t.plan < t.enqueue < t.grant < t.receipt < t.check < t.verdict < |log|
    && LatestPlan(log, planId, t.plan, t.enqueue) && log[t.plan].content.payload.status == VerifiedPlan
    && EnqueuedAt(log, t.enqueue, id, planId)
    && GrantedAt(log, t.grant, id, Some(w))
    && OnlyHeartbeats(log, id, t.grant, t.receipt)
    && AcceptedAt(log, t.receipt, id, Some(w), Some(h))
    && CheckGrantedAt(log, t.check, id, Some(v))
    && NothingAbout(log, id, t.check, t.verdict)
    && About(log[t.verdict].content, id) && log[t.verdict].content.actor == v
    && log[t.verdict].content.payload.IndependentVerification?
    && VerifiedRecord(log[t.verdict].content.payload.verification, v, h)
    && v != w
  }

  predicate VerifiedRecord(record: Verification, v: string, h: Digest) {
    record.verdict == VERIFIED && record.verifier == v && record.receiptSha == Some(h) && ProofPasses(record.proof)
  }

  /** Every job a run has made is backed by the run's log. */
  lemma ReachableBacked(sha: Sha, ops: seq<Op>, id: string) returns (t: Trail)
    requires LegalRun(sha, EMPTY, ops) && id in Run(sha, EMPTY, ops).jobs
    ensures Backs(Run(sha, EMPTY, ops).log, id, Run(sha, EMPTY, ops).jobs[id], t)
    ensures JobOk(sha, Run(sha, EMPTY, ops).jobs[id])
  {
    var s := Run(sha, EMPTY, ops);
    ReachableOk(sha, ops);
    ChangesLogged(sha, EMPTY, History(sha, EMPTY, ops));
    assert JobLogged(s.log, id, s.jobs[id]);
    t :| Backs(s.log, id, s.jobs[id], t);
  }

  /** In every reachable state a VERIFIED job has, in this order in the log: the then current VERIFIED_PLAN
      record of its plan, its enqueueing, an execution lease to some w that lasted up to the acceptance of w's
      receipt h, a verification lease to some v other than w, and v's verdict on h with passing checks. */
  lemma VerifiedProvenance(sha: Sha, ops: seq<Op>, id: string) returns (w: string, v: string, h: Digest, t: Trail)
    requires LegalRun(sha, EMPTY, ops)
    requires id in Run(sha, EMPTY, ops).jobs && Run(sha, EMPTY, ops).jobs[id].state == VERIFIED
    ensures var s := Run(sha, EMPTY, ops);
            && Provenance(s.log, id, s.jobs[id].order.planId, w, v, h, t)
            && s.jobs[id].receipt.Some? && h == sha.receipt(s.jobs[id].receipt.value)
            && s.jobs[id].worker == Some(w) && s.jobs[id].verifier == Some(v)
  {
    t := ReachableBacked(sha, ops, id);
    var job := Run(sha, EMPTY, ops).jobs[id];
    w, v, h := job.worker.value, job.verifier.value, job.receiptSha.value;
  }

  /** No verdict of any kind without a receipt accepted from a different worker. */
  lemma JudgedProvenance(sha: Sha, ops: seq<Op>, id: string) returns (t: Trail)
    requires LegalRun(sha, EMPTY, ops)
    requires id in Run(sha, EMPTY, ops).jobs && Run(sha, EMPTY, ops).jobs[id].verification.Some?
    ensures var s := Run(sha, EMPTY, ops);
            var job := s.jobs[id];
            && t.grant < t.receipt < t.check < t.verdict < |s.log|
            && AcceptedAt(s.log, t.receipt, id, job.worker, job.receiptSha)
            && JudgedAt(s.log, t.verdict, id, job.verifier, job.verification)
            && VerdictOnReceipt(job)
            && job.worker != job.verifier
  {
    t := ReachableBacked(sha, ops, id);
  }

  predicate VerdictOnReceipt(job: Job)
    requires job.verification.Some?
  {
    job.verification.value.verdict == job.state && job.verification.value.receiptSha == job.receiptSha
  }
}

/** The row guards of the Postgres functions, with SQL's null comparisons, what the functions write, and what a
    job's or plan's events say about its row. */
module PostgresGuards {
  import opened Basics
  import opened Json
  import opened HashChain
  import opened FleetModel
  import opened FleetCounts
  import opened FleetReplay
  import FleetOps

  type Log = seq<Row<Event>>

  // ----- three-valued comparisons -----

  datatype Truth = Yes | No | Unknown

  function Less(a: Option<int>, b: int): Truth {
    if a.None? then Unknown else if a.value < b then Yes else No
  }

  function Differs(a: Option<string>, b: Option<string>): Truth {
    if a.None? || b.None? then Unknown else if a.value != b.value then Yes else No
  }

  function Or(a: Truth, b: Truth): Truth {
    if a == Yes || b == Yes then Yes else if a == No && b == No then No else Unknown
  }

  /** `if condition then raise` raises only on true. */
  predicate Raises(condition: Truth) {
    condition == Yes
  }

  // ----- the guards -----

  /** The owner and the token a call was given, either of which may be null. */
  datatype Caller = Caller(owner: Option<string>, token: Option<string>)

  function TokenHash(sha: Sha, caller: Caller): Option<Digest> {
    if caller.token.None? then None else Some(sha.token(caller.token.value))
  }

  /** What the functions do to a job: the SQLite moves, and those that only null arguments lead to. */
  datatype PgMove =
    | Plain(move: Move)
    | GrantForever(worker: string, token: Digest)
    | RenewForever
    | GiveUpSilently(delay: int)
    | AssignForever(verifier: string, token: Digest)

  /** The call is about a leased job and not by someone else. A null owner cannot append the event. */
  predicate ByHolder(job: Job, caller: Caller) {
    job.state == LEASED && caller.owner.Some? && !Raises(Differs(job.worker, caller.owner))
  }

  predicate ByChecker(job: Job, caller: Caller) {
    job.state == VERIFYING && caller.owner.Some? && !Raises(Differs(job.verifier, caller.owner)) && job.worker != caller.owner
  }

  /** The comparison of expiry and token hash. */
  predicate LeaseRefused(sha: Sha, expires: Option<int>, hash: Option<Digest>, caller: Caller, now: int) {
    Raises(Or(Less(expires, now), Differs(hash, TokenHash(sha, caller))))
  }

  /** The guard the function puts before this row update. Any receipt is let through, more than the function does. */
  predicate SqlAdmits(sha: Sha, job: Job, m: PgMove, caller: Caller, now: int) {
    match m
    case GrantForever(w, _) => OwnerOk(w) && Claimable(job, now)
    case RenewForever => ByHolder(job, caller) && !LeaseRefused(sha, job.leaseExpires, job.leaseHash, caller, now)
    case GiveUpSilently(_) => ByHolder(job, caller) && !Raises(Differs(job.leaseHash, TokenHash(sha, caller)))
    case AssignForever(v, _) => OwnerOk(v) && CheckableBy(job, v)
    case Plain(Grant(w, _, _)) => OwnerOk(w) && Claimable(job, now)
    case Plain(Lapse) => job.state == LEASED && Less(job.leaseExpires, now) == Yes
    case Plain(Renew(_)) => ByHolder(job, caller) && !LeaseRefused(sha, job.leaseExpires, job.leaseHash, caller, now)
    case Plain(Accept(_)) => ByHolder(job, caller) && !LeaseRefused(sha, job.leaseExpires, job.leaseHash, caller, now)
    case Plain(GiveUp(_, _)) => ByHolder(job, caller) && !Raises(Differs(job.leaseHash, TokenHash(sha, caller)))
    case Plain(Assign(v, _, _)) => OwnerOk(v) && CheckableBy(job, v)
    case Plain(Release) => job.state == VERIFYING && Less(job.checkExpires, now) == Yes
    case Plain(Judge(verdict, proof)) =>
      && ByChecker(job, caller) && !LeaseRefused(sha, job.checkExpires, job.checkHash, caller, now)
      && IsVerdict(verdict) && (verdict == VERIFIED ==> ProofPasses(proof))
  }

  /** A leased job has a holder and a token hash, a job under check a verifier and one. */
  predicate Owned(job: Job) {
    && (job.state == LEASED ==> job.worker.Some? && job.leaseHash.Some?)
    && (job.state == VERIFYING ==> job.verifier.Some? && job.checkHash.Some?)
  }

  /** What the comparison of expiry and token lets through: a null expiry never runs out, and a null token is not
      compared. */
  lemma LeaseCheckExactly(sha: Sha, expires: Option<int>, h: Digest, caller: Caller, now: int)
    ensures !LeaseRefused(sha, expires, Some(h), caller, now)
            <==> (expires.Some? ==> now <= expires.value) && (caller.token.Some? ==> sha.token(caller.token.value) == h)
  {
  }

  /** With a token given and an expiry stored, the guards are those of the SQLite store. */
  lemma GuardsAgree(sha: Sha, s: State, id: string, owner: string, token: string, ttl: int, delay: int, error: string, now: int)
    requires id in s.jobs && Owned(s.jobs[id]) && OwnerOk(owner)
    requires s.jobs[id].state == LEASED ==> s.jobs[id].leaseExpires.Some?
    ensures var job, caller := s.jobs[id], Caller(Some(owner), Some(token));
            && (SqlAdmits(sha, job, Plain(Renew(now + ttl)), caller, now) <==> FleetOps.DecideHeartbeat(sha, s, id, owner, token, ttl, now).Commit?)
            && (SqlAdmits(sha, job, Plain(GiveUp(error, delay)), caller, now) <==> FleetOps.DecideFail(sha, s, id, owner, token, error, delay, now).Commit?)
  {
  }

  lemma CompletionGuardsAgree(sha: Sha, s: State, id: string, owner: string, token: string, receipt: Json, now: int)
    requires id in s.jobs && Owned(s.jobs[id]) && OwnerOk(owner) && ReceiptAdmissible(receipt)
    requires s.jobs[id].state == LEASED ==> s.jobs[id].leaseExpires.Some?
    ensures SqlAdmits(sha, s.jobs[id], Plain(Accept(receipt)), Caller(Some(owner), Some(token)), now)
            <==> FleetOps.DecideComplete(sha, s, id, owner, token, receipt, true, now).Commit?
  {
  }

  lemma VerdictGuardsAgree(sha: Sha, s: State, id: string, owner: string, token: string, verdict: JobState, proof: Json, now: int)
    requires id in s.jobs && Owned(s.jobs[id]) && OwnerOk(owner) && proof.JObj?
    requires s.jobs[id].state == VERIFYING ==> s.jobs[id].checkExpires.Some?
    ensures SqlAdmits(sha, s.jobs[id], Plain(Judge(verdict, proof)), Caller(Some(owner), Some(token)), now)
            <==> FleetOps.DecideCompleteVerification(sha, s, id, owner, token, verdict, proof, now).Commit?
  {
  }

  /** A null token is not compared: without one the holder's call goes through exactly while the lease lasts. */
  lemma NullTokenExactly(sha: Sha, job: Job, owner: string, expires: int, now: int)
    requires Owned(job)
    ensures SqlAdmits(sha, job, Plain(Renew(expires)), Caller(Some(owner), None), now)
            <==> job.state == LEASED && job.worker == Some(owner) && !Expired(job, now)
  {
  }

  // ----- what the functions write -----

  lemma AdmittedCanMove(sha: Sha, job: Job, m: Move, caller: Caller, now: int)
    requires Owned(job) && SqlAdmits(sha, job, Plain(m), caller, now) && !m.Accept?
    ensures CanMove(job, m, now)
  {
  }

  function PgMoved(sha: Sha, job: Job, m: PgMove, caller: Caller, now: int): Job
    requires Owned(job) && SqlAdmits(sha, job, m, caller, now)
  {
    match m
    case GrantForever(w, token) =>
      job.(state := LEASED, worker := Some(w), leaseHash := Some(token), leaseExpires := None,
           attempts := job.attempts + 1, updatedAt := now, lastError := None)
    case RenewForever => job.(leaseExpires := None, updatedAt := now)
    case GiveUpSilently(delay) =>
      job.(state := Retried(job), availableAt := now + (if delay > 0 then delay else 0),
           worker := None, leaseHash := None, leaseExpires := None, updatedAt := now, lastError := None)
    case AssignForever(v, token) =>
      job.(state := VERIFYING, verifier := Some(v), checkHash := Some(token), checkExpires := None, updatedAt := now)
    case Plain(p) =>
      if p.Accept? then
        job.(state := EXECUTED, receipt := Some(p.receipt), receiptSha := Some(sha.receipt(p.receipt)),
             leaseHash := None, leaseExpires := None, updatedAt := now)
      else
        AdmittedCanMove(sha, job, p, caller, now);
        Moved(sha, job, p, now)
  }

  function PgMoveEvent(sha: Sha, id: string, job: Job, m: PgMove, caller: Caller, now: int): Event
    requires Owned(job) && SqlAdmits(sha, job, m, caller, now)
  {
    match m
    case GrantForever(w, _) => Event(Some(id), w, ExecutionLeaseGranted(None, job.attempts + 1), now)
    case RenewForever => Event(Some(id), job.worker.value, ExecutionHeartbeat(None), now)
    case GiveUpSilently(_) => Event(Some(id), job.worker.value, ExecutionFailed(Retried(job), job.attempts, None), now)
    case AssignForever(v, _) => Event(Some(id), v, VerificationLeaseGranted(None), now)
    case Plain(p) =>
      if p.Accept? then Event(Some(id), job.worker.value, ExecutionReceiptAccepted(sha.receipt(p.receipt), Get(p.receipt, "executor_id")), now)
      else
        AdmittedCanMove(sha, job, p, caller, now);
        MoveEvent(sha, id, job, p, now)
  }

  function EnqueueEvent(id: string, order: Order, now: int): Event {
    Event(Some(id), CONTROL_PLANE, JobEnqueued(order.planId, order.workspaceId, order.capabilityId, order.priority, order.maxAttempts), now)
  }

  function PlanEvent(planId: string, status: PlanStatus, now: int): Event {
    Event(None, CONTROL_PLANE, PlanRecorded(planId, status), now)
  }

  // ----- what a log tells about one row -----

  datatype Key = JobKey(id: string) | PlanKey(planId: string)

  datatype Entry = JobEntry(job: Job) | PlanEntry(status: PlanStatus)

  /** The tally and the view of a job, and whether each of its events was due; the status of a plan, as far as told. */
  datatype Story = Story(tally: Tally, view: Option<View>, due: bool, plan: Option<PlanStatus>)

  const UNTOLD := Story(NOTHING, None, true, None)

  predicate About(e: Event, key: Key) {
    match key
    case JobKey(id) => e.jobId == Some(id)
    case PlanKey(p) => e.jobId.None? && e.payload.PlanRecorded? && e.payload.planId == p
  }

  function ViewAfter(v: Option<View>, e: Event): Option<View> {
    match e.payload
    case JobEnqueued(plan, workspaceId, capabilityId, priority, maxAttempts) =>
      Some(View(plan, workspaceId, capabilityId, priority, maxAttempts, QUEUED, 0, e.createdAt, e.createdAt, None, None, None, None, None, None))
    case _ => if v.Some? then Some(Replayed(v.value, e)) else None
  }

  predicate Retry(state: JobState) {
    state == QUEUED || state == FAILED
  }

  /** The verdict's record is about this check and receipt, and a VERIFIED one has passing checks. */
  predicate RecordFits(v: View, record: Verification) {
    && Some(record.verifier) == v.verifier && record.receiptSha == v.receiptSha && IsVerdict(record.verdict)
    && (record.verdict == VERIFIED ==> ProofPasses(record.proof))
  }

  /** The event may come next, and comes from whom it may come. */
  predicate Due(v: Option<View>, e: Event) {
    if v.None? then e.payload.JobEnqueued?
    else
      var w := v.value;
      match e.payload
      case PlanRecorded(_, _) => false
      case JobEnqueued(_, _, _, _, _) => false
      case ExecutionLeaseGranted(_, _) => w.state == QUEUED
      case ExecutionLeaseExpired(_, next) => w.state == LEASED && Retry(next)
      case ExecutionHeartbeat(_) => w.state == LEASED && w.worker == Some(e.actor)
      case ExecutionReceiptAccepted(_, _) => w.state == LEASED && w.worker == Some(e.actor)
      case ExecutionFailed(next, _, _) => w.state == LEASED && w.worker == Some(e.actor) && Retry(next)
      case VerificationLeaseGranted(_) => w.state == EXECUTED && w.worker != Some(e.actor)
      case VerificationLeaseExpired(_) => w.state == VERIFYING
      case IndependentVerification(r) => w.state == VERIFYING && w.verifier == Some(e.actor) && w.worker != w.verifier && RecordFits(w, r)
  }

  function Told(s: Story, e: Event, key: Key): Story {
    if !About(e, key) then s
    else
      match key
      case JobKey(_) => Story(Bump(s.tally, MarkOf(e)), ViewAfter(s.view, e), s.due && Due(s.view, e), s.plan)
      case PlanKey(_) => s.(plan := Some(e.payload.status))
  }

  function StoryFor(log: Log, key: Key): Story
    decreases |log|
  {
    if log == [] then UNTOLD else Told(StoryFor(log[..|log| - 1], key), log[|log| - 1].content, key)
  }

  /** The row is what the story says. */
  predicate EntryGood(s: Story, key: Key, entry: Entry) {
    match entry
    case JobEntry(job) => key.JobKey? && s.due && Phase(job) && Owned(job) && JobBalanced(s.tally, job) && s.view == Some(ViewOf(job))
    case PlanEntry(status) => key.PlanKey? && s.plan == Some(status)
  }

  lemma {:induction false} StorySilent(log: Log, more: Log, key: Key)
    requires forall i :: 0 <= i < |more| ==> !About(more[i].content, key)
    ensures StoryFor(log + more, key) == StoryFor(log, key)
    decreases |more|
  {
    if more == [] {
      assert log + more == log;
    } else {
      var all := log + more;
      assert all[..|all| - 1] == log + more[..|more| - 1];
      StorySilent(log, more[..|more| - 1], key);
    }
  }

  /** The story agrees with the tally and the replay of the serial store. */
  lemma {:induction false} StoryIsReplay(log: Log, id: string)
    ensures TallyFor(log, id) == StoryFor(log, JobKey(id)).tally
    ensures id in Replay(log) <==> StoryFor(log, JobKey(id)).view.Some?
    ensures id in Replay(log) ==> StoryFor(log, JobKey(id)).view == Some(Replay(log)[id])
    decreases |log|
  {
    if log != [] { StoryIsReplay(log[..|log| - 1], id); }
  }

  predicate RecordsPlan(e: Event, planId: string, status: PlanStatus) {
    About(e, PlanKey(planId)) && e.payload.status == status
  }

  /** A told status was recorded. */
  lemma {:induction false} PlanTold(log: Log, planId: string)
    ensures var plan := StoryFor(log, PlanKey(planId)).plan;
            plan.Some? ==> exists k :: 0 <= k < |log| && RecordsPlan(log[k].content, planId, plan.value)
    decreases |log|
  {
    if log != [] {
      var most := log[..|log| - 1];
      PlanTold(most, planId);
      if About(log[|log| - 1].content, PlanKey(planId)) {
        assert RecordsPlan(log[|log| - 1].content, planId, log[|log| - 1].content.payload.status);
      } else {
        var plan := StoryFor(most, PlanKey(planId)).plan;
        if plan.Some? {
          var k :| 0 <= k < |most| && RecordsPlan(most[k].content, planId, plan.value);
          assert log[k] == most[k];
        }
      }
    }
  }

  // ----- each write keeps row and story together -----

  lemma MovePhase(sha: Sha, t: Tally, id: string, job: Job, m: PgMove, caller: Caller, now: int)
    requires Owned(job) && SqlAdmits(sha, job, m, caller, now) && Phase(job) && JobBalanced(t, job)
    ensures var next := PgMoved(sha, job, m, caller, now);
            Phase(next) && Owned(next) && JobBalanced(Bump(t, MarkOf(PgMoveEvent(sha, id, job, m, caller, now))), next)
  {
    if m.Plain? && !m.move.Accept? {
      AdmittedCanMove(sha, job, m.move, caller, now);
      MoveBalanced(sha, id, t, job, m.move, now);
      MoveOwned(sha, job, m.move, now);
    }
  }

  lemma MoveOwned(sha: Sha, job: Job, m: Move, now: int)
    requires Phase(job) && Owned(job) && CanMove(job, m, now)
    ensures Phase(Moved(sha, job, m, now)) && Owned(Moved(sha, job, m, now))
  {
  }

  lemma MoveView(sha: Sha, id: string, job: Job, m: PgMove, caller: Caller, now: int)
    requires Owned(job) && SqlAdmits(sha, job, m, caller, now)
    ensures var e := PgMoveEvent(sha, id, job, m, caller, now);
            About(e, JobKey(id)) && ViewAfter(Some(ViewOf(job)), e) == Some(ViewOf(PgMoved(sha, job, m, caller, now)))
  {
    if m.Plain? && !m.move.Accept? {
      AdmittedCanMove(sha, job, m.move, caller, now);
      MoveReplays(sha, id, job, m.move, now);
      NotEnqueue(sha, id, job, m.move, now);
    }
  }

  lemma PlainDue(sha: Sha, id: string, job: Job, m: Move, now: int)
    requires CanMove(job, m, now)
    ensures Due(Some(ViewOf(job)), MoveEvent(sha, id, job, m, now))
  {
  }

  lemma MoveDue(sha: Sha, id: string, job: Job, m: PgMove, caller: Caller, now: int)
    requires Owned(job) && SqlAdmits(sha, job, m, caller, now)
    ensures Due(Some(ViewOf(job)), PgMoveEvent(sha, id, job, m, caller, now))
  {
    if m.Plain? && !m.move.Accept? {
      AdmittedCanMove(sha, job, m.move, caller, now);
      PlainDue(sha, id, job, m.move, now);
    }
  }

  lemma NotEnqueue(sha: Sha, id: string, job: Job, m: Move, now: int)
    requires CanMove(job, m, now)
    ensures !MoveEvent(sha, id, job, m, now).payload.JobEnqueued? && MoveEvent(sha, id, job, m, now).jobId == Some(id)
  {
  }

  lemma MoveGood(sha: Sha, s: Story, id: string, job: Job, m: PgMove, caller: Caller, now: int)
    requires EntryGood(s, JobKey(id), JobEntry(job)) && SqlAdmits(sha, job, m, caller, now)
    ensures var e := PgMoveEvent(sha, id, job, m, caller, now);
            About(e, JobKey(id)) && EntryGood(Told(s, e, JobKey(id)), JobKey(id), JobEntry(PgMoved(sha, job, m, caller, now)))
  {
    MovePhase(sha, s.tally, id, job, m, caller, now);
    MoveView(sha, id, job, m, caller, now);
    MoveDue(sha, id, job, m, caller, now);
  }

  lemma FreshBalanced(t: Tally, job: Job)
    requires t == Tally(1, 0, 0, 0, 0, 0, 0, 0)
    requires job.state == QUEUED && job.attempts == 0 && job.receipt.None? && job.verification.None?
    ensures Phase(job) && JobBalanced(t, job)
  {
  }

  lemma EnqueueTold(id: string, order: Order, now: int)
    ensures var e := EnqueueEvent(id, order, now);
            About(e, JobKey(id)) && MarkOf(e) == EnqueueMark && ViewAfter(None, e) == Some(ViewOf(FreshJob(order, now))) && Due(None, e)
  {
  }

  lemma ToldAbout(s: Story, e: Event, id: string)
    requires About(e, JobKey(id))
    ensures Told(s, e, JobKey(id)) == Story(Bump(s.tally, MarkOf(e)), ViewAfter(s.view, e), s.due && Due(s.view, e), s.plan)
  {
  }

  lemma FreshEntry(s: Story, id: string, job: Job)
    requires s.due && s.tally == Tally(1, 0, 0, 0, 0, 0, 0, 0) && s.view == Some(ViewOf(job))
    requires job.state == QUEUED && job.attempts == 0 && job.receipt.None? && job.verification.None?
    ensures EntryGood(s, JobKey(id), JobEntry(job))
  {
    FreshBalanced(s.tally, job);
  }

  lemma FreshGood(id: string, order: Order, now: int)
    ensures About(EnqueueEvent(id, order, now), JobKey(id))
    ensures EntryGood(Told(UNTOLD, EnqueueEvent(id, order, now), JobKey(id)), JobKey(id), JobEntry(FreshJob(order, now)))
  {
    EnqueueTold(id, order, now);
    ToldAbout(UNTOLD, EnqueueEvent(id, order, now), id);
    assert Bump(NOTHING, EnqueueMark) == Tally(1, 0, 0, 0, 0, 0, 0, 0);
    FreshEntry(Told(UNTOLD, EnqueueEvent(id, order, now), JobKey(id)), id, FreshJob(order, now));
  }
}

/** The durable fleet: plans, jobs, the event log, and what each coordinator operation does to them.
    An operation either is refused, leaving everything as it was, or commits a list of changes.
    A change is one row update together with the one event that records it. */
module FleetModel {
  import opened Basics
  import opened Json
  import opened HashChain

  datatype JobState = QUEUED | LEASED | EXECUTED | VERIFYING | VERIFIED | FAILED | BLOCKED

  datatype PlanStatus = VerifiedPlan | BlockedPlan | OtherStatus(text: string)

  datatype PlanRow = PlanRow(status: PlanStatus, body: Json, createdAt: int)

  /** What a caller submits; none of it changes after the job is enqueued. */
  datatype Order = Order(
    planId: string, workspaceId: string, capabilityId: string, argv: seq<Json>, cwd: string,
    spec: Json, workspaceBefore: Option<string>, priority: int, maxAttempts: int)

  /** The record an independent verifier leaves on a job. */
  datatype Verification = Verification(
    verdict: JobState, verifier: string, proof: Json, receiptSha: Option<Digest>, verifiedAt: int)

  datatype Job = Job(
    order: Order, state: JobState, availableAt: int, createdAt: int, updatedAt: int, attempts: int,
    worker: Option<string>, leaseHash: Option<Digest>, leaseExpires: Option<int>,
    receipt: Option<Json>, receiptSha: Option<Digest>,
    verifier: Option<string>, checkHash: Option<Digest>, checkExpires: Option<int>,
    verification: Option<Verification>, lastError: Option<string>)

  /** An event's kind and payload; one constructor for each kind the coordinator writes. Expiries and error texts
      are null only where the Postgres functions were given null. */
  datatype Payload =
    | PlanRecorded(planId: string, status: PlanStatus)
    | JobEnqueued(plan: string, workspaceId: string, capabilityId: string, priority: int, maxAttempts: int)
    | ExecutionLeaseGranted(expiresAt: Option<int>, attempt: int)
    | ExecutionLeaseExpired(previousOwner: Option<string>, nextState: JobState)
    | ExecutionHeartbeat(expiresAt: Option<int>)
    | ExecutionReceiptAccepted(receiptSha: Digest, executorId: Json)
    | ExecutionFailed(nextState: JobState, attempt: int, error: Option<string>)
    | VerificationLeaseGranted(expiresAt: Option<int>)
    | VerificationLeaseExpired(previousVerifier: Option<string>)
    | IndependentVerification(verification: Verification)

  datatype Event = Event(jobId: Option<string>, actor: string, payload: Payload, createdAt: int)

  /** SHA-256 as applied to event bodies, lease tokens and receipts. */
  datatype Sha = Sha(event: (Event, Digest) -> Digest, token: string -> Digest, receipt: Json -> Digest)

  datatype State = State(plans: map<string, PlanRow>, jobs: map<string, Job>, log: seq<Row<Event>>)

  const EMPTY: State := State(map[], map[], [])

  const CONTROL_PLANE := "control-plane"
  const COORDINATOR := "fleet-coordinator"

  // ----- input checks -----

  predicate Alphanumeric(c: char) {
    'a' <= c <= 'z' || 'A' <= c <= 'Z' || '0' <= c <= '9'
  }

  /** A name of 1 to 128 characters, the first alphanumeric, the others also drawn from `extra`. */
  predicate NameOk(s: string, extra: string) {
    && 1 <= |s| <= 128
    && Alphanumeric(s[0])
    && forall i :: 0 < i < |s| ==> Alphanumeric(s[i]) || s[i] in extra
  }

  predicate OwnerOk(s: string) {
    NameOk(s, "._:-")
  }

  predicate IdOk(s: string) {
    NameOk(s, "._-")
  }

  predicate ArgvOk(argv: seq<Json>) {
    && 1 <= |argv| <= 64
    && forall i :: 0 <= i < |argv| ==> argv[i].JStr? && 1 <= |argv[i].s| <= 4096
  }

  /** A component that starts here is "..". */
  predicate ParentAt(path: string, i: nat) {
    i + 2 <= |path| && path[i] == '.' && path[i + 1] == '.' && (i + 2 == |path| || path[i + 2] == '/')
  }

  /** ".." occurs as a whole path component. */
  predicate HasParentComponent(cwd: string) {
    exists i :: 0 <= i < |cwd| && ParentAt(cwd, i) && (i == 0 || cwd[i - 1] == '/')
  }

  /** The first component of a path. */
  function FirstPart(path: string): string {
    if path == "" || path[0] == '/' then "" else [path[0]] + FirstPart(path[1..])
  }

  /** The components after each of its slashes. */
  function LaterParts(path: string): seq<string> {
    if path == "" then []
    else (if path[0] == '/' then [FirstPart(path[1..])] else []) + LaterParts(path[1..])
  }

  lemma {:induction false} FirstPartExactly(path: string, name: string)
    requires forall i :: 0 <= i < |name| ==> name[i] != '/'
    ensures FirstPart(path) == name <==> name <= path && (|path| == |name| || path[|name|] == '/')
    decreases |path|
  {
    if path != "" && path[0] != '/' && name != "" {
      FirstPartExactly(path[1..], name[1..]);
      assert FirstPart(path)[1..] == FirstPart(path[1..]) && name == [name[0]] + name[1..] && path == [path[0]] + path[1..];
      if path[0] == name[0] && name[1..] <= path[1..] {
        forall k | 0 <= k < |name| ensures name[k] == path[k] { if k > 0 { assert name[1..][k - 1] == path[1..][k - 1]; } }
      }
    }
  }

  lemma {:induction false} LaterPartsExactly(path: string)
    ensures ".." in LaterParts(path) <==> exists i: nat :: i < |path| && path[i] == '/' && ParentAt(path, i + 1)
    decreases |path|
  {
    if path != "" {
      var p := path[1..];
      LaterPartsExactly(p);
      FirstPartExactly(p, "..");
      assert ParentAt(p, 0) <==> FirstPart(p) == "..";
      assert ParentAt(path, 1) <==> ParentAt(p, 0);
      forall i: nat | i < |p| && p[i] == '/' && ParentAt(p, i + 1) ensures path[i + 1] == '/' && ParentAt(path, i + 2) {}
      forall i: nat | 0 < i < |path| && path[i] == '/' && ParentAt(path, i + 1) ensures p[i - 1] == '/' && ParentAt(p, i) {}
    }
  }

  /** The character test finds ".." exactly if it is a component. */
  lemma ParentIsComponent(path: string)
    ensures HasParentComponent(path) <==> FirstPart(path) == ".." || ".." in LaterParts(path)
  {
    FirstPartExactly(path, "..");
    LaterPartsExactly(path);
    assert FirstPart(path) == ".." <==> ParentAt(path, 0);
    if HasParentComponent(path) {
      var i :| 0 <= i < |path| && ParentAt(path, i) && (i == 0 || path[i - 1] == '/');
      if i > 0 { assert path[i - 1] == '/' && ParentAt(path, (i - 1) + 1); }
    }
    if ".." in LaterParts(path) {
      var i: nat :| i < |path| && path[i] == '/' && ParentAt(path, i + 1);
      assert path[(i + 1) - 1] == '/';
    }
  }

  predicate CwdOk(cwd: string) {
    !(|cwd| > 0 && cwd[0] == '/') && !HasParentComponent(cwd) && |cwd| <= 512
  }

  predicate OrderOk(o: Order) {
    && IdOk(o.workspaceId) && IdOk(o.capabilityId) && ArgvOk(o.argv) && CwdOk(o.cwd)
    && 1 <= o.maxAttempts <= 10
  }

  /** A receipt the coordinator lets into the queue: unverified, and a success. */
  predicate ReceiptAdmissible(receipt: Json) {
    && receipt.JObj?
    && Get(receipt, "verification_status") == JStr("UNKNOWN")
    && Get(receipt, "result").JObj?
    && Get(Get(receipt, "result"), "status") == JStr("EXECUTED")
    && PyEq(Get(Get(receipt, "result"), "exit_code"), JNum(0))
  }

  /** A proof that can carry a VERIFIED verdict. */
  predicate ProofPasses(proof: Json) {
    var checks := Get(proof, "checks");
    checks.JObj? && checks.fields != map[] && forall k :: k in checks.fields ==> checks.fields[k] == JBool(true)
  }

  predicate IsVerdict(v: JobState) {
    v == VERIFIED || v == FAILED || v == BLOCKED
  }

  function Truncate(s: string, n: nat): string {
    if |s| <= n then s else s[..n]
  }

  // ----- what may happen to one job -----

  datatype Move =
    | Grant(worker: string, token: Digest, expires: int)
    | Lapse
    | Renew(expires: int)
    | Accept(receipt: Json)
    | GiveUp(error: string, delay: int)
    | Assign(verifier: string, token: Digest, expires: int)
    | Release
    | Judge(verdict: JobState, proof: Json)

  predicate LeaseLapsed(job: Job, now: int) {
    job.state == LEASED && job.leaseExpires.Some? && job.leaseExpires.value < now
  }

  predicate CheckLapsed(job: Job, now: int) {
    job.state == VERIFYING && job.checkExpires.Some? && job.checkExpires.value < now
  }

  predicate Expired(job: Job, now: int) {
    LeaseLapsed(job, now) || CheckLapsed(job, now)
  }

  predicate Claimable(job: Job, now: int) {
    job.state == QUEUED && job.availableAt <= now && job.attempts < job.order.maxAttempts
  }

  /** An executed job that `verifier` did not execute itself. */
  predicate CheckableBy(job: Job, verifier: string) {
    job.state == EXECUTED && job.worker != Some(verifier)
  }

  predicate CanMove(job: Job, m: Move, now: int) {
    match m
    case Grant(w, _, _) => OwnerOk(w) && Claimable(job, now)
    case Lapse => LeaseLapsed(job, now)
    case Renew(_) => job.state == LEASED && job.worker.Some? && !Expired(job, now)
    case Accept(r) => job.state == LEASED && job.worker.Some? && !Expired(job, now) && ReceiptAdmissible(r)
    case GiveUp(_, _) => job.state == LEASED && job.worker.Some?
    case Assign(v, _, _) => OwnerOk(v) && CheckableBy(job, v)
    case Release => CheckLapsed(job, now)
    case Judge(verdict, proof) =>
      && job.state == VERIFYING && job.verifier.Some? && job.worker != job.verifier && !Expired(job, now)
      && IsVerdict(verdict) && (verdict == VERIFIED ==> ProofPasses(proof))
  }

  function Retried(job: Job): JobState {
    if job.attempts < job.order.maxAttempts then QUEUED else FAILED
  }

  function VerificationOf(job: Job, verdict: JobState, proof: Json, now: int): Verification
    requires job.verifier.Some?
  {
    Verification(verdict, job.verifier.value, proof, job.receiptSha, now)
  }

  function VerdictError(verdict: JobState): Option<string> {
    if verdict == VERIFIED then None
    else if verdict == BLOCKED then Some("independent verification blocked")
    else Some("independent verification failed")
  }

  /** The row after the move. */
  function Moved(sha: Sha, job: Job, m: Move, now: int): Job
    requires CanMove(job, m, now)
  {
    match m
    case Grant(w, token, expires) =>
      job.(state := LEASED, worker := Some(w), leaseHash := Some(token), leaseExpires := Some(expires),
           attempts := job.attempts + 1, updatedAt := now, lastError := None)
    case Lapse =>
      job.(state := Retried(job), worker := None, leaseHash := None, leaseExpires := None,
           updatedAt := now, lastError := Some("execution lease expired"))
    case Renew(expires) =>
      job.(leaseExpires := Some(expires), updatedAt := now)
    case Accept(r) =>
      job.(state := EXECUTED, receipt := Some(r), receiptSha := Some(sha.receipt(r)),
           leaseHash := None, leaseExpires := None, updatedAt := now)
    case GiveUp(error, delay) =>
      job.(state := Retried(job), availableAt := now + (if delay > 0 then delay else 0),
           worker := None, leaseHash := None, leaseExpires := None,
           updatedAt := now, lastError := Some(Truncate(error, 2048)))
    case Assign(v, token, expires) =>
      job.(state := VERIFYING, verifier := Some(v), checkHash := Some(token), checkExpires := Some(expires), updatedAt := now)
    case Release =>
      job.(state := EXECUTED, verifier := None, checkHash := None, checkExpires := None,
           updatedAt := now, lastError := Some("verification lease expired"))
    case Judge(verdict, proof) =>
      job.(state := verdict, verification := Some(VerificationOf(job, verdict, proof, now)),
           checkHash := None, checkExpires := None, updatedAt := now, lastError := VerdictError(verdict))
  }

  /** The event that records the move. */
  function MoveEvent(sha: Sha, id: string, job: Job, m: Move, now: int): Event
    requires CanMove(job, m, now)
  {
    match m
    case Grant(w, _, expires) => Event(Some(id), w, ExecutionLeaseGranted(Some(expires), job.attempts + 1), now)
    case Lapse => Event(Some(id), COORDINATOR, ExecutionLeaseExpired(job.worker, Retried(job)), now)
    case Renew(expires) => Event(Some(id), job.worker.value, ExecutionHeartbeat(Some(expires)), now)
    case Accept(r) => Event(Some(id), job.worker.value, ExecutionReceiptAccepted(sha.receipt(r), Get(r, "executor_id")), now)
    case GiveUp(error, _) => Event(Some(id), job.worker.value, ExecutionFailed(Retried(job), job.attempts, Some(Truncate(error, 512))), now)
    case Assign(v, _, expires) => Event(Some(id), v, VerificationLeaseGranted(Some(expires)), now)
    case Release => Event(Some(id), COORDINATOR, VerificationLeaseExpired(job.verifier), now)
    case Judge(verdict, proof) => Event(Some(id), job.verifier.value, IndependentVerification(VerificationOf(job, verdict, proof, now)), now)
  }

  // ----- which job a claim takes -----

  /** Claim order: priority, then age, then id. */
  predicate ExecutesBefore(jobs: map<string, Job>, a: string, b: string) {
    && a in jobs && b in jobs
    && var x, y := jobs[a], jobs[b];
       || x.order.priority < y.order.priority
       || (x.order.priority == y.order.priority
           && (x.createdAt < y.createdAt || (x.createdAt == y.createdAt && Below(a, b))))
  }

  /** Verification order: least recently updated, then id. */
  predicate ChecksBefore(jobs: map<string, Job>, a: string, b: string) {
    && a in jobs && b in jobs
    && (jobs[a].updatedAt < jobs[b].updatedAt || (jobs[a].updatedAt == jobs[b].updatedAt && Below(a, b)))
  }

  predicate NextToExecute(jobs: map<string, Job>, now: int, id: string) {
    && id in jobs && Claimable(jobs[id], now)
    && forall k :: k in jobs && k != id && Claimable(jobs[k], now) ==> ExecutesBefore(jobs, id, k)
  }

  predicate NextToCheck(jobs: map<string, Job>, verifier: string, id: string) {
    && id in jobs && CheckableBy(jobs[id], verifier)
    && forall k :: k in jobs && k != id && CheckableBy(jobs[k], verifier) ==> ChecksBefore(jobs, id, k)
  }

  // ----- changes -----

  datatype Change =
    | NewPlan(planId: string, status: PlanStatus, body: Json)
    | NewJob(id: string, order: Order)
    | Step(id: string, move: Move)

  /** A change and the second at which its transaction read the clock. */
  datatype Stamped = At(change: Change, now: int)

  ghost predicate Allowed(s: State, c: Stamped) {
    match c.change
    case NewPlan(planId, status, _) => planId != "" && !status.OtherStatus?
    case NewJob(id, order) =>
      id !in s.jobs && OrderOk(order) && order.spec.JObj?
      && order.planId in s.plans && s.plans[order.planId].status == VerifiedPlan
    case Step(id, m) =>
      && id in s.jobs && CanMove(s.jobs[id], m, c.now)
      && (m.Grant? ==> NextToExecute(s.jobs, c.now, id))
      && (m.Assign? ==> NextToCheck(s.jobs, m.verifier, id))
  }

  function FreshJob(order: Order, now: int): Job {
    Job(order, QUEUED, now, now, now, 0, None, None, None, None, None, None, None, None, None, None)
  }

  /** INSERT ... ON CONFLICT DO UPDATE keeps the first creation time. */
  function UpsertPlan(plans: map<string, PlanRow>, planId: string, status: PlanStatus, body: Json, now: int): map<string, PlanRow> {
    plans[planId := PlanRow(status, body, if planId in plans then plans[planId].createdAt else now)]
  }

  function AppendEvent(sha: Sha, log: seq<Row<Event>>, e: Event): seq<Row<Event>> {
    Append(sha.event, log, |log| + 1, e)
  }

  ghost function EventOf(sha: Sha, s: State, c: Stamped): Event
    requires Allowed(s, c)
  {
    match c.change
    case NewPlan(planId, status, _) => Event(None, CONTROL_PLANE, PlanRecorded(planId, status), c.now)
    case NewJob(id, o) =>
      Event(Some(id), CONTROL_PLANE, JobEnqueued(o.planId, o.workspaceId, o.capabilityId, o.priority, o.maxAttempts), c.now)
    case Step(id, m) => MoveEvent(sha, id, s.jobs[id], m, c.now)
  }

  /** One committed change: the row update, and the event appended to the chain. */
  ghost function Effect(sha: Sha, s: State, c: Stamped): State
    requires Allowed(s, c)
  {
    var log := AppendEvent(sha, s.log, EventOf(sha, s, c));
    match c.change
    case NewPlan(planId, status, body) => State(UpsertPlan(s.plans, planId, status, body, c.now), s.jobs, log)
    case NewJob(id, order) => State(s.plans, s.jobs[id := FreshJob(order, c.now)], log)
    case Step(id, m) => State(s.plans, s.jobs[id := Moved(sha, s.jobs[id], m, c.now)], log)
  }

  ghost predicate AllowedRun(sha: Sha, s: State, cs: seq<Stamped>)
    decreases |cs|
  {
    cs == [] || (Allowed(s, cs[0]) && AllowedRun(sha, Effect(sha, s, cs[0]), cs[1..]))
  }

  ghost function RunChanges(sha: Sha, s: State, cs: seq<Stamped>): State
    requires AllowedRun(sha, s, cs)
    decreases |cs|
  {
    if cs == [] then s else RunChanges(sha, Effect(sha, s, cs[0]), cs[1..])
  }

  lemma {:induction false} RunConcat(sha: Sha, s: State, a: seq<Stamped>, b: seq<Stamped>)
    requires AllowedRun(sha, s, a) && AllowedRun(sha, RunChanges(sha, s, a), b)
    ensures AllowedRun(sha, s, a + b)
    ensures RunChanges(sha, s, a + b) == RunChanges(sha, RunChanges(sha, s, a), b)
    decreases |a|
  {
    if a == [] {
      assert a + b == b;
    } else {
      assert (a + b)[0] == a[0] && (a + b)[1..] == a[1..] + b;
      RunConcat(sha, Effect(sha, s, a[0]), a[1..], b);
    }
  }
}

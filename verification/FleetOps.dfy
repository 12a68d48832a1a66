/** The coordinator's operations, each one atomic transaction, and runs of them.
    `Decide` says what an operation does; `Exec` adds the commit, which the UNIQUE constraint on event
    hashes may still reject. */
module FleetOps {
  import opened Basics
  import opened Json
  import opened HashChain
  import opened FleetModel

  datatype Error = ValueError | PermissionError | RuntimeError | IntegrityError | AttributeError | TypeError

  datatype Reply =
    | Done
    | Granted(id: string, owner: string, token: string, expires: int)
    | Idle
    | Renewed(expires: int)

  datatype Outcome = Returned(reply: Reply) | Raised(error: Error)

  /** A coordinator call. `now` is the clock reading it takes; `token` is the random token a claim would
      draw; `scan` is the order in which the database happens to return the expired rows. */
  datatype Op =
    | RecordPlan(planId: string, status: PlanStatus, body: Json, now: int)
    | Enqueue(id: string, order: Order, now: int)
    | ClaimExecution(worker: string, ttl: int, token: string, scan: seq<string>, now: int)
    | Heartbeat(id: string, worker: string, token: string, ttl: int, now: int)
    | Complete(id: string, worker: string, token: string, receipt: Json, signatureVerified: bool, now: int)
    | Fail(id: string, worker: string, token: string, error: string, delay: int, now: int)
    | ClaimVerification(verifier: string, ttl: int, token: string, scan: seq<string>, now: int)
    | CompleteVerification(id: string, verifier: string, token: string, verdict: JobState, proof: Json, now: int)

  datatype Decision = Refuse(error: Error) | Commit(changes: seq<Stamped>, reply: Reply)

  function ExpiredIds(jobs: map<string, Job>, now: int): set<string> {
    set id | id in jobs && Expired(jobs[id], now)
  }

  predicate IsClaim(op: Op) {
    op.ClaimExecution? || op.ClaimVerification?
  }

  predicate Legal(s: State, op: Op) {
    IsClaim(op) ==> Enumerates(op.scan, ExpiredIds(s.jobs, op.now))
  }

  // ----- reaping -----

  function ReapMove(job: Job): Move {
    if job.state == LEASED then Lapse else Release
  }

  /** The reaper's changes, one for each scanned row, in scan order. */
  ghost function ReapChanges(jobs: map<string, Job>, scan: seq<string>, now: int): seq<Stamped>
    requires forall id :: id in scan ==> id in jobs
  {
    if scan == [] then []
    else [At(Step(scan[0], ReapMove(jobs[scan[0]])), now)] + ReapChanges(jobs, scan[1..], now)
  }

  function ReapedRow(sha: Sha, job: Job, now: int): Job {
    if Expired(job, now) then Moved(sha, job, ReapMove(job), now) else job
  }

  /** What the reaper makes of the whole table: every expired row is taken back, no other row changes. */
  function Reaped(sha: Sha, jobs: map<string, Job>, now: int): map<string, Job> {
    map id | id in jobs :: ReapedRow(sha, jobs[id], now)
  }

  /** The loop started on table `jobs`, seen from a state in which the rows of `scan` are still untouched. */
  lemma {:induction false} ReapLoop(sha: Sha, s: State, jobs: map<string, Job>, scan: seq<string>, now: int)
    requires forall i, j :: 0 <= i < j < |scan| ==> scan[i] != scan[j]
    requires forall id :: id in scan ==> id in jobs && Expired(jobs[id], now) && id in s.jobs && s.jobs[id] == jobs[id]
    ensures AllowedRun(sha, s, ReapChanges(jobs, scan, now))
    ensures var t := RunChanges(sha, s, ReapChanges(jobs, scan, now));
            t.plans == s.plans
            && t.jobs == map id | id in s.jobs :: if id in scan then ReapedRow(sha, jobs[id], now) else s.jobs[id]
    decreases |scan|
  {
    if scan != [] {
      var c := At(Step(scan[0], ReapMove(jobs[scan[0]])), now);
      var t := Effect(sha, s, c);
      assert ReapChanges(jobs, scan, now)[1..] == ReapChanges(jobs, scan[1..], now);
      assert forall id :: id in scan <==> id == scan[0] || id in scan[1..];
      assert scan[0] !in scan[1..];
      ReapLoop(sha, t, jobs, scan[1..], now);
    }
  }

  /** In whatever order the rows come back, reaping is the pointwise update of exactly the expired rows. */
  lemma ReapIsPointwise(sha: Sha, s: State, scan: seq<string>, now: int)
    requires Enumerates(scan, ExpiredIds(s.jobs, now))
    ensures AllowedRun(sha, s, ReapChanges(s.jobs, scan, now))
    ensures RunChanges(sha, s, ReapChanges(s.jobs, scan, now)).plans == s.plans
    ensures RunChanges(sha, s, ReapChanges(s.jobs, scan, now)).jobs == Reaped(sha, s.jobs, now)
  {
    ReapLoop(sha, s, s.jobs, scan, now);
    assert forall id :: id in scan <==> id in ExpiredIds(s.jobs, now);
  }

  /** Reaping leaves nothing to reap at the same clock reading. */
  lemma ReapIdempotent(sha: Sha, jobs: map<string, Job>, now: int)
    ensures ExpiredIds(Reaped(sha, jobs, now), now) == {}
    ensures Reaped(sha, Reaped(sha, jobs, now), now) == Reaped(sha, jobs, now)
  {
  }

  // ----- what each operation does -----

  ghost function DecideRecordPlan(planId: string, status: PlanStatus, body: Json, now: int): Decision {
    if planId == "" || status.OtherStatus? then Refuse(ValueError)
    else Commit([At(NewPlan(planId, status, body), now)], Done)
  }

  /** The default for a missing verification spec. */
  function SpecOrEmpty(spec: Json): Json {
    if Truthy(spec) then spec else JObj(map[])
  }

  ghost function DecideEnqueue(s: State, id: string, order: Order, now: int): Decision {
    var o := order.(spec := SpecOrEmpty(order.spec));
    if !OrderOk(o) || !o.spec.JObj? then Refuse(ValueError)
    else if o.planId !in s.plans || s.plans[o.planId].status != VerifiedPlan then Refuse(PermissionError)
    else if id in s.jobs then Refuse(IntegrityError)
    else Commit([At(NewJob(id, o), now)], Done)
  }

  ghost function DecideClaimExecution(sha: Sha, s: State, worker: string, ttl: int, token: string, scan: seq<string>, now: int): Decision
    requires Enumerates(scan, ExpiredIds(s.jobs, now))
  {
    if !OwnerOk(worker) || ttl < 5 || ttl > 300 then Refuse(ValueError)
    else
      var reap := ReapChanges(s.jobs, scan, now);
      if id :| NextToExecute(Reaped(sha, s.jobs, now), now, id)
      then Commit(reap + [At(Step(id, Grant(worker, sha.token(token), now + ttl)), now)], Granted(id, worker, token, now + ttl))
      else Commit(reap, Idle)
  }

  ghost function DecideClaimVerification(sha: Sha, s: State, verifier: string, ttl: int, token: string, scan: seq<string>, now: int): Decision
    requires Enumerates(scan, ExpiredIds(s.jobs, now))
  {
    if !OwnerOk(verifier) then Refuse(ValueError)
    else
      var reap := ReapChanges(s.jobs, scan, now);
      if id :| NextToCheck(Reaped(sha, s.jobs, now), verifier, id)
      then Commit(reap + [At(Step(id, Assign(verifier, sha.token(token), now + ttl)), now)], Granted(id, verifier, token, now + ttl))
      else Commit(reap, Idle)
  }

  /** The caller holds the job's execution lease, whether or not that lease has run out. */
  predicate Holds(s: State, id: string, worker: string) {
    id in s.jobs && s.jobs[id].state == LEASED && s.jobs[id].worker == Some(worker)
  }

  predicate HoldsCheck(s: State, id: string, verifier: string) {
    id in s.jobs && s.jobs[id].state == VERIFYING && s.jobs[id].verifier == Some(verifier)
  }

  ghost function DecideHeartbeat(sha: Sha, s: State, id: string, worker: string, token: string, ttl: int, now: int): Decision {
    if !OwnerOk(worker) then Refuse(ValueError)
    else if !Holds(s, id, worker) then Refuse(PermissionError)
    else if s.jobs[id].leaseExpires.None? then Refuse(TypeError)
    else if s.jobs[id].leaseExpires.value < now || s.jobs[id].leaseHash != Some(sha.token(token)) then Refuse(PermissionError)
    else Commit([At(Step(id, Renew(now + ttl)), now)], Renewed(now + ttl))
  }

  ghost function DecideComplete(sha: Sha, s: State, id: string, worker: string, token: string, receipt: Json, signatureVerified: bool, now: int): Decision {
    if !OwnerOk(worker) then Refuse(ValueError)
    else if !signatureVerified then Refuse(PermissionError)
    else if !receipt.JObj? then Refuse(AttributeError)
    else if Get(receipt, "verification_status") != JStr("UNKNOWN") then Refuse(PermissionError)
    else if !ReceiptAdmissible(receipt) then Refuse(RuntimeError)
    else if !Holds(s, id, worker) then Refuse(PermissionError)
    else if s.jobs[id].leaseExpires.None? then Refuse(TypeError)
    else if s.jobs[id].leaseExpires.value < now || s.jobs[id].leaseHash != Some(sha.token(token)) then Refuse(PermissionError)
    else Commit([At(Step(id, Accept(receipt)), now)], Done)
  }

  ghost function DecideFail(sha: Sha, s: State, id: string, worker: string, token: string, error: string, delay: int, now: int): Decision {
    if !OwnerOk(worker) then Refuse(ValueError)
    else if !Holds(s, id, worker) then Refuse(PermissionError)
    else if s.jobs[id].leaseHash != Some(sha.token(token)) then Refuse(PermissionError)
    else Commit([At(Step(id, GiveUp(error, delay)), now)], Done)
  }

  ghost function DecideCompleteVerification(sha: Sha, s: State, id: string, verifier: string, token: string, verdict: JobState, proof: Json, now: int): Decision {
    if !OwnerOk(verifier) || !IsVerdict(verdict) || !proof.JObj? then Refuse(ValueError)
    else if verdict == VERIFIED && !ProofPasses(proof) then Refuse(PermissionError)
    else if !HoldsCheck(s, id, verifier) || s.jobs[id].worker == Some(verifier) then Refuse(PermissionError)
    else if s.jobs[id].checkExpires.None? then Refuse(TypeError)
    else if s.jobs[id].checkExpires.value < now || s.jobs[id].checkHash != Some(sha.token(token)) then Refuse(PermissionError)
    else Commit([At(Step(id, Judge(verdict, proof)), now)], Done)
  }

  ghost function Decide(sha: Sha, s: State, op: Op): Decision
    requires Legal(s, op)
  {
    match op
    case RecordPlan(planId, status, body, now) => DecideRecordPlan(planId, status, body, now)
    case Enqueue(id, order, now) => DecideEnqueue(s, id, order, now)
    case ClaimExecution(worker, ttl, token, scan, now) => DecideClaimExecution(sha, s, worker, ttl, token, scan, now)
    case Heartbeat(id, worker, token, ttl, now) => DecideHeartbeat(sha, s, id, worker, token, ttl, now)
    case Complete(id, worker, token, receipt, ok, now) => DecideComplete(sha, s, id, worker, token, receipt, ok, now)
    case Fail(id, worker, token, error, delay, now) => DecideFail(sha, s, id, worker, token, error, delay, now)
    case ClaimVerification(verifier, ttl, token, scan, now) => DecideClaimVerification(sha, s, verifier, ttl, token, scan, now)
    case CompleteVerification(id, verifier, token, verdict, proof, now) =>
      DecideCompleteVerification(sha, s, id, verifier, token, verdict, proof, now)
  }

  /** Every committed decision is a run of allowed changes. */
  lemma DecisionAllowed(sha: Sha, s: State, op: Op)
    requires Legal(s, op)
    ensures Decide(sha, s, op).Commit? ==> AllowedRun(sha, s, Decide(sha, s, op).changes)
  {
    match op
    case ClaimExecution(worker, ttl, token, scan, now) =>
      ReapIsPointwise(sha, s, scan, now);
      ClaimAllowed(sha, s, op);
    case ClaimVerification(verifier, ttl, token, scan, now) =>
      ReapIsPointwise(sha, s, scan, now);
      ClaimAllowed(sha, s, op);
    case _ =>
      OneAllowed(sha, s, op);
  }

  lemma OneAllowed(sha: Sha, s: State, op: Op)
    requires !IsClaim(op)
    ensures Decide(sha, s, op).Commit? ==> |Decide(sha, s, op).changes| == 1 && AllowedRun(sha, s, Decide(sha, s, op).changes)
  {
    var d := Decide(sha, s, op);
    if d.Commit? {
      assert Allowed(s, d.changes[0]);
      assert d.changes[1..] == [];
    }
  }

  lemma ClaimAllowed(sha: Sha, s: State, op: Op)
    requires IsClaim(op) && Legal(s, op)
    requires AllowedRun(sha, s, ReapChanges(s.jobs, op.scan, op.now))
    requires RunChanges(sha, s, ReapChanges(s.jobs, op.scan, op.now)).jobs == Reaped(sha, s.jobs, op.now)
    ensures Decide(sha, s, op).Commit? ==> AllowedRun(sha, s, Decide(sha, s, op).changes)
  {
    var d := Decide(sha, s, op);
    var reap := ReapChanges(s.jobs, op.scan, op.now);
    if d.Commit? && d.reply.Granted? {
      var t := RunChanges(sha, s, reap);
      var c := d.changes[|reap|];
      assert d.changes == reap + [c];
      assert Allowed(t, c);
      assert [c][1..] == [];
      assert AllowedRun(sha, t, [c]);
      RunConcat(sha, s, reap, [c]);
    }
  }

  /** The end of a transaction that began in s and has written t. */
  ghost function Settled(s: State, t: State, reply: Reply): (State, Outcome) {
    if UniqueHashes(t.log) then (t, Returned(reply)) else (s, Raised(IntegrityError))
  }

  /** Whether a transaction commits, and the state and answer it leaves. A refused transaction and one whose
      insert hits the UNIQUE constraint both roll back. */
  ghost function Exec(sha: Sha, s: State, op: Op): (r: (State, Outcome))
    requires Legal(s, op)
  {
    DecisionAllowed(sha, s, op);
    match Decide(sha, s, op)
    case Refuse(e) => (s, Raised(e))
    case Commit(changes, reply) =>
      Settled(s, RunChanges(sha, s, changes), reply)
  }

  /** The operation passes every check and is still refused: its event's hash is already stored. */
  ghost predicate HashRejected(sha: Sha, s: State, op: Op)
    requires Legal(s, op)
  {
    Decide(sha, s, op).Commit? && Exec(sha, s, op).1.Raised?
  }

  lemma ReturnsExactly(sha: Sha, s: State, op: Op)
    requires Legal(s, op)
    ensures Exec(sha, s, op).1.Returned? <==> Decide(sha, s, op).Commit? && !HashRejected(sha, s, op)
  {
  }

  lemma RaisingChangesNothing(sha: Sha, s: State, op: Op)
    requires Legal(s, op)
    ensures Exec(sha, s, op).1.Raised? ==> Exec(sha, s, op).0 == s
  {
  }

  // ----- runs -----

  ghost predicate LegalRun(sha: Sha, s: State, ops: seq<Op>)
    decreases |ops|
  {
    ops == [] || (Legal(s, ops[0]) && LegalRun(sha, Exec(sha, s, ops[0]).0, ops[1..]))
  }

  ghost function Run(sha: Sha, s: State, ops: seq<Op>): State
    requires LegalRun(sha, s, ops)
    decreases |ops|
  {
    if ops == [] then s else Run(sha, Exec(sha, s, ops[0]).0, ops[1..])
  }

  lemma {:induction false} RunSnoc(sha: Sha, s: State, ops: seq<Op>, op: Op)
    requires LegalRun(sha, s, ops) && Legal(Run(sha, s, ops), op)
    ensures LegalRun(sha, s, ops + [op])
    ensures Run(sha, s, ops + [op]) == Exec(sha, Run(sha, s, ops), op).0
    decreases |ops|
  {
    if ops == [] {
      assert [op][1..] == [];
      assert ops + [op] == [op];
    } else {
      assert (ops + [op])[1..] == ops[1..] + [op];
      RunSnoc(sha, Exec(sha, s, ops[0]).0, ops[1..], op);
    }
  }

  lemma {:induction false} RunAppend(sha: Sha, s: State, a: seq<Op>, b: seq<Op>)
    requires LegalRun(sha, s, a) && LegalRun(sha, Run(sha, s, a), b)
    ensures LegalRun(sha, s, a + b) && Run(sha, s, a + b) == Run(sha, Run(sha, s, a), b)
    decreases |a|
  {
    if a == [] {
      assert a + b == b;
    } else {
      assert (a + b)[1..] == a[1..] + b;
      RunAppend(sha, Exec(sha, s, a[0]).0, a[1..], b);
    }
  }

  /** The changes one operation committed. */
  ghost function Committed(sha: Sha, s: State, op: Op): (cs: seq<Stamped>)
    requires Legal(s, op)
    ensures AllowedRun(sha, s, cs) && RunChanges(sha, s, cs) == Exec(sha, s, op).0
  {
    DecisionAllowed(sha, s, op);
    if Exec(sha, s, op).1.Returned? then Decide(sha, s, op).changes else []
  }

  /** The changes a whole run committed, in order. */
  ghost function History(sha: Sha, s: State, ops: seq<Op>): (cs: seq<Stamped>)
    requires LegalRun(sha, s, ops)
    ensures AllowedRun(sha, s, cs) && RunChanges(sha, s, cs) == Run(sha, s, ops)
    decreases |ops|
  {
    if ops == [] then [] else
      var t := Exec(sha, s, ops[0]).0;
      var first := Committed(sha, s, ops[0]);
      var rest := History(sha, t, ops[1..]);
      RunConcat(sha, s, first, rest);
      first + rest
  }
}

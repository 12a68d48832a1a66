/** A worker process, its heartbeat thread, and everyone else using the same coordinator.
    Between any two coordinator calls of the worker, other actors may perform any number of operations;
    the one thing they do not do is draw the worker's lease token. */
module FleetWorker {
  import opened Basics
  import opened Json
  import opened HashChain
  import opened FleetModel
  import opened FleetOps
  import opened FleetInvariant
  import opened FleetLeases
  import opened FleetEffects
  import opened FleetStore

  // ----- one lease in the log -----

  predicate GrantRow(log: seq<Row<Event>>, g: nat, id: string, worker: string, attempt: int) {
    && g < |log| && log[g].content.jobId == Some(id) && log[g].content.actor == worker
    && log[g].content.payload.ExecutionLeaseGranted? && log[g].content.payload.attempt == attempt
  }

  predicate AcceptRow(log: seq<Row<Event>>, a: nat, id: string, worker: string, digest: Digest) {
    && a < |log| && log[a].content.jobId == Some(id) && log[a].content.actor == worker
    && log[a].content.payload.ExecutionReceiptAccepted? && log[a].content.payload.receiptSha == digest
  }

  /** At a stands the failure of this job's attempt: where it leaves the job, which attempt it was, and why. */
  predicate FailRow(log: seq<Row<Event>>, a: nat, id: string, worker: string, job: Job, error: string) {
    && a < |log| && log[a].content.jobId == Some(id) && log[a].content.actor == worker
    && log[a].content.payload == ExecutionFailed(Again(job), job.attempts, Some(Cut(error, 512)))
  }

  /** The lease granted at g was still in force just before position a. */
  predicate InForce(log: seq<Row<Event>>, g: nat, a: nat, id: string)
    requires a <= |log|
  {
    g < a && forall k :: g < k < a ==> !Ends(log[k].content, id)
  }

  /** The state right after the worker's claim, as far as its lease is concerned. */
  ghost predicate Leased(s: State, id: string, worker: string, h: Digest, g: nat) {
    && OwnerOk(worker) && g + 1 == |s.log| && LiveOn(s, id, h) && Holds(s, id, worker) && (forall k :: LiveOn(s, k, h) ==> k == id)
    && GrantRow(s.log, g, id, worker, s.jobs[id].attempts)
  }

  lemma ReapGrows(sha: Sha, s: State, scan: seq<string>, now: int)
    requires Enumerates(scan, ExpiredIds(s.jobs, now))
    ensures |s.log| <= |AfterReap(sha, s, scan, now).log|
  {
    ReapIsPointwise(sha, s, scan, now);
    LogGrows(sha, s, ReapChanges(s.jobs, scan, now));
  }

  lemma ReapKeepsDead(sha: Sha, s: State, scan: seq<string>, now: int, h: Digest)
    requires Enumerates(scan, ExpiredIds(s.jobs, now)) && Dead(s, h)
    ensures Dead(AfterReap(sha, s, scan, now), h) && |s.log| <= |AfterReap(sha, s, scan, now).log|
  {
    ReapGrows(sha, s, scan, now);
    ReapIsPointwise(sha, s, scan, now);
    ReapDrawsNothing(s.jobs, scan, now);
    DeadForever(sha, s, ReapChanges(s.jobs, scan, now), h);
  }

  /** A granted claim is a reaping followed by one grant. */
  lemma GrantedIsEffect(sha: Sha, s: State, op: Op, t: State, r: Outcome) returns (c: Stamped)
    requires op.ClaimExecution? && Legal(s, op) && (t, r) == Exec(sha, s, op) && r.Returned? && r.reply.Granted?
    ensures c == At(Step(r.reply.id, Grant(op.worker, sha.token(op.token), op.now + op.ttl)), op.now)
    ensures Allowed(AfterReap(sha, s, op.scan, op.now), c) && t == Effect(sha, AfterReap(sha, s, op.scan, op.now), c)
  {
    var next := ClaimExecutionResult(sha, s, op.worker, op.ttl, op.token, op.scan, op.now);
    c := At(Step(next.value, Grant(op.worker, sha.token(op.token), op.now + op.ttl)), op.now);
  }

  /** A grant of an unused token leaves exactly that lease. */
  lemma GrantMakesLive(sha: Sha, r: State, c: Stamped, t: State, id: string, worker: string, h: Digest, expires: int)
    requires Allowed(r, c) && c.change == Step(id, Grant(worker, h, expires)) && Dead(r, h) && t == Effect(sha, r, c)
    ensures Leased(t, id, worker, h, |r.log|)
  {
  }

  /** What a worker's claim leaves: if it was granted, its lease, granted at place g of the log. */
  lemma ClaimTaken(sha: Sha, s: State, op: Op, t: State, r: Outcome) returns (g: nat)
    requires op.ClaimExecution? && Legal(s, op) && Dead(s, sha.token(op.token)) && (t, r) == Exec(sha, s, op)
    ensures r.Returned? && r.reply.Granted? ==> |s.log| <= g && Leased(t, r.reply.id, op.worker, sha.token(op.token), g)
  {
    g := 0;
    if r.Returned? && r.reply.Granted? {
      var reaped := AfterReap(sha, s, op.scan, op.now);
      var c := GrantedIsEffect(sha, s, op, t, r);
      ReapKeepsDead(sha, s, op.scan, op.now, sha.token(op.token));
      GrantMakesLive(sha, reaped, c, t, r.reply.id, op.worker, sha.token(op.token), op.now + op.ttl);
      g := |reaped.log|;
    }
  }

  predicate SameHolder(a: Job, b: Job) {
    a.state == LEASED && b.state == LEASED && a.attempts == b.attempts && a.worker == b.worker && a.order == b.order
  }

  lemma HolderStays(sha: Sha, s: State, cs: seq<Stamped>, id: string)
    requires Inv(sha, s) && AllowedRun(sha, s, cs) && cs != [] && id in s.jobs && s.jobs[id].state == LEASED
    ensures id in Effect(sha, s, cs[0]).jobs
    ensures Live(Effect(sha, s, cs[0]).jobs[id]).Some? ==> SameHolder(s.jobs[id], Effect(sha, s, cs[0]).jobs[id])
  {
    if cs[0].change.Step? && cs[0].change.id == id { LiveAfterMove(sha, id, s.jobs[id], cs[0].change.move, cs[0].now); }
  }

  /** While the token stays live the attempt and the holder stay the same. */
  lemma {:induction false} SameAttempt(sha: Sha, s: State, cs: seq<Stamped>, id: string, h: Digest)
    requires Inv(sha, s) && AllowedRun(sha, s, cs) && LiveOn(s, id, h) && s.jobs[id].state == LEASED
    requires (forall k :: LiveOn(s, k, h) ==> k == id) && (forall i :: 0 <= i < |cs| ==> Draws(cs[i]) != Some(h))
    requires LiveOn(RunChanges(sha, s, cs), id, h)
    ensures SameHolder(s.jobs[id], RunChanges(sha, s, cs).jobs[id])
    decreases |cs|
  {
    if cs != [] {
      var u := LiveFirst(sha, s, cs, id, h);
      HolderStays(sha, s, cs, id);
      if LiveOn(u, id, h) { SameAttempt(sha, u, cs[1..], id, h); } else { DeadForever(sha, u, cs[1..], h); }
    }
  }

  predicate NoneDraws(sha: Sha, ops: seq<Op>, h: Digest) {
    forall i :: 0 <= i < |ops| ==> !OpDraws(sha, ops[i], h)
  }

  /** The store went from s to t by these operations, none of which drew the token. */
  ghost predicate Went(sha: Sha, s: State, ops: seq<Op>, t: State, h: Digest) {
    LegalRun(sha, s, ops) && t == Run(sha, s, ops) && NoneDraws(sha, ops, h)
  }

  lemma WentOn(sha: Sha, s: State, a: seq<Op>, t: State, b: seq<Op>, u: State, h: Digest)
    requires Went(sha, s, a, t, h) && Went(sha, t, b, u, h)
    ensures Went(sha, s, a + b, u, h)
  {
    RunAppend(sha, s, a, b);
  }

  /** By some operations, none of which drew the token, the store got from s to t. */
  ghost predicate Reaches(sha: Sha, s: State, t: State, h: Digest) {
    exists ops :: Went(sha, s, ops, t, h)
  }

  lemma ReachesOn(sha: Sha, s: State, t: State, u: State, h: Digest)
    requires Reaches(sha, s, t, h) && Reaches(sha, t, u, h)
    ensures Reaches(sha, s, u, h)
  {
    var a :| Went(sha, s, a, t, h);
    var b :| Went(sha, t, b, u, h);
    WentOn(sha, s, a, t, b, u, h);
  }

  lemma ReachesHere(sha: Sha, s: State, h: Digest)
    ensures Reaches(sha, s, s, h)
  {
    assert Went(sha, s, [], s, h);
  }

  lemma WentOne(sha: Sha, s: State, op: Op, h: Digest)
    requires Legal(s, op) && !OpDraws(sha, op, h)
    ensures Went(sha, s, [op], Exec(sha, s, op).0, h)
  {
    assert [op][1..] == [];
    assert Run(sha, Exec(sha, s, op).0, []) == Exec(sha, s, op).0;
  }

  /** A token drawn for the lease granted at g works on its job exactly while that lease is in force, and nowhere else. */
  ghost predicate FollowsLease(t: State, id: string, h: Digest, g: nat) {
    && g < |t.log| && (forall k :: LiveOn(t, k, h) ==> k == id)
    && (LiveOn(t, id, h) <==> InForce(t.log, g, |t.log|, id))
  }

  /** State t, reached from the lease granted in s at g; while it is in force the holder and the attempt stay the same. */
  ghost predicate Tracked(sha: Sha, s: State, t: State, id: string, worker: string, h: Digest, g: nat) {
    && Inv(sha, t) && Leased(s, id, worker, h, g) && s.log <= t.log && FollowsLease(t, id, h, g) && Reaches(sha, s, t, h)
    && (LiveOn(t, id, h) ==> SameHolder(s.jobs[id], t.jobs[id]))
  }

  lemma InForceOn(a: seq<Row<Event>>, b: seq<Row<Event>>, g: nat, id: string)
    requires g < |a| && a <= b
    ensures InForce(b, g, |b|, id) <==> InForce(a, g, |a|, id) && !EndedSince(a, b, id)
  {
    assert forall k :: 0 <= k < |a| ==> a[k] == b[k];
  }

  /** What the others can do to a lease, of either kind: let it run, or end it for good. */
  lemma LeaseFollowed(sha: Sha, t: State, ops: seq<Op>, u: State, id: string, h: Digest, g: nat)
    requires Inv(sha, t) && FollowsLease(t, id, h, g) && Went(sha, t, ops, u, h)
    ensures Inv(sha, u) && FollowsLease(u, id, h, g) && t.log <= u.log
  {
    var cs := History(sha, t, ops);
    ChangesOk(sha, t, cs);
    LogGrows(sha, t, cs);
    HistoryDraws(sha, t, ops, h);
    InForceOn(t.log, u.log, g, id);
    if LiveOn(t, id, h) {
      LiveChanges(sha, t, cs, id, h);
    } else {
      OneOwnerDies(t, id, h);
      DeadForever(sha, t, cs, h);
    }
  }

  /** What the others can do to a held execution lease: let it run, same holder and attempt, or end it for good. */
  lemma LeaseUnderOthers(sha: Sha, s: State, t: State, ops: seq<Op>, u: State, id: string, worker: string, h: Digest, g: nat)
    requires Tracked(sha, s, t, id, worker, h, g) && Went(sha, t, ops, u, h)
    ensures Tracked(sha, s, u, id, worker, h, g) && t.log <= u.log
  {
    LeaseFollowed(sha, t, ops, u, id, h, g);
    ReachesOn(sha, s, t, u, h);
    if LiveOn(u, id, h) {
      InForceOn(t.log, u.log, g, id);
      HistoryDraws(sha, t, ops, h);
      SameAttempt(sha, t, History(sha, t, ops), id, h);
    }
  }

  /** At this moment the lease granted at g is in force and has not run out. */
  ghost predicate InTime(s: State, id: string, g: nat, now: int) {
    InForce(s.log, g, |s.log|, id) && id in s.jobs && !Expired(s.jobs[id], now)
  }

  /** The store takes a completion exactly from a lease in time, with a signed and admissible receipt, unless the
      event's hash is taken. */
  lemma CompletesExactly(sha: Sha, s: State, t: State, id: string, worker: string, token: string, receipt: Json, ok: bool, now: int, g: nat)
    requires Tracked(sha, s, t, id, worker, sha.token(token), g)
    ensures var op := Op.Complete(id, worker, token, receipt, ok, now);
            Exec(sha, t, op).1.Returned? <==> ok && ReceiptAdmissible(receipt) && InTime(t, id, g, now) && !HashRejected(sha, t, op)
  {
    CompleteAdmission(sha, t, id, worker, token, receipt, ok, now);
    ReturnsExactly(sha, t, Op.Complete(id, worker, token, receipt, ok, now));
  }

  /** A failure report is taken exactly from a lease in force, in time or not. */
  lemma FailsExactly(sha: Sha, s: State, t: State, id: string, worker: string, token: string, error: string, delay: int, now: int, g: nat)
    requires Tracked(sha, s, t, id, worker, sha.token(token), g)
    ensures var op := Op.Fail(id, worker, token, error, delay, now);
            Exec(sha, t, op).1.Returned? <==> InForce(t.log, g, |t.log|, id) && !HashRejected(sha, t, op)
  {
    FailAdmission(sha, t, id, worker, token, error, delay, now);
    ReturnsExactly(sha, t, Op.Fail(id, worker, token, error, delay, now));
  }

  /** A heartbeat raises exactly when the lease is no longer in time, or the event's hash is taken. */
  lemma BeatsExactly(sha: Sha, s: State, t: State, id: string, worker: string, token: string, ttl: int, now: int, g: nat)
    requires Tracked(sha, s, t, id, worker, sha.token(token), g)
    ensures var op := Op.Heartbeat(id, worker, token, ttl, now);
            Exec(sha, t, op).1.Raised? <==> !InTime(t, id, g, now) || HashRejected(sha, t, op)
  {
    HeartbeatAdmission(sha, t, id, worker, token, ttl, now);
    ReturnsExactly(sha, t, Op.Heartbeat(id, worker, token, ttl, now));
  }

  /** An accepted completion records the receipt on the row and in the log. */
  lemma CompleteAccepts(sha: Sha, t: State, op: Op)
    requires Inv(sha, t) && op.Complete? && Exec(sha, t, op).1.Returned?
    ensures var u := Exec(sha, t, op).0;
            && op.signatureVerified && LiveOn(t, op.id, sha.token(op.token)) && Inv(sha, u) && op.id in u.jobs
            && u.jobs[op.id].receipt == Some(op.receipt) && u.jobs[op.id].receiptSha == Some(sha.receipt(op.receipt))
            && u.jobs[op.id].worker == Some(op.worker) && u.jobs[op.id].attempts == t.jobs[op.id].attempts
            && |u.log| == |t.log| + 1 && t.log <= u.log && AcceptRow(u.log, |t.log|, op.id, op.worker, sha.receipt(op.receipt))
  {
    OneResult(sha, t, op);
    ExecOk(sha, t, op);
  }

  /** An accepted failure report is in the log. */
  lemma FailRecorded(sha: Sha, t: State, op: Op)
    requires Inv(sha, t) && op.Fail? && Exec(sha, t, op).1.Returned?
    ensures var u := Exec(sha, t, op).0;
            && LiveOn(t, op.id, sha.token(op.token)) && Inv(sha, u) && op.id in u.jobs
            && |u.log| == |t.log| + 1 && t.log <= u.log && FailRow(u.log, |t.log|, op.id, op.worker, t.jobs[op.id], op.error)
  {
    OneResult(sha, t, op);
    ExecOk(sha, t, op);
  }

  lemma RowsPersist(a: seq<Row<Event>>, b: seq<Row<Event>>, g: nat, k: nat, id: string)
    requires a <= b && k <= |a|
    ensures InForce(a, g, k, id) ==> InForce(b, g, k, id)
    ensures forall w, n :: GrantRow(a, g, id, w, n) ==> GrantRow(b, g, id, w, n)
    ensures forall w, d :: AcceptRow(a, k, id, w, d) ==> AcceptRow(b, k, id, w, d)
    ensures forall w, job, e :: FailRow(a, k, id, w, job, e) ==> FailRow(b, k, id, w, job, e)
  {
  }

  /** The failure report of the lease granted at g, which left the job as `job`, is recorded at a. */
  ghost predicate FailedUnder(log: seq<Row<Event>>, id: string, worker: string, job: Job, error: string, g: nat, a: nat) {
    g < a < |log| && GrantRow(log, g, id, worker, job.attempts) && InForce(log, g, a, id) && FailRow(log, a, id, worker, job, error)
  }

  /** The store holds this receipt, accepted at a from this worker under the lease granted at g. */
  ghost predicate ExecutedUnder(sha: Sha, s: State, id: string, worker: string, receipt: Json, digest: Option<Digest>, g: nat, a: nat) {
    && id in s.jobs && s.jobs[id].receipt == Some(receipt) && s.jobs[id].receiptSha == Some(sha.receipt(receipt)) == digest
    && s.jobs[id].worker == Some(worker)
    && g < a < |s.log| && GrantRow(s.log, g, id, worker, s.jobs[id].attempts)
    && InForce(s.log, g, a, id) && AcceptRow(s.log, a, id, worker, sha.receipt(receipt))
  }

  /** A completion accepted under a tracked lease: what the others do afterwards does not take the receipt, its
      lease or its log entries away. */
  lemma ExecutedPersists(sha: Sha, s: State, t: State, op: Op, ops: seq<Op>, g: nat)
    requires op.Complete? && Tracked(sha, s, t, op.id, op.worker, sha.token(op.token), g) && Exec(sha, t, op).1.Returned?
    requires LegalRun(sha, Exec(sha, t, op).0, ops)
    ensures var v := Run(sha, Exec(sha, t, op).0, ops);
            && Inv(sha, v) && op.id in v.jobs && t.log <= v.log
            && ExecutedUnder(sha, v, op.id, op.worker, op.receipt, v.jobs[op.id].receiptSha, g, |t.log|)
  {
    var u := Exec(sha, t, op).0;
    CompleteAccepts(sha, t, op);
    ChangesOk(sha, u, History(sha, u, ops));
    LogGrows(sha, u, History(sha, u, ops));
    RunKeeps(sha, u, ops, op.id);
    RowsPersist(s.log, t.log, g, |s.log|, op.id);
    RowsPersist(t.log, u.log, g, |t.log|, op.id);
    RowsPersist(u.log, Run(sha, u, ops).log, g, |t.log|, op.id);
  }

  /** The same for a recorded failure. */
  lemma FailurePersists(sha: Sha, s: State, t: State, op: Op, ops: seq<Op>, g: nat)
    requires op.Fail? && Tracked(sha, s, t, op.id, op.worker, sha.token(op.token), g) && Exec(sha, t, op).1.Returned?
    requires LegalRun(sha, Exec(sha, t, op).0, ops)
    ensures var v := Run(sha, Exec(sha, t, op).0, ops);
            Inv(sha, v) && op.id in v.jobs && t.log <= v.log && FailedUnder(v.log, op.id, op.worker, s.jobs[op.id], op.error, g, |t.log|)
  {
    var u := Exec(sha, t, op).0;
    FailRecorded(sha, t, op);
    ChangesOk(sha, u, History(sha, u, ops));
    LogGrows(sha, u, History(sha, u, ops));
    RunKeeps(sha, u, ops, op.id);
    RowsPersist(s.log, t.log, g, |s.log|, op.id);
    RowsPersist(t.log, u.log, g, |t.log|, op.id);
    RowsPersist(u.log, Run(sha, u, ops).log, g, |t.log|, op.id);
  }

  // ----- the actors -----

  /** Everybody else: any operations, in any order, as many as they like. */
  method OtherTurns(store: DurableFleetStore, mine: Digest) returns (ghost ops: seq<Op>)
    requires store.Valid()
    modifies store
    ensures store.Valid() && Went(store.sha, old(store.Contents()), ops, store.Contents(), mine)
  {
    ops := [];
    var n: int := *;
    while 0 < n
      invariant store.Valid() && Went(store.sha, old(store.Contents()), ops, store.Contents(), mine)
    {
      var op: Op := *;
      if Legal(store.Contents(), op) && !OpDraws(store.sha, op, mine) {
        WentOne(store.sha, store.Contents(), op, mine);
        ghost var before := store.Contents();
        var r := store.Perform(op);
        WentOn(store.sha, old(store.Contents()), ops, before, [op], store.Contents(), mine);
        ops := ops + [op];
      }
      n := n - 1;
    }
  }

  /** A state of the store and the clock reading of a call made in it. */
  datatype Moment = Moment(state: State, at: int)

  /** In state t, between the grant in s and the present u, somebody made this call. */
  ghost predicate Called(sha: Sha, s: State, t: State, op: Op, u: State, id: string, worker: string, h: Digest, g: nat)
    requires !IsClaim(op)
  {
    Tracked(sha, s, t, id, worker, h, g) && Reaches(sha, Exec(sha, t, op).0, u, h)
  }

  lemma CalledOn(sha: Sha, s: State, t: State, op: Op, u: State, v: State, id: string, worker: string, h: Digest, g: nat)
    requires !IsClaim(op) && Called(sha, s, t, op, u, id, worker, h, g) && Reaches(sha, u, v, h)
    ensures Called(sha, s, t, op, v, id, worker, h, g)
  {
    ReachesOn(sha, Exec(sha, t, op).0, u, v, h);
  }

  /** A call that has left u has been made, whatever follows. */
  lemma JustCalled(sha: Sha, s: State, t: State, op: Op, ops: seq<Op>, u: State, id: string, worker: string, h: Digest, g: nat)
    requires !IsClaim(op) && Tracked(sha, s, t, id, worker, h, g) && Went(sha, Exec(sha, t, op).0, ops, u, h)
    ensures Called(sha, s, t, op, u, id, worker, h, g)
  {
  }

  lemma CallReaches(sha: Sha, s: State, t: State, op: Op, u: State, id: string, worker: string, h: Digest, g: nat)
    requires !IsClaim(op) && Called(sha, s, t, op, u, id, worker, h, g)
    ensures Reaches(sha, t, u, h)
  {
    WentOne(sha, t, op, h);
    ReachesOn(sha, t, Exec(sha, t, op).0, u, h);
  }

  /** The beat was lost at a moment between the grant and the present when the lease was not in time, or for a taken hash. */
  ghost predicate RightlyLost(sha: Sha, s: State, m: Moment, u: State, id: string, worker: string, token: string, ttl: int, g: nat) {
    var op := Op.Heartbeat(id, worker, token, ttl, m.at);
    && Called(sha, s, m.state, op, u, id, worker, sha.token(token), g)
    && (!InTime(m.state, id, g, m.at) || HashRejected(sha, m.state, op))
  }

  lemma LostStill(sha: Sha, s: State, lost: Option<Moment>, u: State, v: State, id: string, worker: string, token: string, ttl: int, g: nat)
    requires lost.Some? ==> RightlyLost(sha, s, lost.value, u, id, worker, token, ttl, g)
    requires Reaches(sha, u, v, sha.token(token))
    ensures lost.Some? ==> RightlyLost(sha, s, lost.value, v, id, worker, token, ttl, g)
  {
    if lost.Some? {
      CalledOn(sha, s, lost.value.state, Op.Heartbeat(id, worker, token, ttl, lost.value.at), u, v, id, worker, sha.token(token), g);
    }
  }

  /** A beat that raised was rightly lost. */
  lemma BeatLost(sha: Sha, s: State, t: State, now: int, id: string, worker: string, token: string, ttl: int, g: nat)
    requires Tracked(sha, s, t, id, worker, sha.token(token), g) && Exec(sha, t, Op.Heartbeat(id, worker, token, ttl, now)).1.Raised?
    ensures RightlyLost(sha, s, Moment(t, now), t, id, worker, token, ttl, g)
  {
    BeatsExactly(sha, s, t, id, worker, token, ttl, now, g);
    RaisingChangesNothing(sha, t, Op.Heartbeat(id, worker, token, ttl, now));
    ReachesHere(sha, t, sha.token(token));
  }

  class ExecutionLeaseHeartbeat {
    const store: DurableFleetStore
    const id: string
    const worker: string
    const token: string
    const ttl: int
    var error: bool
    var stopped: bool
    var flying: bool      // the thread is past its wait and has yet to call the store
    ghost var lost: Option<Moment>

    /** An error means that a beat raised, at the moment `lost`; the thread has then ended. */
    ghost predicate Valid()
      reads this
    {
      && (error ==> stopped && !flying) && (error <==> lost.Some?)
      && (error ==> Exec(store.sha, lost.value.state, Op.Heartbeat(id, worker, token, ttl, lost.value.at)).1.Raised?)
    }

    constructor (store: DurableFleetStore, id: string, worker: string, token: string, ttl: int)
      ensures this.store == store && this.id == id && this.worker == worker && this.token == token && this.ttl == ttl
      ensures Valid() && !error && !stopped && !flying
    {
      this.store, this.id, this.worker, this.token, this.ttl := store, id, worker, token, ttl;
      error, stopped, flying, lost := false, false, false, None;
    }

    /** The wait runs out: unless it has been stopped, the thread is on its way to the store. */
    method Wake()
      requires Valid()
      modifies this`flying
      ensures Valid() && flying == (old(flying) || !stopped)
    {
      if !stopped { flying := true; }
    }

    /** A beat on its way reaches the store, stopped or not. One that raises is remembered, and none follows it. */
    method Beat(now: int) returns (ghost ops: seq<Op>)
      requires Valid() && store.Valid()
      modifies this, store
      ensures Valid() && store.Valid() && !flying
      ensures forall h :: Went(store.sha, old(store.Contents()), ops, store.Contents(), h)
      ensures ops == if old(flying) then [Op.Heartbeat(id, worker, token, ttl, now)] else []
      ensures var raised := old(flying) && Exec(store.sha, old(store.Contents()), Op.Heartbeat(id, worker, token, ttl, now)).1.Raised?;
              && stopped == (old(stopped) || raised)
              && lost == if raised then Some(Moment(old(store.Contents()), now)) else old(lost)
    {
      ops := [];
      if flying {
        ghost var s, op := store.Contents(), Op.Heartbeat(id, worker, token, ttl, now);
        ops := [op];
        forall h ensures Went(store.sha, s, ops, Exec(store.sha, s, op).0, h) {
          WentOne(store.sha, s, op, h);
        }
        flying := false;
        var r := store.Heartbeat(id, worker, token, ttl, now);
        if r.Raised? {
          error, stopped, lost := true, true, Some(Moment(s, now));
        }
      }
    }

    /** Sets the flag; a beat on its way is not called back. */
    method Stop()
      requires Valid()
      modifies this`stopped
      ensures Valid() && stopped
    {
      stopped := true;
    }
  }

  /** How the sandboxed workload ends: with an error, or with a receipt whose signature does or does not check. */
  datatype Workload = Crashed(message: string) | Finished(receipt: Json, signatureOk: bool)

  /** What run_once reports. A missing queue state stands for LEASE_UNCERTAIN. */
  datatype Report =
    | ClaimRaised(error: Error)
    | NoWork
    | ReportedExecuted(jobId: string, receiptSha: Option<Digest>)
    | ReportedFailed(jobId: string, queueState: Option<JobState>)

  /** The report of a failure: LEASE_UNCERTAIN if a beat was found lost; otherwise the failure call was made, in
      `tried`, and the state the queue has the job in is reported exactly if the lease was still in force there. */
  ghost predicate FailureTold(sha: Sha, s: State, id: string, worker: string, token: string, ttl: int, g: nat, message: string, failAt: int,
                              r: Report, a: nat, tried: State, late: Option<Moment>, u: State) {
    var op := Op.Fail(id, worker, token, message, 1, failAt);
    && r.ReportedFailed? && r.jobId == id && id in s.jobs && id in u.jobs
    && (late.Some? ==> r.queueState.None? && RightlyLost(sha, s, late.value, u, id, worker, token, ttl, g))
    && (late.None? ==>
          && Called(sha, s, tried, op, u, id, worker, sha.token(token), g)
          && (r.queueState.Some? <==> InForce(tried.log, g, |tried.log|, id) && !HashRejected(sha, tried, op)))
    && (r.queueState.Some? ==> FailedUnder(u.log, id, worker, s.jobs[id], message, g, a) && r.queueState == Some(u.jobs[id].state))
  }

  /** The moments of an attempt: when completion was called, when failure was, and the losses found before each. */
  datatype Trail = Trail(seen: State, tried: State, lost: Option<Moment>, late: Option<Moment>, message: string, at: nat)

  /** The report of a workload's end, told by the workload and the moments of the attempt. EXECUTED exactly if the
      workload finished with a signed, admissible receipt, no beat was lost by the time the heartbeat was stopped, and
      the lease was in time at the completion call; the receipt is then stored, under this lease. Anything else is
      reported as a failure. */
  ghost predicate AttemptTold(sha: Sha, s: State, id: string, worker: string, token: string, ttl: int, g: nat, workload: Workload,
                              completeAt: int, failAt: int, r: Report, w: Trail, u: State) {
    && (workload.Crashed? ==> w.message == workload.message)
    && (w.lost.Some? ==> RightlyLost(sha, s, w.lost.value, u, id, worker, token, ttl, g))
    && (if workload.Finished? && w.lost.None? then
          var op := Op.Complete(id, worker, token, workload.receipt, workload.signatureOk, completeAt);
          && Called(sha, s, w.seen, op, u, id, worker, sha.token(token), g)
          && (r.ReportedExecuted? <==>
                workload.signatureOk && ReceiptAdmissible(workload.receipt) && InTime(w.seen, id, g, completeAt) && !HashRejected(sha, w.seen, op))
        else !r.ReportedExecuted?)
    && (if r.ReportedExecuted?
        then r.jobId == id && workload.Finished? && ExecutedUnder(sha, u, id, worker, workload.receipt, r.receiptSha, g, w.at)
        else FailureTold(sha, s, id, worker, token, ttl, g, w.message, failAt, r, w.at, w.tried, w.late, u))
  }

  class Worker {
    const store: DurableFleetStore
    const workerId: string
    const leaseSeconds: int

    constructor (store: DurableFleetStore, workerId: string, leaseSeconds: int)
      requires 15 <= leaseSeconds <= 300
      ensures this.store == store && this.workerId == workerId && this.leaseSeconds == leaseSeconds
    {
      this.store, this.workerId, this.leaseSeconds := store, workerId, leaseSeconds;
    }

    /** The lease granted in s at g, as it stands now. */
    ghost predicate Tracks(s: State, id: string, token: string, g: nat)
      reads store
    {
      store.Valid() && Tracked(store.sha, s, store.Contents(), id, workerId, store.sha.token(token), g)
    }

    /** The heartbeat of this worker for that lease; if it has been lost, rightly so. */
    ghost predicate Beats(beat: ExecutionLeaseHeartbeat, id: string, token: string, s: State, g: nat)
      reads beat, store
    {
      && beat.Valid() && beat.store == store && beat.id == id && beat.worker == workerId && beat.token == token && beat.ttl == leaseSeconds
      && (beat.lost.Some? ==> RightlyLost(store.sha, s, beat.lost.value, store.Contents(), id, workerId, token, leaseSeconds, g))
    }

    /** The claim. If it is granted, g is the place of the grant in the log. */
    method TakeLease(token: string, scan: seq<string>, claimAt: int) returns (lease: Outcome, ghost g: nat)
      requires store.Valid() && Inv(store.sha, store.Contents()) && Enumerates(scan, ExpiredIds(store.jobs, claimAt))
      requires Dead(store.Contents(), store.sha.token(token))
      modifies store
      ensures store.Valid() && Inv(store.sha, store.Contents())
      ensures (store.Contents(), lease) == Exec(store.sha, old(store.Contents()), Op.ClaimExecution(workerId, leaseSeconds, token, scan, claimAt))
      ensures ClaimSays(store.sha, old(store.Contents()), workerId, leaseSeconds, token, scan, claimAt, store.Contents(), lease)
      ensures lease.Returned? && lease.reply.Granted? ==>
                |old(store.log)| <= g && Leased(store.Contents(), lease.reply.id, workerId, store.sha.token(token), g)
    {
      ghost var s, op := store.Contents(), Op.ClaimExecution(workerId, leaseSeconds, token, scan, claimAt);
      lease := store.ClaimExecution(workerId, leaseSeconds, token, scan, claimAt);
      ExecOk(store.sha, s, op);
      g := ClaimTaken(store.sha, s, op, store.Contents(), lease);
    }

    /** Everybody else takes any number of turns. */
    method OthersTurn(id: string, token: string, ghost s: State, ghost g: nat)
      requires Tracks(s, id, token, g)
      modifies store
      ensures Tracks(s, id, token, g) && Reaches(store.sha, old(store.Contents()), store.Contents(), store.sha.token(token))
    {
      ghost var t := store.Contents();
      ghost var ops := OtherTurns(store, store.sha.token(token));
      LeaseUnderOthers(store.sha, s, t, ops, store.Contents(), id, workerId, store.sha.token(token), g);
    }

    /** The heartbeat thread takes a turn: it wakes, or its beat reaches the store. */
    method HeartbeatTurn(beat: ExecutionLeaseHeartbeat, id: string, token: string, ghost s: State, ghost g: nat)
      requires Tracks(s, id, token, g) && Beats(beat, id, token, s, g)
      modifies store, beat
      ensures Tracks(s, id, token, g) && Beats(beat, id, token, s, g) && (old(beat.stopped) ==> beat.stopped)
      ensures Reaches(store.sha, old(store.Contents()), store.Contents(), store.sha.token(token))
    {
      var wakes: bool, now: int := *, *;
      ghost var t := store.Contents();
      ReachesHere(store.sha, t, store.sha.token(token));
      if wakes {
        beat.Wake();
      } else {
        if Exec(store.sha, t, Op.Heartbeat(id, workerId, token, leaseSeconds, now)).1.Raised? {
          BeatLost(store.sha, s, t, now, id, workerId, token, leaseSeconds, g);
        }
        ghost var lost := beat.lost;
        ghost var ops := beat.Beat(now);
        assert Went(store.sha, t, ops, store.Contents(), store.sha.token(token));
        LeaseUnderOthers(store.sha, s, t, ops, store.Contents(), id, workerId, store.sha.token(token), g);
        LostStill(store.sha, s, lost, t, store.Contents(), id, workerId, token, leaseSeconds, g);
      }
    }

    /** The heartbeat thread and everybody else take turns in any order: while the workload runs, and between any
        two steps of the worker, after it has stopped the thread too. */
    method WhileWorking(beat: ExecutionLeaseHeartbeat, id: string, token: string, ghost s: State, ghost g: nat)
      requires Tracks(s, id, token, g) && Beats(beat, id, token, s, g)
      modifies store, beat
      ensures Tracks(s, id, token, g) && Beats(beat, id, token, s, g) && (old(beat.stopped) ==> beat.stopped)
      ensures Reaches(store.sha, old(store.Contents()), store.Contents(), store.sha.token(token))
    {
      ghost var start, h := store.Contents(), store.sha.token(token);
      ReachesHere(store.sha, start, h);
      var n: int := *;
      while 0 < n
        invariant Tracks(s, id, token, g) && Beats(beat, id, token, s, g) && Reaches(store.sha, start, store.Contents(), h)
        invariant old(beat.stopped) ==> beat.stopped
      {
        ghost var t := store.Contents();
        var beats: bool := *;
        if beats {
          HeartbeatTurn(beat, id, token, s, g);
        } else {
          OthersTurn(id, token, s, g);
          LostStill(store.sha, s, beat.lost, t, store.Contents(), id, workerId, token, leaseSeconds, g);
        }
        ReachesOn(store.sha, start, t, store.Contents(), h);
        n := n - 1;
      }
    }

    /** The same turns once the lease may be over. */
    method LateTurns(beat: ExecutionLeaseHeartbeat, mine: Digest) returns (ghost ops: seq<Op>)
      requires store.Valid() && beat.Valid() && beat.store == store
      modifies store, beat
      ensures store.Valid() && beat.Valid() && (old(beat.stopped) ==> beat.stopped)
      ensures Went(store.sha, old(store.Contents()), ops, store.Contents(), mine)
    {
      ops := [];
      var n: int := *;
      while 0 < n
        invariant old(beat.stopped) ==> beat.stopped
        invariant store.Valid() && beat.Valid() && Went(store.sha, old(store.Contents()), ops, store.Contents(), mine)
      {
        ghost var before, more := store.Contents(), [];
        var beats: bool, now: int := *, *;
        if beats {
          beat.Wake();
          assert store.Contents() == before;
          more := beat.Beat(now);
          assert Went(store.sha, before, more, store.Contents(), mine);
        } else {
          more := OtherTurns(store, mine);
        }
        WentOn(store.sha, old(store.Contents()), ops, before, more, store.Contents(), mine);
        ops := ops + more;
        n := n - 1;
      }
    }

    /** Stops the heartbeat, waits for it for a while, and looks whether it was lost. */
    method StopHeartbeat(beat: ExecutionLeaseHeartbeat, id: string, token: string, ghost s: State, ghost g: nat)
      returns (error: bool, ghost lost: Option<Moment>)
      requires Tracks(s, id, token, g) && Beats(beat, id, token, s, g)
      modifies store, beat
      ensures Tracks(s, id, token, g) && Beats(beat, id, token, s, g)
      ensures Reaches(store.sha, old(store.Contents()), store.Contents(), store.sha.token(token))
      ensures beat.stopped && lost == beat.lost && (error <==> lost.Some?)
    {
      beat.Stop();
      WhileWorking(beat, id, token, s, g);
      return beat.error, beat.lost;
    }

    /** The except branch: report the failure, unless the heartbeat has already lost the lease. */
    method ReportFailure(beat: ExecutionLeaseHeartbeat, id: string, token: string, message: string, failAt: int, ghost s: State, ghost g: nat)
      returns (r: Report, ghost a: nat, ghost tried: State, ghost late: Option<Moment>)
      requires Tracks(s, id, token, g) && Beats(beat, id, token, s, g)
      modifies store, beat
      ensures store.Valid() && Inv(store.sha, store.Contents()) && beat.stopped
      ensures Reaches(store.sha, old(store.Contents()), store.Contents(), store.sha.token(token))
      ensures FailureTold(store.sha, s, id, workerId, token, leaseSeconds, g, message, failAt, r, a, tried, late, store.Contents())
    {
      ghost var start := store.Contents();
      var error;
      error, late := StopHeartbeat(beat, id, token, s, g);
      ghost var stopped := store.Contents();
      a, tried := 0, stopped;
      if error {
        StillThere(store.sha, s, stopped, id, workerId, store.sha.token(token), g);
        r := ReportedFailed(id, None);
        return;
      }
      WhileWorking(beat, id, token, s, g);
      tried := store.Contents();
      ReachesOn(store.sha, start, stopped, tried, store.sha.token(token));
      var state;
      state, a := Fail(beat, id, token, message, failAt, s, g);
      CallReaches(store.sha, s, tried, Op.Fail(id, workerId, token, message, 1, failAt), store.Contents(), id, workerId, store.sha.token(token), g);
      ReachesOn(store.sha, start, tried, store.Contents(), store.sha.token(token));
      r := ReportedFailed(id, state);
    }

    /** The failure call, and what goes on until its answer is read; None when the store refuses it. */
    method Fail(beat: ExecutionLeaseHeartbeat, id: string, token: string, message: string, failAt: int, ghost s: State, ghost g: nat)
      returns (state: Option<JobState>, ghost a: nat)
      requires Tracks(s, id, token, g) && Beats(beat, id, token, s, g)
      modifies store, beat
      ensures store.Valid() && Inv(store.sha, store.Contents()) && id in s.jobs && id in store.jobs && (old(beat.stopped) ==> beat.stopped)
      ensures Called(store.sha, s, old(store.Contents()), Op.Fail(id, workerId, token, message, 1, failAt), store.Contents(), id, workerId,
                     store.sha.token(token), g)
      ensures state.Some? <==>
                && InForce(old(store.log), g, |old(store.log)|, id)
                && !HashRejected(store.sha, old(store.Contents()), Op.Fail(id, workerId, token, message, 1, failAt))
      ensures state.Some? ==> FailedUnder(store.log, id, workerId, s.jobs[id], message, g, a) && state == Some(store.jobs[id].state)
    {
      ghost var t, op, h := store.Contents(), Op.Fail(id, workerId, token, message, 1, failAt), store.sha.token(token);
      a := |t.log|;
      FailsExactly(store.sha, s, t, id, workerId, token, message, 1, failAt, g);
      ExecOk(store.sha, t, op);
      StillThere(store.sha, s, t, id, workerId, h, g);
      var failed := store.FailExecution(id, workerId, token, message, 1, failAt);
      if failed.Raised? {
        RaisingChangesNothing(store.sha, t, op);
        JustCalled(store.sha, s, t, op, [], t, id, workerId, h, g);
        return None, a;
      }
      ghost var last := LateTurns(beat, store.sha.token(token));
      JustCalled(store.sha, s, t, op, last, store.Contents(), id, workerId, h, g);
      FailurePersists(store.sha, s, t, op, last, g);
      return Some(store.jobs[id].state), a;
    }

    /** The completion call, and what goes on until its answer is read; None when the store refuses it. */
    method Complete(beat: ExecutionLeaseHeartbeat, id: string, token: string, receipt: Json, signatureOk: bool, completeAt: int, ghost s: State, ghost g: nat)
      returns (digest: Option<Option<Digest>>, ghost a: nat)
      requires Tracks(s, id, token, g) && Beats(beat, id, token, s, g)
      modifies store, beat
      ensures store.Valid() && Inv(store.sha, store.Contents()) && (old(beat.stopped) ==> beat.stopped)
      ensures Called(store.sha, s, old(store.Contents()), Op.Complete(id, workerId, token, receipt, signatureOk, completeAt), store.Contents(),
                     id, workerId, store.sha.token(token), g)
      ensures digest.Some? <==>
                && signatureOk && ReceiptAdmissible(receipt) && InTime(old(store.Contents()), id, g, completeAt)
                && !HashRejected(store.sha, old(store.Contents()), Op.Complete(id, workerId, token, receipt, signatureOk, completeAt))
      ensures digest.Some? ==> ExecutedUnder(store.sha, store.Contents(), id, workerId, receipt, digest.value, g, a)
      ensures digest.None? ==> Tracks(s, id, token, g) && Beats(beat, id, token, s, g)
    {
      ghost var t, op, h := store.Contents(), Op.Complete(id, workerId, token, receipt, signatureOk, completeAt), store.sha.token(token);
      a := |t.log|;
      CompletesExactly(store.sha, s, t, id, workerId, token, receipt, signatureOk, completeAt, g);
      ExecOk(store.sha, t, op);
      var done := store.CompleteExecution(id, workerId, token, receipt, signatureOk, completeAt);
      if done.Raised? {
        RaisingChangesNothing(store.sha, t, op);
        JustCalled(store.sha, s, t, op, [], t, id, workerId, h, g);
        return None, a;
      }
      ghost var last := LateTurns(beat, store.sha.token(token));
      JustCalled(store.sha, s, t, op, last, store.Contents(), id, workerId, h, g);
      ExecutedPersists(store.sha, s, t, op, last, g);
      return Some(store.jobs[id].receiptSha), a;
    }

    /** The try branch once the workload has produced a receipt. */
    method Submit(beat: ExecutionLeaseHeartbeat, id: string, token: string, receipt: Json, signatureOk: bool, completeAt: int, failAt: int,
                  ghost s: State, ghost g: nat)
      returns (r: Report, ghost w: Trail)
      requires Tracks(s, id, token, g) && Beats(beat, id, token, s, g)
      modifies store, beat
      ensures store.Valid() && Inv(store.sha, store.Contents()) && beat.stopped
      ensures AttemptTold(store.sha, s, id, workerId, token, leaseSeconds, g, Finished(receipt, signatureOk), completeAt, failAt, r, w, store.Contents())
    {
      var error;
      ghost var lost;
      error, lost := StopHeartbeat(beat, id, token, s, g);
      ghost var now := store.Contents();
      if error {
        StillThere(store.sha, s, now, id, workerId, store.sha.token(token), g);
        r, w := ReportedFailed(id, None), Trail(now, now, lost, lost, "", 0);
        return;
      }
      r, w := Finish(beat, id, token, receipt, signatureOk, completeAt, failAt, s, g);
    }

    /** The same once no loss has been found: completion, and failure if the store refuses it, with whatever text
        the refusal carries. */
    method Finish(beat: ExecutionLeaseHeartbeat, id: string, token: string, receipt: Json, signatureOk: bool, completeAt: int, failAt: int,
                  ghost s: State, ghost g: nat)
      returns (r: Report, ghost w: Trail)
      requires Tracks(s, id, token, g) && Beats(beat, id, token, s, g) && beat.stopped
      modifies store, beat
      ensures store.Valid() && Inv(store.sha, store.Contents()) && w.lost.None? && beat.stopped
      ensures AttemptTold(store.sha, s, id, workerId, token, leaseSeconds, g, Finished(receipt, signatureOk), completeAt, failAt, r, w, store.Contents())
    {
      WhileWorking(beat, id, token, s, g);
      ghost var seen, h := store.Contents(), store.sha.token(token);
      var digest;
      ghost var a;
      digest, a := Complete(beat, id, token, receipt, signatureOk, completeAt, s, g);
      if digest.Some? {
        return ReportedExecuted(id, digest.value), Trail(seen, seen, None, None, "", a);
      }
      var refusal: string := *;
      ghost var mid, tried, late := store.Contents(), seen, None;
      r, a, tried, late := ReportFailure(beat, id, token, refusal, failAt, s, g);
      CalledOn(store.sha, s, seen, Op.Complete(id, workerId, token, receipt, signatureOk, completeAt), mid, store.Contents(), id, workerId, h, g);
      w := Trail(seen, tried, None, late, refusal, a);
    }

    /** The job under a lease granted in s, the present state, at g. Its heartbeat is left stopped. */
    method Attempt(id: string, token: string, workload: Workload, completeAt: int, failAt: int, ghost s: State, ghost g: nat)
      returns (r: Report, ghost w: Trail, ghost beat: ExecutionLeaseHeartbeat)
      requires Tracks(s, id, token, g) && s == store.Contents()
      modifies store
      ensures store.Valid() && Inv(store.sha, store.Contents())
      ensures fresh(beat) && beat.stopped && beat.store == store && beat.id == id && beat.worker == workerId && beat.token == token
      ensures AttemptTold(store.sha, s, id, workerId, token, leaseSeconds, g, workload, completeAt, failAt, r, w, store.Contents())
    {
      var heartbeat := new ExecutionLeaseHeartbeat(store, id, workerId, token, leaseSeconds);
      beat := heartbeat;
      WhileWorking(heartbeat, id, token, s, g);
      match workload
      case Crashed(message) =>
        ghost var a, tried, late;
        r, a, tried, late := ReportFailure(heartbeat, id, token, message, failAt, s, g);
        w := Trail(s, tried, None, late, message, a);
      case Finished(receipt, signatureOk) =>
        r, w := Submit(heartbeat, id, token, receipt, signatureOk, completeAt, failAt, s, g);
    }

    /** One job: claim, work under heartbeat, complete. The claim raises exactly on a bad worker id, a bad lease length
        or a taken hash, leaving the store alone. NoWork is reported exactly if nobody is in line once the expired leases
        are back. Otherwise the first in line is leased and attempted, and what is reported is told by its workload. */
    method RunOnce(token: string, scan: seq<string>, workload: Workload, claimAt: int, completeAt: int, failAt: int)
      returns (r: Report, ghost s: State, ghost g: nat, ghost w: Trail, ghost beat: ExecutionLeaseHeartbeat?)
      requires store.Valid() && Inv(store.sha, store.Contents()) && Enumerates(scan, ExpiredIds(store.jobs, claimAt))
      requires Dead(store.Contents(), store.sha.token(token))
      modifies store
      ensures store.Valid() && Inv(store.sha, store.Contents())
      ensures r.ClaimRaised? <==>
                || !OwnerOk(workerId) || leaseSeconds < 5 || leaseSeconds > 300
                || HashRejected(store.sha, old(store.Contents()), Op.ClaimExecution(workerId, leaseSeconds, token, scan, claimAt))
      ensures r.NoWork? <==> !r.ClaimRaised? && forall id :: id in old(store.jobs) ==> !InLine(TakenBack(old(store.jobs)[id], claimAt), claimAt)
      ensures var claim := if r.ClaimRaised? then Raised(r.error) else if r.NoWork? then Returned(Idle)
                           else Returned(Granted(r.jobId, workerId, token, claimAt + leaseSeconds));
              ClaimSays(store.sha, old(store.Contents()), workerId, leaseSeconds, token, scan, claimAt, s, claim)
      ensures r.ClaimRaised? || r.NoWork? ==> store.Contents() == s
      ensures !r.ClaimRaised? && !r.NoWork? ==>
                && FirstInLine(AllTakenBack(old(store.jobs), claimAt), claimAt, r.jobId)
                && beat != null && beat.stopped && beat.store == store && beat.id == r.jobId && beat.token == token
                && |old(store.log)| <= g && Leased(s, r.jobId, workerId, store.sha.token(token), g)
                && AttemptTold(store.sha, s, r.jobId, workerId, token, leaseSeconds, g, workload, completeAt, failAt, r, w, store.Contents())
    {
      ghost var start := store.Contents();
      var lease;
      lease, g := TakeLease(token, scan, claimAt);
      s := store.Contents();
      w, beat := Trail(s, s, None, None, "", 0), null;
      ClaimAnswer(store.sha, start, workerId, leaseSeconds, token, scan, claimAt, s, lease);
      if lease.Raised? {
        r := ClaimRaised(lease.error);
      } else if !lease.reply.Granted? {
        r := NoWork;
      } else {
        JustLeased(store.sha, s, lease.reply.id, workerId, store.sha.token(token), g);
        r, w, beat := Attempt(lease.reply.id, token, workload, completeAt, failAt, s, g);
      }
    }
  }

  /** A job whose lease is tracked is in the table. */
  lemma StillThere(sha: Sha, s: State, t: State, id: string, worker: string, h: Digest, g: nat)
    requires Tracked(sha, s, t, id, worker, h, g)
    ensures id in s.jobs && id in t.jobs
  {
    var ops :| Went(sha, s, ops, t, h);
    ChangesKeepKeys(sha, s, History(sha, s, ops), id);
  }

  lemma {:induction false} ChangesKeepKeys(sha: Sha, s: State, cs: seq<Stamped>, id: string)
    requires AllowedRun(sha, s, cs) && id in s.jobs
    ensures id in RunChanges(sha, s, cs).jobs
    decreases |cs|
  {
    if cs != [] {
      assert id in Effect(sha, s, cs[0]).jobs;
      ChangesKeepKeys(sha, Effect(sha, s, cs[0]), cs[1..], id);
    }
  }

  /** The answers of a claim, and who gets them. */
  lemma ClaimAnswer(sha: Sha, s: State, worker: string, ttl: int, token: string, scan: seq<string>, now: int, t: State, r: Outcome)
    requires Enumerates(scan, ExpiredIds(s.jobs, now)) && (t, r) == Exec(sha, s, Op.ClaimExecution(worker, ttl, token, scan, now))
    requires ClaimSays(sha, s, worker, ttl, token, scan, now, t, r)
    ensures r.Raised? <==> !OwnerOk(worker) || ttl < 5 || ttl > 300 || HashRejected(sha, s, Op.ClaimExecution(worker, ttl, token, scan, now))
    ensures r.Returned? ==> (r.reply == Idle <==> forall id :: id in s.jobs ==> !InLine(TakenBack(s.jobs[id], now), now))
    ensures r.Returned? && r.reply != Idle ==> r.reply == Granted(r.reply.id, worker, token, now + ttl)
                                               && FirstInLine(AllTakenBack(s.jobs, now), now, r.reply.id)
  {
    if r.Returned? { AnswerWritten(sha, s, worker, ttl, token, scan, now, t, r.reply); }
  }

  lemma AnswerWritten(sha: Sha, s: State, worker: string, ttl: int, token: string, scan: seq<string>, now: int, t: State, reply: Reply)
    requires ClaimWrites(sha, s, worker, ttl, token, scan, now, t, reply)
    ensures reply == Idle <==> forall id :: id in s.jobs ==> !InLine(TakenBack(s.jobs[id], now), now)
    ensures reply != Idle ==> reply == Granted(reply.id, worker, token, now + ttl) && FirstInLine(AllTakenBack(s.jobs, now), now, reply.id)
  {
    if reply == Idle {
      forall id | id in s.jobs ensures !InLine(TakenBack(s.jobs[id], now), now) {
        assert id in AllTakenBack(s.jobs, now) && AllTakenBack(s.jobs, now)[id] == TakenBack(s.jobs[id], now);
      }
    }
  }

  lemma JustLeased(sha: Sha, s: State, id: string, worker: string, h: Digest, g: nat)
    requires Inv(sha, s) && Leased(s, id, worker, h, g)
    ensures Tracked(sha, s, s, id, worker, h, g)
  {
    ReachesHere(sha, s, h);
  }
}

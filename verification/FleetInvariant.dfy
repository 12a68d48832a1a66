/** What holds of every row and of the log in every reachable state. */
module FleetInvariant {
  import opened Basics
  import opened HashChain
  import opened FleetModel
  import opened FleetOps

  /** No verifier has touched the job. */
  predicate Unchecked(job: Job) {
    job.verifier.None? && job.checkHash.None? && job.checkExpires.None? && job.verification.None?
  }

  predicate NoLease(job: Job) {
    job.leaseHash.None? && job.leaseExpires.None?
  }

  /** The job holds an admissible receipt from its worker, with the matching digest. */
  predicate HasReceipt(sha: Sha, job: Job) {
    && job.worker.Some? && NoLease(job) && job.attempts >= 1
    && job.receipt.Some? && ReceiptAdmissible(job.receipt.value)
    && job.receiptSha == Some(sha.receipt(job.receipt.value))
  }

  predicate NoReceipt(job: Job) {
    job.receipt.None? && job.receiptSha.None?
  }

  /** A verdict by someone other than the worker, about the digest the job holds. */
  predicate Judged(job: Job) {
    && job.verifier.Some? && job.verifier != job.worker && job.checkHash.None? && job.checkExpires.None?
    && job.verification.Some?
    && var v := job.verification.value;
       v.verdict == job.state && Some(v.verifier) == job.verifier && v.receiptSha == job.receiptSha
       && (job.state == VERIFIED ==> ProofPasses(v.proof))
  }

  /** What each state says about the row. */
  predicate JobOk(sha: Sha, job: Job) {
    && 0 <= job.attempts <= job.order.maxAttempts && 1 <= job.order.maxAttempts <= 10 && job.order.spec.JObj?
    && match job.state
       case QUEUED => job.attempts < job.order.maxAttempts && job.worker.None? && NoLease(job) && NoReceipt(job) && Unchecked(job)
       case LEASED =>
         job.attempts >= 1 && job.worker.Some? && job.leaseHash.Some? && job.leaseExpires.Some? && NoReceipt(job) && Unchecked(job)
       case EXECUTED => HasReceipt(sha, job) && Unchecked(job)
       case VERIFYING =>
         HasReceipt(sha, job) && job.verifier.Some? && job.verifier != job.worker
         && job.checkHash.Some? && job.checkExpires.Some? && job.verification.None?
       case VERIFIED => HasReceipt(sha, job) && Judged(job)
       case BLOCKED => HasReceipt(sha, job) && Judged(job)
       case FAILED =>
         || (HasReceipt(sha, job) && Judged(job))
         || (job.attempts == job.order.maxAttempts && job.worker.None? && NoLease(job) && NoReceipt(job) && Unchecked(job))
  }

  ghost predicate Inv(sha: Sha, s: State) {
    && (forall id :: id in s.jobs ==> JobOk(sha, s.jobs[id]))
    && (forall id :: id in s.jobs ==> s.jobs[id].order.planId in s.plans)
    && Linked(sha.event, s.log)
    && (forall i :: 0 <= i < |s.log| ==> s.log[i].id == i + 1)
  }

  lemma MovedOk(sha: Sha, job: Job, m: Move, now: int)
    requires JobOk(sha, job) && CanMove(job, m, now)
    ensures JobOk(sha, Moved(sha, job, m, now))
    ensures Moved(sha, job, m, now).order == job.order && Moved(sha, job, m, now).createdAt == job.createdAt
  {
  }

  lemma EffectOk(sha: Sha, s: State, c: Stamped)
    requires Inv(sha, s) && Allowed(s, c)
    ensures Inv(sha, Effect(sha, s, c))
  {
    AppendKeepsLinked(sha.event, s.log, |s.log| + 1, EventOf(sha, s, c));
    if c.change.Step? { MovedOk(sha, s.jobs[c.change.id], c.change.move, c.now); }
  }

  lemma {:induction false} ChangesOk(sha: Sha, s: State, cs: seq<Stamped>)
    requires Inv(sha, s) && AllowedRun(sha, s, cs)
    ensures Inv(sha, RunChanges(sha, s, cs))
    decreases |cs|
  {
    if cs != [] {
      EffectOk(sha, s, cs[0]);
      ChangesOk(sha, Effect(sha, s, cs[0]), cs[1..]);
    }
  }

  /** Every state any run of operations can reach satisfies the invariant. */
  lemma ReachableOk(sha: Sha, ops: seq<Op>)
    requires LegalRun(sha, EMPTY, ops)
    ensures Inv(sha, Run(sha, EMPTY, ops))
  {
    ChangesOk(sha, EMPTY, History(sha, EMPTY, ops));
  }

  lemma ExecOk(sha: Sha, s: State, op: Op)
    requires Inv(sha, s) && Legal(s, op)
    ensures Inv(sha, Exec(sha, s, op).0)
  {
    ChangesOk(sha, s, Committed(sha, s, op));
  }

  /** The first change of a run: what it leaves, and that its event stays where it was put. */
  lemma FirstChange(sha: Sha, s: State, cs: seq<Stamped>)
    requires Inv(sha, s) && AllowedRun(sha, s, cs) && cs != []
    ensures var u, t := Effect(sha, s, cs[0]), RunChanges(sha, s, cs);
            && Inv(sha, u) && |u.log| == |s.log| + 1 && u.log <= t.log
            && t.log[|s.log|].content == EventOf(sha, s, cs[0])
  {
    EffectOk(sha, s, cs[0]);
    LogGrows(sha, Effect(sha, s, cs[0]), cs[1..]);
    assert RunChanges(sha, s, cs).log[|s.log|] == Effect(sha, s, cs[0]).log[|s.log|];
  }

  // ----- the log only grows -----

  lemma {:induction false} LogGrows(sha: Sha, s: State, cs: seq<Stamped>)
    requires AllowedRun(sha, s, cs)
    ensures s.log <= RunChanges(sha, s, cs).log
    ensures |RunChanges(sha, s, cs).log| == |s.log| + |cs|
    decreases |cs|
  {
    if cs != [] { LogGrows(sha, Effect(sha, s, cs[0]), cs[1..]); }
  }

  /** In every reachable state the UNIQUE constraint on event hashes holds, and if the hash has no collision
      on the rows involved, no commit is ever rejected because of it. */
  lemma {:induction false} HashesStayUnique(sha: Sha, s: State, ops: seq<Op>)
    requires UniqueHashes(s.log) && LegalRun(sha, s, ops)
    ensures UniqueHashes(Run(sha, s, ops).log)
    decreases |ops|
  {
    if ops != [] { HashesStayUnique(sha, Exec(sha, s, ops[0]).0, ops[1..]); }
  }

  lemma NoHashRejection(sha: Sha, s: State, op: Op)
    requires Inv(sha, s) && Legal(s, op) && Decide(sha, s, op).Commit?
    requires AllowedRun(sha, s, Decide(sha, s, op).changes)
    requires CollisionFree(sha.event, RunChanges(sha, s, Decide(sha, s, op).changes).log)
    ensures Exec(sha, s, op) == (RunChanges(sha, s, Decide(sha, s, op).changes), Returned(Decide(sha, s, op).reply))
  {
    ChangesOk(sha, s, Decide(sha, s, op).changes);
    DistinctHashes(sha.event, RunChanges(sha, s, Decide(sha, s, op).changes).log);
  }

  /** A lease lookup never meets a missing expiry: the call that Python would end with a TypeError cannot occur. */
  lemma NoTypeError(sha: Sha, s: State, op: Op)
    requires Inv(sha, s) && Legal(s, op)
    ensures Exec(sha, s, op).1 != Raised(TypeError)
  {
  }

  // ----- final states and receipts are permanent -----

  predicate Final(state: JobState) {
    state == VERIFIED || state == FAILED || state == BLOCKED
  }

  /** What no later change can take from a job. */
  predicate Keeps(before: Job, after: Job) {
    && after.order == before.order && after.createdAt == before.createdAt
    && before.attempts <= after.attempts
    && (before.receipt.Some? ==>
          after.receipt == before.receipt && after.receiptSha == before.receiptSha
          && after.worker == before.worker && after.attempts == before.attempts)
    && (Final(before.state) ==> after == before)
  }

  lemma EffectKeeps(sha: Sha, s: State, c: Stamped, id: string)
    requires Inv(sha, s) && Allowed(s, c) && id in s.jobs
    ensures id in Effect(sha, s, c).jobs && Keeps(s.jobs[id], Effect(sha, s, c).jobs[id])
  {
  }

  lemma {:induction false} ChangesKeep(sha: Sha, s: State, cs: seq<Stamped>, id: string)
    requires Inv(sha, s) && AllowedRun(sha, s, cs) && id in s.jobs
    ensures id in RunChanges(sha, s, cs).jobs && Keeps(s.jobs[id], RunChanges(sha, s, cs).jobs[id])
    decreases |cs|
  {
    if cs != [] {
      EffectOk(sha, s, cs[0]);
      EffectKeeps(sha, s, cs[0], id);
      ChangesKeep(sha, Effect(sha, s, cs[0]), cs[1..], id);
    }
  }

  /** Over any further run: orders never change, attempts never fall, an accepted receipt with its digest and
      worker stays, and a job in a final state stays exactly as it is. */
  lemma RunKeeps(sha: Sha, s: State, ops: seq<Op>, id: string)
    requires Inv(sha, s) && LegalRun(sha, s, ops) && id in s.jobs
    ensures id in Run(sha, s, ops).jobs && Keeps(s.jobs[id], Run(sha, s, ops).jobs[id])
  {
    ChangesKeep(sha, s, History(sha, s, ops), id);
  }
}

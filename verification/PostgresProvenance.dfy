/** Where a verdict comes from when transactions interleave: the log alone tells, for its events came when due. */
module PostgresProvenance {
  import opened Basics
  import opened HashChain
  import opened FleetModel
  import opened FleetReplay
  import opened FleetProvenance
  import opened PostgresGuards
  import opened PostgresFleet
  import opened PostgresPlans
  import opened PostgresRuns

  /** What each state says about the view. */
  predicate ViewOk(v: View) {
    && (v.state == QUEUED || v.state == LEASED ==> v.receiptSha.None? && v.verification.None?)
    && (v.state == EXECUTED || v.state == VERIFYING ==> v.receiptSha.Some? && v.verification.None?)
    && (v.state == VERIFYING ==> v.verifier.Some? && v.verifier != v.worker)
    && (v.state == VERIFIED || v.state == BLOCKED ==> v.verification.Some?)
    && (v.verification.Some? ==>
          v.receiptSha.Some? && v.verifier.Some? && v.verifier != v.worker && v.state == v.verification.value.verdict
          && RecordFits(v, v.verification.value))
  }

  /** The trail backs up what the view claims. The plan is not part of it. */
  predicate Traced(log: Log, id: string, v: View, t: Trail) {
    && EnqueuedAt(log, t.enqueue, id, v.planId)
    && (v.state == LEASED || v.receiptSha.Some? ==> t.enqueue < t.grant && GrantedAt(log, t.grant, id, v.worker))
    && (v.state == LEASED ==> OnlyHeartbeats(log, id, t.grant, |log|))
    && (v.receiptSha.Some? ==>
          t.grant < t.receipt && AcceptedAt(log, t.receipt, id, v.worker, v.receiptSha) && OnlyHeartbeats(log, id, t.grant, t.receipt))
    && (v.state == VERIFYING || v.verification.Some? ==> t.receipt < t.check && CheckGrantedAt(log, t.check, id, v.verifier))
    && (v.state == VERIFYING ==> NothingAbout(log, id, t.check, |log|))
    && (v.verification.Some? ==>
          t.check < t.verdict && JudgedAt(log, t.verdict, id, v.verifier, v.verification) && NothingAbout(log, id, t.check, t.verdict))
  }

  /** Where the next event of the job leaves the trail. */
  function TrailAfter(t: Trail, e: Event, n: nat): Trail {
    match e.payload
    case ExecutionLeaseGranted(_, _) => t.(grant := n)
    case ExecutionReceiptAccepted(_, _) => t.(receipt := n)
    case VerificationLeaseGranted(_) => t.(check := n)
    case IndependentVerification(_) => t.(verdict := n)
    case _ => t
  }

  lemma OtherTraced(log: Log, row: Row<Event>, id: string, v: View, t: Trail)
    requires Traced(log, id, v, t) && row.content.jobId != Some(id)
    ensures Traced(log + [row], id, v, t)
  {
    var more := log + [row];
    assert forall k :: 0 <= k < |log| ==> more[k] == log[k];
  }

  lemma StepOk(v: View, e: Event)
    requires ViewOk(v) && Due(Some(v), e)
    ensures ViewOk(Replayed(v, e))
  {
  }

  lemma StepTraced(log: Log, row: Row<Event>, id: string, v: View, t: Trail)
    requires ViewOk(v) && Traced(log, id, v, t) && row.content.jobId == Some(id) && Due(Some(v), row.content)
    ensures Traced(log + [row], id, Replayed(v, row.content), TrailAfter(t, row.content, |log|))
  {
    var more := log + [row];
    assert forall k :: 0 <= k < |log| ==> more[k] == log[k];
    assert more[|log|] == row;
  }

  /** If each event of a job was due when it came, the log holds the trail its view implies. */
  lemma {:induction false} DueIsTraced(log: Log, id: string) returns (t: Trail)
    requires StoryFor(log, JobKey(id)).due && StoryFor(log, JobKey(id)).view.Some?
    ensures ViewOk(StoryFor(log, JobKey(id)).view.value) && Traced(log, id, StoryFor(log, JobKey(id)).view.value, t)
    decreases |log|
  {
    var most, row := log[..|log| - 1], log[|log| - 1];
    var before := StoryFor(most, JobKey(id));
    assert log == most + [row];
    if row.content.jobId != Some(id) {
      t := DueIsTraced(most, id);
      OtherTraced(most, row, id, before.view.value, t);
    } else if before.view.None? {
      t := Trail(0, |most|, 0, 0, 0, 0);
    } else {
      t := DueIsTraced(most, id);
      StepOk(before.view.value, row.content);
      StepTraced(most, row, id, before.view.value, t);
      t := TrailAfter(t, row.content, |most|);
    }
  }

  // ----- the digest on a row is that of the receipt on it -----

  predicate Hashed(sha: Sha, entry: Entry) {
    entry.JobEntry? ==>
      entry.job.receiptSha == if entry.job.receipt.Some? then Some(sha.receipt(entry.job.receipt.value)) else None
  }

  ghost predicate AllHashed(sha: Sha, db: Db) {
    && (forall key :: key in db.entries ==> Hashed(sha, db.entries[key]))
    && (forall t, key :: t in db.txs && key in db.txs[t].entries ==> Hashed(sha, db.txs[t].entries[key]))
  }

  lemma PlainHashed(sha: Sha, job: Job, m: Move, now: int)
    requires CanMove(job, m, now) && Hashed(sha, JobEntry(job))
    ensures Hashed(sha, JobEntry(Moved(sha, job, m, now)))
  {
  }

  lemma WriteHashed(sha: Sha, db: Db, t: TxId, s: Stmt)
    requires CanRun(sha, db, t, s) && IsWrite(s) && AllHashed(sha, db)
    ensures Hashed(sha, WriteOf(sha, db, t, s).entry)
  {
    if s.UpdateRow? {
      var job := JobOf(db, t, s.id).value;
      assert Hashed(sha, JobEntry(job));
      if s.move.Plain? && !s.move.move.Accept? {
        AdmittedCanMove(sha, job, s.move.move, s.caller, s.at);
        PlainHashed(sha, job, s.move.move, s.at);
      }
    }
  }

  lemma HashedStep(sha: Sha, db: Db, t: TxId, s: Stmt)
    requires CanRun(sha, db, t, s) && AllHashed(sha, db)
    ensures AllHashed(sha, Next(sha, db, t, s))
  {
    if IsWrite(s) {
      WriteIsFree(sha, db, t, s);
      WriteHashed(sha, db, t, s);
    } else if IsQuiet(s) {
      var next := QuietView(sha, db, t, s);
    } else if IsDrop(s) {
      var seqNo := DropView(sha, db, t, s);
    } else if s.InsertEvent? {
      InsertView(sha, db, t);
    }
  }

  lemma {:induction false} HashedOn(sha: Sha, a: Db, turns: seq<Turn>, b: Db)
    requires AllHashed(sha, a) && Leads(sha, a, turns, b)
    ensures AllHashed(sha, b)
    decreases |turns|
  {
    if turns != [] {
      HashedStep(sha, a, turns[0].tx, turns[0].stmt);
      HashedOn(sha, Next(sha, a, turns[0].tx, turns[0].stmt), turns[1..], b);
    }
  }

  lemma ReachableHashed(sha: Sha, db: Db)
    requires Reachable(sha, db)
    ensures AllHashed(sha, db)
  {
    var turns :| Leads(sha, EMPTY_DB, turns, db);
    HashedOn(sha, EMPTY_DB, turns, db);
  }

  // ----- verdicts -----

  /** In every schedule a VERIFIED job has, in this order in the committed log: a VERIFIED_PLAN record of its plan, its
      enqueuing, an execution grant to w, with nothing but heartbeats up to the acceptance of w's receipt h, a
      verification grant to v, other than w, and right after it v's verdict on h with passing checks. */
  lemma InterleavedVerifiedProvenance(sha: Sha, db: Db, id: string) returns (w: string, v: string, h: Digest, t: Trail)
    requires Reachable(sha, db) && id in Jobs(db) && Jobs(db)[id].state == VERIFIED
    ensures t.plan < t.enqueue < t.grant < t.receipt < t.check < t.verdict < |db.log|
    ensures RecordsPlan(db.log[t.plan].content, Jobs(db)[id].order.planId, VerifiedPlan) && EnqueuedAt(db.log, t.enqueue, id, Jobs(db)[id].order.planId)
    ensures GrantedAt(db.log, t.grant, id, Some(w)) && OnlyHeartbeats(db.log, id, t.grant, t.receipt)
    ensures AcceptedAt(db.log, t.receipt, id, Some(w), Some(h)) && Jobs(db)[id].worker == Some(w) && Jobs(db)[id].receiptSha == Some(h)
    ensures Jobs(db)[id].receipt.Some? && h == sha.receipt(Jobs(db)[id].receipt.value)
    ensures CheckGrantedAt(db.log, t.check, id, Some(v)) && NothingAbout(db.log, id, t.check, t.verdict) && v != w
    ensures JudgedAt(db.log, t.verdict, id, Some(v), Jobs(db)[id].verification) && VerifiedRecord(Jobs(db)[id].verification.value, v, h)
  {
    ReachableKeeps(sha, db);
    ReachableHashed(sha, db);
    var job := Jobs(db)[id];
    assert Hashed(sha, db.entries[JobKey(id)]);
    assert EntryGood(StoryFor(db.log, JobKey(id)), JobKey(id), db.entries[JobKey(id)]);
    t := DueIsTraced(db.log, id);
    w, v, h := job.worker.value, job.verifier.value, job.receiptSha.value;
    var m := EnqueuedFromVerifiedPlan(sha, db, t.enqueue);
    LastStatusIsRecorded(db.log[..m], job.order.planId);
    var k: nat :| LastRecord(db.log[..m], job.order.planId, k);
    t := t.(plan := k);
  }
}

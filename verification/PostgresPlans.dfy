/** Enqueued jobs and the plans behind them: what the log says of a plan when it is checked, and afterwards. */
module PostgresPlans {
  import opened Basics
  import opened HashChain
  import opened FleetModel
  import opened PostgresGuards
  import opened PostgresFleet

  /** The status the log last records for the plan. */
  function LastStatus(log: Log, planId: string): Option<PlanStatus> {
    StoryFor(log, PlanKey(planId)).plan
  }

  /** Position k holds the last record of the plan in the log. */
  predicate LastRecord(log: Log, planId: string, k: nat) {
    k < |log| && About(log[k].content, PlanKey(planId)) && forall i :: k < i < |log| ==> !About(log[i].content, PlanKey(planId))
  }

  predicate Unrecorded(log: Log, planId: string) {
    forall i :: 0 <= i < |log| ==> !About(log[i].content, PlanKey(planId))
  }

  /** One more event about something else changes no plan's last record. */
  lemma RecordsBefore(log: Log, most: Log, planId: string)
    requires log != [] && most == log[..|log| - 1] && !About(log[|log| - 1].content, PlanKey(planId))
    ensures forall k: nat :: LastRecord(log, planId, k) <==> LastRecord(most, planId, k)
    ensures Unrecorded(log, planId) <==> Unrecorded(most, planId)
  {
    forall k: nat ensures LastRecord(log, planId, k) <==> LastRecord(most, planId, k) {}
  }

  lemma RecordsHere(log: Log, planId: string)
    requires log != [] && About(log[|log| - 1].content, PlanKey(planId))
    ensures forall k: nat :: LastRecord(log, planId, k) <==> k == |log| - 1
    ensures !Unrecorded(log, planId)
  {
  }

  /** What the last status means. */
  lemma {:induction false} LastStatusIsRecorded(log: Log, planId: string)
    ensures LastStatus(log, planId).None? <==> Unrecorded(log, planId)
    ensures forall k: nat :: LastRecord(log, planId, k) ==> LastStatus(log, planId) == Some(log[k].content.payload.status)
    ensures LastStatus(log, planId).Some? ==> exists k: nat :: LastRecord(log, planId, k)
    decreases |log|
  {
    if log != [] {
      var most := log[..|log| - 1];
      if About(log[|log| - 1].content, PlanKey(planId)) {
        RecordsHere(log, planId);
        assert LastRecord(log, planId, |log| - 1);
      } else {
        LastStatusIsRecorded(most, planId);
        RecordsBefore(log, most, planId);
        assert forall k :: 0 <= k < |most| ==> most[k] == log[k];
      }
    }
  }

  /** What a longer log records last is what its new part does or, if that is silent, what the old part did. */
  lemma {:induction false} LastStatusTail(log: Log, more: Log, planId: string)
    ensures LastStatus(log + more, planId) == if LastStatus(more, planId).Some? then LastStatus(more, planId) else LastStatus(log, planId)
    decreases |more|
  {
    if more == [] {
      assert log + more == log;
    } else {
      var all := log + more;
      assert all[..|all| - 1] == log + more[..|more| - 1];
      LastStatusTail(log, more[..|more| - 1], planId);
    }
  }

  /** The part of a log since position m neither is silent nor ends on a verified record. */
  predicate Superseded(log: Log, planId: string, m: nat)
    requires m <= |log|
  {
    LastStatus(log[m..], planId).Some? && LastStatus(log[m..], planId) != Some(VerifiedPlan)
  }

  /** A plan verified at m is the last verified exactly if it has not been superseded since. */
  lemma StillVerifiedExactly(log: Log, planId: string, m: nat)
    requires m <= |log| && LastStatus(log[..m], planId) == Some(VerifiedPlan)
    ensures LastStatus(log, planId) == Some(VerifiedPlan) <==> !Superseded(log, planId, m)
  {
    LastStatusTail(log[..m], log[m..], planId);
    assert log[..m] + log[m..] == log;
  }

  lemma SeenStillVerified(before: Log, seen: Log, planId: string)
    requires before <= seen && LastStatus(before, planId) == Some(VerifiedPlan)
    ensures LastStatus(seen, planId) == Some(VerifiedPlan) <==> !Superseded(seen, planId, |before|)
    ensures Unrecorded(seen[|before|..], planId) ==> LastStatus(seen, planId) == Some(VerifiedPlan)
  {
    assert seen[..|before|] == before;
    StillVerifiedExactly(seen, planId, |before|);
    LastStatusIsRecorded(seen[|before|..], planId);
  }

  // ----- checks and enqueuings -----

  /** After its first m events the log recorded the plan as verified. */
  predicate VerifiedAt(log: Log, planId: string, m: nat) {
    m <= |log| && LastStatus(log[..m], planId) == Some(VerifiedPlan)
  }

  /** Each enqueuing is marked with a position before it at which its plan was verified. */
  predicate EnqueuesBacked(log: Log, marks: seq<nat>) {
    && |marks| == |log|
    && forall n :: 0 <= n < |log| && log[n].content.payload.JobEnqueued?
                   ==> marks[n] <= n && VerifiedAt(log, log[n].content.payload.plan, marks[n])
  }

  predicate TxPlansOk(db: Db, t: TxId)
    requires t in db.txs
  {
    var log, tx := VisibleLog(db, t), db.txs[t];
    && EnqueuesBacked(log, VisibleMarks(db, t))
    && (forall p :: p in tx.checked ==> VerifiedAt(log, p, tx.checked[p]))
    && (tx.owed.Some? && tx.owed.value.payload.JobEnqueued? ==> VerifiedAt(log, tx.owed.value.payload.plan, tx.since))
  }

  ghost predicate PlansOk(db: Db) {
    EnqueuesBacked(db.log, db.marks) && forall t :: t in db.txs ==> TxPlansOk(db, t)
  }

  lemma VerifiedLater(a: Log, b: Log, planId: string, m: nat)
    requires a <= b && VerifiedAt(a, planId, m)
    ensures VerifiedAt(b, planId, m)
  {
    assert b[..m] == a[..m];
  }

  lemma BackedAppend(log: Log, marks: seq<nat>, row: Row<Event>, since: nat)
    requires EnqueuesBacked(log, marks) && (row.content.payload.JobEnqueued? ==> VerifiedAt(log, row.content.payload.plan, since))
    ensures EnqueuesBacked(log + [row], marks + [since])
  {
    var more, marked := log + [row], marks + [since];
    forall n | 0 <= n < |more| && more[n].content.payload.JobEnqueued?
      ensures marked[n] <= n && VerifiedAt(more, more[n].content.payload.plan, marked[n])
    {
      VerifiedLater(log, more, more[n].content.payload.plan, marked[n]);
    }
  }

  /** One transaction changes; what the others see stays as it was. */
  lemma PlansOwn(db: Db, next: Db, t: TxId)
    requires PlansOk(db) && next.log == db.log && next.marks == db.marks
    requires forall u :: u in next.txs ==> u == t || (u in db.txs && next.txs[u] == db.txs[u])
    requires t in next.txs ==> TxPlansOk(next, t)
    ensures PlansOk(next)
  {
    forall u | u in next.txs ensures TxPlansOk(next, u) {
      if u != t { assert TxPlansOk(db, u) && VisibleLog(next, u) == VisibleLog(db, u) && VisibleMarks(next, u) == VisibleMarks(db, u); }
    }
  }

  /** What an idle transaction sees of a plan's row is what the log it sees records last. */
  lemma VisibleStatus(db: Db, t: TxId, planId: string)
    requires RowsOk(db) && t in db.txs && (db.txs[t].owed.Some? ==> !About(db.txs[t].owed.value, PlanKey(planId)))
    ensures LastStatus(VisibleLog(db, t), planId) == Some(VerifiedPlan) <==> Visible(db, t, PlanKey(planId)) == Some(PlanEntry(VerifiedPlan))
  {
    VisibleGood(db, t, PlanKey(planId));
  }

  lemma PlansQuiet(sha: Sha, db: Db, t: TxId, s: Stmt)
    requires RowsOk(db) && PlansOk(db) && CanRun(sha, db, t, s) && IsQuiet(s)
    ensures PlansOk(Next(sha, db, t, s))
  {
    var next := QuietView(sha, db, t, s);
    var log := VisibleLog(db, t);
    assert TxPlansOk(db, t) && VisibleLog(next, t) == log && VisibleMarks(next, t) == VisibleMarks(db, t);
    if s.CheckPlan? {
      VisibleStatus(db, t, s.planId);
      assert log[..|log|] == log;
    }
    PlansOwn(db, next, t);
  }

  lemma PlansWrite(sha: Sha, db: Db, t: TxId, s: Stmt)
    requires PlansOk(db) && CanRun(sha, db, t, s) && IsWrite(s)
    ensures PlansOk(Next(sha, db, t, s))
  {
    var w := WriteOf(sha, db, t, s);
    WriteIsFree(sha, db, t, s);
    WriteBacked(sha, db, t, s);
    var next := Wrote(db, t, w);
    assert TxPlansOk(db, t) && VisibleLog(next, t) == VisibleLog(db, t) && VisibleMarks(next, t) == VisibleMarks(db, t);
    PlansOwn(db, next, t);
  }

  lemma WriteBacked(sha: Sha, db: Db, t: TxId, s: Stmt)
    requires CanRun(sha, db, t, s) && IsWrite(s)
    ensures var w, checked := WriteOf(sha, db, t, s), db.txs[t].checked;
            w.event.payload.JobEnqueued? ==> w.event.payload.plan in checked && w.since == checked[w.event.payload.plan]
  {
    if s.UpdateRow? {
      var job := JobOf(db, t, s.id).value;
      if s.move.Plain? && !s.move.move.Accept? {
        AdmittedCanMove(sha, job, s.move.move, s.caller, s.at);
        NotEnqueue(sha, s.id, job, s.move.move, s.at);
      }
    }
  }

  lemma PlansBegin(sha: Sha, db: Db, t: TxId)
    requires PlansOk(db) && CanRun(sha, db, t, Begin)
    ensures PlansOk(Next(sha, db, t, Begin))
  {
    assert db.log + [] == db.log && db.marks + [] == db.marks;
    PlansOwn(db, Next(sha, db, t, Begin), t);
  }

  lemma PlansDrop(sha: Sha, db: Db, t: TxId, s: Stmt)
    requires PlansOk(db) && CanRun(sha, db, t, s) && IsDrop(s)
    ensures PlansOk(Next(sha, db, t, s))
  {
    var seqNo := DropView(sha, db, t, s);
    PlansOwn(db, Closed(db.(nextSeq := seqNo), t), t);
  }

  lemma PlansAppend(sha: Sha, db: Db, t: TxId)
    requires PlansOk(db) && CanRun(sha, db, t, InsertEvent)
    ensures PlansOk(Next(sha, db, t, InsertEvent))
  {
    var next, row := Next(sha, db, t, InsertEvent), NextEvent(sha.event, db, db.txs[t]);
    InsertView(sha, db, t);
    assert TxPlansOk(db, t);
    BackedAppend(VisibleLog(db, t), VisibleMarks(db, t), row, db.txs[t].since);
    forall p | p in next.txs[t].checked ensures VerifiedAt(VisibleLog(next, t), p, next.txs[t].checked[p]) {
      VerifiedLater(VisibleLog(db, t), VisibleLog(next, t), p, next.txs[t].checked[p]);
    }
    PlansOwn(db, next, t);
  }

  lemma PlansCommitOther(sha: Sha, db: Db, t: TxId, u: TxId)
    requires LocksOk(db) && PlansOk(db) && CanRun(sha, db, t, Commit) && u in Next(sha, db, t, Commit).txs
    ensures TxPlansOk(Next(sha, db, t, Commit), u)
  {
    var next, tx := Next(sha, db, t, Commit), db.txs[u];
    CommitView(sha, db, t, u);
    assert TxPlansOk(db, t) && TxPlansOk(db, u) && VisibleLog(db, u) <= VisibleLog(next, u);
    forall p, m | VerifiedAt(VisibleLog(db, u), p, m) ensures VerifiedAt(VisibleLog(next, u), p, m) {
      VerifiedLater(VisibleLog(db, u), VisibleLog(next, u), p, m);
    }
  }

  lemma PlansCommit(sha: Sha, db: Db, t: TxId)
    requires LocksOk(db) && PlansOk(db) && CanRun(sha, db, t, Commit)
    ensures PlansOk(Next(sha, db, t, Commit))
  {
    var next := Next(sha, db, t, Commit);
    assert TxPlansOk(db, t) && next.log == VisibleLog(db, t) && next.marks == VisibleMarks(db, t);
    forall u | u in next.txs ensures TxPlansOk(next, u) { PlansCommitOther(sha, db, t, u); }
  }

  lemma PlansStep(sha: Sha, db: Db, t: TxId, s: Stmt)
    requires LocksOk(db) && RowsOk(db) && PlansOk(db) && CanRun(sha, db, t, s)
    ensures PlansOk(Next(sha, db, t, s))
  {
    if IsWrite(s) { PlansWrite(sha, db, t, s); }
    else if IsDrop(s) { PlansDrop(sha, db, t, s); }
    else if IsQuiet(s) { PlansQuiet(sha, db, t, s); }
    else if s.Begin? { PlansBegin(sha, db, t); }
    else if s.InsertEvent? { PlansAppend(sha, db, t); }
    else { PlansCommit(sha, db, t); }
  }

  // ----- what a running transaction sees only grows -----

  predicate EndsTx(s: Stmt) {
    s.Commit? || IsDrop(s)
  }

  /** While t stays open, every statement, its own or another's, leaves what it sees a prefix of what it sees next. */
  lemma SeenGrows(sha: Sha, db: Db, u: TxId, s: Stmt, t: TxId)
    requires LocksOk(db) && t in db.txs && CanRun(sha, db, u, s) && !(u == t && EndsTx(s))
    ensures t in Next(sha, db, u, s).txs && VisibleLog(db, t) <= VisibleLog(Next(sha, db, u, s), t)
  {
    if IsWrite(s) {
      WriteIsFree(sha, db, u, s);
    } else if IsDrop(s) {
      var seqNo := DropView(sha, db, u, s);
    } else if IsQuiet(s) {
      var next := QuietView(sha, db, u, s);
    } else if s.InsertEvent? {
      InsertView(sha, db, u);
      if t != u { assert Next(sha, db, u, s).txs[t] == db.txs[t]; }
    } else if s.Commit? {
      assert t in Next(sha, db, u, s).txs;
      CommitView(sha, db, u, t);
      assert TxLocksOk(db, t) && TxLocksOk(db, u);
    }
  }
}

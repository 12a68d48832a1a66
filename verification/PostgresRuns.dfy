/** What holds in every database that any schedule of transactions can reach. */
module PostgresRuns {
  import opened Basics
  import opened HashChain
  import opened FleetModel
  import opened FleetCounts
  import opened FleetReplay
  import opened PostgresGuards
  import opened PostgresFleet
  import opened PostgresPlans

  // ----- whole schedules -----

  /** One statement of one transaction. */
  datatype Turn = Turn(tx: TxId, stmt: Stmt)

  /** Running the turns one after another, each possible when it comes, leads from a to b. */
  ghost predicate Leads(sha: Sha, a: Db, turns: seq<Turn>, b: Db)
    decreases |turns|
  {
    if turns == [] then a == b
    else CanRun(sha, a, turns[0].tx, turns[0].stmt) && Leads(sha, Next(sha, a, turns[0].tx, turns[0].stmt), turns[1..], b)
  }

  /** Some schedule leads from the empty database here. */
  ghost predicate Reachable(sha: Sha, db: Db) {
    exists turns :: Leads(sha, EMPTY_DB, turns, db)
  }

  ghost predicate PgInv(sha: Sha, db: Db) {
    LocksOk(db) && ChainOk(sha, db) && RowsOk(db) && PlansOk(db)
  }

  lemma PgInvStep(sha: Sha, db: Db, t: TxId, s: Stmt)
    requires PgInv(sha, db) && CanRun(sha, db, t, s)
    ensures PgInv(sha, Next(sha, db, t, s))
  {
    LocksStep(sha, db, t, s);
    ChainStep(sha, db, t, s);
    RowsStep(sha, db, t, s);
    PlansStep(sha, db, t, s);
  }

  lemma {:induction false} ScheduleKeeps(sha: Sha, a: Db, turns: seq<Turn>, b: Db)
    requires PgInv(sha, a) && Leads(sha, a, turns, b)
    ensures PgInv(sha, b)
    decreases |turns|
  {
    if turns != [] {
      PgInvStep(sha, a, turns[0].tx, turns[0].stmt);
      ScheduleKeeps(sha, Next(sha, a, turns[0].tx, turns[0].stmt), turns[1..], b);
    }
  }

  lemma ReachableKeeps(sha: Sha, db: Db)
    requires Reachable(sha, db)
    ensures PgInv(sha, db)
  {
    var turns :| Leads(sha, EMPTY_DB, turns, db);
    ScheduleKeeps(sha, EMPTY_DB, turns, db);
  }

  /** At any moment of any schedule at most one transaction has events of its own. */
  lemma OneWriter(sha: Sha, db: Db, t: TxId, u: TxId)
    requires Reachable(sha, db) && t in db.txs && u in db.txs && db.txs[t].events != [] && db.txs[u].events != []
    ensures t == u
  {
    ReachableKeeps(sha, db);
    assert TxLocksOk(db, t) && TxLocksOk(db, u);
  }

  /** At any moment of any schedule the committed log is one valid chain, in the order of its numbers; so is
      the log any running transaction sees. */
  lemma CommittedLogIsOneChain(sha: Sha, db: Db)
    requires Reachable(sha, db)
    ensures Linked(sha.event, db.log) && forall i, j :: 0 <= i < j < |db.log| ==> db.log[i].id < db.log[j].id
    ensures forall t :: t in db.txs ==> Linked(sha.event, VisibleLog(db, t))
  {
    ReachableKeeps(sha, db);
    forall t | t in db.txs ensures Linked(sha.event, VisibleLog(db, t)) { assert TxChainOk(sha, db, t); }
  }

  /** The committed jobs. */
  function Jobs(db: Db): map<string, Job> {
    map key | key in db.entries && key.JobKey? && db.entries[key].JobEntry? :: key.id := db.entries[key].job
  }

  /** At any moment of any schedule each committed job balances against the committed log: grants, expiries,
      failures, receipts and verdicts are counted as in the serial store. */
  lemma InterleavedJobConservation(sha: Sha, db: Db, id: string)
    requires Reachable(sha, db)
    ensures if id in Jobs(db) then JobBalanced(TallyFor(db.log, id), Jobs(db)[id]) else TallyFor(db.log, id) == NOTHING
  {
    ReachableKeeps(sha, db);
    StoryIsReplay(db.log, id);
    if JobKey(id) in db.entries { assert EntryGood(StoryFor(db.log, JobKey(id)), JobKey(id), db.entries[JobKey(id)]); }
  }

  /** At any moment of any schedule the committed log rebuilds the committed jobs, column by column, as in the
      serial store. */
  lemma InterleavedLogDeterminesTable(sha: Sha, db: Db)
    requires Reachable(sha, db)
    ensures Replay(db.log) == Table(Jobs(db))
  {
    ReachableKeeps(sha, db);
    forall id
      ensures id in Replay(db.log) <==> id in Jobs(db)
      ensures id in Jobs(db) ==> Replay(db.log)[id] == ViewOf(Jobs(db)[id])
    {
      StoryIsReplay(db.log, id);
      if JobKey(id) in db.entries { assert EntryGood(StoryFor(db.log, JobKey(id)), JobKey(id), db.entries[JobKey(id)]); }
    }
  }

  // ----- enqueued jobs and their plans -----

  /** Every enqueuing at n in the committed log has a position m before it, the length of the log its transaction
      saw when it checked the plan, where the plan's last record was VERIFIED_PLAN. It still is just before the
      enqueuing exactly if the records of the plan between m and n, if any, end on VERIFIED_PLAN; in particular if
      there are none. */
  lemma EnqueuedFromVerifiedPlan(sha: Sha, db: Db, n: nat) returns (m: nat)
    requires Reachable(sha, db) && n < |db.log| && db.log[n].content.payload.JobEnqueued?
    ensures |db.marks| == |db.log| && m == db.marks[n] <= n
    ensures var p := db.log[n].content.payload.plan;
            && LastStatus(db.log[..m], p) == Some(VerifiedPlan)
            && (LastStatus(db.log[..n], p) == Some(VerifiedPlan) <==> !Superseded(db.log[..n], p, m))
            && (Unrecorded(db.log[m..n], p) ==> LastStatus(db.log[..n], p) == Some(VerifiedPlan))
  {
    ReachableKeeps(sha, db);
    m := db.marks[n];
    var p := db.log[n].content.payload.plan;
    assert VerifiedAt(db.log, p, m);
    assert db.log[..n][..m] == db.log[..m] && db.log[..n][m..] == db.log[m..n];
    StillVerifiedExactly(db.log[..n], p, m);
    LastStatusIsRecorded(db.log[m..n], p);
  }

  /** The event of an enqueuing, at the moment it is inserted: it lands after everything its transaction sees,
      marked with its check; and the plan's last record there is VERIFIED_PLAN exactly if a second look at the plan,
      now that the advisory lock is held, still finds it verified. */
  lemma SecondLookExactly(sha: Sha, db: Db, t: TxId)
    requires Reachable(sha, db) && CanRun(sha, db, t, InsertEvent) && db.txs[t].owed.value.payload.JobEnqueued? && db.txs[t].owed.value.jobId.Some?
    ensures var e, log, next := db.txs[t].owed.value, VisibleLog(db, t), Next(sha, db, t, InsertEvent);
            && db.advisory == Some(t) && t in next.txs && VisibleLog(next, t)[..|log|] == log && VisibleLog(next, t)[|log|..] == [NextEvent(sha.event, db, db.txs[t])]
            && VerifiedAt(log, e.payload.plan, db.txs[t].since)
            && (LastStatus(log, e.payload.plan) == Some(VerifiedPlan) <==> Visible(db, t, PlanKey(e.payload.plan)) == Some(PlanEntry(VerifiedPlan)))
            && (LastStatus(log, e.payload.plan) == Some(VerifiedPlan) <==> !Superseded(log, e.payload.plan, db.txs[t].since))
  {
    ReachableKeeps(sha, db);
    var e, log := db.txs[t].owed.value, VisibleLog(db, t);
    InsertView(sha, db, t);
    assert TxPlansOk(db, t) && TxLocksOk(db, t);
    VisibleStatus(db, t, e.payload.plan);
    StillVerifiedExactly(log, e.payload.plan, db.txs[t].since);
  }

  /** The transaction stays open throughout. */
  predicate StaysOpen(turns: seq<Turn>, t: TxId) {
    forall i :: 0 <= i < |turns| ==> !(turns[i].tx == t && EndsTx(turns[i].stmt))
  }

  lemma SeenGrowsFirst(sha: Sha, a: Db, turns: seq<Turn>, b: Db, t: TxId) returns (next: Db)
    requires PgInv(sha, a) && t in a.txs && Leads(sha, a, turns, b) && turns != [] && StaysOpen(turns, t)
    ensures PgInv(sha, next) && t in next.txs && Leads(sha, next, turns[1..], b) && StaysOpen(turns[1..], t)
    ensures VisibleLog(a, t) <= VisibleLog(next, t)
  {
    next := Next(sha, a, turns[0].tx, turns[0].stmt);
    SeenGrows(sha, a, turns[0].tx, turns[0].stmt, t);
    PgInvStep(sha, a, turns[0].tx, turns[0].stmt);
  }

  lemma {:induction false} SeenGrowsOn(sha: Sha, a: Db, turns: seq<Turn>, b: Db, t: TxId)
    requires PgInv(sha, a) && t in a.txs && Leads(sha, a, turns, b) && StaysOpen(turns, t)
    ensures t in b.txs && VisibleLog(a, t) <= VisibleLog(b, t)
    decreases |turns|
  {
    if turns != [] {
      var next := SeenGrowsFirst(sha, a, turns, b, t);
      SeenGrowsOn(sha, next, turns[1..], b, t);
    }
  }

  /** The check itself: it sees the plan verified, and changes nothing of what it sees. */
  lemma CheckSees(sha: Sha, a: Db, t: TxId, p: string, next: Db)
    requires Reachable(sha, a) && CanRun(sha, a, t, CheckPlan(p)) && next == Next(sha, a, t, CheckPlan(p))
    ensures PgInv(sha, next) && t in a.txs && t in next.txs && VisibleLog(next, t) == VisibleLog(a, t)
    ensures LastStatus(VisibleLog(a, t), p) == Some(VerifiedPlan) && next.txs[t].checked[p] == |VisibleLog(a, t)|
  {
    ReachableKeeps(sha, a);
    VisibleStatus(a, t, p);
    PgInvStep(sha, a, t, CheckPlan(p));
  }

  /** A transaction has checked a plan and stays open while anything happens: what it sees of the plan is still
      VERIFIED_PLAN exactly if the records of the plan that became visible since, if any, end on VERIFIED_PLAN. */
  lemma CheckedPlanExactly(sha: Sha, a: Db, t: TxId, p: string, next: Db, turns: seq<Turn>, b: Db)
    requires Reachable(sha, a) && CanRun(sha, a, t, CheckPlan(p)) && next == Next(sha, a, t, CheckPlan(p))
    requires Leads(sha, next, turns, b) && StaysOpen(turns, t)
    ensures t in b.txs && VisibleLog(a, t) <= VisibleLog(b, t)
    ensures LastStatus(VisibleLog(b, t), p) == Some(VerifiedPlan) <==> !Superseded(VisibleLog(b, t), p, |VisibleLog(a, t)|)
    ensures Unrecorded(VisibleLog(b, t)[|VisibleLog(a, t)|..], p) ==> LastStatus(VisibleLog(b, t), p) == Some(VerifiedPlan)
  {
    CheckSees(sha, a, t, p, next);
    SeenGrowsOn(sha, next, turns, b, t);
    SeenStillVerified(VisibleLog(a, t), VisibleLog(b, t), p);
  }

  /** voodoo_verify_event_chain, run at any moment, accepts the whole committed log. */
  method VoodooVerifyEventChain(sha: Sha, db: Db) returns (v: Verdict)
    requires Reachable(sha, db)
    ensures v == Verdict.Verified(|db.log|)
  {
    CommittedLogIsOneChain(sha, db);
    ghost var bad;
    v, bad := VerifyRows(sha.event, db.log);
  }

  // ----- the verified record need not be the last one -----

  lemma {:induction false} LeadsSnoc(sha: Sha, a: Db, turns: seq<Turn>, b: Db, t: TxId, s: Stmt)
    requires Leads(sha, a, turns, b) && CanRun(sha, b, t, s)
    ensures Leads(sha, a, turns + [Turn(t, s)], Next(sha, b, t, s))
    decreases |turns|
  {
    if turns == [] {
      assert [Turn(t, s)][1..] == [] && turns + [Turn(t, s)] == [Turn(t, s)];
    } else {
      assert (turns + [Turn(t, s)])[1..] == turns[1..] + [Turn(t, s)];
      LeadsSnoc(sha, Next(sha, a, turns[0].tx, turns[0].stmt), turns[1..], b, t, s);
    }
  }

  lemma ReachNext(sha: Sha, db: Db, t: TxId, s: Stmt)
    requires Reachable(sha, db) && CanRun(sha, db, t, s)
    ensures Reachable(sha, Next(sha, db, t, s))
  {
    var turns :| Leads(sha, EMPTY_DB, turns, db);
    LeadsSnoc(sha, EMPTY_DB, turns, db, t, s);
  }

  lemma ReachEmpty(sha: Sha)
    ensures Reachable(sha, EMPTY_DB)
  {
    assert Leads(sha, EMPTY_DB, [], EMPTY_DB);
  }

  predicate Ready(sha: Sha, db: Db, t: TxId) {
    Owes(db, t) && db.txs[t].events == [] && db.advisory.None?
    && !HashTaken(db.log, sha.event(db.txs[t].owed.value, Head(db.log)))
  }

  /** The advisory lock and the head, taken in turn. */
  lemma TakeHead(sha: Sha, db: Db, t: TxId)
    requires Reachable(sha, db) && Ready(sha, db, t)
    ensures Reachable(sha, db.(advisory := Some(t), txs := db.txs[t := db.txs[t].(head := Some(Head(db.log)))]))
  {
    ReachableKeeps(sha, db);
    assert TxChainOk(sha, db, t) && VisibleLog(db, t) == db.log;
    ReachNext(sha, db, t, TakeAdvisory);
    ReadTheHead(sha, db.(advisory := Some(t)), t);
  }

  lemma ReadTheHead(sha: Sha, db: Db, t: TxId)
    requires Reachable(sha, db) && Owes(db, t) && db.txs[t].events == [] && db.advisory == Some(t) && Ascending(db.log, db.nextSeq)
    ensures Reachable(sha, db.(txs := db.txs[t := db.txs[t].(head := Some(Head(db.log)))]))
  {
    assert VisibleLog(db, t) == db.log;
    if db.log == [] { ReachNext(sha, db, t, ReadNoHead); } else { ReachNext(sha, db, t, ReadHead(|db.log| - 1)); }
  }

  lemma NoMarks(sha: Sha, db: Db, t: TxId)
    requires Reachable(sha, db) && t in db.txs && db.txs[t].events == []
    ensures db.txs[t].marks == []
  {
    ReachableKeeps(sha, db);
    assert TxLocksOk(db, t);
  }

  lemma InsertAndCommit(sha: Sha, db: Db, t: TxId)
    requires Reachable(sha, db) && Owes(db, t) && db.txs[t].events == [] && db.txs[t].marks == []
    requires db.txs[t].head == Some(Head(db.log)) && db.advisory == Some(t)
    requires !HashTaken(db.log, sha.event(db.txs[t].owed.value, Head(db.log)))
    ensures Reachable(sha, Appended(sha, db, t))
  {
    assert VisibleLog(db, t) == db.log;
    ReachNext(sha, db, t, InsertEvent);
    var c := Next(sha, db, t, InsertEvent);
    InsertView(sha, db, t);
    ReachNext(sha, c, t, Commit);
    InsertedIsAppended(sha, db, t, c);
  }

  lemma InsertedIsAppended(sha: Sha, db: Db, t: TxId, c: Db)
    requires CanRun(sha, db, t, InsertEvent) && c == Next(sha, db, t, InsertEvent)
    requires db.txs[t].events == [] && db.txs[t].marks == [] && db.txs[t].head == Some(Head(db.log)) && db.advisory == Some(t)
    ensures Closed(Merged(c, t), t) == Appended(sha, db, t)
  {
    var tx := db.txs[t];
    assert c.txs[t].events == [NextEvent(sha.event, db, tx)] && c.txs[t].marks == [tx.since];
    assert c.txs - {t} == db.txs - {t};
  }

  /** What is left when the transaction has appended the event it owed and committed. */
  function Appended(sha: Sha, db: Db, t: TxId): Db
    requires Owes(db, t)
  {
    Closed(db.(entries := db.entries + db.txs[t].entries, nextSeq := db.nextSeq + 1, advisory := Some(t), marks := db.marks + [db.txs[t].since],
               log := Append(sha.event, db.log, db.nextSeq, db.txs[t].owed.value)), t)
  }

  /** A transaction that owes one event can append it and commit, if nobody holds the advisory lock and the hash
      is free. */
  lemma AppendAndCommit(sha: Sha, db: Db, t: TxId)
    requires Reachable(sha, db) && Ready(sha, db, t)
    ensures Reachable(sha, Appended(sha, db, t))
  {
    TakeHead(sha, db, t);
    NoMarks(sha, db, t);
    var b := db.(advisory := Some(t), txs := db.txs[t := db.txs[t].(head := Some(Head(db.log)))]);
    InsertAndCommit(sha, b, t);
    assert b.txs - {t} == db.txs - {t};
  }

  /** The database once a call of voodoo_record_plan has committed. */
  function PlanStored(sha: Sha, db: Db, p: string, status: PlanStatus, at: int): Db {
    db.(entries := db.entries[PlanKey(p) := PlanEntry(status)], nextSeq := db.nextSeq + 1, marks := db.marks + [0],
        log := Append(sha.event, db.log, db.nextSeq, PlanEvent(p, status, at)))
  }

  /** voodoo_record_plan can run beside transactions that hold neither the plan's lock nor the advisory lock. */
  lemma RecordPlanRuns(sha: Sha, db: Db, t: TxId, p: string, status: PlanStatus, at: int)
    requires Reachable(sha, db) && t !in db.txs && PlanKey(p) !in db.locks && db.advisory.None?
    requires p != "" && !status.OtherStatus? && !HashTaken(db.log, sha.event(PlanEvent(p, status, at), Head(db.log)))
    ensures Reachable(sha, PlanStored(sha, db, p, status, at))
  {
    ReachableKeeps(sha, db);
    ReachNext(sha, db, t, Begin);
    var a := db.(txs := db.txs[t := NEW_TX]);
    ReachNext(sha, a, t, UpsertPlan(p, status, at));
    var w := Write(PlanKey(p), PlanEntry(status), PlanEvent(p, status, at), 0);
    AppendAndCommit(sha, Wrote(a, t, w), t);
    AppendedIsStored(sha, db, t, p, status, at);
  }

  lemma AppendedIsStored(sha: Sha, db: Db, t: TxId, p: string, status: PlanStatus, at: int)
    requires LocksOk(db) && t !in db.txs && PlanKey(p) !in db.locks && db.advisory.None?
    ensures var w := Write(PlanKey(p), PlanEntry(status), PlanEvent(p, status, at), 0);
            Appended(sha, Wrote(db.(txs := db.txs[t := NEW_TX]), t, w), t) == PlanStored(sha, db, p, status, at)
  {
    var w := Write(PlanKey(p), PlanEntry(status), PlanEvent(p, status, at), 0);
    var b := Wrote(db.(txs := db.txs[t := NEW_TX]), t, w);
    assert b.txs[t].entries == map[PlanKey(p) := PlanEntry(status)] && b.txs[t].owed == Some(w.event);
    EntryAdded(db.entries, PlanKey(p), PlanEntry(status));
    TxsBack(db.txs, t, NEW_TX, b.txs[t]);
    LocksBack(db, b, t, PlanKey(p));
  }

  lemma EntryAdded(entries: map<Key, Entry>, key: Key, entry: Entry)
    ensures entries + map[key := entry] == entries[key := entry]
  {
  }

  lemma TxsBack(txs: map<TxId, Tx>, t: TxId, a: Tx, b: Tx)
    requires t !in txs
    ensures txs[t := a][t := b] - {t} == txs
  {
  }

  lemma LocksBack(db: Db, b: Db, t: TxId, key: Key)
    requires (forall k :: k in db.locks ==> db.locks[k] != t) && key !in db.locks && b.locks == db.locks[key := t]
    ensures (map k | k in b.locks && b.locks[k] != t :: b.locks[k]) == db.locks
  {
  }

  /** The plan recorded as verified, and a transaction that has found it so. */
  function PlanChecked(sha: Sha, p: string): Db {
    PlanStored(sha, EMPTY_DB, p, VerifiedPlan, 1).(txs := map[1 := NEW_TX.(checked := map[p := 1])])
  }

  lemma PlanCheckedRuns(sha: Sha, p: string)
    requires p != ""
    ensures Reachable(sha, PlanChecked(sha, p))
  {
    ReachEmpty(sha);
    RecordPlanRuns(sha, EMPTY_DB, 0, p, VerifiedPlan, 1);
    var a := PlanStored(sha, EMPTY_DB, p, VerifiedPlan, 1);
    ReachNext(sha, a, 1, Begin);
    var b := a.(txs := map[1 := NEW_TX]);
    assert a.txs[1 := NEW_TX] == b.txs;
    ReachNext(sha, b, 1, CheckPlan(p));
    assert VisibleLog(b, 1) == b.log && |b.log| == 1;
    assert map[][p := 1] == map[p := 1];
    assert b.txs[1 := NEW_TX.(checked := map[p := 1])] == map[1 := NEW_TX.(checked := map[p := 1])];
  }

  /** The same after the plan has been blocked in between. */
  function PlanLapsed(sha: Sha, p: string): Db {
    PlanStored(sha, PlanChecked(sha, p), p, BlockedPlan, 2)
  }

  lemma PlanLapsedRuns(sha: Sha, p: string)
    requires p != "" && sha.event(PlanEvent(p, BlockedPlan, 2), sha.event(PlanEvent(p, VerifiedPlan, 1), GENESIS)) != sha.event(PlanEvent(p, VerifiedPlan, 1), GENESIS)
    ensures Reachable(sha, PlanLapsed(sha, p))
  {
    PlanCheckedRuns(sha, p);
    RecordPlanRuns(sha, PlanChecked(sha, p), 2, p, BlockedPlan, 2);
  }

  /** voodoo_enqueue_job reads the plan in one statement and inserts the job in another: a plan blocked in between
      does not stop it. The log then has the plan's last record, BLOCKED, before the enqueuing. */
  lemma PlanMayLapse(sha: Sha, p: string, id: string, order: Order) returns (db: Db)
    requires p != "" && order.planId == p && 1 <= order.maxAttempts <= 10 && order.spec.JObj? && order.spec.fields != map[]
    requires var h1 := sha.event(PlanEvent(p, VerifiedPlan, 1), GENESIS);
             var h2 := sha.event(PlanEvent(p, BlockedPlan, 2), h1);
             h1 != h2 && sha.event(EnqueueEvent(id, order, 3), h2) != h1 && sha.event(EnqueueEvent(id, order, 3), h2) != h2
    ensures Reachable(sha, db) && |db.log| == 3 && db.log[2].content == EnqueueEvent(id, order, 3)
    ensures LastRecord(db.log[..2], p, 1) && RecordsPlan(db.log[1].content, p, BlockedPlan)
  {
    PlanLapsedRuns(sha, p);
    var d := PlanLapsed(sha, p);
    ReachNext(sha, d, 1, InsertRow(id, order, 3));
    var e := Wrote(d, 1, Write(JobKey(id), JobEntry(FreshJob(order, 3)), EnqueueEvent(id, order, 3), 1));
    AppendAndCommit(sha, e, 1);
    db := Appended(sha, e, 1);
  }
}

/** The Postgres fleet: transactions interleaved statement by statement, with row locks held to the end of the
    transaction, an advisory lock taken before each event insert and held to commit, and aborts at any point. */
module PostgresFleet {
  import opened Basics
  import opened HashChain
  import opened FleetModel
  import opened PostgresGuards

  type TxId = nat

  /** What a transaction has done and not yet committed: the rows and events it wrote, the chain head it has
      read, the event its current function call still has to append, and the plans it has found verified, each with
      the length of the log it saw then. `since` is that length for an owed enqueuing, and `marks` for each of its
      events: history that no column holds. */
  datatype Tx = Tx(
    entries: map<Key, Entry>, events: Log, head: Option<Digest>, owed: Option<Event>,
    checked: map<string, nat>, since: nat, marks: seq<nat>)

  datatype Db = Db(
    entries: map<Key, Entry>, log: Log, marks: seq<nat>, nextSeq: int,
    advisory: Option<TxId>, locks: map<Key, TxId>, txs: map<TxId, Tx>)

  const NEW_TX := Tx(map[], [], None, None, map[], 0, [])
  const EMPTY_DB := Db(map[], [], [], 1, None, map[], map[])

  datatype Stmt =
    | Begin
    | LockRow(id: string)                            // select ... for update, or one that skip locked let through
    | CheckPlan(planId: string)                      // voodoo_verified_plan_exists, answering yes
    | UpsertPlan(plan: string, status: PlanStatus, at: int)                   // voodoo_record_plan, up to its event
    | InsertRow(id: string, order: Order, at: int)                            // insert into voodoo_jobs
    | UpdateRow(id: string, move: PgMove, caller: Caller, at: int)            // update voodoo_jobs, under the row lock
    | TakeAdvisory                                   // pg_advisory_xact_lock
    | ReadHead(k: nat)                               // select event_hash ... order by seq desc limit 1, row k of those visible
    | ReadNoHead                                     // the same on an empty table
    | InsertEvent                                    // insert into voodoo_fleet_events
    | InsertRejected                                 // the same, refused by the unique hash column: a number is lost
    | Commit
    | Abort

  /** The row as the transaction sees it. */
  function Visible(db: Db, t: TxId, key: Key): Option<Entry>
    requires t in db.txs
  {
    if key in db.txs[t].entries then Some(db.txs[t].entries[key]) else if key in db.entries then Some(db.entries[key]) else None
  }

  /** The events the transaction sees. */
  function VisibleLog(db: Db, t: TxId): Log
    requires t in db.txs
  {
    db.log + db.txs[t].events
  }

  /** Their marks. */
  function VisibleMarks(db: Db, t: TxId): seq<nat>
    requires t in db.txs
  {
    db.marks + db.txs[t].marks
  }

  predicate IsLatest(rows: Log, k: nat) {
    k < |rows| && forall i :: 0 <= i < |rows| ==> rows[i].id <= rows[k].id
  }

  function NextEvent(H: (Event, Digest) -> Digest, db: Db, tx: Tx): Row<Event>
    requires tx.owed.Some? && tx.head.Some?
  {
    Row(db.nextSeq, tx.owed.value, tx.head.value, H(tx.owed.value, tx.head.value))
  }

  predicate HashTaken(rows: Log, hash: Digest) {
    exists i :: 0 <= i < |rows| && rows[i].hash == hash
  }

  /** An idle transaction has appended the event of every row it wrote. */
  predicate Idle(db: Db, t: TxId) {
    t in db.txs && db.txs[t].owed.None?
  }

  predicate Owes(db: Db, t: TxId) {
    t in db.txs && db.txs[t].owed.Some?
  }

  predicate Free(db: Db, t: TxId, key: Key) {
    key in db.locks ==> db.locks[key] == t
  }

  /** The job's row as the transaction sees it, once it holds the row lock. */
  predicate Locked(db: Db, t: TxId, id: string, job: Job)
    requires t in db.txs
  {
    JobKey(id) in db.locks && db.locks[JobKey(id)] == t && Visible(db, t, JobKey(id)) == Some(JobEntry(job))
  }

  function JobOf(db: Db, t: TxId, id: string): Option<Job>
    requires t in db.txs
  {
    var e := Visible(db, t, JobKey(id));
    if e.Some? && e.value.JobEntry? then Some(e.value.job) else None
  }

  predicate CanRun(sha: Sha, db: Db, t: TxId, s: Stmt) {
    match s
    case Begin => t !in db.txs
    case LockRow(id) => Idle(db, t) && JobKey(id) in db.entries && Free(db, t, JobKey(id))
    case CheckPlan(p) => Idle(db, t) && Visible(db, t, PlanKey(p)) == Some(PlanEntry(VerifiedPlan))
    case UpsertPlan(p, status, _) => Idle(db, t) && p != "" && !status.OtherStatus? && Free(db, t, PlanKey(p))
    case InsertRow(id, order, _) =>
      && Idle(db, t) && order.planId in db.txs[t].checked && JobKey(id) !in db.entries && JobKey(id) !in db.locks
      && 1 <= order.maxAttempts <= 10 && order.spec.JObj? && order.spec.fields != map[]
    case UpdateRow(id, m, caller, at) =>
      && Idle(db, t) && JobOf(db, t, id).Some? && Locked(db, t, id, JobOf(db, t, id).value)
      && Owned(JobOf(db, t, id).value) && SqlAdmits(sha, JobOf(db, t, id).value, m, caller, at)
    case TakeAdvisory => Owes(db, t) && (db.advisory.None? || db.advisory == Some(t))
    case ReadHead(k) => Owes(db, t) && db.advisory == Some(t) && IsLatest(VisibleLog(db, t), k)
    case ReadNoHead => Owes(db, t) && db.advisory == Some(t) && VisibleLog(db, t) == []
    case InsertEvent =>
      Owes(db, t) && db.txs[t].head.Some? && !HashTaken(VisibleLog(db, t), NextEvent(sha.event, db, db.txs[t]).hash)
    case InsertRejected =>
      Owes(db, t) && db.txs[t].head.Some? && HashTaken(VisibleLog(db, t), NextEvent(sha.event, db, db.txs[t]).hash)
    case Commit => Idle(db, t)
    case Abort => t in db.txs
  }

  /** A row write: the row, what it holds afterwards, the event that records it, and that event's mark. */
  datatype Write = Write(key: Key, entry: Entry, event: Event, since: nat)

  predicate IsWrite(s: Stmt) {
    s.UpsertPlan? || s.InsertRow? || s.UpdateRow?
  }

  function WriteOf(sha: Sha, db: Db, t: TxId, s: Stmt): Write
    requires IsWrite(s) && CanRun(sha, db, t, s)
  {
    match s
    case UpsertPlan(p, status, at) => Write(PlanKey(p), PlanEntry(status), PlanEvent(p, status, at), 0)
    case InsertRow(id, order, at) => Write(JobKey(id), JobEntry(FreshJob(order, at)), EnqueueEvent(id, order, at), db.txs[t].checked[order.planId])
    case UpdateRow(id, m, caller, at) =>
      var job := JobOf(db, t, id).value;
      Write(JobKey(id), JobEntry(PgMoved(sha, job, m, caller, at)), PgMoveEvent(sha, id, job, m, caller, at), 0)
  }

  /** The transaction holds the row's lock, has written the row, and owes the event. */
  function Wrote(db: Db, t: TxId, w: Write): Db
    requires t in db.txs
  {
    db.(locks := db.locks[w.key := t],
        txs := db.txs[t := db.txs[t].(entries := db.txs[t].entries[w.key := w.entry], owed := Some(w.event), since := w.since)])
  }

  /** The database without the transaction and its locks. */
  function Closed(db: Db, t: TxId): Db {
    db.(advisory := if db.advisory == Some(t) then None else db.advisory,
        locks := map key | key in db.locks && db.locks[key] != t :: db.locks[key],
        txs := db.txs - {t})
  }

  /** The transaction's rows and events made permanent. */
  function Merged(db: Db, t: TxId): Db
    requires t in db.txs
  {
    db.(entries := db.entries + db.txs[t].entries, log := db.log + db.txs[t].events, marks := db.marks + db.txs[t].marks)
  }

  function Next(sha: Sha, db: Db, t: TxId, s: Stmt): Db
    requires CanRun(sha, db, t, s)
  {
    if IsWrite(s) then Wrote(db, t, WriteOf(sha, db, t, s))
    else
      match s
      case Begin => db.(txs := db.txs[t := NEW_TX])
      case LockRow(id) => db.(locks := db.locks[JobKey(id) := t])
      case CheckPlan(p) => db.(txs := db.txs[t := db.txs[t].(checked := db.txs[t].checked[p := |VisibleLog(db, t)|])])
      case TakeAdvisory => db.(advisory := Some(t))
      case ReadHead(k) => db.(txs := db.txs[t := db.txs[t].(head := Some(VisibleLog(db, t)[k].hash))])
      case ReadNoHead => db.(txs := db.txs[t := db.txs[t].(head := Some(GENESIS))])
      case InsertEvent =>
        var tx := db.txs[t];
        db.(nextSeq := db.nextSeq + 1,
            txs := db.txs[t := tx.(events := tx.events + [NextEvent(sha.event, db, tx)], marks := tx.marks + [tx.since],
                                   head := None, owed := None)])
      case InsertRejected => Closed(db.(nextSeq := db.nextSeq + 1), t)
      case Commit => Closed(Merged(db, t), t)
      case Abort => Closed(db, t)
  }

  /** The statements that neither write a row or an event nor begin or commit. */
  predicate IsQuiet(s: Stmt) {
    s.LockRow? || s.CheckPlan? || s.TakeAdvisory? || s.ReadHead? || s.ReadNoHead?
  }

  predicate IsDrop(s: Stmt) {
    s.InsertRejected? || s.Abort?
  }

  // ----- locks -----

  predicate TxLocksOk(db: Db, t: TxId)
    requires t in db.txs
  {
    var tx := db.txs[t];
    && (forall key :: key in tx.entries ==> key in db.locks && db.locks[key] == t)
    && (tx.events != [] || tx.head.Some? ==> db.advisory == Some(t))
    && (tx.head.Some? ==> tx.owed.Some?)
    && |tx.marks| == |tx.events|
  }

  /** Rows are written under their lock; events and a read head only exist under the advisory lock. */
  ghost predicate LocksOk(db: Db) {
    && (forall key :: key in db.locks ==> db.locks[key] in db.txs)
    && (db.advisory.Some? ==> db.advisory.value in db.txs)
    && |db.marks| == |db.log|
    && (forall t :: t in db.txs ==> TxLocksOk(db, t))
  }

  lemma ClosedLocks(db: Db, t: TxId)
    requires LocksOk(db)
    ensures LocksOk(Closed(db, t))
  {
    var next := Closed(db, t);
    forall u | u in next.txs ensures TxLocksOk(next, u) { assert TxLocksOk(db, u); }
  }

  /** A statement of t that leaves everyone else's locks and work alone. */
  lemma OwnLocks(db: Db, next: Db, t: TxId)
    requires LocksOk(db) && t in next.txs && TxLocksOk(next, t) && next.log == db.log && next.marks == db.marks
    requires forall u :: u in next.txs ==> u == t || (u in db.txs && next.txs[u] == db.txs[u])
    requires db.txs.Keys <= next.txs.Keys
    requires next.advisory == db.advisory || (db.advisory.None? && next.advisory == Some(t))
    requires forall key :: key in next.locks ==> next.locks[key] == t || (key in db.locks && next.locks[key] == db.locks[key])
    requires forall key :: key in db.locks && db.locks[key] != t ==> key in next.locks && next.locks[key] == db.locks[key]
    ensures LocksOk(next)
  {
    forall u | u in next.txs ensures TxLocksOk(next, u) {
      if u != t { assert TxLocksOk(db, u); }
    }
  }

  lemma WriteLocks(db: Db, t: TxId, w: Write)
    requires LocksOk(db) && Idle(db, t) && Free(db, t, w.key)
    ensures LocksOk(Wrote(db, t, w))
  {
    assert TxLocksOk(db, t);
    OwnLocks(db, Wrote(db, t, w), t);
  }

  lemma WriteIsFree(sha: Sha, db: Db, t: TxId, s: Stmt)
    requires IsWrite(s) && CanRun(sha, db, t, s)
    ensures Idle(db, t) && Free(db, t, WriteOf(sha, db, t, s).key)
  {
  }

  /** Nothing t has written, appended or owes changes. */
  predicate SameAccount(a: Tx, b: Tx) {
    a.entries == b.entries && a.events == b.events && a.marks == b.marks && a.owed == b.owed && a.since == b.since
  }

  /** A quiet statement at most takes a free lock, checks a plan or reads a head. */
  lemma QuietView(sha: Sha, db: Db, t: TxId, s: Stmt) returns (next: Db)
    requires CanRun(sha, db, t, s) && IsQuiet(s)
    ensures next == Next(sha, db, t, s) && t in db.txs && next.txs.Keys == db.txs.Keys
    ensures next.entries == db.entries && next.log == db.log && next.marks == db.marks && next.nextSeq == db.nextSeq
    ensures SameAccount(next.txs[t], db.txs[t]) && forall u :: u in db.txs && u != t ==> next.txs[u] == db.txs[u]
    ensures next.txs[t].head == db.txs[t].head || (Owes(db, t) && db.advisory == Some(t))
    ensures next.advisory == db.advisory || (db.advisory.None? && next.advisory == Some(t))
    ensures next.locks == db.locks || exists key :: Free(db, t, key) && next.locks == db.locks[key := t]
  {
    next := Next(sha, db, t, s);
    if s.LockRow? { assert Free(db, t, JobKey(s.id)) && next.locks == db.locks[JobKey(s.id) := t]; }
  }

  lemma QuietLocks(sha: Sha, db: Db, t: TxId, s: Stmt)
    requires LocksOk(db) && CanRun(sha, db, t, s) && IsQuiet(s)
    ensures LocksOk(Next(sha, db, t, s))
  {
    var next := QuietView(sha, db, t, s);
    assert TxLocksOk(db, t);
    OwnLocks(db, next, t);
  }

  lemma InsertLocks(sha: Sha, db: Db, t: TxId)
    requires LocksOk(db) && CanRun(sha, db, t, InsertEvent)
    ensures LocksOk(Next(sha, db, t, InsertEvent))
  {
    assert TxLocksOk(db, t);
    OwnLocks(db, Next(sha, db, t, InsertEvent), t);
  }

  /** A dropped transaction leaves no trace but, perhaps, a lost number. */
  lemma DropView(sha: Sha, db: Db, t: TxId, s: Stmt) returns (seqNo: int)
    requires CanRun(sha, db, t, s) && IsDrop(s)
    ensures seqNo >= db.nextSeq && Next(sha, db, t, s) == Closed(db.(nextSeq := seqNo), t)
  {
    seqNo := if s.Abort? then db.nextSeq else db.nextSeq + 1;
    assert db.(nextSeq := db.nextSeq) == db;
  }

  lemma WriteStepLocks(sha: Sha, db: Db, t: TxId, s: Stmt)
    requires LocksOk(db) && CanRun(sha, db, t, s) && IsWrite(s)
    ensures LocksOk(Next(sha, db, t, s))
  {
    WriteIsFree(sha, db, t, s);
    WriteLocks(db, t, WriteOf(sha, db, t, s));
  }

  lemma DropLocks(sha: Sha, db: Db, t: TxId, s: Stmt)
    requires LocksOk(db) && CanRun(sha, db, t, s) && IsDrop(s)
    ensures LocksOk(Next(sha, db, t, s))
  {
    var seqNo := DropView(sha, db, t, s);
    ClosedLocks(db.(nextSeq := seqNo), t);
  }

  lemma CommitLocks(db: Db, t: TxId)
    requires LocksOk(db) && t in db.txs
    ensures LocksOk(Closed(Merged(db, t), t))
  {
    assert TxLocksOk(db, t);
    forall u | u in db.txs ensures TxLocksOk(Merged(db, t), u) { assert TxLocksOk(db, u); }
    ClosedLocks(Merged(db, t), t);
  }

  lemma LocksStep(sha: Sha, db: Db, t: TxId, s: Stmt)
    requires LocksOk(db) && CanRun(sha, db, t, s)
    ensures LocksOk(Next(sha, db, t, s))
  {
    if IsWrite(s) { WriteStepLocks(sha, db, t, s); }
    else if IsDrop(s) { DropLocks(sha, db, t, s); }
    else if IsQuiet(s) { QuietLocks(sha, db, t, s); }
    else if s.Begin? { OwnLocks(db, db.(txs := db.txs[t := NEW_TX]), t); }
    else if s.InsertEvent? { InsertLocks(sha, db, t); }
    else { CommitLocks(db, t); }
  }

  // ----- the chain -----

  predicate Ascending(rows: Log, bound: int) {
    && (forall i, j :: 0 <= i < j < |rows| ==> rows[i].id < rows[j].id)
    && (forall i :: 0 <= i < |rows| ==> rows[i].id < bound)
  }

  /** A valid chain whose order by id is its link order. */
  ghost predicate GoodLog(sha: Sha, rows: Log, bound: int) {
    Linked(sha.event, rows) && Ascending(rows, bound)
  }

  ghost predicate TxChainOk(sha: Sha, db: Db, t: TxId)
    requires t in db.txs
  {
    && GoodLog(sha, VisibleLog(db, t), db.nextSeq)
    && (db.txs[t].head.Some? ==> db.txs[t].head.value == Head(VisibleLog(db, t)))
  }

  ghost predicate ChainOk(sha: Sha, db: Db) {
    GoodLog(sha, db.log, db.nextSeq) && forall t :: t in db.txs ==> TxChainOk(sha, db, t)
  }

  lemma LatestIsLast(rows: Log, k: nat, bound: int)
    requires Ascending(rows, bound) && IsLatest(rows, k)
    ensures k == |rows| - 1
  {
    assert rows[|rows| - 1].id <= rows[k].id;
  }

  lemma GoodAppend(sha: Sha, rows: Log, id: int, e: Event)
    requires GoodLog(sha, rows, id)
    ensures GoodLog(sha, Append(sha.event, rows, id, e), id + 1)
  {
    AppendKeepsLinked(sha.event, rows, id, e);
  }

  /** A step that leaves the log alone, adds no event and reads at most the current head. */
  lemma ChainQuiet(sha: Sha, db: Db, next: Db)
    requires ChainOk(sha, db) && next.log == db.log && next.nextSeq >= db.nextSeq
    requires forall u :: u in next.txs ==> u in db.txs && next.txs[u].events == db.txs[u].events
    requires forall u :: u in next.txs && next.txs[u].head.Some? ==> next.txs[u].head == db.txs[u].head || next.txs[u].head.value == Head(VisibleLog(db, u))
    ensures ChainOk(sha, next)
  {
    forall u | u in next.txs ensures TxChainOk(sha, next, u) {
      assert TxChainOk(sha, db, u);
      assert VisibleLog(next, u) == VisibleLog(db, u);
    }
  }

  /** What a quiet statement has read, it has read from the end of the log it sees. */
  lemma HeadRead(sha: Sha, db: Db, t: TxId, s: Stmt)
    requires ChainOk(sha, db) && CanRun(sha, db, t, s) && IsQuiet(s)
    ensures Next(sha, db, t, s).txs[t].head == db.txs[t].head || Next(sha, db, t, s).txs[t].head == Some(Head(VisibleLog(db, t)))
  {
    assert TxChainOk(sha, db, t);
    if s.ReadHead? { LatestIsLast(VisibleLog(db, t), s.k, db.nextSeq); }
  }

  lemma ChainWrite(sha: Sha, db: Db, t: TxId, s: Stmt)
    requires ChainOk(sha, db) && CanRun(sha, db, t, s) && IsWrite(s)
    ensures ChainOk(sha, Next(sha, db, t, s))
  {
    WriteIsFree(sha, db, t, s);
    ChainQuiet(sha, db, Wrote(db, t, WriteOf(sha, db, t, s)));
  }

  lemma ChainDrop(sha: Sha, db: Db, t: TxId, s: Stmt)
    requires ChainOk(sha, db) && CanRun(sha, db, t, s) && IsDrop(s)
    ensures ChainOk(sha, Next(sha, db, t, s))
  {
    var seqNo := DropView(sha, db, t, s);
    ChainQuiet(sha, db, Closed(db.(nextSeq := seqNo), t));
  }

  lemma ChainRead(sha: Sha, db: Db, t: TxId, s: Stmt)
    requires ChainOk(sha, db) && CanRun(sha, db, t, s) && IsQuiet(s)
    ensures ChainOk(sha, Next(sha, db, t, s))
  {
    var next := QuietView(sha, db, t, s);
    HeadRead(sha, db, t, s);
    ChainQuiet(sha, db, next);
  }

  lemma ChainBegin(sha: Sha, db: Db, t: TxId)
    requires ChainOk(sha, db) && CanRun(sha, db, t, Begin)
    ensures ChainOk(sha, Next(sha, db, t, Begin))
  {
    var next := Next(sha, db, t, Begin);
    forall u | u in next.txs ensures TxChainOk(sha, next, u) {
      if u == t {
        assert db.log + [] == db.log;
      } else {
        assert TxChainOk(sha, db, u);
        assert VisibleLog(next, u) == VisibleLog(db, u);
      }
    }
  }

  /** What the insert adds to what t sees: one row linked to the head it read. */
  lemma InsertView(sha: Sha, db: Db, t: TxId)
    requires CanRun(sha, db, t, InsertEvent)
    ensures var next := Next(sha, db, t, InsertEvent);
            && next.nextSeq == db.nextSeq + 1 && next.log == db.log && next.marks == db.marks && next.txs.Keys == db.txs.Keys
            && VisibleMarks(next, t) == VisibleMarks(db, t) + [db.txs[t].since]
            && VisibleLog(next, t) == VisibleLog(db, t) + [NextEvent(sha.event, db, db.txs[t])]
            && next.txs[t].head.None? && next.txs[t].owed.None?
            && next.txs[t].entries == db.txs[t].entries && next.txs[t].checked == db.txs[t].checked
            && (forall u :: u in db.txs && u != t ==> next.txs[u] == db.txs[u])
  {
  }

  lemma ChainInsert(sha: Sha, db: Db, t: TxId)
    requires ChainOk(sha, db) && CanRun(sha, db, t, InsertEvent)
    ensures ChainOk(sha, Next(sha, db, t, InsertEvent))
  {
    var next, e := Next(sha, db, t, InsertEvent), db.txs[t].owed.value;
    InsertView(sha, db, t);
    forall u | u in next.txs ensures TxChainOk(sha, next, u) {
      assert TxChainOk(sha, db, u);
      if u == t {
        GoodAppend(sha, VisibleLog(db, t), db.nextSeq, e);
        assert VisibleLog(next, t) == Append(sha.event, VisibleLog(db, t), db.nextSeq, e);
      } else {
        assert VisibleLog(next, u) == VisibleLog(db, u);
      }
    }
  }

  /** Whoever still runs at a commit sees the committed log afterwards: only the lock holder had events. */
  lemma CommitView(sha: Sha, db: Db, t: TxId, u: TxId)
    requires LocksOk(db) && CanRun(sha, db, t, Commit) && u in Next(sha, db, t, Commit).txs
    ensures u != t && u in db.txs && Next(sha, db, t, Commit).txs[u] == db.txs[u]
    ensures VisibleLog(Next(sha, db, t, Commit), u) == VisibleLog(db, if db.txs[t].events == [] then u else t)
    ensures VisibleMarks(Next(sha, db, t, Commit), u) == VisibleMarks(db, if db.txs[t].events == [] then u else t)
    ensures db.txs[t].events != [] ==> db.txs[u].events == [] && db.txs[u].head.None?
  {
    var next := Next(sha, db, t, Commit);
    assert TxLocksOk(db, t) && TxLocksOk(db, u);
    assert next.txs[u] == db.txs[u];
    if db.txs[t].events == [] {
      assert db.log + [] == db.log && db.txs[t].marks == [] && db.marks + [] == db.marks;
    } else {
      assert next.log + [] == next.log && db.txs[u].marks == [] && next.marks + [] == next.marks;
    }
  }

  lemma ChainCommit(sha: Sha, db: Db, t: TxId)
    requires LocksOk(db) && ChainOk(sha, db) && CanRun(sha, db, t, Commit)
    ensures ChainOk(sha, Next(sha, db, t, Commit))
  {
    var next := Next(sha, db, t, Commit);
    assert TxChainOk(sha, db, t) && next.log == VisibleLog(db, t);
    forall u | u in next.txs ensures TxChainOk(sha, next, u) {
      CommitView(sha, db, t, u);
      assert TxChainOk(sha, db, u);
    }
  }

  lemma ChainStep(sha: Sha, db: Db, t: TxId, s: Stmt)
    requires LocksOk(db) && ChainOk(sha, db) && CanRun(sha, db, t, s)
    ensures ChainOk(sha, Next(sha, db, t, s))
  {
    if IsWrite(s) { ChainWrite(sha, db, t, s); }
    else if IsDrop(s) { ChainDrop(sha, db, t, s); }
    else if IsQuiet(s) { ChainRead(sha, db, t, s); }
    else if s.Begin? { ChainBegin(sha, db, t); }
    else if s.InsertEvent? { ChainInsert(sha, db, t); }
    else { ChainCommit(sha, db, t); }
  }

  // ----- rows against events -----

  /** The transaction has recorded nothing about the row, and owes nothing about it. */
  predicate Silent(tx: Tx, key: Key) {
    && (forall i :: 0 <= i < |tx.events| ==> !About(tx.events[i].content, key))
    && (tx.owed.Some? ==> !About(tx.owed.value, key))
  }

  /** The row's story as far as the transaction has got: its own events included, and the one it owes. */
  function Known(db: Db, t: TxId, key: Key): Story
    requires t in db.txs
  {
    var seen := StoryFor(VisibleLog(db, t), key);
    if db.txs[t].owed.Some? then Told(seen, db.txs[t].owed.value, key) else seen
  }

  ghost predicate TxRowsOk(db: Db, t: TxId)
    requires t in db.txs
  {
    && (forall key :: key in db.txs[t].entries ==> EntryGood(Known(db, t, key), key, db.txs[t].entries[key]))
    && (forall key :: key !in db.txs[t].entries ==> Silent(db.txs[t], key))
  }

  /** Committed rows are what the committed log says; a transaction's rows, what it sees and owes. */
  ghost predicate RowsOk(db: Db) {
    && (forall key :: key in db.entries ==> EntryGood(StoryFor(db.log, key), key, db.entries[key]))
    && (forall key :: key !in db.entries ==> StoryFor(db.log, key) == UNTOLD)
    && (forall t :: t in db.txs ==> TxRowsOk(db, t))
  }

  /** What t knows of a row it has not written is what the committed log says. */
  lemma KnownOutside(db: Db, t: TxId, key: Key)
    requires t in db.txs && Silent(db.txs[t], key)
    ensures Known(db, t, key) == StoryFor(db.log, key)
  {
    StorySilent(db.log, db.txs[t].events, key);
  }

  lemma RowsKept(db: Db, next: Db)
    requires RowsOk(db) && next.entries == db.entries && next.log == db.log
    requires forall u :: u in next.txs ==> u in db.txs && SameAccount(next.txs[u], db.txs[u])
    ensures RowsOk(next)
  {
    forall u | u in next.txs ensures TxRowsOk(next, u) {
      assert TxRowsOk(db, u) && SameAccount(next.txs[u], db.txs[u]);
      forall key | key in next.txs[u].entries ensures Known(next, u, key) == Known(db, u, key) {}
    }
  }

  /** A change to one transaction that keeps its own account right. */
  lemma RowsOwn(db: Db, next: Db, t: TxId)
    requires RowsOk(db) && next.entries == db.entries && next.log == db.log && t in next.txs && TxRowsOk(next, t)
    requires forall u :: u in next.txs && u != t ==> u in db.txs && next.txs[u] == db.txs[u]
    ensures RowsOk(next)
  {
    forall u | u in next.txs ensures TxRowsOk(next, u) {
      if u != t {
        assert TxRowsOk(db, u);
        forall key | key in next.txs[u].entries ensures Known(next, u, key) == Known(db, u, key) {}
      }
    }
  }

  ghost predicate OnlyAbout(e: Event, key: Key) {
    About(e, key) && forall k: Key :: k != key ==> !About(e, k)
  }

  lemma RowsWritten(db: Db, t: TxId, w: Write)
    requires RowsOk(db) && Idle(db, t) && OnlyAbout(w.event, w.key) && EntryGood(Told(Known(db, t, w.key), w.event, w.key), w.key, w.entry)
    ensures RowsOk(Wrote(db, t, w))
  {
    var next := Wrote(db, t, w);
    assert TxRowsOk(db, t) && VisibleLog(next, t) == VisibleLog(db, t);
    forall k | k in next.txs[t].entries ensures EntryGood(Known(next, t, k), k, next.txs[t].entries[k]) {
      if k != w.key { assert Known(next, t, k) == Known(db, t, k); }
    }
    forall k | k !in next.txs[t].entries ensures Silent(next.txs[t], k) { assert Silent(db.txs[t], k); }
    RowsOwn(db, next, t);
  }

  /** The row the transaction sees is what it knows. */
  lemma VisibleGood(db: Db, t: TxId, key: Key)
    requires RowsOk(db) && t in db.txs
    ensures Visible(db, t, key).Some? ==> EntryGood(Known(db, t, key), key, Visible(db, t, key).value)
    ensures Visible(db, t, key).None? ==> Known(db, t, key) == UNTOLD
  {
    assert TxRowsOk(db, t);
    if key !in db.txs[t].entries { KnownOutside(db, t, key); }
  }

  /** Each of the three writes writes what its event tells. */
  lemma WriteGood(sha: Sha, db: Db, t: TxId, s: Stmt)
    requires LocksOk(db) && RowsOk(db) && IsWrite(s) && CanRun(sha, db, t, s)
    ensures var w := WriteOf(sha, db, t, s);
            OnlyAbout(w.event, w.key) && EntryGood(Told(Known(db, t, w.key), w.event, w.key), w.key, w.entry)
  {
    VisibleGood(db, t, WriteOf(sha, db, t, s).key);
    match s
    case UpsertPlan(_, _, _) =>
    case InsertRow(id, order, at) =>
      assert TxLocksOk(db, t);
      FreshGood(id, order, at);
    case UpdateRow(id, m, caller, at) =>
      MoveGood(sha, Known(db, t, JobKey(id)), id, JobOf(db, t, id).value, m, caller, at);
  }

  lemma RowsWrite(sha: Sha, db: Db, t: TxId, s: Stmt)
    requires LocksOk(db) && RowsOk(db) && CanRun(sha, db, t, s) && IsWrite(s)
    ensures RowsOk(Next(sha, db, t, s))
  {
    WriteIsFree(sha, db, t, s);
    WriteGood(sha, db, t, s);
    RowsWritten(db, t, WriteOf(sha, db, t, s));
  }

  lemma RowsDrop(sha: Sha, db: Db, t: TxId, s: Stmt)
    requires RowsOk(db) && CanRun(sha, db, t, s) && IsDrop(s)
    ensures RowsOk(Next(sha, db, t, s))
  {
    var seqNo := DropView(sha, db, t, s);
    RowsKept(db, Closed(db.(nextSeq := seqNo), t));
  }

  lemma RowsQuiet(sha: Sha, db: Db, t: TxId, s: Stmt)
    requires RowsOk(db) && CanRun(sha, db, t, s) && IsQuiet(s)
    ensures RowsOk(Next(sha, db, t, s))
  {
    var next := QuietView(sha, db, t, s);
    RowsKept(db, next);
  }

  lemma RowsBegin(sha: Sha, db: Db, t: TxId)
    requires RowsOk(db) && CanRun(sha, db, t, Begin)
    ensures RowsOk(Next(sha, db, t, Begin))
  {
    RowsOwn(db, Next(sha, db, t, Begin), t);
  }

  /** Appending the owed event leaves what is known of each row as it was. */
  lemma KnownPaid(sha: Sha, db: Db, t: TxId, key: Key)
    requires CanRun(sha, db, t, InsertEvent)
    ensures Known(Next(sha, db, t, InsertEvent), t, key) == Known(db, t, key)
  {
    InsertView(sha, db, t);
    var more := VisibleLog(Next(sha, db, t, InsertEvent), t);
    assert more[..|more| - 1] == VisibleLog(db, t);
  }

  lemma RowsAppend(sha: Sha, db: Db, t: TxId)
    requires RowsOk(db) && CanRun(sha, db, t, InsertEvent)
    ensures RowsOk(Next(sha, db, t, InsertEvent))
  {
    var next := Next(sha, db, t, InsertEvent);
    assert TxRowsOk(db, t);
    forall k | k in next.txs[t].entries ensures EntryGood(Known(next, t, k), k, next.txs[t].entries[k]) { KnownPaid(sha, db, t, k); }
    forall k | k !in next.txs[t].entries ensures Silent(next.txs[t], k) { assert Silent(db.txs[t], k); }
    RowsOwn(db, next, t);
  }

  /** A commit tells nobody else anything about the rows they hold. */
  lemma KnownAcrossCommit(sha: Sha, db: Db, t: TxId, u: TxId, key: Key)
    requires LocksOk(db) && CanRun(sha, db, t, Commit) && u in Next(sha, db, t, Commit).txs && Silent(db.txs[t], key)
    ensures Known(Next(sha, db, t, Commit), u, key) == Known(db, u, key)
  {
    CommitView(sha, db, t, u);
    if db.txs[t].events != [] {
      StorySilent(db.log, db.txs[t].events, key);
      assert db.log + [] == db.log;
    }
  }

  /** A commit by t leaves the account of every other transaction right: their rows are not t's. */
  lemma CommitOther(sha: Sha, db: Db, t: TxId, u: TxId)
    requires LocksOk(db) && RowsOk(db) && CanRun(sha, db, t, Commit) && u in Next(sha, db, t, Commit).txs
    ensures TxRowsOk(Next(sha, db, t, Commit), u)
  {
    CommitView(sha, db, t, u);
    assert TxRowsOk(db, t) && TxRowsOk(db, u) && TxLocksOk(db, t) && TxLocksOk(db, u);
    forall key | key in db.txs[u].entries ensures Known(Next(sha, db, t, Commit), u, key) == Known(db, u, key) {
      assert key !in db.txs[t].entries;
      KnownAcrossCommit(sha, db, t, u, key);
    }
  }

  lemma RowsCommit(sha: Sha, db: Db, t: TxId)
    requires LocksOk(db) && RowsOk(db) && CanRun(sha, db, t, Commit)
    ensures RowsOk(Next(sha, db, t, Commit))
  {
    var next := Next(sha, db, t, Commit);
    assert TxRowsOk(db, t) && next.log == VisibleLog(db, t);
    forall key ensures if key in next.entries then EntryGood(StoryFor(next.log, key), key, next.entries[key]) else StoryFor(next.log, key) == UNTOLD {
      if key !in db.txs[t].entries { KnownOutside(db, t, key); }
      assert Known(db, t, key) == StoryFor(next.log, key);
    }
    forall u | u in next.txs ensures TxRowsOk(next, u) { CommitOther(sha, db, t, u); }
  }

  lemma RowsStep(sha: Sha, db: Db, t: TxId, s: Stmt)
    requires LocksOk(db) && RowsOk(db) && CanRun(sha, db, t, s)
    ensures RowsOk(Next(sha, db, t, s))
  {
    if IsWrite(s) { RowsWrite(sha, db, t, s); }
    else if IsDrop(s) { RowsDrop(sha, db, t, s); }
    else if IsQuiet(s) { RowsQuiet(sha, db, t, s); }
    else if s.Begin? { RowsBegin(sha, db, t); }
    else if s.InsertEvent? { RowsAppend(sha, db, t); }
    else { RowsCommit(sha, db, t); }
  }
}

/** Lease tokens when transactions interleave: with fresh tokens no token ever works on two jobs. */
module PostgresLeases {
  import opened Basics
  import opened HashChain
  import opened FleetModel
  import opened FleetLeases
  import opened PostgresGuards
  import opened PostgresFleet
  import opened PostgresRuns

  function LiveIn(entry: Entry): Option<Digest> {
    if entry.JobEntry? then Live(entry.job) else None
  }

  /** The token hash works on the row, as committed or as some transaction has written it. */
  ghost predicate Carries(db: Db, key: Key, h: Digest) {
    || (key in db.entries && LiveIn(db.entries[key]) == Some(h))
    || exists t :: t in db.txs && key in db.txs[t].entries && LiveIn(db.txs[t].entries[key]) == Some(h)
  }

  /** The token hash a statement puts to work. */
  function DrawnBy(s: Stmt): Option<Digest> {
    match s
    case UpdateRow(_, GrantForever(_, h), _, _) => Some(h)
    case UpdateRow(_, AssignForever(_, h), _, _) => Some(h)
    case UpdateRow(_, Plain(Grant(_, h, _)), _, _) => Some(h)
    case UpdateRow(_, Plain(Assign(_, h, _)), _, _) => Some(h)
    case _ => None
  }

  /** No statement draws a token whose hash is in `used` or was drawn before. */
  predicate FreshTurns(turns: seq<Turn>, used: set<Digest>)
    decreases |turns|
  {
    turns == []
    || if DrawnBy(turns[0].stmt).None? then FreshTurns(turns[1..], used)
       else DrawnBy(turns[0].stmt).value !in used && FreshTurns(turns[1..], used + {DrawnBy(turns[0].stmt).value})
  }

  lemma PlainLive(sha: Sha, job: Job, m: Move, now: int)
    requires Owned(job) && CanMove(job, m, now)
    ensures var live := Live(Moved(sha, job, m, now)); live == None || live == Live(job) || ((m.Grant? || m.Assign?) && live == Some(m.token))
  {
  }

  /** A row update leaves the token that was at work, draws one, or leaves none. */
  lemma MoveLive(sha: Sha, db: Db, t: TxId, s: Stmt, h: Digest)
    requires CanRun(sha, db, t, s) && s.UpdateRow? && LiveIn(WriteOf(sha, db, t, s).entry) == Some(h)
    ensures DrawnBy(s) == Some(h) || Live(JobOf(db, t, s.id).value) == Some(h)
  {
    var job := JobOf(db, t, s.id).value;
    if s.move.Plain? && !s.move.move.Accept? {
      AdmittedCanMove(sha, job, s.move.move, s.caller, s.at);
      PlainLive(sha, job, s.move.move, s.at);
    }
  }

  lemma VisibleCarries(db: Db, t: TxId, id: string, h: Digest)
    requires t in db.txs && JobOf(db, t, id).Some? && Live(JobOf(db, t, id).value) == Some(h)
    ensures Carries(db, JobKey(id), h)
  {
  }

  /** What works after a statement worked before, on the same row, or has just been drawn for the row written. */
  lemma CarriesBack(sha: Sha, db: Db, t: TxId, s: Stmt, key: Key, h: Digest)
    requires CanRun(sha, db, t, s) && Carries(Next(sha, db, t, s), key, h)
    ensures Carries(db, key, h) || (s.UpdateRow? && key == JobKey(s.id) && DrawnBy(s) == Some(h))
  {
    if IsWrite(s) { WriteCarries(sha, db, t, s, key, h); }
    else if IsQuiet(s) { var next := QuietView(sha, db, t, s); }
    else if IsDrop(s) { var seqNo := DropView(sha, db, t, s); }
    else if s.InsertEvent? { InsertView(sha, db, t); }
  }

  lemma WriteCarries(sha: Sha, db: Db, t: TxId, s: Stmt, key: Key, h: Digest)
    requires CanRun(sha, db, t, s) && IsWrite(s) && Carries(Next(sha, db, t, s), key, h)
    ensures Carries(db, key, h) || (s.UpdateRow? && key == JobKey(s.id) && DrawnBy(s) == Some(h))
  {
    var w := WriteOf(sha, db, t, s);
    WriteIsFree(sha, db, t, s);
    if key == w.key && LiveIn(w.entry) == Some(h) && s.UpdateRow? {
      MoveLive(sha, db, t, s, h);
      if DrawnBy(s) != Some(h) { VisibleCarries(db, t, s.id, h); }
    }
  }

  /** Every token at work was drawn, and none works on two rows. */
  ghost predicate Exclusively(db: Db, used: set<Digest>) {
    && (forall key, h :: Carries(db, key, h) ==> h in used)
    && (forall a, b, h :: Carries(db, a, h) && Carries(db, b, h) ==> a == b)
  }

  lemma ExclusiveNext(sha: Sha, db: Db, t: TxId, s: Stmt, used: set<Digest>)
    requires CanRun(sha, db, t, s) && Exclusively(db, used) && (DrawnBy(s).Some? ==> DrawnBy(s).value !in used)
    ensures Exclusively(Next(sha, db, t, s), if DrawnBy(s).Some? then used + {DrawnBy(s).value} else used)
  {
    var next := Next(sha, db, t, s);
    forall key, h | Carries(next, key, h)
      ensures Carries(db, key, h) || (s.UpdateRow? && key == JobKey(s.id) && DrawnBy(s) == Some(h))
    {
      CarriesBack(sha, db, t, s, key, h);
    }
  }

  lemma {:induction false} ExclusiveOn(sha: Sha, a: Db, turns: seq<Turn>, b: Db, used: set<Digest>) returns (all: set<Digest>)
    requires Exclusively(a, used) && Leads(sha, a, turns, b) && FreshTurns(turns, used)
    ensures Exclusively(b, all)
    decreases |turns|
  {
    if turns == [] {
      all := used;
    } else {
      var drawn := DrawnBy(turns[0].stmt);
      ExclusiveNext(sha, a, turns[0].tx, turns[0].stmt, used);
      all := ExclusiveOn(sha, Next(sha, a, turns[0].tx, turns[0].stmt), turns[1..], b, if drawn.Some? then used + {drawn.value} else used);
    }
  }

  /** In every schedule that draws only fresh tokens no token works on two jobs, committed or being written. */
  lemma InterleavedLeaseExclusivity(sha: Sha, turns: seq<Turn>, db: Db, a: Key, b: Key, h: Digest)
    requires Leads(sha, EMPTY_DB, turns, db) && FreshTurns(turns, {}) && Carries(db, a, h) && Carries(db, b, h)
    ensures a == b
  {
    var all := ExclusiveOn(sha, EMPTY_DB, turns, db, {});
  }
}

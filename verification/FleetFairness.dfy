/** Waiting is bounded: how many other jobs can be claimed before a waiting one, and in which order a queue drains. */
module FleetFairness {
  import opened Basics
  import opened HashChain
  import opened FleetModel
  import opened FleetOps
  import opened FleetInvariant
  import opened FleetCounts
  import opened FleetStore

  // ----- what a history's changes inherit from its operations -----

  lemma {:induction false} ReapStamps(jobs: map<string, Job>, scan: seq<string>, now: int)
    requires forall id :: id in scan ==> id in jobs
    ensures forall i :: 0 <= i < |ReapChanges(jobs, scan, now)| ==>
              var c := ReapChanges(jobs, scan, now)[i];
              c.now == now && c.change.Step? && (c.change.move.Lapse? || c.change.move.Release?)
    decreases |scan|
  {
    if scan != [] { ReapStamps(jobs, scan[1..], now); }
  }

  lemma CommittedStamps(sha: Sha, s: State, op: Op)
    requires Legal(s, op)
    ensures forall i :: 0 <= i < |Committed(sha, s, op)| ==>
              var c := Committed(sha, s, op)[i];
              c.now == op.now && (c.change.Step? && c.change.move.Grant? ==> op.ClaimExecution?)
  {
    if IsClaim(op) { ReapStamps(s.jobs, op.scan, op.now); }
  }

  /** Every execution claim of the run happens at or after `time`. */
  predicate ClaimsFrom(ops: seq<Op>, time: int) {
    forall i :: 0 <= i < |ops| && ops[i].ClaimExecution? ==> ops[i].now >= time
  }

  predicate GrantsFrom(cs: seq<Stamped>, time: int) {
    forall i :: 0 <= i < |cs| && cs[i].change.Step? && cs[i].change.move.Grant? ==> cs[i].now >= time
  }

  lemma {:induction false} HistoryGrantsFrom(sha: Sha, s: State, ops: seq<Op>, time: int)
    requires LegalRun(sha, s, ops) && ClaimsFrom(ops, time)
    ensures GrantsFrom(History(sha, s, ops), time)
    decreases |ops|
  {
    if ops != [] {
      CommittedStamps(sha, s, ops[0]);
      HistoryGrantsFrom(sha, Exec(sha, s, ops[0]).0, ops[1..], time);
    }
  }

  predicate AllAfter(ops: seq<Op>, time: int) {
    forall i :: 0 <= i < |ops| ==> ops[i].now > time
  }

  predicate StampsAfter(cs: seq<Stamped>, time: int) {
    forall i :: 0 <= i < |cs| ==> cs[i].now > time
  }

  lemma {:induction false} HistoryAfter(sha: Sha, s: State, ops: seq<Op>, time: int)
    requires LegalRun(sha, s, ops) && AllAfter(ops, time)
    ensures StampsAfter(History(sha, s, ops), time)
    decreases |ops|
  {
    if ops != [] {
      CommittedStamps(sha, s, ops[0]);
      HistoryAfter(sha, Exec(sha, s, ops[0]).0, ops[1..], time);
    }
  }

  // ----- bounded overtaking in the execution queue -----

  /** The jobs that a claim prefers to j. */
  function Ahead(jobs: map<string, Job>, j: string): set<string> {
    set k | k in jobs && ExecutesBefore(jobs, k, j)
  }

  /** How often the job can still be granted. */
  function Remaining(job: Job): int {
    if job.state == QUEUED || job.state == LEASED then job.order.maxAttempts - job.attempts else 0
  }

  ghost function Budget(jobs: map<string, Job>, j: string): int {
    Sum(Ahead(jobs, j), k => if k in jobs then Remaining(jobs[k]) else 0)
  }

  /** The event enqueues a job that a claim would prefer to `job`, known as j. */
  predicate EnqueuesAhead(e: Event, j: string, job: Job) {
    && e.payload.JobEnqueued? && e.jobId.Some?
    && (|| e.payload.priority < job.order.priority
        || (e.payload.priority == job.order.priority
            && (e.createdAt < job.createdAt || (e.createdAt == job.createdAt && Below(e.jobId.value, j)))))
  }

  predicate GrantsJob(e: Event, j: string) {
    e.jobId == Some(j) && e.payload.ExecutionLeaseGranted?
  }

  /** No event of the stretch grants j or enqueues a job ahead of it. */
  predicate Undisturbed(log: seq<Row<Event>>, from: nat, j: string, job: Job) {
    forall k :: from <= k < |log| ==> !GrantsJob(log[k].content, j) && !EnqueuesAhead(log[k].content, j, job)
  }

  lemma AheadStable(jobs: map<string, Job>, id: string, job: Job, j: string)
    requires id in jobs && j in jobs && job.order == jobs[id].order && job.createdAt == jobs[id].createdAt
    ensures Ahead(jobs[id := job], j) == Ahead(jobs, j)
  {
    forall k ensures k in Ahead(jobs[id := job], j) <==> k in Ahead(jobs, j) {}
  }

  /** Rewriting one row changes the budget by the change of that row's share. */
  lemma BudgetStep(jobs: map<string, Job>, id: string, job: Job, j: string)
    requires id in jobs && j in jobs && job.order == jobs[id].order && job.createdAt == jobs[id].createdAt
    ensures Budget(jobs[id := job], j)
            == Budget(jobs, j) + if id in Ahead(jobs, j) then Remaining(job) - Remaining(jobs[id]) else 0
  {
    AheadStable(jobs, id, job, j);
    var next := jobs[id := job];
    var f := k => if k in jobs then Remaining(jobs[k]) else 0;
    var g := k => if k in next then Remaining(next[k]) else 0;
    if id in Ahead(jobs, j) {
      SumPointChange(Ahead(jobs, j), f, g, id);
    } else {
      SumCongruence(Ahead(jobs, j), f, g);
    }
  }

  lemma BudgetNewJob(jobs: map<string, Job>, id: string, job: Job, j: string)
    requires id !in jobs && j in jobs && !ExecutesBefore(jobs[id := job], id, j)
    ensures Budget(jobs[id := job], j) == Budget(jobs, j)
  {
    var next := jobs[id := job];
    forall k ensures k in Ahead(next, j) <==> k in Ahead(jobs, j) {}
    assert Ahead(next, j) == Ahead(jobs, j);
    SumCongruence(Ahead(jobs, j), k => if k in jobs then Remaining(jobs[k]) else 0, k => if k in next then Remaining(next[k]) else 0);
  }

  lemma RemainingStep(sha: Sha, job: Job, m: Move, now: int)
    requires JobOk(sha, job) && CanMove(job, m, now)
    ensures Remaining(Moved(sha, job, m, now)) <= Remaining(job) - One(m.Grant?)
  {
  }

  lemma UndisturbedTail(log: seq<Row<Event>>, from: nat, j: string, job: Job)
    requires from < |log| && Undisturbed(log, from, j, job)
    ensures Undisturbed(log, from + 1, j, job)
    ensures !GrantsJob(log[from].content, j) && !EnqueuesAhead(log[from].content, j, job)
  {
  }

  /** Some other job is moved; if it is granted, it is ahead of j. */
  lemma OvertakeMove(sha: Sha, jobs: map<string, Job>, id: string, m: Move, now: int, j: string)
    requires id in jobs && j in jobs && JobOk(sha, jobs[id]) && CanMove(jobs[id], m, now) && (m.Grant? ==> id in Ahead(jobs, j))
    ensures Budget(jobs[id := Moved(sha, jobs[id], m, now)], j) <= Budget(jobs, j) - One(m.Grant?)
  {
    MovedOk(sha, jobs[id], m, now);
    RemainingStep(sha, jobs[id], m, now);
    BudgetStep(jobs, id, Moved(sha, jobs[id], m, now), j);
  }

  lemma GrantMarked(sha: Sha, id: string, job: Job, m: Move, now: int)
    requires CanMove(job, m, now)
    ensures MarkOf(MoveEvent(sha, id, job, m, now)) == GrantMark <==> m.Grant?
    ensures m.Grant? ==> GrantsJob(MoveEvent(sha, id, job, m, now), id)
  {
  }

  /** While j waits undisturbed, a move is of another job, and if it is a grant then of one ahead of it. */
  lemma MoveOfOther(sha: Sha, s: State, id: string, m: Move, now: int, j: string)
    requires Allowed(s, At(Step(id, m), now)) && j in s.jobs && s.jobs[j].state == QUEUED
    requires s.jobs[j].attempts < s.jobs[j].order.maxAttempts && (m.Grant? ==> s.jobs[j].availableAt <= now)
    requires !GrantsJob(MoveEvent(sha, id, s.jobs[id], m, now), j)
    ensures id != j && (m.Grant? ==> id in Ahead(s.jobs, j))
  {
    GrantMarked(sha, id, s.jobs[id], m, now);
  }

  /** While j waits undisturbed, a change either grants a job ahead of it and spends its budget, or grants nothing. */
  lemma OvertakeStep(sha: Sha, s: State, c: Stamped, j: string)
    requires Inv(sha, s) && Allowed(s, c)
    requires j in s.jobs && s.jobs[j].state == QUEUED
    requires c.change.Step? && c.change.move.Grant? ==> s.jobs[j].availableAt <= c.now
    requires !GrantsJob(EventOf(sha, s, c), j) && !EnqueuesAhead(EventOf(sha, s, c), j, s.jobs[j])
    ensures j in Effect(sha, s, c).jobs && Effect(sha, s, c).jobs[j] == s.jobs[j]
    ensures Budget(Effect(sha, s, c).jobs, j) <= Budget(s.jobs, j) - One(MarkOf(EventOf(sha, s, c)) == GrantMark)
  {
    assert JobOk(sha, s.jobs[j]);
    match c.change
    case NewPlan(_, _, _) =>
    case NewJob(id, order) =>
      BudgetNewJob(s.jobs, id, FreshJob(order, c.now), j);
    case Step(id, m) =>
      MoveOfOther(sha, s, id, m, c.now, j);
      GrantMarked(sha, id, s.jobs[id], m, c.now);
      OvertakeMove(sha, s.jobs, id, m, c.now, j);
  }

  /** The grants recorded so far plus the budget left: what never rises while j waits undisturbed. */
  ghost function Overtakes(s: State, j: string): int {
    TallyOf(s.log).granted + Budget(s.jobs, j)
  }

  ghost predicate Waits(s: State, j: string, job: Job) {
    j in s.jobs && s.jobs[j] == job && job.state == QUEUED
  }

  lemma EffectGrants(sha: Sha, s: State, c: Stamped)
    requires Allowed(s, c)
    ensures TallyOf(Effect(sha, s, c).log).granted == TallyOf(s.log).granted + One(MarkOf(EventOf(sha, s, c)) == GrantMark)
  {
    TallyAppend(sha, s.log, EventOf(sha, s, c), "");
  }

  lemma OvertakeOne(sha: Sha, s: State, cs: seq<Stamped>, j: string, job: Job)
    requires Inv(sha, s) && AllowedRun(sha, s, cs) && cs != [] && Waits(s, j, job) && GrantsFrom(cs, job.availableAt)
    requires !GrantsJob(EventOf(sha, s, cs[0]), j) && !EnqueuesAhead(EventOf(sha, s, cs[0]), j, job)
    ensures Waits(Effect(sha, s, cs[0]), j, job)
    ensures Overtakes(Effect(sha, s, cs[0]), j) <= Overtakes(s, j)
  {
    OvertakeStep(sha, s, cs[0], j);
    EffectGrants(sha, s, cs[0]);
  }

  lemma {:induction false} OvertakeChanges(sha: Sha, s: State, cs: seq<Stamped>, j: string, job: Job)
    requires Inv(sha, s) && AllowedRun(sha, s, cs) && Waits(s, j, job) && GrantsFrom(cs, job.availableAt)
    requires Undisturbed(RunChanges(sha, s, cs).log, |s.log|, j, job)
    ensures Waits(RunChanges(sha, s, cs), j, job) && Overtakes(RunChanges(sha, s, cs), j) <= Overtakes(s, j)
    decreases |cs|
  {
    if cs != [] {
      FirstChange(sha, s, cs);
      UndisturbedTail(RunChanges(sha, s, cs).log, |s.log|, j, job);
      OvertakeOne(sha, s, cs, j, job);
      OvertakeChanges(sha, Effect(sha, s, cs[0]), cs[1..], j, job);
    }
  }

  lemma {:induction false} SumNonNegative(s: set<string>, f: string -> int)
    requires forall x :: x in s ==> f(x) >= 0
    ensures Sum(s, f) >= 0
    decreases |s|
  {
    if s != {} {
      var x :| x in s;
      SumSplit(s, f, x);
      SumNonNegative(s - {x}, f);
    }
  }

  lemma BudgetNonNegative(sha: Sha, s: State, j: string)
    requires Inv(sha, s)
    ensures Budget(s.jobs, j) >= 0
  {
    SumNonNegative(Ahead(s.jobs, j), k => if k in s.jobs then Remaining(s.jobs[k]) else 0);
  }

  /** While a queued, available job waits and nothing is enqueued ahead of it, the grants to other jobs number at
      most the attempts that the jobs ahead of it have left, whatever fails, expires or is retried meanwhile. */
  lemma ExecutionOvertakingBounded(sha: Sha, s: State, ops: seq<Op>, j: string)
    requires Inv(sha, s) && LegalRun(sha, s, ops)
    requires j in s.jobs && s.jobs[j].state == QUEUED && ClaimsFrom(ops, s.jobs[j].availableAt)
    requires Undisturbed(Run(sha, s, ops).log, |s.log|, j, s.jobs[j])
    ensures TallyOf(Run(sha, s, ops).log).granted - TallyOf(s.log).granted <= Budget(s.jobs, j)
    ensures j in Run(sha, s, ops).jobs && Run(sha, s, ops).jobs[j] == s.jobs[j]
  {
    HistoryGrantsFrom(sha, s, ops, s.jobs[j].availableAt);
    ChangesOk(sha, s, History(sha, s, ops));
    OvertakeChanges(sha, s, History(sha, s, ops), j, s.jobs[j]);
    BudgetNonNegative(sha, Run(sha, s, ops), j);
  }

  /** While a job waits claimable, no execution claim comes back empty-handed. */
  lemma ClaimNeverIdle(sha: Sha, s: State, op: Op, j: string)
    requires op.ClaimExecution? && Legal(s, op) && j in s.jobs && Claimable(s.jobs[j], op.now)
    ensures Exec(sha, s, op).1 != Returned(Idle)
  {
    if OwnerOk(op.worker) && 5 <= op.ttl <= 300 {
      var next := ClaimExecutionResult(sha, s, op.worker, op.ttl, op.token, op.scan, op.now);
      assert Claimable(Reaped(sha, s.jobs, op.now)[j], op.now);
    }
  }

  // ----- bounded overtaking in the verification queue -----

  /** The executed jobs that a verification claim prefers to j. */
  function CheckedAhead(jobs: map<string, Job>, j: string): set<string> {
    set k | k in jobs && jobs[k].state == EXECUTED && ChecksBefore(jobs, k, j)
  }

  /** A verification grant to someone other than w. */
  predicate OtherCheck(e: Event, w: string) {
    e.payload.VerificationLeaseGranted? && e.actor != w
  }

  function OtherChecks(log: seq<Row<Event>>, w: string): int
    decreases |log|
  {
    if log == [] then 0 else OtherChecks(log[..|log| - 1], w) + One(OtherCheck(log[|log| - 1].content, w))
  }

  predicate ChecksJob(e: Event, j: string) {
    e.jobId == Some(j) && e.payload.VerificationLeaseGranted?
  }

  lemma OtherChecksAppend(sha: Sha, log: seq<Row<Event>>, e: Event, w: string)
    ensures OtherChecks(AppendEvent(sha, log, e), w) == OtherChecks(log, w) + One(OtherCheck(e, w))
  {
    var more := AppendEvent(sha, log, e);
    assert more[..|more| - 1] == log;
  }

  /** Rewriting another job's row now takes it out of the way: it is no longer older than j. */
  lemma CheckedAheadShrinks(jobs: map<string, Job>, id: string, job: Job, j: string)
    requires j in jobs && id != j && (job.state == EXECUTED ==> job.updatedAt > jobs[j].updatedAt)
    ensures CheckedAhead(jobs[id := job], j) <= CheckedAhead(jobs, j) - {id}
  {
  }

  lemma MovedNow(sha: Sha, id: string, job: Job, m: Move, now: int)
    requires CanMove(job, m, now)
    ensures Moved(sha, job, m, now).updatedAt == now
    ensures job.state == EXECUTED ==> ChecksJob(MoveEvent(sha, id, job, m, now), id)
    ensures forall w :: OtherCheck(MoveEvent(sha, id, job, m, now), w) ==> m.Assign? && m.verifier != w
  {
  }

  /** A grant to another verifier than j's worker, while j waits, is of a job ahead of j. */
  lemma OtherCheckIsAhead(sha: Sha, s: State, id: string, m: Move, now: int, j: string, w: string)
    requires Allowed(s, At(Step(id, m), now)) && j in s.jobs && s.jobs[j].state == EXECUTED && s.jobs[j].worker == Some(w)
    requires id != j && m.Assign? && m.verifier != w
    ensures id in CheckedAhead(s.jobs, j)
  {
    assert CheckableBy(s.jobs[j], m.verifier);
  }

  lemma CheckMove(sha: Sha, s: State, id: string, m: Move, now: int, j: string, w: string)
    requires Allowed(s, At(Step(id, m), now)) && j in s.jobs && s.jobs[j].state == EXECUTED && s.jobs[j].worker == Some(w)
    requires now > s.jobs[j].updatedAt && !ChecksJob(MoveEvent(sha, id, s.jobs[id], m, now), j)
    ensures id != j
    ensures |CheckedAhead(s.jobs[id := Moved(sha, s.jobs[id], m, now)], j)|
            <= |CheckedAhead(s.jobs, j)| - One(OtherCheck(MoveEvent(sha, id, s.jobs[id], m, now), w))
  {
    var job := s.jobs[id];
    MovedNow(sha, id, job, m, now);
    CheckedAheadShrinks(s.jobs, id, Moved(sha, job, m, now), j);
    SubsetSize(CheckedAhead(s.jobs[id := Moved(sha, job, m, now)], j), CheckedAhead(s.jobs, j) - {id});
    if OtherCheck(MoveEvent(sha, id, job, m, now), w) { OtherCheckIsAhead(sha, s, id, m, now, j, w); }
  }

  /** After j was last touched, the jobs ahead of it only leave, and a grant to another verifier takes one away. */
  lemma CheckStep(sha: Sha, s: State, c: Stamped, j: string, w: string)
    requires Inv(sha, s) && Allowed(s, c)
    requires j in s.jobs && s.jobs[j].state == EXECUTED && s.jobs[j].worker == Some(w) && c.now > s.jobs[j].updatedAt
    requires !ChecksJob(EventOf(sha, s, c), j)
    ensures j in Effect(sha, s, c).jobs && Effect(sha, s, c).jobs[j] == s.jobs[j]
    ensures |CheckedAhead(Effect(sha, s, c).jobs, j)| <= |CheckedAhead(s.jobs, j)| - One(OtherCheck(EventOf(sha, s, c), w))
  {
    match c.change
    case NewPlan(_, _, _) =>
    case NewJob(id, order) =>
      CheckedAheadShrinks(s.jobs, id, FreshJob(order, c.now), j);
      SubsetSize(CheckedAhead(Effect(sha, s, c).jobs, j), CheckedAhead(s.jobs, j));
    case Step(id, m) =>
      CheckMove(sha, s, id, m, c.now, j, w);
  }

  lemma SubsetSize<T>(a: set<T>, b: set<T>)
    requires a <= b
    ensures |a| <= |b|
  {
    assert b == a + (b - a);
  }

  lemma CheckOne(sha: Sha, s: State, cs: seq<Stamped>, j: string, w: string)
    requires Inv(sha, s) && AllowedRun(sha, s, cs) && cs != []
    requires j in s.jobs && s.jobs[j].state == EXECUTED && s.jobs[j].worker == Some(w) && StampsAfter(cs, s.jobs[j].updatedAt)
    requires !ChecksJob(EventOf(sha, s, cs[0]), j)
    ensures var u := Effect(sha, s, cs[0]);
            && j in u.jobs && u.jobs[j] == s.jobs[j]
            && OtherChecks(u.log, w) - OtherChecks(s.log, w) + |CheckedAhead(u.jobs, j)| <= |CheckedAhead(s.jobs, j)|
  {
    CheckStep(sha, s, cs[0], j, w);
    OtherChecksAppend(sha, s.log, EventOf(sha, s, cs[0]), w);
  }

  lemma {:induction false} CheckChanges(sha: Sha, s: State, cs: seq<Stamped>, j: string, w: string)
    requires Inv(sha, s) && AllowedRun(sha, s, cs)
    requires j in s.jobs && s.jobs[j].state == EXECUTED && s.jobs[j].worker == Some(w) && StampsAfter(cs, s.jobs[j].updatedAt)
    requires forall k :: |s.log| <= k < |RunChanges(sha, s, cs).log| ==> !ChecksJob(RunChanges(sha, s, cs).log[k].content, j)
    ensures var t := RunChanges(sha, s, cs);
            && j in t.jobs && t.jobs[j] == s.jobs[j]
            && OtherChecks(t.log, w) - OtherChecks(s.log, w) + |CheckedAhead(t.jobs, j)| <= |CheckedAhead(s.jobs, j)|
    decreases |cs|
  {
    if cs != [] {
      FirstChange(sha, s, cs);
      CheckOne(sha, s, cs, j, w);
      CheckChanges(sha, Effect(sha, s, cs[0]), cs[1..], j, w);
    }
  }

  /** Once the clock has passed the moment an executed job was last touched, at most as many verification claims
      by verifiers other than its worker can pass it over as there were executed jobs ahead of it then: with one
      more such claim, it has been claimed, however many verification leases expire meanwhile. */
  lemma VerificationOvertakingBounded(sha: Sha, s: State, ops: seq<Op>, j: string, w: string)
    requires Inv(sha, s) && LegalRun(sha, s, ops)
    requires j in s.jobs && s.jobs[j].state == EXECUTED && s.jobs[j].worker == Some(w) && AllAfter(ops, s.jobs[j].updatedAt)
    requires OtherChecks(Run(sha, s, ops).log, w) - OtherChecks(s.log, w) > |CheckedAhead(s.jobs, j)|
    ensures exists k :: |s.log| <= k < |Run(sha, s, ops).log| && ChecksJob(Run(sha, s, ops).log[k].content, j)
  {
    HistoryAfter(sha, s, ops, s.jobs[j].updatedAt);
    if forall k :: |s.log| <= k < |Run(sha, s, ops).log| ==> !ChecksJob(Run(sha, s, ops).log[k].content, j) {
      CheckChanges(sha, s, History(sha, s, ops), j, w);
    }
  }

  /** While an executed job waits, no claim by a verifier other than its worker comes back empty-handed. */
  lemma CheckNeverIdle(sha: Sha, s: State, op: Op, j: string)
    requires op.ClaimVerification? && Legal(s, op) && j in s.jobs && CheckableBy(s.jobs[j], op.verifier)
    ensures Exec(sha, s, op).1 != Returned(Idle)
  {
    if OwnerOk(op.verifier) {
      var next := ClaimVerificationResult(sha, s, op.verifier, op.ttl, op.token, op.scan, op.now);
      assert CheckableBy(Reaped(sha, s.jobs, op.now)[j], op.verifier);
    }
  }

  // ----- draining the queue at one clock reading -----

  function ClaimableIds(jobs: map<string, Job>, now: int): set<string> {
    set id | id in jobs && Claimable(jobs[id], now)
  }

  /** What a claim at `now` can choose from, once the expired leases are back. */
  function Waiting(sha: Sha, jobs: map<string, Job>, now: int): set<string> {
    ClaimableIds(Reaped(sha, jobs, now), now)
  }

  predicate DrainClaim(op: Op, now: int) {
    op.ClaimExecution? && op.now == now && OwnerOk(op.worker) && 5 <= op.ttl <= 300
  }

  lemma NothingExpired(sha: Sha, jobs: map<string, Job>, now: int)
    requires ExpiredIds(jobs, now) == {}
    ensures Reaped(sha, jobs, now) == jobs
  {
    forall id | id in jobs ensures !Expired(jobs[id], now) { assert id !in ExpiredIds(jobs, now); }
  }

  lemma RowLeaves(jobs: map<string, Job>, id: string, job: Job, now: int)
    requires ExpiredIds(jobs, now) == {} && id in jobs && !Claimable(job, now) && !Expired(job, now)
    ensures ExpiredIds(jobs[id := job], now) == {}
    ensures ClaimableIds(jobs[id := job], now) == ClaimableIds(jobs, now) - {id}
  {
    forall k | k in jobs && k != id ensures !Expired(jobs[k], now) { assert k !in ExpiredIds(jobs, now); }
  }

  /** The claim order between existing jobs never changes. */
  lemma SameOrder(a: map<string, Job>, b: map<string, Job>)
    requires a.Keys == b.Keys
    requires forall k :: k in a ==> a[k].order == b[k].order && a[k].createdAt == b[k].createdAt
    ensures forall x, y :: ExecutesBefore(a, x, y) <==> ExecutesBefore(b, x, y)
  {
  }

  lemma ReapKeepsOrder(sha: Sha, jobs: map<string, Job>, now: int)
    ensures forall x, y :: ExecutesBefore(Reaped(sha, jobs, now), x, y) <==> ExecutesBefore(jobs, x, y)
  {
    SameOrder(Reaped(sha, jobs, now), jobs);
  }

  predicate IsFirst(jobs: map<string, Job>, w: set<string>, id: string) {
    id in w && forall k :: k in w && k != id ==> ExecutesBefore(jobs, id, k)
  }

  /** A claim with nothing left to reap. */
  lemma ClaimTakesFirst(sha: Sha, r: State, c: Stamped, id: string)
    requires Allowed(r, c) && c.change.Step? && c.change.id == id && c.change.move.Grant? && c.change.move.expires >= c.now
    requires ExpiredIds(r.jobs, c.now) == {}
    ensures var t := Effect(sha, r, c);
            && IsFirst(r.jobs, ClaimableIds(r.jobs, c.now), id)
            && t.jobs.Keys == r.jobs.Keys
            && ExpiredIds(t.jobs, c.now) == {}
            && ClaimableIds(t.jobs, c.now) == ClaimableIds(r.jobs, c.now) - {id}
            && forall x, y :: ExecutesBefore(t.jobs, x, y) <==> ExecutesBefore(r.jobs, x, y)
  {
    RowLeaves(r.jobs, id, Moved(sha, r.jobs[id], c.change.move, c.now), c.now);
    SameOrder(r.jobs, Effect(sha, r, c).jobs);
  }

  lemma NothingWaits(jobs: map<string, Job>, now: int)
    requires forall k :: k in jobs ==> !Claimable(jobs[k], now)
    ensures ClaimableIds(jobs, now) == {}
  {
  }

  /** What one claim does once the expired leases are back. */
  lemma DrainReaped(sha: Sha, r: State, t: State, next: Option<string>, op: Op, now: int)
    requires DrainClaim(op, now) && ExpiredIds(r.jobs, now) == {}
    requires if next.None? then t == r && forall k :: k in r.jobs ==> !Claimable(r.jobs[k], now)
             else var c := At(Step(next.value, Grant(op.worker, sha.token(op.token), now + op.ttl)), now); Allowed(r, c) && t == Effect(sha, r, c)
    ensures ExpiredIds(t.jobs, now) == {} && forall a, b :: ExecutesBefore(t.jobs, a, b) <==> ExecutesBefore(r.jobs, a, b)
    ensures var w := ClaimableIds(r.jobs, now);
            if w == {} then next.None? && ClaimableIds(t.jobs, now) == {}
            else next.Some? && IsFirst(r.jobs, w, next.value) && ClaimableIds(t.jobs, now) == w - {next.value}
  {
    if next.Some? {
      ClaimTakesFirst(sha, r, At(Step(next.value, Grant(op.worker, sha.token(op.token), now + op.ttl)), now), next.value);
    } else {
      NothingWaits(r.jobs, now);
    }
  }

  /** One claim takes the first of the waiting jobs and leaves the others waiting. */
  lemma DrainStep(sha: Sha, s: State, op: Op, now: int)
    requires Legal(s, op) && DrainClaim(op, now) && Exec(sha, s, op).1.Returned?
    ensures var t, reply, w := Exec(sha, s, op).0, Exec(sha, s, op).1.reply, Waiting(sha, s.jobs, now);
            && (forall a, b :: ExecutesBefore(t.jobs, a, b) <==> ExecutesBefore(s.jobs, a, b))
            && if w == {} then reply == Idle && Waiting(sha, t.jobs, now) == {}
               else reply.Granted? && IsFirst(s.jobs, w, reply.id) && Waiting(sha, t.jobs, now) == w - {reply.id}
  {
    var next := ClaimExecutionResult(sha, s, op.worker, op.ttl, op.token, op.scan, op.now);
    var r, t := AfterReap(sha, s, op.scan, op.now), Exec(sha, s, op).0;
    ReapIdempotent(sha, s.jobs, now);
    ReapKeepsOrder(sha, s.jobs, now);
    DrainReaped(sha, r, t, next, op, now);
    NothingExpired(sha, t.jobs, now);
  }

  ghost function Replies(sha: Sha, s: State, ops: seq<Op>): (rs: seq<Outcome>)
    requires LegalRun(sha, s, ops)
    ensures |rs| == |ops|
    decreases |ops|
  {
    if ops == [] then [] else [Exec(sha, s, ops[0]).1] + Replies(sha, Exec(sha, s, ops[0]).0, ops[1..])
  }

  predicate GrantedAt(replies: seq<Outcome>, i: nat) {
    i < |replies| && replies[i].Returned? && replies[i].reply.Granted?
  }

  /** Each answer is the first job still waiting; when none is left, Idle. */
  predicate Drains(jobs: map<string, Job>, w: set<string>, rs: seq<Outcome>)
    decreases |rs|
  {
    rs == []
    || if w == {} then rs[0] == Returned(Idle) && Drains(jobs, w, rs[1..])
       else GrantedAt(rs, 0) && IsFirst(jobs, w, rs[0].reply.id) && Drains(jobs, w - {rs[0].reply.id}, rs[1..])
  }

  lemma {:induction false} DrainsSameOrder(a: map<string, Job>, b: map<string, Job>, w: set<string>, rs: seq<Outcome>)
    requires forall x, y :: ExecutesBefore(a, x, y) <==> ExecutesBefore(b, x, y)
    requires Drains(a, w, rs)
    ensures Drains(b, w, rs)
    decreases |rs|
  {
    if rs != [] {
      if w == {} {
        DrainsSameOrder(a, b, w, rs[1..]);
      } else {
        DrainsSameOrder(a, b, w - {rs[0].reply.id}, rs[1..]);
      }
    }
  }

  lemma {:induction false} ClaimsDrain(sha: Sha, s: State, ops: seq<Op>, now: int)
    requires LegalRun(sha, s, ops) && forall i :: 0 <= i < |ops| ==> DrainClaim(ops[i], now)
    requires forall i :: 0 <= i < |ops| ==> Replies(sha, s, ops)[i].Returned?
    ensures Drains(s.jobs, Waiting(sha, s.jobs, now), Replies(sha, s, ops))
    decreases |ops|
  {
    if ops != [] {
      var t, rs := Exec(sha, s, ops[0]).0, Replies(sha, s, ops);
      assert rs[0] == Exec(sha, s, ops[0]).1 && rs[1..] == Replies(sha, t, ops[1..]);
      DrainStep(sha, s, ops[0], now);
      ClaimsDrain(sha, t, ops[1..], now);
      DrainsSameOrder(t.jobs, s.jobs, Waiting(sha, t.jobs, now), rs[1..]);
    }
  }

  /** The same said position by position. */
  lemma {:induction false} DrainsAt(jobs: map<string, Job>, w: set<string>, rs: seq<Outcome>, i: nat, j: nat)
    requires Drains(jobs, w, rs) && i < j <= |rs|
    ensures GrantedAt(rs, i) <==> i < |w|
    ensures if GrantedAt(rs, i) then rs[i].reply.id in w else rs[i] == Returned(Idle)
    ensures GrantedAt(rs, i) && GrantedAt(rs, j) ==> ExecutesBefore(jobs, rs[i].reply.id, rs[j].reply.id)
    decreases |rs|
  {
    var tail := rs[1..];
    assert forall k :: 0 <= k < |tail| ==> tail[k] == rs[k + 1];
    var rest := if w == {} then w else w - {rs[0].reply.id};
    if i > 0 {
      DrainsAt(jobs, rest, tail, i - 1, j - 1);
    } else if j < |rs| && GrantedAt(rs, 0) {
      DrainsAt(jobs, rest, tail, j - 1, j);
    }
  }

  /** Answers that hand out exactly w, each once and in strictly increasing claim order, and after that nothing. */
  ghost predicate OrderedAnswers(jobs: map<string, Job>, w: set<string>, rs: seq<Outcome>) {
    && (forall i: nat :: i < |rs| ==> (GrantedAt(rs, i) <==> i < |w|))
    && (forall i: nat :: i < |rs| ==> if GrantedAt(rs, i) then rs[i].reply.id in w else rs[i] == Returned(Idle))
    && (forall i: nat, j: nat :: i < j && GrantedAt(rs, i) && GrantedAt(rs, j) ==> ExecutesBefore(jobs, rs[i].reply.id, rs[j].reply.id))
  }

  lemma DrainsOrdered(jobs: map<string, Job>, w: set<string>, rs: seq<Outcome>)
    requires Drains(jobs, w, rs)
    ensures OrderedAnswers(jobs, w, rs)
  {
    forall i: nat | i < |rs| ensures (GrantedAt(rs, i) <==> i < |w|) && if GrantedAt(rs, i) then rs[i].reply.id in w else rs[i] == Returned(Idle) {
      DrainsAt(jobs, w, rs, i, |rs|);
    }
    forall i: nat, j: nat | i < j && GrantedAt(rs, i) && GrantedAt(rs, j) ensures ExecutesBefore(jobs, rs[i].reply.id, rs[j].reply.id) {
      DrainsAt(jobs, w, rs, i, j);
    }
  }

  /** Claims made at one clock reading hand out exactly the waiting jobs, each once and in strictly increasing
      claim order, and after that nothing. */
  lemma QueueDrainsInOrder(sha: Sha, s: State, ops: seq<Op>, now: int)
    requires LegalRun(sha, s, ops) && forall i :: 0 <= i < |ops| ==> DrainClaim(ops[i], now)
    requires forall i :: 0 <= i < |ops| ==> Replies(sha, s, ops)[i].Returned?
    ensures OrderedAnswers(s.jobs, Waiting(sha, s.jobs, now), Replies(sha, s, ops))
  {
    ClaimsDrain(sha, s, ops, now);
    DrainsOrdered(s.jobs, Waiting(sha, s.jobs, now), Replies(sha, s, ops));
  }
}

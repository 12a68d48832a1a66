/** Conservation: what the log counts against what the table holds, per job and in total,
    and the retry budget as a measure that bounds how long a job can go on. */
module FleetCounts {
  import opened Basics
  import opened HashChain
  import opened FleetModel
  import opened FleetOps
  import opened FleetInvariant

  /** Event kinds, as far as counting goes. */
  datatype Mark = OtherMark | EnqueueMark | GrantMark | ExpiryMark | AcceptMark | FailMark
                | CheckGrantMark | CheckExpiryMark | VerdictMark

  function MarkOf(e: Event): Mark {
    match e.payload
    case PlanRecorded(_, _) => OtherMark
    case JobEnqueued(_, _, _, _, _) => EnqueueMark
    case ExecutionLeaseGranted(_, _) => GrantMark
    case ExecutionLeaseExpired(_, _) => ExpiryMark
    case ExecutionHeartbeat(_) => OtherMark
    case ExecutionReceiptAccepted(_, _) => AcceptMark
    case ExecutionFailed(_, _, _) => FailMark
    case VerificationLeaseGranted(_) => CheckGrantMark
    case VerificationLeaseExpired(_) => CheckExpiryMark
    case IndependentVerification(_) => VerdictMark
  }

  /** How many events of each kind a log holds. */
  datatype Tally = Tally(
    enqueued: int, granted: int, expired: int, accepted: int, failed: int,
    checkGranted: int, checkExpired: int, judged: int)

  const NOTHING := Tally(0, 0, 0, 0, 0, 0, 0, 0)

  function Bump(t: Tally, m: Mark): Tally {
    match m
    case OtherMark => t
    case EnqueueMark => t.(enqueued := t.enqueued + 1)
    case GrantMark => t.(granted := t.granted + 1)
    case ExpiryMark => t.(expired := t.expired + 1)
    case AcceptMark => t.(accepted := t.accepted + 1)
    case FailMark => t.(failed := t.failed + 1)
    case CheckGrantMark => t.(checkGranted := t.checkGranted + 1)
    case CheckExpiryMark => t.(checkExpired := t.checkExpired + 1)
    case VerdictMark => t.(judged := t.judged + 1)
  }

  function TallyOf(log: seq<Row<Event>>): Tally
    decreases |log|
  {
    if log == [] then NOTHING else Bump(TallyOf(log[..|log| - 1]), MarkOf(log[|log| - 1].content))
  }

  /** The tally of one job's events. */
  function TallyFor(log: seq<Row<Event>>, id: string): Tally
    decreases |log|
  {
    if log == [] then NOTHING
    else
      var t, e := TallyFor(log[..|log| - 1], id), log[|log| - 1].content;
      if e.jobId == Some(id) then Bump(t, MarkOf(e)) else t
  }

  lemma TallyAppend(sha: Sha, log: seq<Row<Event>>, e: Event, id: string)
    ensures TallyOf(AppendEvent(sha, log, e)) == Bump(TallyOf(log), MarkOf(e))
    ensures TallyFor(AppendEvent(sha, log, e), id) == if e.jobId == Some(id) then Bump(TallyFor(log, id), MarkOf(e)) else TallyFor(log, id)
  {
    var more := AppendEvent(sha, log, e);
    assert more[..|more| - 1] == log;
  }

  function One(b: bool): int {
    if b then 1 else 0
  }

  // ----- one job -----

  /** The retry measure. */
  function Rank(job: Job): int {
    match job.state
    case QUEUED => 2 * (job.order.maxAttempts - job.attempts)
    case LEASED => 2 * (job.order.maxAttempts - job.attempts) + 1
    case _ => 0
  }

  /** Events that begin or end an execution lease. */
  function LeaseEvents(t: Tally): int {
    t.granted + t.expired + t.failed + t.accepted
  }

  predicate JobBalanced(t: Tally, job: Job) {
    && t.enqueued == 1
    && t.granted == job.attempts
    && t.granted == One(job.state == LEASED) + t.expired + t.failed + t.accepted
    && t.accepted == One(job.receipt.Some?)
    && t.checkGranted == One(job.state == VERIFYING) + t.checkExpired + t.judged
    && t.judged == One(job.verification.Some?)
    && LeaseEvents(t) + Rank(job) <= 2 * job.order.maxAttempts
  }

  /** The part of the row invariant that counting needs. */
  predicate Phase(job: Job) {
    && (job.state == QUEUED || job.state == LEASED ==> job.receipt.None? && job.verification.None?)
    && (job.state == EXECUTED || job.state == VERIFYING ==> job.receipt.Some? && job.verification.None?)
    && (job.state == LEASED ==> job.attempts <= job.order.maxAttempts)
  }

  lemma JobOkPhase(sha: Sha, job: Job)
    requires JobOk(sha, job)
    ensures Phase(job)
  {
  }

  ghost predicate Balanced(s: State) {
    && (forall id :: id in s.jobs ==> JobBalanced(TallyFor(s.log, id), s.jobs[id]))
    && (forall id :: id !in s.jobs ==> TallyFor(s.log, id) == NOTHING)
  }

  predicate LeaseMark(m: Mark) {
    m == GrantMark || m == ExpiryMark || m == FailMark || m == AcceptMark
  }

  /** Each move drops the rank exactly when it begins or ends an execution lease, and never raises it. */
  lemma RankDrops(sha: Sha, id: string, job: Job, m: Move, now: int)
    requires Phase(job) && CanMove(job, m, now)
    ensures 0 <= Rank(Moved(sha, job, m, now)) <= Rank(job)
    ensures Rank(Moved(sha, job, m, now)) < Rank(job) <==> LeaseMark(MarkOf(MoveEvent(sha, id, job, m, now)))
  {
  }

  lemma MoveBalanced(sha: Sha, id: string, t: Tally, job: Job, m: Move, now: int)
    requires Phase(job) && CanMove(job, m, now) && JobBalanced(t, job)
    ensures JobBalanced(Bump(t, MarkOf(MoveEvent(sha, id, job, m, now))), Moved(sha, job, m, now))
  {
    RankDrops(sha, id, job, m, now);
  }

  /** A row rewritten by a move, with the move's event added to the log. */
  lemma StepBalanced(sha: Sha, log: seq<Row<Event>>, id: string, job: Job, m: Move, now: int)
    requires Phase(job) && CanMove(job, m, now) && JobBalanced(TallyFor(log, id), job)
    ensures JobBalanced(TallyFor(AppendEvent(sha, log, MoveEvent(sha, id, job, m, now)), id), Moved(sha, job, m, now))
  {
    TallyAppend(sha, log, MoveEvent(sha, id, job, m, now), id);
    MoveBalanced(sha, id, TallyFor(log, id), job, m, now);
  }

  lemma EffectBalancedAt(sha: Sha, s: State, c: Stamped, id: string)
    requires Inv(sha, s) && Allowed(s, c)
    requires if id in s.jobs then JobBalanced(TallyFor(s.log, id), s.jobs[id]) else TallyFor(s.log, id) == NOTHING
    ensures var t := Effect(sha, s, c);
            if id in t.jobs then JobBalanced(TallyFor(t.log, id), t.jobs[id]) else TallyFor(t.log, id) == NOTHING
  {
    match c.change
    case NewPlan(_, _, _) =>
      TallyAppend(sha, s.log, EventOf(sha, s, c), id);
    case NewJob(k, order) =>
      TallyAppend(sha, s.log, EventOf(sha, s, c), id);
    case Step(k, m) =>
      if k == id {
        JobOkPhase(sha, s.jobs[id]);
        StepBalanced(sha, s.log, id, s.jobs[id], m, c.now);
      } else {
        TallyAppend(sha, s.log, EventOf(sha, s, c), id);
      }
  }

  lemma EffectBalanced(sha: Sha, s: State, c: Stamped)
    requires Inv(sha, s) && Allowed(s, c) && Balanced(s)
    ensures Balanced(Effect(sha, s, c))
  {
    var t := Effect(sha, s, c);
    forall id ensures if id in t.jobs then JobBalanced(TallyFor(t.log, id), t.jobs[id]) else TallyFor(t.log, id) == NOTHING {
      EffectBalancedAt(sha, s, c, id);
    }
  }

  lemma {:induction false} ChangesBalanced(sha: Sha, s: State, cs: seq<Stamped>)
    requires Inv(sha, s) && AllowedRun(sha, s, cs) && Balanced(s)
    ensures Balanced(RunChanges(sha, s, cs))
    decreases |cs|
  {
    if cs != [] {
      EffectOk(sha, s, cs[0]);
      EffectBalanced(sha, s, cs[0]);
      ChangesBalanced(sha, Effect(sha, s, cs[0]), cs[1..]);
    }
  }

  /** In every reachable state, for every job: execution grants = live lease + expiries + failures + accepted
      receipts = attempts; at most one receipt and one verdict ever; verification grants = live check +
      expiries + verdicts; and the lease events spent plus the measure left fit in twice the retry budget. */
  lemma JobConservation(sha: Sha, ops: seq<Op>, id: string)
    requires LegalRun(sha, EMPTY, ops)
    ensures var s := Run(sha, EMPTY, ops);
            if id in s.jobs then JobBalanced(TallyFor(s.log, id), s.jobs[id]) else TallyFor(s.log, id) == NOTHING
  {
    ChangesBalanced(sha, EMPTY, History(sha, EMPTY, ops));
  }

  /** No job's execution leases begin or end more than 2 * max_attempts times in all, and a queued job always
      has an attempt left. */
  lemma RetriesBounded(sha: Sha, ops: seq<Op>, id: string)
    requires LegalRun(sha, EMPTY, ops) && id in Run(sha, EMPTY, ops).jobs
    ensures var s := Run(sha, EMPTY, ops);
            && LeaseEvents(TallyFor(s.log, id)) <= 2 * s.jobs[id].order.maxAttempts <= 20
            && (s.jobs[id].state == QUEUED ==> s.jobs[id].attempts < s.jobs[id].order.maxAttempts)
  {
    JobConservation(sha, ops, id);
    ReachableOk(sha, ops);
  }

  // ----- the whole fleet -----

  /** Job states, with FAILED split by whether the job holds a receipt. */
  datatype Bucket = Queued | Leased | Executed | Verifying | Verified | Blocked | FailedWithReceipt | FailedWithout

  function BucketOf(job: Job): Bucket {
    match job.state
    case QUEUED => Queued
    case LEASED => Leased
    case EXECUTED => Executed
    case VERIFYING => Verifying
    case VERIFIED => Bucket.Verified
    case BLOCKED => Blocked
    case FAILED => if job.receipt.Some? then FailedWithReceipt else FailedWithout
  }

  function InBucket(jobs: map<string, Job>, b: Bucket): set<string> {
    set id | id in jobs && BucketOf(jobs[id]) == b
  }

  function Held(jobs: map<string, Job>, b: Bucket): int {
    |InBucket(jobs, b)|
  }

  lemma CardinalityUpdate<T>(before: set<T>, after: set<T>, x: T)
    requires forall y :: y != x ==> (y in before <==> y in after)
    ensures |after| == |before| - One(x in before) + One(x in after)
  {
    var rest := before - {x};
    assert after - {x} == rest;
    if x in before { assert before == rest + {x}; } else { assert before == rest; }
    if x in after { assert after == rest + {x}; } else { assert after == rest; }
  }

  /** Writing one row moves one job from its old bucket, if it had one, to its new one. */
  lemma HeldUpdate(jobs: map<string, Job>, id: string, job: Job, b: Bucket)
    ensures Held(jobs[id := job], b)
            == Held(jobs, b) - One(id in jobs && BucketOf(jobs[id]) == b) + One(BucketOf(job) == b)
  {
    CardinalityUpdate(InBucket(jobs, b), InBucket(jobs[id := job], b), id);
  }

  ghost function Attempts(jobs: map<string, Job>): int {
    Sum(jobs.Keys, id => if id in jobs then jobs[id].attempts else 0)
  }

  lemma AttemptsUpdate(jobs: map<string, Job>, id: string, job: Job)
    ensures Attempts(jobs[id := job]) == Attempts(jobs) + job.attempts - (if id in jobs then jobs[id].attempts else 0)
  {
    var next := jobs[id := job];
    var f := k => if k in jobs then jobs[k].attempts else 0;
    var g := k => if k in next then next[k].attempts else 0;
    assert next.Keys == jobs.Keys + {id};
    if id in jobs {
      assert next.Keys == jobs.Keys;
      SumPointChange(jobs.Keys, f, g, id);
    } else {
      SumSplit(next.Keys, g, id);
      assert next.Keys - {id} == jobs.Keys;
      SumCongruence(jobs.Keys, f, g);
    }
  }

  /** How many jobs each bucket holds. */
  datatype Census = Census(
    queued: int, leased: int, executed: int, verifying: int,
    verified: int, blocked: int, failedWithReceipt: int, failedWithout: int)

  function CensusOf(jobs: map<string, Job>): Census {
    Census(Held(jobs, Queued), Held(jobs, Leased), Held(jobs, Executed), Held(jobs, Verifying),
           Held(jobs, Bucket.Verified), Held(jobs, Blocked), Held(jobs, FailedWithReceipt), Held(jobs, FailedWithout))
  }

  function Adjusted(c: Census, b: Bucket, n: int): Census {
    match b
    case Queued => c.(queued := c.queued + n)
    case Leased => c.(leased := c.leased + n)
    case Executed => c.(executed := c.executed + n)
    case Verifying => c.(verifying := c.verifying + n)
    case Verified => c.(verified := c.verified + n)
    case Blocked => c.(blocked := c.blocked + n)
    case FailedWithReceipt => c.(failedWithReceipt := c.failedWithReceipt + n)
    case FailedWithout => c.(failedWithout := c.failedWithout + n)
  }

  lemma CensusUpdate(jobs: map<string, Job>, id: string, job: Job)
    ensures CensusOf(jobs[id := job])
            == Adjusted(if id in jobs then Adjusted(CensusOf(jobs), BucketOf(jobs[id]), -1) else CensusOf(jobs), BucketOf(job), 1)
  {
    HeldUpdate(jobs, id, job, Queued);
    HeldUpdate(jobs, id, job, Leased);
    HeldUpdate(jobs, id, job, Executed);
    HeldUpdate(jobs, id, job, Verifying);
    HeldUpdate(jobs, id, job, Bucket.Verified);
    HeldUpdate(jobs, id, job, Blocked);
    HeldUpdate(jobs, id, job, FailedWithReceipt);
    HeldUpdate(jobs, id, job, FailedWithout);
  }

  /** The books: tally t of the log, census c of the buckets, the sum of all attempts, the number of rows. */
  predicate BooksBalance(t: Tally, c: Census, attempts: int, rows: int) {
    && t.granted == c.leased + t.expired + t.failed + t.accepted
    && t.granted == attempts
    && t.checkGranted == c.verifying + t.checkExpired + t.judged
    && t.accepted == c.executed + c.verifying + c.verified + c.blocked + c.failedWithReceipt
    && t.judged == c.verified + c.blocked + c.failedWithReceipt
    && t.enqueued == rows
    && rows == c.queued + c.leased + c.executed + c.verifying + c.verified + c.blocked + c.failedWithReceipt + c.failedWithout
  }

  ghost predicate Conserved(s: State) {
    BooksBalance(TallyOf(s.log), CensusOf(s.jobs), Attempts(s.jobs), |s.jobs|)
  }

  /** The flow diagram: where an event of each kind takes a job from each bucket. */
  function Passages(k: Mark, from: Bucket): set<Bucket> {
    match k
    case GrantMark => if from == Queued then {Leased} else {}
    case ExpiryMark => if from == Leased then {Queued, FailedWithout} else {}
    case FailMark => if from == Leased then {Queued, FailedWithout} else {}
    case AcceptMark => if from == Leased then {Executed} else {}
    case CheckGrantMark => if from == Executed then {Verifying} else {}
    case CheckExpiryMark => if from == Verifying then {Executed} else {}
    case VerdictMark => if from == Verifying then {Bucket.Verified, Blocked, FailedWithReceipt} else {}
    case OtherMark => {from}
    case EnqueueMark => {}
  }

  /** A passage along the diagram; only a grant uses up an attempt. */
  predicate Flow(from: Bucket, to: Bucket, k: Mark, attempts: int) {
    to in Passages(k, from) && attempts == One(k == GrantMark)
  }

  /** Every move follows the flow diagram. */
  lemma MoveFlows(sha: Sha, id: string, job: Job, m: Move, now: int)
    requires Phase(job) && CanMove(job, m, now)
    ensures var next := Moved(sha, job, m, now);
            Flow(BucketOf(job), BucketOf(next), MarkOf(MoveEvent(sha, id, job, m, now)), next.attempts - job.attempts)
  {
  }

  lemma FlowBalances(from: Bucket, to: Bucket, k: Mark, d: int, t: Tally, c: Census, c': Census, attempts: int, attempts': int, rows: int)
    requires Flow(from, to, k, d) && BooksBalance(t, c, attempts, rows)
    requires c' == Adjusted(Adjusted(c, from, -1), to, 1) && attempts' == attempts + d
    ensures BooksBalance(Bump(t, k), c', attempts', rows)
  {
  }

  lemma StepConserved(t: Tally, jobs: map<string, Job>, id: string, job: Job, k: Mark)
    requires id in jobs && Flow(BucketOf(jobs[id]), BucketOf(job), k, job.attempts - jobs[id].attempts)
    requires BooksBalance(t, CensusOf(jobs), Attempts(jobs), |jobs|)
    ensures BooksBalance(Bump(t, k), CensusOf(jobs[id := job]), Attempts(jobs[id := job]), |jobs[id := job]|)
  {
    AttemptsUpdate(jobs, id, job);
    assert jobs[id := job].Keys == jobs.Keys;
    assert |jobs[id := job]| == |jobs|;
    CensusUpdate(jobs, id, job);
    FlowBalances(BucketOf(jobs[id]), BucketOf(job), k, job.attempts - jobs[id].attempts, t, CensusOf(jobs), CensusOf(jobs[id := job]),
                 Attempts(jobs), Attempts(jobs[id := job]), |jobs[id := job]|);
  }

  lemma NewJobConserved(t: Tally, jobs: map<string, Job>, id: string, job: Job)
    requires id !in jobs && job.state == QUEUED && job.attempts == 0
    requires BooksBalance(t, CensusOf(jobs), Attempts(jobs), |jobs|)
    ensures BooksBalance(Bump(t, EnqueueMark), CensusOf(jobs[id := job]), Attempts(jobs[id := job]), |jobs[id := job]|)
  {
    AttemptsUpdate(jobs, id, job);
    assert jobs[id := job].Keys == jobs.Keys + {id};
    assert |jobs[id := job]| == |jobs| + 1;
    CensusUpdate(jobs, id, job);
  }

  lemma EffectConserved(sha: Sha, s: State, c: Stamped)
    requires Inv(sha, s) && Allowed(s, c) && Conserved(s)
    ensures Conserved(Effect(sha, s, c))
  {
    var t, e := Effect(sha, s, c), EventOf(sha, s, c);
    TallyAppend(sha, s.log, e, "");
    match c.change
    case NewPlan(_, _, _) =>
    case NewJob(id, order) =>
      NewJobConserved(TallyOf(s.log), s.jobs, id, FreshJob(order, c.now));
    case Step(id, m) =>
      JobOkPhase(sha, s.jobs[id]);
      MoveFlows(sha, id, s.jobs[id], m, c.now);
      StepConserved(TallyOf(s.log), s.jobs, id, t.jobs[id], MarkOf(e));
  }

  lemma {:induction false} ChangesConserved(sha: Sha, s: State, cs: seq<Stamped>)
    requires Inv(sha, s) && AllowedRun(sha, s, cs) && Conserved(s)
    ensures Conserved(RunChanges(sha, s, cs))
    decreases |cs|
  {
    if cs != [] {
      EffectOk(sha, s, cs[0]);
      EffectConserved(sha, s, cs[0]);
      ChangesConserved(sha, Effect(sha, s, cs[0]), cs[1..]);
    }
  }

  /** In every reachable state the flow through the fleet balances. */
  lemma FleetConservation(sha: Sha, ops: seq<Op>)
    requires LegalRun(sha, EMPTY, ops)
    ensures Conserved(Run(sha, EMPTY, ops))
  {
    ChangesConserved(sha, EMPTY, History(sha, EMPTY, ops));
  }

  // ----- the statistics query -----

  function InState(jobs: map<string, Job>, st: JobState): set<string> {
    set id | id in jobs && jobs[id].state == st
  }

  const STATES: set<JobState> := {QUEUED, LEASED, EXECUTED, VERIFYING, VERIFIED, FAILED, BLOCKED}

  datatype Stats = Stats(counts: map<JobState, int>, eventCount: int, eventHead: Option<Digest>)

  /** Rows per state, the length of the log, and its head. */
  function StatsOf(s: State): Stats {
    Stats(map st | st in STATES :: |InState(s.jobs, st)|, |s.log|, if s.log == [] then None else Some(s.log[|s.log| - 1].hash))
  }

  /** Zero for every state, then what grouping the rows by state gives. */
  method CountStates(jobs: map<string, Job>) returns (counts: map<JobState, int>)
    ensures counts == map st | st in STATES :: |InState(jobs, st)|
  {
    counts := map st | st in STATES :: 0;
    var present := set id | id in jobs :: jobs[id].state;
    forall st | st !in present ensures |InState(jobs, st)| == 0 { assert InState(jobs, st) == {}; }
    while present != {}
      invariant counts.Keys == STATES
      invariant forall st :: st in STATES && st !in present ==> counts[st] == |InState(jobs, st)|
      decreases |present|
    {
      var st :| st in present;
      counts := counts[st := |InState(jobs, st)|];
      present := present - {st};
    }
  }

  function Total(counts: map<JobState, int>): int
    requires counts.Keys == STATES
  {
    counts[QUEUED] + counts[LEASED] + counts[EXECUTED] + counts[VERIFYING] + counts[VERIFIED] + counts[FAILED] + counts[BLOCKED]
  }

  lemma StatesAndBuckets(jobs: map<string, Job>)
    ensures |InState(jobs, QUEUED)| == Held(jobs, Queued) && |InState(jobs, LEASED)| == Held(jobs, Leased)
    ensures |InState(jobs, EXECUTED)| == Held(jobs, Executed) && |InState(jobs, VERIFYING)| == Held(jobs, Verifying)
    ensures |InState(jobs, VERIFIED)| == Held(jobs, Bucket.Verified) && |InState(jobs, BLOCKED)| == Held(jobs, Blocked)
    ensures |InState(jobs, FAILED)| == Held(jobs, FailedWithReceipt) + Held(jobs, FailedWithout)
  {
    assert InState(jobs, QUEUED) == InBucket(jobs, Queued);
    assert InState(jobs, LEASED) == InBucket(jobs, Leased);
    assert InState(jobs, EXECUTED) == InBucket(jobs, Executed);
    assert InState(jobs, VERIFYING) == InBucket(jobs, Verifying);
    assert InState(jobs, VERIFIED) == InBucket(jobs, Bucket.Verified);
    assert InState(jobs, BLOCKED) == InBucket(jobs, Blocked);
    assert InState(jobs, FAILED) == InBucket(jobs, FailedWithReceipt) + InBucket(jobs, FailedWithout);
  }

  lemma StatsTotal(s: State)
    ensures var c := CensusOf(s.jobs);
            Total(StatsOf(s).counts) == c.queued + c.leased + c.executed + c.verifying + c.verified + c.blocked + c.failedWithReceipt + c.failedWithout
    ensures StatsOf(s).counts[LEASED] == CensusOf(s.jobs).leased && StatsOf(s).counts[VERIFYING] == CensusOf(s.jobs).verifying
  {
    StatesAndBuckets(s.jobs);
  }

  /** The counts add up to the jobs ever enqueued, the LEASED and VERIFYING counts are grants minus outcomes, and a
      head is reported exactly when there are events. */
  predicate StatsBalance(r: Stats, t: Tally) {
    && r.counts.Keys == STATES && Total(r.counts) == t.enqueued
    && r.counts[LEASED] == t.granted - t.expired - t.failed - t.accepted
    && r.counts[VERIFYING] == t.checkGranted - t.checkExpired - t.judged
    && (r.eventHead == None <==> r.eventCount == 0)
  }

  lemma StatsBalanced(s: State)
    requires Conserved(s)
    ensures StatsBalance(StatsOf(s), TallyOf(s.log))
  {
    StatsTotal(s);
  }

  /** In every reachable state the reported counts are a census. */
  lemma StatsAreCensus(sha: Sha, ops: seq<Op>, s: State)
    requires LegalRun(sha, EMPTY, ops) && s == Run(sha, EMPTY, ops)
    ensures StatsBalance(StatsOf(s), TallyOf(s.log))
  {
    FleetConservation(sha, ops);
    StatsBalanced(s);
  }
}

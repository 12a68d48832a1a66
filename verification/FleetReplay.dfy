/** The event log explains the job table: folding the events in order rebuilds every row. */
module FleetReplay {
  import opened Basics
  import opened HashChain
  import opened FleetModel
  import opened FleetOps
  import opened FleetInvariant

  /** The recoverable part of a row. The retry time, the last error text, the lease token hashes, the
      submitted command and the receipt body are not in the log. */
  datatype View = View(
    planId: string, workspaceId: string, capabilityId: string, priority: int, maxAttempts: int,
    state: JobState, attempts: int, createdAt: int, updatedAt: int,
    worker: Option<string>, leaseExpires: Option<int>, receiptSha: Option<Digest>,
    verifier: Option<string>, checkExpires: Option<int>, verification: Option<Verification>)

  function ViewOf(job: Job): View {
    View(job.order.planId, job.order.workspaceId, job.order.capabilityId, job.order.priority, job.order.maxAttempts,
         job.state, job.attempts, job.createdAt, job.updatedAt, job.worker, job.leaseExpires, job.receiptSha,
         job.verifier, job.checkExpires, job.verification)
  }

  function Table(jobs: map<string, Job>): map<string, View> {
    map id | id in jobs :: ViewOf(jobs[id])
  }

  /** What one event says about the row it names, read from the event alone. */
  function Replayed(v: View, e: Event): View {
    var w := v.(updatedAt := e.createdAt);
    match e.payload
    case PlanRecorded(_, _) => v
    case JobEnqueued(_, _, _, _, _) => v
    case ExecutionLeaseGranted(expires, attempt) =>
      w.(state := LEASED, attempts := attempt, worker := Some(e.actor), leaseExpires := expires)
    case ExecutionLeaseExpired(_, next) => w.(state := next, worker := None, leaseExpires := None)
    case ExecutionHeartbeat(expires) => w.(leaseExpires := expires)
    case ExecutionReceiptAccepted(digest, _) => w.(state := EXECUTED, receiptSha := Some(digest), leaseExpires := None)
    case ExecutionFailed(next, _, _) => w.(state := next, worker := None, leaseExpires := None)
    case VerificationLeaseGranted(expires) => w.(state := VERIFYING, verifier := Some(e.actor), checkExpires := expires)
    case VerificationLeaseExpired(_) => w.(state := EXECUTED, verifier := None, checkExpires := None)
    case IndependentVerification(r) => w.(state := r.verdict, verification := Some(r), checkExpires := None)
  }

  function ReplayEvent(views: map<string, View>, e: Event): map<string, View> {
    if e.jobId.None? then views
    else
      var id := e.jobId.value;
      match e.payload
      case JobEnqueued(plan, workspaceId, capabilityId, priority, maxAttempts) =>
        views[id := View(plan, workspaceId, capabilityId, priority, maxAttempts, QUEUED, 0, e.createdAt, e.createdAt,
                         None, None, None, None, None, None)]
      case _ => if id in views then views[id := Replayed(views[id], e)] else views
  }

  function Replay(log: seq<Row<Event>>): map<string, View>
    decreases |log|
  {
    if log == [] then map[] else ReplayEvent(Replay(log[..|log| - 1]), log[|log| - 1].content)
  }

  /** The event of a move tells the new row from the old one. */
  lemma MoveReplays(sha: Sha, id: string, job: Job, m: Move, now: int)
    requires CanMove(job, m, now)
    ensures Replayed(ViewOf(job), MoveEvent(sha, id, job, m, now)) == ViewOf(Moved(sha, job, m, now))
  {
  }

  lemma TableUpdate(jobs: map<string, Job>, id: string, job: Job)
    ensures Table(jobs[id := job]) == Table(jobs)[id := ViewOf(job)]
  {
  }

  lemma EffectReplays(sha: Sha, s: State, c: Stamped)
    requires Allowed(s, c) && Replay(s.log) == Table(s.jobs)
    ensures Replay(Effect(sha, s, c).log) == Table(Effect(sha, s, c).jobs)
  {
    ReplayAppend(sha, s.log, EventOf(sha, s, c));
    match c.change
    case NewPlan(_, _, _) =>
    case NewJob(id, order) =>
      TableUpdate(s.jobs, id, FreshJob(order, c.now));
    case Step(id, m) =>
      MoveReplays(sha, id, s.jobs[id], m, c.now);
      TableUpdate(s.jobs, id, Moved(sha, s.jobs[id], m, c.now));
      assert !MoveEvent(sha, id, s.jobs[id], m, c.now).payload.JobEnqueued?;
  }

  lemma ReplayAppend(sha: Sha, log: seq<Row<Event>>, e: Event)
    ensures Replay(AppendEvent(sha, log, e)) == ReplayEvent(Replay(log), e)
  {
    var more := AppendEvent(sha, log, e);
    assert more[..|more| - 1] == log;
  }

  lemma {:induction false} ChangesReplay(sha: Sha, s: State, cs: seq<Stamped>)
    requires AllowedRun(sha, s, cs) && Replay(s.log) == Table(s.jobs)
    ensures Replay(RunChanges(sha, s, cs).log) == Table(RunChanges(sha, s, cs).jobs)
    decreases |cs|
  {
    if cs != [] {
      EffectReplays(sha, s, cs[0]);
      ChangesReplay(sha, Effect(sha, s, cs[0]), cs[1..]);
    }
  }

  /** In every reachable state the log determines the table. */
  lemma LogDeterminesTable(sha: Sha, ops: seq<Op>)
    requires LegalRun(sha, EMPTY, ops)
    ensures Replay(Run(sha, EMPTY, ops).log) == Table(Run(sha, EMPTY, ops).jobs)
  {
    ChangesReplay(sha, EMPTY, History(sha, EMPTY, ops));
  }

  lemma {:induction false} SameContentSameReplay(a: seq<Row<Event>>, b: seq<Row<Event>>)
    requires |a| == |b| && forall k :: 0 <= k < |a| ==> a[k].content == b[k].content
    ensures Replay(a) == Replay(b)
    decreases |a|
  {
    if a != [] { SameContentSameReplay(a[..|a| - 1], b[..|b| - 1]); }
  }

  /** Two coordinators whose event heads are equal agree on every recoverable column of every job,
      provided the hash has no collision among their events. */
  lemma EqualHeadsEqualTables(sha: Sha, ops1: seq<Op>, ops2: seq<Op>)
    requires LegalRun(sha, EMPTY, ops1) && LegalRun(sha, EMPTY, ops2)
    requires CollisionFree(sha.event, Run(sha, EMPTY, ops1).log + Run(sha, EMPTY, ops2).log)
    requires Head(Run(sha, EMPTY, ops1).log) == Head(Run(sha, EMPTY, ops2).log)
    ensures Table(Run(sha, EMPTY, ops1).jobs) == Table(Run(sha, EMPTY, ops2).jobs)
  {
    var a, b := Run(sha, EMPTY, ops1).log, Run(sha, EMPTY, ops2).log;
    ReachableOk(sha, ops1);
    ReachableOk(sha, ops2);
    EqualHeadsEqualLogs(sha.event, a, b);
    SameContentSameReplay(a, b);
    LogDeterminesTable(sha, ops1);
    LogDeterminesTable(sha, ops2);
  }
}

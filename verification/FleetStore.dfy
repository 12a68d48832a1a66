/** The SQLite store as an object: three tables, and one method for each transaction.
    Every method is proved to leave exactly the state and answer of the operation it implements,
    including the rollback when an insert breaks a constraint. */
module FleetStore {
  import opened Basics
  import opened Json
  import opened HashChain
  import opened FleetModel
  import opened FleetOps
  import opened FleetInvariant
  import opened FleetEffects
  import FleetCounts

  // ----- the ordered selections have exactly one answer -----

  lemma ExecutesBeforeTotal(jobs: map<string, Job>, a: string, b: string)
    requires a in jobs && b in jobs && a != b
    ensures ExecutesBefore(jobs, a, b) || ExecutesBefore(jobs, b, a)
    ensures !(ExecutesBefore(jobs, a, b) && ExecutesBefore(jobs, b, a))
  {
    BelowTotal(a, b);
    if Below(a, b) && Below(b, a) { BelowTransitive(a, b, a); }
    BelowIrreflexive(a);
  }

  lemma ExecutesBeforeTransitive(jobs: map<string, Job>, a: string, b: string, c: string)
    requires ExecutesBefore(jobs, a, b) && ExecutesBefore(jobs, b, c)
    ensures ExecutesBefore(jobs, a, c)
  {
    if Below(a, b) && Below(b, c) { BelowTransitive(a, b, c); }
  }

  lemma ChecksBeforeTotal(jobs: map<string, Job>, a: string, b: string)
    requires a in jobs && b in jobs && a != b
    ensures ChecksBefore(jobs, a, b) || ChecksBefore(jobs, b, a)
    ensures !(ChecksBefore(jobs, a, b) && ChecksBefore(jobs, b, a))
  {
    BelowTotal(a, b);
    if Below(a, b) && Below(b, a) { BelowTransitive(a, b, a); }
    BelowIrreflexive(a);
  }

  lemma ChecksBeforeTransitive(jobs: map<string, Job>, a: string, b: string, c: string)
    requires ChecksBefore(jobs, a, b) && ChecksBefore(jobs, b, c)
    ensures ChecksBefore(jobs, a, c)
  {
    if Below(a, b) && Below(b, c) { BelowTransitive(a, b, c); }
  }

  /** A claim finds a job exactly when one is claimable, and there is one right answer. */
  lemma NextToExecuteExists(jobs: map<string, Job>, now: int) returns (next: Option<string>)
    ensures next.None? <==> forall id :: id in jobs ==> !Claimable(jobs[id], now)
    ensures next.Some? ==> NextToExecute(jobs, now, next.value)
    ensures forall id :: NextToExecute(jobs, now, id) ==> next == Some(id)
  {
    var candidates := set id | id in jobs && Claimable(jobs[id], now);
    if candidates == {} {
      assert forall id :: id in jobs ==> id !in candidates;
      next := None;
    } else {
      var less := (a: string, b: string) => ExecutesBefore(jobs, a, b);
      forall a, b, c | a in candidates && b in candidates && c in candidates && less(a, b) && less(b, c) ensures less(a, c) {
        ExecutesBeforeTransitive(jobs, a, b, c);
      }
      forall a, b | a in candidates && b in candidates && a != b ensures less(a, b) || less(b, a) {
        ExecutesBeforeTotal(jobs, a, b);
      }
      forall a | a in candidates ensures !less(a, a) { BelowIrreflexive(a); }
      var m := LeastExists(less, candidates);
      next := Some(m);
      forall k | k in jobs && k != m && Claimable(jobs[k], now) ensures ExecutesBefore(jobs, m, k) {
        assert k in candidates && less(m, k);
      }
      forall id | NextToExecute(jobs, now, id) ensures id == m {
        if id != m { ExecutesBeforeTotal(jobs, id, m); }
      }
    }
  }

  lemma NextToCheckExists(jobs: map<string, Job>, verifier: string) returns (next: Option<string>)
    ensures next.None? <==> forall id :: id in jobs ==> !CheckableBy(jobs[id], verifier)
    ensures next.Some? ==> NextToCheck(jobs, verifier, next.value)
    ensures forall id :: NextToCheck(jobs, verifier, id) ==> next == Some(id)
  {
    var candidates := set id | id in jobs && CheckableBy(jobs[id], verifier);
    if candidates == {} {
      assert forall id :: id in jobs ==> id !in candidates;
      next := None;
    } else {
      var less := (a: string, b: string) => ChecksBefore(jobs, a, b);
      forall a, b, c | a in candidates && b in candidates && c in candidates && less(a, b) && less(b, c) ensures less(a, c) {
        ChecksBeforeTransitive(jobs, a, b, c);
      }
      forall a, b | a in candidates && b in candidates && a != b ensures less(a, b) || less(b, a) {
        ChecksBeforeTotal(jobs, a, b);
      }
      forall a | a in candidates ensures !less(a, a) { BelowIrreflexive(a); }
      var m := LeastExists(less, candidates);
      next := Some(m);
      forall k | k in jobs && k != m && CheckableBy(jobs[k], verifier) ensures ChecksBefore(jobs, m, k) {
        assert k in candidates && less(m, k);
      }
      forall id | NextToCheck(jobs, verifier, id) ensures id == m {
        if id != m { ChecksBeforeTotal(jobs, id, m); }
      }
    }
  }

  // ----- what a transaction in progress has done so far -----

  lemma {:induction false} ReapChangesSnoc(jobs: map<string, Job>, scan: seq<string>, id: string, now: int)
    requires forall k :: k in scan ==> k in jobs
    requires id in jobs
    ensures ReapChanges(jobs, scan + [id], now) == ReapChanges(jobs, scan, now) + [At(Step(id, ReapMove(jobs[id])), now)]
    decreases |scan|
  {
    if scan == [] {
      assert [id][1..] == [];
    } else {
      assert (scan + [id])[1..] == scan[1..] + [id];
      ReapChangesSnoc(jobs, scan[1..], id, now);
    }
  }

  /** One more reaped row: the loop's next state. */
  lemma ReapNext(sha: Sha, s: State, scan: seq<string>, i: nat, now: int)
    requires Enumerates(scan, ExpiredIds(s.jobs, now)) && i < |scan|
    ensures var done := ReapChanges(s.jobs, scan[..i], now);
            var c := At(Step(scan[i], ReapMove(s.jobs[scan[i]])), now);
            && AllowedRun(sha, s, done)
            && var t := RunChanges(sha, s, done);
            && scan[i] in t.jobs && t.jobs[scan[i]] == s.jobs[scan[i]] && t.plans == s.plans
            && Allowed(t, c)
            && AllowedRun(sha, s, ReapChanges(s.jobs, scan[..i + 1], now))
            && RunChanges(sha, s, ReapChanges(s.jobs, scan[..i + 1], now)) == Effect(sha, t, c)
  {
    var done := ReapChanges(s.jobs, scan[..i], now);
    var c := At(Step(scan[i], ReapMove(s.jobs[scan[i]])), now);
    ReapLoop(sha, s, s.jobs, scan[..i], now);
    var t := RunChanges(sha, s, done);
    assert scan[i] !in scan[..i];
    assert Allowed(t, c);
    assert scan[..i + 1] == scan[..i] + [scan[i]];
    ReapChangesSnoc(s.jobs, scan[..i], scan[i], now);
    assert [c][1..] == [];
    assert AllowedRun(sha, t, [c]);
    RunConcat(sha, s, done, [c]);
  }

  lemma PrefixUnique(a: seq<Row<Event>>, b: seq<Row<Event>>)
    requires a <= b && UniqueHashes(b)
    ensures UniqueHashes(a)
  {
    forall i, j | 0 <= i < j < |a| ensures a[i].hash != a[j].hash { assert a[i] == b[i] && a[j] == b[j]; }
  }

  lemma {:induction false} ReapPrefixGrows(sha: Sha, s: State, scan: seq<string>, i: nat, now: int)
    requires Enumerates(scan, ExpiredIds(s.jobs, now)) && i <= |scan|
    ensures AllowedRun(sha, s, ReapChanges(s.jobs, scan[..i], now)) && AllowedRun(sha, s, ReapChanges(s.jobs, scan, now))
    ensures RunChanges(sha, s, ReapChanges(s.jobs, scan[..i], now)).log <= RunChanges(sha, s, ReapChanges(s.jobs, scan, now)).log
    decreases |scan| - i
  {
    ReapIsPointwise(sha, s, scan, now);
    if i == |scan| {
      assert scan[..i] == scan;
    } else {
      ReapNext(sha, s, scan, i, now);
      ReapPrefixGrows(sha, s, scan, i + 1, now);
    }
  }

  /** The state a claim's reaping leaves. */
  ghost function AfterReap(sha: Sha, s: State, scan: seq<string>, now: int): (t: State)
    requires Enumerates(scan, ExpiredIds(s.jobs, now))
    ensures t.jobs == Reaped(sha, s.jobs, now)
  {
    ReapIsPointwise(sha, s, scan, now);
    RunChanges(sha, s, ReapChanges(s.jobs, scan, now))
  }

  /** What a claim leaves when it grants `c` after reaping. */
  lemma GrantAfterReap(sha: Sha, s: State, op: Op, c: Stamped)
    requires IsClaim(op) && Legal(s, op)
    requires Decide(sha, s, op).Commit? && Decide(sha, s, op).changes == ReapChanges(s.jobs, op.scan, op.now) + [c]
    requires Allowed(AfterReap(sha, s, op.scan, op.now), c)
    ensures var t := AfterReap(sha, s, op.scan, op.now);
            Exec(sha, s, op) == (if UniqueHashes(t.log) then Settled(s, Effect(sha, t, c), Decide(sha, s, op).reply)
                                 else (s, Raised(IntegrityError)))
  {
    var reap := ReapChanges(s.jobs, op.scan, op.now);
    ReapIsPointwise(sha, s, op.scan, op.now);
    var t := AfterReap(sha, s, op.scan, op.now);
    assert [c][1..] == [];
    var u := Effect(sha, t, c);
    assert RunChanges(sha, u, []) == u;
    assert AllowedRun(sha, t, [c]);
    RunConcat(sha, s, reap, [c]);
    assert t.log <= u.log;
    if UniqueHashes(u.log) { PrefixUnique(t.log, u.log); }
  }

  lemma IdleAfterReap(sha: Sha, s: State, op: Op)
    requires IsClaim(op) && Legal(s, op) && Decide(sha, s, op) == Commit(ReapChanges(s.jobs, op.scan, op.now), Idle)
    ensures Exec(sha, s, op) == Settled(s, AfterReap(sha, s, op.scan, op.now), Idle)
  {
  }

  lemma ClaimExecutionResult(sha: Sha, s: State, worker: string, ttl: int, token: string, scan: seq<string>, now: int)
    returns (next: Option<string>)
    requires Enumerates(scan, ExpiredIds(s.jobs, now)) && OwnerOk(worker) && 5 <= ttl <= 300
    ensures var t := AfterReap(sha, s, scan, now);
            var r := Exec(sha, s, Op.ClaimExecution(worker, ttl, token, scan, now));
            && (next.None? <==> forall k :: k in t.jobs ==> !Claimable(t.jobs[k], now))
            && (next.Some? ==> NextToExecute(t.jobs, now, next.value))
            && (forall k :: NextToExecute(t.jobs, now, k) ==> next == Some(k))
            && (!UniqueHashes(t.log) ==> r == (s, Raised(IntegrityError)))
            && (UniqueHashes(t.log) && next.None? ==> r == (t, Returned(Idle)))
            && (UniqueHashes(t.log) && next.Some? ==>
                  var c := At(Step(next.value, Grant(worker, sha.token(token), now + ttl)), now);
                  Allowed(t, c) && r == Settled(s, Effect(sha, t, c), Granted(next.value, worker, token, now + ttl)))
  {
    var op := Op.ClaimExecution(worker, ttl, token, scan, now);
    var t := AfterReap(sha, s, scan, now);
    next := NextToExecuteExists(t.jobs, now);
    if next.Some? {
      var c := At(Step(next.value, Grant(worker, sha.token(token), now + ttl)), now);
      assert Decide(sha, s, op) == Commit(ReapChanges(s.jobs, scan, now) + [c], Granted(next.value, worker, token, now + ttl));
      GrantAfterReap(sha, s, op, c);
    } else {
      IdleAfterReap(sha, s, op);
    }
  }

  lemma ClaimVerificationResult(sha: Sha, s: State, verifier: string, ttl: int, token: string, scan: seq<string>, now: int)
    returns (next: Option<string>)
    requires Enumerates(scan, ExpiredIds(s.jobs, now)) && OwnerOk(verifier)
    ensures var t := AfterReap(sha, s, scan, now);
            var r := Exec(sha, s, Op.ClaimVerification(verifier, ttl, token, scan, now));
            && (next.None? <==> forall k :: k in t.jobs ==> !CheckableBy(t.jobs[k], verifier))
            && (next.Some? ==> NextToCheck(t.jobs, verifier, next.value))
            && (forall k :: NextToCheck(t.jobs, verifier, k) ==> next == Some(k))
            && (!UniqueHashes(t.log) ==> r == (s, Raised(IntegrityError)))
            && (UniqueHashes(t.log) && next.None? ==> r == (t, Returned(Idle)))
            && (UniqueHashes(t.log) && next.Some? ==>
                  var c := At(Step(next.value, Assign(verifier, sha.token(token), now + ttl)), now);
                  Allowed(t, c) && r == Settled(s, Effect(sha, t, c), Granted(next.value, verifier, token, now + ttl)))
  {
    var op := Op.ClaimVerification(verifier, ttl, token, scan, now);
    var t := AfterReap(sha, s, scan, now);
    next := NextToCheckExists(t.jobs, verifier);
    if next.Some? {
      var c := At(Step(next.value, Assign(verifier, sha.token(token), now + ttl)), now);
      assert Decide(sha, s, op) == Commit(ReapChanges(s.jobs, scan, now) + [c], Granted(next.value, verifier, token, now + ttl));
      GrantAfterReap(sha, s, op, c);
    } else {
      IdleAfterReap(sha, s, op);
    }
  }

  /** What a one-change operation leaves. */
  lemma OneResult(sha: Sha, s: State, op: Op)
    requires !IsClaim(op) && Decide(sha, s, op).Commit?
    ensures |Decide(sha, s, op).changes| == 1 && Allowed(s, Decide(sha, s, op).changes[0])
    ensures Exec(sha, s, op) == Settled(s, Effect(sha, s, Decide(sha, s, op).changes[0]), Decide(sha, s, op).reply)
  {
    var d := Decide(sha, s, op);
    OneAllowed(sha, s, op);
    assert d.changes[1..] == [];
    assert RunChanges(sha, Effect(sha, s, d.changes[0]), []) == Effect(sha, s, d.changes[0]);
  }

  // ----- the claims, spelled out -----

  lemma ReapSpelled(sha: Sha, jobs: map<string, Job>, now: int)
    ensures Reaped(sha, jobs, now) == AllTakenBack(jobs, now)
  {
  }

  lemma OrderSpelled(jobs: map<string, Job>, now: int, verifier: string, id: string)
    ensures NextToExecute(jobs, now, id) <==> FirstInLine(jobs, now, id)
    ensures NextToCheck(jobs, verifier, id) <==> FirstToCheck(jobs, verifier, id)
  {
  }

  lemma LoggedOneMore(sha: Sha, s: State, scan: seq<string>, i: nat, now: int, before: State, after: State)
    requires i < |scan| && scan[i] in s.jobs && LoggedAfterReaping(sha, s, scan[..i], now, before, [])
    requires after.log == AppendEvent(sha, before.log, TakenBackEvent(scan[i], s.jobs[scan[i]], now))
    ensures LoggedAfterReaping(sha, s, scan[..i + 1], now, after, [])
  {
    FollowsOneMore(sha, before.log, |s.log|, TakenBackEvent(scan[i], s.jobs[scan[i]], now));
    forall k | 0 <= k < i + 1
      ensures scan[k] in s.jobs && after.log[|s.log| + k].content == TakenBackEvent(scan[k], s.jobs[scan[k]], now)
    {
      if k < i { assert scan[..i][k] == scan[k] && after.log[|s.log| + k] == before.log[|s.log| + k]; }
    }
  }

  lemma FollowsOneMore(sha: Sha, log: Log, start: nat, e: Event)
    requires start <= |log| && Follows(sha, log, start)
    ensures Follows(sha, AppendEvent(sha, log, e), start)
  {
    var more := AppendEvent(sha, log, e);
    forall i | start <= i < |more| ensures FollowsAt(sha, more, i) {
      if i < |log| { assert FollowsAt(sha, log, i) && more[..i] == log[..i] && more[i] == log[i]; } else { assert more[..i] == log; }
    }
  }

  /** The reaping has logged the rows it has passed, one event each, in scan order. */
  lemma {:induction false} ReapLogged(sha: Sha, s: State, scan: seq<string>, i: nat, now: int)
    requires Enumerates(scan, ExpiredIds(s.jobs, now)) && i <= |scan|
    ensures AllowedRun(sha, s, ReapChanges(s.jobs, scan[..i], now))
    ensures LoggedAfterReaping(sha, s, scan[..i], now, RunChanges(sha, s, ReapChanges(s.jobs, scan[..i], now)), [])
    decreases i
  {
    if i > 0 {
      ReapNext(sha, s, scan, i - 1, now);
      ReapLogged(sha, s, scan, i - 1, now);
      var before := RunChanges(sha, s, ReapChanges(s.jobs, scan[..i - 1], now));
      ReapEventSpelled(sha, before, scan[i - 1], now);
      LoggedOneMore(sha, s, scan, i - 1, now, before, RunChanges(sha, s, ReapChanges(s.jobs, scan[..i], now)));
    } else {
      assert scan[..0] == [];
    }
  }

  lemma ReapEventSpelled(sha: Sha, s: State, id: string, now: int)
    requires id in s.jobs && Expired(s.jobs[id], now)
    ensures Allowed(s, At(Step(id, ReapMove(s.jobs[id])), now))
    ensures EventOf(sha, s, At(Step(id, ReapMove(s.jobs[id])), now)) == TakenBackEvent(id, s.jobs[id], now)
    ensures Effect(sha, s, At(Step(id, ReapMove(s.jobs[id])), now)).log == AppendEvent(sha, s.log, TakenBackEvent(id, s.jobs[id], now))
  {
  }

  /** One more event after the reaping. */
  lemma GrantLogged(sha: Sha, s: State, scan: seq<string>, now: int, mid: State, t: State, e: Event)
    requires LoggedAfterReaping(sha, s, scan, now, mid, []) && t.log == AppendEvent(sha, mid.log, e)
    ensures LoggedAfterReaping(sha, s, scan, now, t, [e])
  {
    FollowsOneMore(sha, mid.log, |s.log|, e);
    assert forall k :: 0 <= k < |mid.log| ==> t.log[k] == mid.log[k];
  }

  /** What the reaping leaves, spelled out. */
  lemma MidSpelled(sha: Sha, s: State, scan: seq<string>, now: int) returns (mid: State)
    requires Enumerates(scan, ExpiredIds(s.jobs, now))
    ensures mid == AfterReap(sha, s, scan, now) && mid.plans == s.plans && mid.jobs == AllTakenBack(s.jobs, now)
    ensures LoggedAfterReaping(sha, s, scan, now, mid, [])
  {
    mid := AfterReap(sha, s, scan, now);
    ReapIsPointwise(sha, s, scan, now);
    ReapSpelled(sha, s.jobs, now);
    ReapLogged(sha, s, scan, |scan|, now);
    assert scan[..|scan|] == scan;
  }

  /** What granting the first in line writes after the reaping. */
  lemma GrantSpelled(sha: Sha, s: State, scan: seq<string>, now: int, mid: State, id: string, worker: string, h: Digest, expires: int) returns (u: State)
    requires LoggedAfterReaping(sha, s, scan, now, mid, []) && Allowed(mid, At(Step(id, Grant(worker, h, expires)), now))
    ensures u == Effect(sha, mid, At(Step(id, Grant(worker, h, expires)), now)) && u.plans == mid.plans && id in mid.jobs
    ensures u.jobs == mid.jobs[id := mid.jobs[id].(state := LEASED, worker := Some(worker), leaseHash := Some(h), leaseExpires := Some(expires),
                                                   attempts := mid.jobs[id].attempts + 1, updatedAt := now, lastError := None)]
    ensures LoggedAfterReaping(sha, s, scan, now, u, [Event(Some(id), worker, ExecutionLeaseGranted(Some(expires), mid.jobs[id].attempts + 1), now)])
  {
    u := Effect(sha, mid, At(Step(id, Grant(worker, h, expires)), now));
    GrantLogged(sha, s, scan, now, mid, u, Event(Some(id), worker, ExecutionLeaseGranted(Some(expires), mid.jobs[id].attempts + 1), now));
  }

  lemma AssignSpelled(sha: Sha, s: State, scan: seq<string>, now: int, mid: State, id: string, verifier: string, h: Digest, expires: int) returns (u: State)
    requires LoggedAfterReaping(sha, s, scan, now, mid, []) && Allowed(mid, At(Step(id, Assign(verifier, h, expires)), now))
    ensures u == Effect(sha, mid, At(Step(id, Assign(verifier, h, expires)), now)) && u.plans == mid.plans && id in mid.jobs
    ensures u.jobs == mid.jobs[id := mid.jobs[id].(state := VERIFYING, verifier := Some(verifier), checkHash := Some(h),
                                                   checkExpires := Some(expires), updatedAt := now)]
    ensures LoggedAfterReaping(sha, s, scan, now, u, [Event(Some(id), verifier, VerificationLeaseGranted(Some(expires)), now)])
  {
    u := Effect(sha, mid, At(Step(id, Assign(verifier, h, expires)), now));
    GrantLogged(sha, s, scan, now, mid, u, Event(Some(id), verifier, VerificationLeaseGranted(Some(expires)), now));
  }

  lemma ClaimOutcome(sha: Sha, s: State, worker: string, ttl: int, token: string, scan: seq<string>, now: int, u: State, reply: Reply, t: State, r: Outcome)
    requires ClaimWrites(sha, s, worker, ttl, token, scan, now, u, reply) && (t, r) == Settled(s, u, reply)
    requires OwnerOk(worker) && 5 <= ttl <= 300
    ensures ClaimSays(sha, s, worker, ttl, token, scan, now, t, r)
  {
  }

  lemma GrantWritten(sha: Sha, s: State, worker: string, ttl: int, token: string, scan: seq<string>, now: int, mid: State, id: string, expires: int, c: Stamped)
    returns (u: State)
    requires expires == now + ttl && mid.plans == s.plans && mid.jobs == AllTakenBack(s.jobs, now) && LoggedAfterReaping(sha, s, scan, now, mid, [])
    requires c == At(Step(id, Grant(worker, sha.token(token), expires)), now) && Allowed(mid, c) && NextToExecute(mid.jobs, now, id)
    ensures u == Effect(sha, mid, c)
    ensures ClaimWrites(sha, s, worker, ttl, token, scan, now, u, Granted(id, worker, token, expires))
    ensures UniqueHashes(u.log) ==> UniqueHashes(mid.log)
  {
    OrderSpelled(mid.jobs, now, "", id);
    u := GrantSpelled(sha, s, scan, now, mid, id, worker, sha.token(token), expires);
    if UniqueHashes(u.log) { PrefixUnique(mid.log, u.log); }
  }

  lemma ClaimEffect(sha: Sha, s: State, worker: string, ttl: int, token: string, scan: seq<string>, now: int, t: State, r: Outcome)
    requires Enumerates(scan, ExpiredIds(s.jobs, now)) && (t, r) == Exec(sha, s, Op.ClaimExecution(worker, ttl, token, scan, now))
    ensures ClaimSays(sha, s, worker, ttl, token, scan, now, t, r)
  {
    if OwnerOk(worker) && 5 <= ttl <= 300 {
      var mid := MidSpelled(sha, s, scan, now);
      var next, c := ClaimEnds(sha, s, worker, ttl, token, scan, now, now + ttl, mid, t, r);
      if next.Some? {
        var u := GrantWritten(sha, s, worker, ttl, token, scan, now, mid, next.value, now + ttl, c);
        ClaimOutcome(sha, s, worker, ttl, token, scan, now, u, Granted(next.value, worker, token, now + ttl), t, r);
      } else {
        ClaimOutcome(sha, s, worker, ttl, token, scan, now, mid, Idle, t, r);
      }
    }
  }

  lemma ClaimEnds(sha: Sha, s: State, worker: string, ttl: int, token: string, scan: seq<string>, now: int, expires: int, mid: State, t: State, r: Outcome)
    returns (next: Option<string>, c: Stamped)
    requires Enumerates(scan, ExpiredIds(s.jobs, now)) && (t, r) == Exec(sha, s, Op.ClaimExecution(worker, ttl, token, scan, now))
    requires OwnerOk(worker) && 5 <= ttl <= 300 && expires == now + ttl && mid == AfterReap(sha, s, scan, now)
    ensures next.None? ==> (forall k :: k in mid.jobs ==> !Claimable(mid.jobs[k], now))
                           && (t, r) == if UniqueHashes(mid.log) then (mid, Returned(Idle)) else (s, Raised(IntegrityError))
    ensures next.Some? ==>
              && c == At(Step(next.value, Grant(worker, sha.token(token), expires)), now)
              && NextToExecute(mid.jobs, now, next.value) && Allowed(mid, c)
              && (t, r) == if UniqueHashes(mid.log) then Settled(s, Effect(sha, mid, c), Granted(next.value, worker, token, expires))
                           else (s, Raised(IntegrityError))
  {
    next := ClaimExecutionResult(sha, s, worker, ttl, token, scan, now);
    c := At(Step(if next.Some? then next.value else "", Grant(worker, sha.token(token), expires)), now);
  }

  lemma ClaimCheckOutcome(sha: Sha, s: State, verifier: string, ttl: int, token: string, scan: seq<string>, now: int, u: State, reply: Reply, t: State, r: Outcome)
    requires ClaimCheckWrites(sha, s, verifier, ttl, token, scan, now, u, reply) && (t, r) == Settled(s, u, reply)
    requires OwnerOk(verifier)
    ensures ClaimCheckSays(sha, s, verifier, ttl, token, scan, now, t, r)
  {
  }

  lemma AssignWritten(sha: Sha, s: State, verifier: string, ttl: int, token: string, scan: seq<string>, now: int, mid: State, id: string, expires: int, c: Stamped)
    returns (u: State)
    requires expires == now + ttl && mid.plans == s.plans && mid.jobs == AllTakenBack(s.jobs, now) && LoggedAfterReaping(sha, s, scan, now, mid, [])
    requires c == At(Step(id, Assign(verifier, sha.token(token), expires)), now) && Allowed(mid, c) && NextToCheck(mid.jobs, verifier, id)
    ensures u == Effect(sha, mid, c)
    ensures ClaimCheckWrites(sha, s, verifier, ttl, token, scan, now, u, Granted(id, verifier, token, expires))
    ensures UniqueHashes(u.log) ==> UniqueHashes(mid.log)
  {
    OrderSpelled(mid.jobs, now, verifier, id);
    u := AssignSpelled(sha, s, scan, now, mid, id, verifier, sha.token(token), expires);
    if UniqueHashes(u.log) { PrefixUnique(mid.log, u.log); }
  }

  lemma ClaimCheckEffect(sha: Sha, s: State, verifier: string, ttl: int, token: string, scan: seq<string>, now: int, t: State, r: Outcome)
    requires Enumerates(scan, ExpiredIds(s.jobs, now)) && (t, r) == Exec(sha, s, Op.ClaimVerification(verifier, ttl, token, scan, now))
    ensures ClaimCheckSays(sha, s, verifier, ttl, token, scan, now, t, r)
  {
    if OwnerOk(verifier) {
      var mid := MidSpelled(sha, s, scan, now);
      var next, c := ClaimCheckEnds(sha, s, verifier, ttl, token, scan, now, now + ttl, mid, t, r);
      var u, reply := mid, Idle;
      if next.Some? {
        u := AssignWritten(sha, s, verifier, ttl, token, scan, now, mid, next.value, now + ttl, c);
        reply := Granted(next.value, verifier, token, now + ttl);
      }
      ClaimCheckOutcome(sha, s, verifier, ttl, token, scan, now, u, reply, t, r);
    }
  }

  lemma ClaimCheckEnds(sha: Sha, s: State, verifier: string, ttl: int, token: string, scan: seq<string>, now: int, expires: int, mid: State, t: State, r: Outcome)
    returns (next: Option<string>, c: Stamped)
    requires Enumerates(scan, ExpiredIds(s.jobs, now)) && (t, r) == Exec(sha, s, Op.ClaimVerification(verifier, ttl, token, scan, now))
    requires OwnerOk(verifier) && expires == now + ttl && mid == AfterReap(sha, s, scan, now)
    ensures next.None? ==> (forall k :: k in mid.jobs ==> !CheckableBy(mid.jobs[k], verifier))
                           && (t, r) == if UniqueHashes(mid.log) then (mid, Returned(Idle)) else (s, Raised(IntegrityError))
    ensures next.Some? ==>
              && c == At(Step(next.value, Assign(verifier, sha.token(token), expires)), now)
              && NextToCheck(mid.jobs, verifier, next.value) && Allowed(mid, c)
              && (t, r) == if UniqueHashes(mid.log) then Settled(s, Effect(sha, mid, c), Granted(next.value, verifier, token, expires))
                           else (s, Raised(IntegrityError))
  {
    next := ClaimVerificationResult(sha, s, verifier, ttl, token, scan, now);
    c := At(Step(if next.Some? then next.value else "", Assign(verifier, sha.token(token), expires)), now);
  }

  // ----- the store -----

  class DurableFleetStore {
    const sha: Sha
    var plans: map<string, PlanRow>
    var jobs: map<string, Job>
    var log: seq<Row<Event>>

    function Contents(): State
      reads this
    {
      State(plans, jobs, log)
    }

    /** The UNIQUE constraint of the event table; all that the transactions themselves rely on. */
    ghost predicate Valid()
      reads this
    {
      UniqueHashes(log)
    }

    constructor (sha: Sha)
      ensures Valid() && Contents() == EMPTY && this.sha == sha
    {
      this.sha := sha;
      plans, jobs, log := map[], map[], [];
    }

    /** Inserts one event row; refuses, changing nothing, when its hash is already stored. */
    method InsertEvent(e: Event) returns (ok: bool)
      requires UniqueHashes(log)
      modifies this`log
      ensures ok <==> UniqueHashes(AppendEvent(sha, old(log), e))
      ensures log == if ok then AppendEvent(sha, old(log), e) else old(log)
    {
      var prev := if |log| > 0 then log[|log| - 1].hash else GENESIS;
      var hash := sha.event(e, prev);
      var more := log + [Row(|log| + 1, e, prev, hash)];
      assert more == AppendEvent(sha, log, e);
      if exists i :: 0 <= i < |log| && log[i].hash == hash {
        var i :| 0 <= i < |log| && log[i].hash == hash;
        assert more[i].hash == more[|log|].hash;
        return false;
      }
      log := more;
      return true;
    }

    /** Restores the tables as they were when the transaction began. */
    method Rollback(plans0: map<string, PlanRow>, jobs0: map<string, Job>, log0: seq<Row<Event>>)
      modifies this
      ensures Contents() == State(plans0, jobs0, log0)
    {
      plans, jobs, log := plans0, jobs0, log0;
    }

    /** The tail of every job transaction: UPDATE one row, insert its event, commit; or roll back to the tables given. */
    method UpdateAndRecord(id: string, row: Job, e: Event, plans0: map<string, PlanRow>, jobs0: map<string, Job>, log0: seq<Row<Event>>)
      returns (ok: bool)
      requires UniqueHashes(log)
      modifies this
      ensures ok <==> UniqueHashes(AppendEvent(sha, old(log), e))
      ensures Contents() == if ok then State(old(plans), old(jobs)[id := row], AppendEvent(sha, old(log), e))
                            else State(plans0, jobs0, log0)
    {
      jobs := jobs[id := row];
      ok := InsertEvent(e);
      if !ok {
        Rollback(plans0, jobs0, log0);
      }
    }

    /** Takes back one expired lease. */
    method ReapRow(id: string, now: int) returns (ok: bool)
      requires Valid() && id in jobs && Expired(jobs[id], now)
      modifies this`jobs, this`log
      ensures var t := Effect(sha, old(Contents()), At(Step(id, ReapMove(old(jobs)[id])), now));
              (ok <==> UniqueHashes(t.log)) && (ok ==> Contents() == t)
    {
      var row := jobs[id];
      var event: Event;
      if row.state == LEASED {
        var next := if row.attempts < row.order.maxAttempts then QUEUED else FAILED;
        jobs := jobs[id := row.(state := next, worker := None, leaseHash := None, leaseExpires := None,
                                updatedAt := now, lastError := Some("execution lease expired"))];
        event := Event(Some(id), COORDINATOR, ExecutionLeaseExpired(row.worker, next), now);
      } else {
        jobs := jobs[id := row.(state := EXECUTED, verifier := None, checkHash := None, checkExpires := None,
                                updatedAt := now, lastError := Some("verification lease expired"))];
        event := Event(Some(id), COORDINATOR, VerificationLeaseExpired(row.verifier), now);
      }
      ok := InsertEvent(event);
    }

    /** Takes back every expired lease, one row and one event at a time. */
    method ReapExpired(scan: seq<string>, now: int) returns (ok: bool)
      requires Valid() && Enumerates(scan, ExpiredIds(jobs, now))
      modifies this`jobs, this`log
      ensures ok <==> UniqueHashes(AfterReap(sha, old(Contents()), scan, now).log)
      ensures ok ==> Contents() == AfterReap(sha, old(Contents()), scan, now)
    {
      ghost var s := Contents();
      ReapIsPointwise(sha, s, scan, now);
      for i := 0 to |scan|
        invariant AllowedRun(sha, s, ReapChanges(s.jobs, scan[..i], now))
        invariant Contents() == RunChanges(sha, s, ReapChanges(s.jobs, scan[..i], now))
        invariant UniqueHashes(log)
      {
        ReapNext(sha, s, scan, i, now);
        ReapPrefixGrows(sha, s, scan, i + 1, now);
        var reaped := ReapRow(scan[i], now);
        if !reaped {
          if UniqueHashes(RunChanges(sha, s, ReapChanges(s.jobs, scan, now)).log) {
            PrefixUnique(RunChanges(sha, s, ReapChanges(s.jobs, scan[..i + 1], now)).log,
                         RunChanges(sha, s, ReapChanges(s.jobs, scan, now)).log);
          }
          return false;
        }
      }
      assert scan[..|scan|] == scan;
      return true;
    }

    /** Stores a plan, or replaces it, and logs it. */
    method RecordPlan(planId: string, status: PlanStatus, body: Json, now: int) returns (r: Outcome)
      requires Valid()
      modifies this
      ensures Valid()
      ensures (Contents(), r) == Exec(sha, old(Contents()), Op.RecordPlan(planId, status, body, now))
      ensures RecordPlanSays(sha, old(Contents()), planId, status, body, now, Contents(), r)
    {
      r := PlanTransaction(planId, status, body, now);
      RecordPlanEffect(sha, old(Contents()), planId, status, body, now, Contents(), r);
    }

    method PlanTransaction(planId: string, status: PlanStatus, body: Json, now: int) returns (r: Outcome)
      requires Valid()
      modifies this
      ensures Valid()
      ensures (Contents(), r) == Exec(sha, old(Contents()), Op.RecordPlan(planId, status, body, now))
    {
      ghost var s, op := Contents(), Op.RecordPlan(planId, status, body, now);
      if planId == "" || status.OtherStatus? {
        return Raised(ValueError);
      }
      OneResult(sha, s, op);
      var plans0, jobs0, log0 := plans, jobs, log;
      var created := if planId in plans then plans[planId].createdAt else now;
      plans := plans[planId := PlanRow(status, body, created)];
      var ok := InsertEvent(Event(None, CONTROL_PLANE, PlanRecorded(planId, status), now));
      if !ok {
        Rollback(plans0, jobs0, log0);
        return Raised(IntegrityError);
      }
      return Returned(Done);
    }

    /** Queues a job of a plan stored as verified. */
    method Enqueue(id: string, order: Order, now: int) returns (r: Outcome)
      requires Valid()
      modifies this
      ensures Valid()
      ensures (Contents(), r) == Exec(sha, old(Contents()), Op.Enqueue(id, order, now))
      ensures EnqueueSays(sha, old(Contents()), id, order, now, Contents(), r)
    {
      r := EnqueueTransaction(id, order, now);
      EnqueueEffect(sha, old(Contents()), id, order, now, Contents(), r);
    }

    method EnqueueTransaction(id: string, order: Order, now: int) returns (r: Outcome)
      requires Valid()
      modifies this
      ensures Valid()
      ensures (Contents(), r) == Exec(sha, old(Contents()), Op.Enqueue(id, order, now))
    {
      ghost var s, op := Contents(), Op.Enqueue(id, order, now);
      var o := order.(spec := SpecOrEmpty(order.spec));
      if !OrderOk(o) || !o.spec.JObj? {
        return Raised(ValueError);
      }
      if o.planId !in plans || plans[o.planId].status != VerifiedPlan {
        return Raised(PermissionError);
      }
      if id in jobs {
        return Raised(IntegrityError);
      }
      OneResult(sha, s, op);
      var plans0, jobs0, log0 := plans, jobs, log;
      var ok := UpdateAndRecord(id, FreshJob(o, now),
                                Event(Some(id), CONTROL_PLANE, JobEnqueued(o.planId, o.workspaceId, o.capabilityId, o.priority, o.maxAttempts), now),
                                plans0, jobs0, log0);
      if !ok {
        return Raised(IntegrityError);
      }
      return Returned(Done);
    }

    /** The rest of an execution claim, once the expired leases are back: grants the first claimable job. */
    method GrantNext(worker: string, token: string, expires: int, now: int,
                     plans0: map<string, PlanRow>, jobs0: map<string, Job>, log0: seq<Row<Event>>)
      returns (r: Outcome)
      requires Valid() && OwnerOk(worker)
      modifies this
      ensures (forall id :: id in old(jobs) ==> !Claimable(old(jobs)[id], now)) ==> (Contents(), r) == (old(Contents()), Returned(Idle))
      ensures forall id :: NextToExecute(old(jobs), now, id) ==>
                var t := Effect(sha, old(Contents()), At(Step(id, Grant(worker, sha.token(token), expires)), now));
                (Contents(), r) == Settled(State(plans0, jobs0, log0), t, Granted(id, worker, token, expires))
    {
      ghost var next := NextToExecuteExists(jobs, now);
      if forall id :: id in jobs ==> !Claimable(jobs[id], now) {
        return Returned(Idle);
      }
      var id :| id in jobs && NextToExecute(jobs, now, id);
      assert next == Some(id);
      var row := jobs[id];
      var leased := row.(state := LEASED, worker := Some(worker), leaseHash := Some(sha.token(token)), leaseExpires := Some(expires),
                         attempts := row.attempts + 1, updatedAt := now, lastError := None);
      assert leased == Moved(sha, row, Grant(worker, sha.token(token), expires), now);
      var ok := UpdateAndRecord(id, leased, Event(Some(id), worker, ExecutionLeaseGranted(Some(expires), row.attempts + 1), now),
                                plans0, jobs0, log0);
      if !ok {
        return Raised(IntegrityError);
      }
      return Returned(Granted(id, worker, token, expires));
    }

    /** Leases the first job in line to a worker. */
    method ClaimExecution(worker: string, ttl: int, token: string, scan: seq<string>, now: int) returns (r: Outcome)
      requires Valid() && Enumerates(scan, ExpiredIds(jobs, now))
      modifies this
      ensures Valid()
      ensures (Contents(), r) == Exec(sha, old(Contents()), Op.ClaimExecution(worker, ttl, token, scan, now))
      ensures ClaimSays(sha, old(Contents()), worker, ttl, token, scan, now, Contents(), r)
    {
      r := ClaimTransaction(worker, ttl, token, scan, now);
      ClaimEffect(sha, old(Contents()), worker, ttl, token, scan, now, Contents(), r);
    }

    method ClaimTransaction(worker: string, ttl: int, token: string, scan: seq<string>, now: int) returns (r: Outcome)
      requires Valid() && Enumerates(scan, ExpiredIds(jobs, now))
      modifies this
      ensures Valid()
      ensures (Contents(), r) == Exec(sha, old(Contents()), Op.ClaimExecution(worker, ttl, token, scan, now))
    {
      if !OwnerOk(worker) || ttl < 5 || ttl > 300 {
        return Raised(ValueError);
      }
      ghost var next := ClaimExecutionResult(sha, Contents(), worker, ttl, token, scan, now);
      var plans0, jobs0, log0 := plans, jobs, log;
      var ok := ReapExpired(scan, now);
      if !ok {
        Rollback(plans0, jobs0, log0);
        return Raised(IntegrityError);
      }
      r := GrantNext(worker, token, now + ttl, now, plans0, jobs0, log0);
    }

    /** Renews an execution lease. */
    method Heartbeat(id: string, worker: string, token: string, ttl: int, now: int) returns (r: Outcome)
      requires Valid()
      modifies this
      ensures Valid()
      ensures (Contents(), r) == Exec(sha, old(Contents()), Op.Heartbeat(id, worker, token, ttl, now))
      ensures HeartbeatSays(sha, old(Contents()), id, worker, token, ttl, now, Contents(), r)
    {
      r := HeartbeatTransaction(id, worker, token, ttl, now);
      HeartbeatEffect(sha, old(Contents()), id, worker, token, ttl, now, Contents(), r);
    }

    method HeartbeatTransaction(id: string, worker: string, token: string, ttl: int, now: int) returns (r: Outcome)
      requires Valid()
      modifies this
      ensures Valid()
      ensures (Contents(), r) == Exec(sha, old(Contents()), Op.Heartbeat(id, worker, token, ttl, now))
    {
      ghost var s, op := Contents(), Op.Heartbeat(id, worker, token, ttl, now);
      if !OwnerOk(worker) {
        return Raised(ValueError);
      }
      if id !in jobs || jobs[id].state != LEASED || jobs[id].worker != Some(worker) {
        return Raised(PermissionError);
      }
      var row := jobs[id];
      if row.leaseExpires.None? {
        return Raised(TypeError);
      }
      if row.leaseExpires.value < now || row.leaseHash != Some(sha.token(token)) {
        return Raised(PermissionError);
      }
      OneResult(sha, s, op);
      var plans0, jobs0, log0 := plans, jobs, log;
      var expires := now + ttl;
      var ok := UpdateAndRecord(id, row.(leaseExpires := Some(expires), updatedAt := now),
                                Event(Some(id), worker, ExecutionHeartbeat(Some(expires)), now),
                                plans0, jobs0, log0);
      if !ok {
        return Raised(IntegrityError);
      }
      return Returned(Renewed(expires));
    }

    /** Accepts the receipt of a leased job. */
    method CompleteExecution(id: string, worker: string, token: string, receipt: Json, signatureVerified: bool, now: int) returns (r: Outcome)
      requires Valid()
      modifies this
      ensures Valid()
      ensures (Contents(), r) == Exec(sha, old(Contents()), Op.Complete(id, worker, token, receipt, signatureVerified, now))
      ensures CompleteSays(sha, old(Contents()), id, worker, token, receipt, signatureVerified, now, Contents(), r)
    {
      r := CompleteTransaction(id, worker, token, receipt, signatureVerified, now);
      CompleteEffect(sha, old(Contents()), id, worker, token, receipt, signatureVerified, now, Contents(), r);
    }

    method CompleteTransaction(id: string, worker: string, token: string, receipt: Json, signatureVerified: bool, now: int) returns (r: Outcome)
      requires Valid()
      modifies this
      ensures Valid()
      ensures (Contents(), r) == Exec(sha, old(Contents()), Op.Complete(id, worker, token, receipt, signatureVerified, now))
    {
      ghost var s, op := Contents(), Op.Complete(id, worker, token, receipt, signatureVerified, now);
      if !OwnerOk(worker) {
        return Raised(ValueError);
      }
      if !signatureVerified {
        return Raised(PermissionError);
      }
      if !receipt.JObj? {
        return Raised(AttributeError);
      }
      if Get(receipt, "verification_status") != JStr("UNKNOWN") {
        return Raised(PermissionError);
      }
      var result := Get(receipt, "result");
      if !result.JObj? || Get(result, "status") != JStr("EXECUTED") || !PyEq(Get(result, "exit_code"), JNum(0)) {
        return Raised(RuntimeError);
      }
      if id !in jobs || jobs[id].state != LEASED || jobs[id].worker != Some(worker) {
        return Raised(PermissionError);
      }
      var row := jobs[id];
      if row.leaseExpires.None? {
        return Raised(TypeError);
      }
      if row.leaseExpires.value < now || row.leaseHash != Some(sha.token(token)) {
        return Raised(PermissionError);
      }
      OneResult(sha, s, op);
      var plans0, jobs0, log0 := plans, jobs, log;
      var digest := sha.receipt(receipt);
      var ok := UpdateAndRecord(id, row.(state := EXECUTED, receipt := Some(receipt), receiptSha := Some(digest),
                              leaseHash := None, leaseExpires := None, updatedAt := now),
                                Event(Some(id), worker, ExecutionReceiptAccepted(digest, Get(receipt, "executor_id")), now),
                                plans0, jobs0, log0);
      if !ok {
        return Raised(IntegrityError);
      }
      return Returned(Done);
    }

    /** Gives a leased job back after a failure. */
    method FailExecution(id: string, worker: string, token: string, error: string, delay: int, now: int) returns (r: Outcome)
      requires Valid()
      modifies this
      ensures Valid()
      ensures (Contents(), r) == Exec(sha, old(Contents()), Op.Fail(id, worker, token, error, delay, now))
      ensures FailSays(sha, old(Contents()), id, worker, token, error, delay, now, Contents(), r)
    {
      r := FailTransaction(id, worker, token, error, delay, now);
      FailEffect(sha, old(Contents()), id, worker, token, error, delay, now, Contents(), r);
    }

    method FailTransaction(id: string, worker: string, token: string, error: string, delay: int, now: int) returns (r: Outcome)
      requires Valid()
      modifies this
      ensures Valid()
      ensures (Contents(), r) == Exec(sha, old(Contents()), Op.Fail(id, worker, token, error, delay, now))
    {
      ghost var s, op := Contents(), Op.Fail(id, worker, token, error, delay, now);
      if !OwnerOk(worker) {
        return Raised(ValueError);
      }
      if id !in jobs || jobs[id].state != LEASED || jobs[id].worker != Some(worker) {
        return Raised(PermissionError);
      }
      var row := jobs[id];
      if row.leaseHash != Some(sha.token(token)) {
        return Raised(PermissionError);
      }
      OneResult(sha, s, op);
      var plans0, jobs0, log0 := plans, jobs, log;
      var next := if row.attempts < row.order.maxAttempts then QUEUED else FAILED;
      var available := now + (if delay > 0 then delay else 0);
      var ok := UpdateAndRecord(id, row.(state := next, availableAt := available, worker := None, leaseHash := None, leaseExpires := None,
                              updatedAt := now, lastError := Some(Truncate(error, 2048))),
                                Event(Some(id), worker, ExecutionFailed(next, row.attempts, Some(Truncate(error, 512))), now),
                                plans0, jobs0, log0);
      if !ok {
        return Raised(IntegrityError);
      }
      return Returned(Done);
    }

    /** The rest of a verification claim, once the expired leases are back: assigns the first job to check. */
    method AssignNext(verifier: string, token: string, expires: int, now: int,
                      plans0: map<string, PlanRow>, jobs0: map<string, Job>, log0: seq<Row<Event>>)
      returns (r: Outcome)
      requires Valid() && OwnerOk(verifier)
      modifies this
      ensures (forall id :: id in old(jobs) ==> !CheckableBy(old(jobs)[id], verifier)) ==> (Contents(), r) == (old(Contents()), Returned(Idle))
      ensures forall id :: NextToCheck(old(jobs), verifier, id) ==>
                var t := Effect(sha, old(Contents()), At(Step(id, Assign(verifier, sha.token(token), expires)), now));
                (Contents(), r) == Settled(State(plans0, jobs0, log0), t, Granted(id, verifier, token, expires))
    {
      ghost var next := NextToCheckExists(jobs, verifier);
      if forall id :: id in jobs ==> !CheckableBy(jobs[id], verifier) {
        return Returned(Idle);
      }
      var id :| id in jobs && NextToCheck(jobs, verifier, id);
      assert next == Some(id);
      var row := jobs[id];
      var checking := row.(state := VERIFYING, verifier := Some(verifier), checkHash := Some(sha.token(token)),
                           checkExpires := Some(expires), updatedAt := now);
      assert checking == Moved(sha, row, Assign(verifier, sha.token(token), expires), now);
      var ok := UpdateAndRecord(id, checking, Event(Some(id), verifier, VerificationLeaseGranted(Some(expires)), now),
                                plans0, jobs0, log0);
      if !ok {
        return Raised(IntegrityError);
      }
      return Returned(Granted(id, verifier, token, expires));
    }

    /** Leases the first job to check to a verifier. */
    method ClaimVerification(verifier: string, ttl: int, token: string, scan: seq<string>, now: int) returns (r: Outcome)
      requires Valid() && Enumerates(scan, ExpiredIds(jobs, now))
      modifies this
      ensures Valid()
      ensures (Contents(), r) == Exec(sha, old(Contents()), Op.ClaimVerification(verifier, ttl, token, scan, now))
      ensures ClaimCheckSays(sha, old(Contents()), verifier, ttl, token, scan, now, Contents(), r)
    {
      r := ClaimCheckTransaction(verifier, ttl, token, scan, now);
      ClaimCheckEffect(sha, old(Contents()), verifier, ttl, token, scan, now, Contents(), r);
    }

    method ClaimCheckTransaction(verifier: string, ttl: int, token: string, scan: seq<string>, now: int) returns (r: Outcome)
      requires Valid() && Enumerates(scan, ExpiredIds(jobs, now))
      modifies this
      ensures Valid()
      ensures (Contents(), r) == Exec(sha, old(Contents()), Op.ClaimVerification(verifier, ttl, token, scan, now))
    {
      if !OwnerOk(verifier) {
        return Raised(ValueError);
      }
      ghost var next := ClaimVerificationResult(sha, Contents(), verifier, ttl, token, scan, now);
      var plans0, jobs0, log0 := plans, jobs, log;
      var ok := ReapExpired(scan, now);
      if !ok {
        Rollback(plans0, jobs0, log0);
        return Raised(IntegrityError);
      }
      r := AssignNext(verifier, token, now + ttl, now, plans0, jobs0, log0);
    }

    /** Records a verdict. */
    method CompleteVerification(id: string, verifier: string, token: string, verdict: JobState, proof: Json, now: int) returns (r: Outcome)
      requires Valid()
      modifies this
      ensures Valid()
      ensures (Contents(), r) == Exec(sha, old(Contents()), Op.CompleteVerification(id, verifier, token, verdict, proof, now))
      ensures VerdictSays(sha, old(Contents()), id, verifier, token, verdict, proof, now, Contents(), r)
    {
      r := VerdictTransaction(id, verifier, token, verdict, proof, now);
      VerdictEffect(sha, old(Contents()), id, verifier, token, verdict, proof, now, Contents(), r);
    }

    method VerdictTransaction(id: string, verifier: string, token: string, verdict: JobState, proof: Json, now: int) returns (r: Outcome)
      requires Valid()
      modifies this
      ensures Valid()
      ensures (Contents(), r) == Exec(sha, old(Contents()), Op.CompleteVerification(id, verifier, token, verdict, proof, now))
    {
      ghost var s, op := Contents(), Op.CompleteVerification(id, verifier, token, verdict, proof, now);
      if !OwnerOk(verifier) || !(verdict == VERIFIED || verdict == FAILED || verdict == BLOCKED) || !proof.JObj? {
        return Raised(ValueError);
      }
      if verdict == VERIFIED && !ProofPasses(proof) {
        return Raised(PermissionError);
      }
      if id !in jobs || jobs[id].state != VERIFYING || jobs[id].verifier != Some(verifier) {
        return Raised(PermissionError);
      }
      var row := jobs[id];
      if row.worker == Some(verifier) {
        return Raised(PermissionError);
      }
      if row.checkExpires.None? {
        return Raised(TypeError);
      }
      if row.checkExpires.value < now || row.checkHash != Some(sha.token(token)) {
        return Raised(PermissionError);
      }
      OneResult(sha, s, op);
      var plans0, jobs0, log0 := plans, jobs, log;
      var verification := Verification(verdict, verifier, proof, row.receiptSha, now);
      var lastError := if verdict == VERIFIED then None
                       else if verdict == BLOCKED then Some("independent verification blocked")
                       else Some("independent verification failed");
      var ok := UpdateAndRecord(id, row.(state := verdict, verification := Some(verification), checkHash := None, checkExpires := None,
                              updatedAt := now, lastError := lastError),
                                Event(Some(id), verifier, IndependentVerification(verification), now),
                                plans0, jobs0, log0);
      if !ok {
        return Raised(IntegrityError);
      }
      return Returned(Done);
    }

    /** Any coordinator call. */
    method Perform(op: Op) returns (r: Outcome)
      requires Valid() && Legal(Contents(), op)
      modifies this
      ensures Valid()
      ensures (Contents(), r) == Exec(sha, old(Contents()), op)
    {
      match op
      case RecordPlan(planId, status, body, now) => r := RecordPlan(planId, status, body, now);
      case Enqueue(id, order, now) => r := Enqueue(id, order, now);
      case ClaimExecution(worker, ttl, token, scan, now) => r := ClaimExecution(worker, ttl, token, scan, now);
      case Heartbeat(id, worker, token, ttl, now) => r := Heartbeat(id, worker, token, ttl, now);
      case Complete(id, worker, token, receipt, ok, now) => r := CompleteExecution(id, worker, token, receipt, ok, now);
      case Fail(id, worker, token, error, delay, now) => r := FailExecution(id, worker, token, error, delay, now);
      case ClaimVerification(verifier, ttl, token, scan, now) => r := ClaimVerification(verifier, ttl, token, scan, now);
      case CompleteVerification(id, verifier, token, verdict, proof, now) =>
        r := CompleteVerification(id, verifier, token, verdict, proof, now);
    }

    /** The coordinator's own audit always passes on its own log. */
    method VerifyEventChain() returns (v: Verdict)
      requires Inv(sha, Contents())
      ensures v == Verified(|log|)
    {
      ghost var bad;
      v, bad := VerifyRows(sha.event, log);
    }

    /** The statistics of the tables as they are. */
    method Stats() returns (r: FleetCounts.Stats)
      ensures r == FleetCounts.StatsOf(Contents())
      ensures r.eventCount == |log| && (if log == [] then r.eventHead == None else r.eventHead == Some(log[|log| - 1].hash))
      ensures r.counts.Keys == {QUEUED, LEASED, EXECUTED, VERIFYING, VERIFIED, FAILED, BLOCKED}
      ensures forall st :: st in r.counts ==> r.counts[st] == |RowsIn(jobs, st)|
    {
      var counts := FleetCounts.CountStates(jobs);
      r := FleetCounts.Stats(counts, |log|, if log == [] then None else Some(log[|log| - 1].hash));
    }
  }
}

/** Leases over whole runs: who a token authenticates, from when, and until when.
    Nothing here depends on the clock behaving well. */
module FleetLeases {
  import opened Basics
  import opened Json
  import opened HashChain
  import opened FleetModel
  import opened FleetOps
  import opened FleetInvariant

  /** The hash a token must have to act on the job, as worker or as verifier. */
  function Live(job: Job): Option<Digest> {
    if job.state == LEASED then job.leaseHash else if job.state == VERIFYING then job.checkHash else None
  }

  predicate LiveOn(s: State, id: string, h: Digest) {
    id in s.jobs && Live(s.jobs[id]) == Some(h)
  }

  ghost predicate Dead(s: State, h: Digest) {
    forall id :: id in s.jobs ==> Live(s.jobs[id]) != Some(h)
  }

  // ----- what a call needs -----

  /** The exact conditions under which each token-bearing call is let through. */
  lemma HeartbeatAdmission(sha: Sha, s: State, id: string, worker: string, token: string, ttl: int, now: int)
    requires Inv(sha, s)
    ensures Decide(sha, s, Op.Heartbeat(id, worker, token, ttl, now)).Commit?
            <==> OwnerOk(worker) && LiveOn(s, id, sha.token(token)) && Holds(s, id, worker) && id !in ExpiredIds(s.jobs, now)
  {
    if id in s.jobs { assert JobOk(sha, s.jobs[id]); }
  }

  lemma CompleteAdmission(sha: Sha, s: State, id: string, worker: string, token: string, receipt: Json, ok: bool, now: int)
    requires Inv(sha, s)
    ensures Decide(sha, s, Op.Complete(id, worker, token, receipt, ok, now)).Commit?
            <==> OwnerOk(worker) && ok && ReceiptAdmissible(receipt)
                 && LiveOn(s, id, sha.token(token)) && Holds(s, id, worker) && id !in ExpiredIds(s.jobs, now)
  {
    if id in s.jobs { assert JobOk(sha, s.jobs[id]); }
  }

  /** Reporting a failure is allowed even after the lease has run out, as long as nobody has reaped it. */
  lemma FailAdmission(sha: Sha, s: State, id: string, worker: string, token: string, error: string, delay: int, now: int)
    ensures Decide(sha, s, Op.Fail(id, worker, token, error, delay, now)).Commit?
            <==> OwnerOk(worker) && LiveOn(s, id, sha.token(token)) && Holds(s, id, worker)
  {
  }

  lemma VerdictAdmission(sha: Sha, s: State, id: string, verifier: string, token: string, verdict: JobState, proof: Json, now: int)
    requires Inv(sha, s)
    ensures Decide(sha, s, Op.CompleteVerification(id, verifier, token, verdict, proof, now)).Commit?
            <==> OwnerOk(verifier) && IsVerdict(verdict) && proof.JObj? && (verdict == VERIFIED ==> ProofPasses(proof))
                 && LiveOn(s, id, sha.token(token)) && HoldsCheck(s, id, verifier) && id !in ExpiredIds(s.jobs, now)
  {
    if id in s.jobs { assert JobOk(sha, s.jobs[id]); }
  }

  /** For a caller with the live token, a heartbeat goes through exactly when the reaper would leave the lease alone. */
  lemma HeartbeatComplementsReaper(sha: Sha, s: State, id: string, worker: string, token: string, ttl: int, now: int)
    requires Inv(sha, s) && OwnerOk(worker) && Holds(s, id, worker) && LiveOn(s, id, sha.token(token))
    ensures Decide(sha, s, Op.Heartbeat(id, worker, token, ttl, now)).Commit? <==> Reaped(sha, s.jobs, now)[id] == s.jobs[id]
  {
    HeartbeatAdmission(sha, s, id, worker, token, ttl, now);
    assert JobOk(sha, s.jobs[id]);
  }

  // ----- drawing tokens -----

  function Draws(c: Stamped): Option<Digest> {
    match c.change
    case Step(_, Grant(_, h, _)) => Some(h)
    case Step(_, Assign(_, h, _)) => Some(h)
    case _ => None
  }

  predicate OpDraws(sha: Sha, op: Op, h: Digest) {
    IsClaim(op) && sha.token(op.token) == h
  }

  lemma {:induction false} ReapDrawsNothing(jobs: map<string, Job>, scan: seq<string>, now: int)
    requires forall id :: id in scan ==> id in jobs
    ensures forall i :: 0 <= i < |ReapChanges(jobs, scan, now)| ==> Draws(ReapChanges(jobs, scan, now)[i]) == None
    decreases |scan|
  {
    if scan != [] { ReapDrawsNothing(jobs, scan[1..], now); }
  }

  /** An operation can only put its own token to work, and only as its last change. */
  lemma CommittedDraws(sha: Sha, s: State, op: Op)
    requires Legal(s, op)
    ensures var cs := Committed(sha, s, op);
            forall i :: 0 <= i < |cs| && Draws(cs[i]).Some? ==> i == |cs| - 1 && OpDraws(sha, op, Draws(cs[i]).value)
  {
    if IsClaim(op) { ReapDrawsNothing(s.jobs, op.scan, op.now); }
  }

  lemma {:induction false} HistoryDraws(sha: Sha, s: State, ops: seq<Op>, h: Digest)
    requires LegalRun(sha, s, ops)
    requires forall i :: 0 <= i < |ops| ==> !OpDraws(sha, ops[i], h)
    ensures forall i :: 0 <= i < |History(sha, s, ops)| ==> Draws(History(sha, s, ops)[i]) != Some(h)
    decreases |ops|
  {
    if ops != [] {
      CommittedDraws(sha, s, ops[0]);
      HistoryDraws(sha, Exec(sha, s, ops[0]).0, ops[1..], h);
    }
  }

  // ----- the life of one token -----

  /** The event ends the job's current lease. */
  predicate Ends(e: Event, id: string) {
    && e.jobId == Some(id)
    && (e.payload.ExecutionLeaseExpired? || e.payload.ExecutionReceiptAccepted? || e.payload.ExecutionFailed?
        || e.payload.VerificationLeaseExpired? || e.payload.IndependentVerification?)
  }

  /** The token that works on a job after a move: a grant's own, the one before across a heartbeat, else none. */
  lemma LiveAfterMove(sha: Sha, id: string, job: Job, m: Move, now: int)
    requires JobOk(sha, job) && CanMove(job, m, now)
    ensures Live(Moved(sha, job, m, now)) == if m.Grant? || m.Assign? then Some(m.token) else if m.Renew? then Live(job) else None
    ensures Ends(MoveEvent(sha, id, job, m, now), id) <==> !m.Grant? && !m.Assign? && !m.Renew?
    ensures m.Grant? || m.Assign? ==> Live(job).None?
  {
  }

  /** How one change bears on the tokens: it touches at most one job's, and only draws the one it names. */
  lemma LiveAfterChange(sha: Sha, s: State, c: Stamped, id: string)
    requires Inv(sha, s) && Allowed(s, c) && id in Effect(sha, s, c).jobs
    ensures var live := Live(Effect(sha, s, c).jobs[id]);
            if c.change.Step? && c.change.id == id
            then live == (if Draws(c).Some? then Draws(c) else if Ends(EventOf(sha, s, c), id) then None else Live(s.jobs[id]))
            else !Ends(EventOf(sha, s, c), id) && live == if id in s.jobs then Live(s.jobs[id]) else None
  {
    if c.change.Step? {
      LiveAfterMove(sha, c.change.id, s.jobs[c.change.id], c.change.move, c.now);
    }
  }

  lemma DeadStays(sha: Sha, s: State, c: Stamped, h: Digest)
    requires Allowed(s, c) && Dead(s, h) && Draws(c) != Some(h)
    ensures Dead(Effect(sha, s, c), h)
  {
  }

  lemma {:induction false} DeadForever(sha: Sha, s: State, cs: seq<Stamped>, h: Digest)
    requires AllowedRun(sha, s, cs) && Dead(s, h)
    requires forall i :: 0 <= i < |cs| ==> Draws(cs[i]) != Some(h)
    ensures Dead(RunChanges(sha, s, cs), h)
    decreases |cs|
  {
    if cs != [] {
      DeadStays(sha, s, cs[0], h);
      DeadForever(sha, Effect(sha, s, cs[0]), cs[1..], h);
    }
  }

  /** One change leaves the token live on its job exactly when it does not end the lease; otherwise it is dead. */
  lemma LiveStep(sha: Sha, s: State, c: Stamped, id: string, h: Digest)
    requires Inv(sha, s) && Allowed(s, c) && LiveOn(s, id, h) && Draws(c) != Some(h)
    requires forall k :: LiveOn(s, k, h) ==> k == id
    ensures forall k :: LiveOn(Effect(sha, s, c), k, h) ==> k == id
    ensures LiveOn(Effect(sha, s, c), id, h) <==> !Ends(EventOf(sha, s, c), id)
  {
    var u := Effect(sha, s, c);
    assert id in u.jobs;
    LiveAfterChange(sha, s, c, id);
    NoGrantWhileLive(sha, s, c, id);
    forall k | LiveOn(u, k, h) ensures k == id {
      LiveAfterChange(sha, s, c, k);
      assert LiveOn(s, k, h);
    }
  }

  /** A job whose token is live is not granted again. */
  lemma NoGrantWhileLive(sha: Sha, s: State, c: Stamped, id: string)
    requires Inv(sha, s) && Allowed(s, c) && id in s.jobs && Live(s.jobs[id]).Some?
    ensures c.change.Step? && c.change.id == id ==> Draws(c).None?
  {
    if c.change.Step? && c.change.id == id { LiveAfterMove(sha, id, s.jobs[id], c.change.move, c.now); }
  }

  predicate EndedSince(before: seq<Row<Event>>, after: seq<Row<Event>>, id: string) {
    exists k :: |before| <= k < |after| && Ends(after[k].content, id)
  }

  lemma EndedUnfold(before: seq<Row<Event>>, next: seq<Row<Event>>, after: seq<Row<Event>>, id: string)
    requires |next| == |before| + 1 && next <= after
    ensures EndedSince(before, after, id) <==> Ends(next[|before|].content, id) || EndedSince(next, after, id)
  {
    assert after[|before|] == next[|before|];
  }

  lemma OneOwnerDies(s: State, id: string, h: Digest)
    requires !LiveOn(s, id, h) && forall k :: LiveOn(s, k, h) ==> k == id
    ensures Dead(s, h)
  {
    forall k | k in s.jobs ensures Live(s.jobs[k]) != Some(h) { assert !LiveOn(s, k, h); }
  }

  /** A lease seen across a first change and the rest. */
  lemma LiveAcross(s: State, u: State, t: State, id: string, h: Digest)
    requires |u.log| == |s.log| + 1 && u.log <= t.log
    requires LiveOn(u, id, h) <==> !Ends(u.log[|s.log|].content, id)
    requires if LiveOn(u, id, h) then LiveOn(t, id, h) <==> !EndedSince(u.log, t.log, id) else Dead(t, h)
    ensures LiveOn(t, id, h) <==> !EndedSince(s.log, t.log, id)
  {
    EndedUnfold(s.log, u.log, t.log, id);
  }

  /** The first change of a run, as far as one token is concerned. */
  lemma LiveFirst(sha: Sha, s: State, cs: seq<Stamped>, id: string, h: Digest) returns (u: State)
    requires Inv(sha, s) && AllowedRun(sha, s, cs) && cs != [] && LiveOn(s, id, h) && Draws(cs[0]) != Some(h)
    requires forall k :: LiveOn(s, k, h) ==> k == id
    ensures u == Effect(sha, s, cs[0]) && Inv(sha, u) && |u.log| == |s.log| + 1
    ensures forall k :: LiveOn(u, k, h) ==> k == id
    ensures LiveOn(u, id, h) <==> !Ends(u.log[|s.log|].content, id)
    ensures !LiveOn(u, id, h) ==> Dead(u, h)
  {
    u := Effect(sha, s, cs[0]);
    EffectOk(sha, s, cs[0]);
    LiveStep(sha, s, cs[0], id, h);
    if !LiveOn(u, id, h) { OneOwnerDies(u, id, h); }
  }

  lemma {:induction false} LiveChanges(sha: Sha, s: State, cs: seq<Stamped>, id: string, h: Digest)
    requires Inv(sha, s) && AllowedRun(sha, s, cs) && LiveOn(s, id, h)
    requires forall k :: LiveOn(s, k, h) ==> k == id
    requires forall i :: 0 <= i < |cs| ==> Draws(cs[i]) != Some(h)
    ensures LiveOn(RunChanges(sha, s, cs), id, h) <==> !EndedSince(s.log, RunChanges(sha, s, cs).log, id)
    ensures forall k :: LiveOn(RunChanges(sha, s, cs), k, h) ==> k == id
    decreases |cs|
  {
    if cs != [] {
      var u := LiveFirst(sha, s, cs, id, h);
      var t := RunChanges(sha, u, cs[1..]);
      LogGrows(sha, u, cs[1..]);
      if LiveOn(u, id, h) { LiveChanges(sha, u, cs[1..], id, h); } else { DeadForever(sha, u, cs[1..], h); }
      LiveAcross(s, u, t, id, h);
    }
  }

  /** Over any run that does not draw the token again: it works on its job until the first completion, failure,
      expiry or verdict recorded for that job, and from then on works on no job. */
  lemma LeaseLifetime(sha: Sha, s: State, ops: seq<Op>, id: string, h: Digest)
    requires Inv(sha, s) && LegalRun(sha, s, ops) && LiveOn(s, id, h)
    requires forall k :: LiveOn(s, k, h) ==> k == id
    requires forall i :: 0 <= i < |ops| ==> !OpDraws(sha, ops[i], h)
    ensures var t := Run(sha, s, ops);
            && (LiveOn(t, id, h) <==> !EndedSince(s.log, t.log, id))
            && (forall k :: LiveOn(t, k, h) ==> k == id)
  {
    HistoryDraws(sha, s, ops, h);
    LiveChanges(sha, s, History(sha, s, ops), id, h);
  }

  /** A token that works nowhere never works again. */
  lemma DeadTokenStaysDead(sha: Sha, s: State, ops: seq<Op>, h: Digest)
    requires LegalRun(sha, s, ops) && Dead(s, h)
    requires forall i :: 0 <= i < |ops| ==> !OpDraws(sha, ops[i], h)
    ensures Dead(Run(sha, s, ops), h)
  {
    HistoryDraws(sha, s, ops, h);
    DeadForever(sha, s, History(sha, s, ops), h);
  }

  // ----- exclusivity from the empty store -----

  /** No claim of the run draws a token whose hash is in `used` or was drawn earlier in the run. */
  ghost predicate FreshTokens(sha: Sha, ops: seq<Op>, used: set<Digest>)
    decreases |ops|
  {
    ops == []
    || if IsClaim(ops[0]) then sha.token(ops[0].token) !in used && FreshTokens(sha, ops[1..], used + {sha.token(ops[0].token)})
       else FreshTokens(sha, ops[1..], used)
  }

  /** Every live token was drawn, and no token is live on two jobs. */
  ghost predicate Exclusive(s: State, used: set<Digest>) {
    && (forall id :: id in s.jobs && Live(s.jobs[id]).Some? ==> Live(s.jobs[id]).value in used)
    && (forall a, b :: a in s.jobs && b in s.jobs && a != b && Live(s.jobs[a]).Some? ==> Live(s.jobs[a]) != Live(s.jobs[b]))
  }

  lemma ExclusiveCarries(s: State, u: State, who: string, drawn: Option<Digest>, used: set<Digest>)
    requires Exclusive(s, used) && (drawn.Some? ==> drawn.value !in used)
    requires forall id :: id in u.jobs && id != who ==> Live(u.jobs[id]) == None || (id in s.jobs && Live(u.jobs[id]) == Live(s.jobs[id]))
    requires who in u.jobs ==> var live := Live(u.jobs[who]);
                               live == None || live == drawn || (who in s.jobs && live == Live(s.jobs[who]))
    ensures Exclusive(u, if drawn.Some? then used + {drawn.value} else used)
  {
  }

  lemma ExclusiveStep(sha: Sha, s: State, c: Stamped, used: set<Digest>)
    requires Inv(sha, s) && Allowed(s, c) && Exclusive(s, used)
    requires Draws(c).Some? ==> Draws(c).value !in used
    ensures Exclusive(Effect(sha, s, c), if Draws(c).Some? then used + {Draws(c).value} else used)
  {
    var u := Effect(sha, s, c);
    var who := if c.change.Step? then c.change.id else "";
    forall id | id in u.jobs
      ensures var live := Live(u.jobs[id]);
              live == None || (id in s.jobs && live == Live(s.jobs[id])) || (id == who && live == Draws(c))
    {
      LiveAfterChange(sha, s, c, id);
    }
    ExclusiveCarries(s, u, who, Draws(c), used);
  }

  lemma {:induction false} ExclusiveChanges(sha: Sha, s: State, cs: seq<Stamped>, used: set<Digest>, h: Digest)
    requires Inv(sha, s) && AllowedRun(sha, s, cs) && Exclusive(s, used)
    requires forall i :: 0 <= i < |cs| && Draws(cs[i]).Some? ==> i == |cs| - 1 && Draws(cs[i]) == Some(h) && h !in used
    ensures Exclusive(RunChanges(sha, s, cs), used + {h})
    decreases |cs|
  {
    if cs != [] {
      EffectOk(sha, s, cs[0]);
      ExclusiveStep(sha, s, cs[0], used);
      if |cs| > 1 {
        ExclusiveChanges(sha, Effect(sha, s, cs[0]), cs[1..], used, h);
      } else {
        assert cs[1..] == [];
        assert RunChanges(sha, Effect(sha, s, cs[0]), []) == Effect(sha, s, cs[0]);
      }
    }
  }

  lemma {:induction false} ExclusiveRun(sha: Sha, s: State, ops: seq<Op>, used: set<Digest>) returns (all: set<Digest>)
    requires Inv(sha, s) && LegalRun(sha, s, ops) && Exclusive(s, used) && FreshTokens(sha, ops, used)
    ensures used <= all && Exclusive(Run(sha, s, ops), all)
    decreases |ops|
  {
    if ops == [] {
      all := used;
    } else {
      var op, t := ops[0], Exec(sha, s, ops[0]).0;
      CommittedDraws(sha, s, op);
      ExecOk(sha, s, op);
      if IsClaim(op) {
        ExclusiveChanges(sha, s, Committed(sha, s, op), used, sha.token(op.token));
        all := ExclusiveRun(sha, t, ops[1..], used + {sha.token(op.token)});
      } else {
        QuietChanges(sha, s, Committed(sha, s, op), used);
        all := ExclusiveRun(sha, t, ops[1..], used);
      }
    }
  }

  lemma {:induction false} QuietChanges(sha: Sha, s: State, cs: seq<Stamped>, used: set<Digest>)
    requires Inv(sha, s) && AllowedRun(sha, s, cs) && Exclusive(s, used)
    requires forall i :: 0 <= i < |cs| ==> Draws(cs[i]).None?
    ensures Exclusive(RunChanges(sha, s, cs), used)
    decreases |cs|
  {
    if cs != [] {
      EffectOk(sha, s, cs[0]);
      ExclusiveStep(sha, s, cs[0], used);
      QuietChanges(sha, Effect(sha, s, cs[0]), cs[1..], used);
    }
  }

  /** With fresh tokens, in every reachable state no token authenticates for two jobs. */
  lemma LeaseExclusivity(sha: Sha, ops: seq<Op>, a: string, b: string, h: Digest)
    requires LegalRun(sha, EMPTY, ops) && FreshTokens(sha, ops, {})
    requires LiveOn(Run(sha, EMPTY, ops), a, h) && LiveOn(Run(sha, EMPTY, ops), b, h)
    ensures a == b
  {
    var all := ExclusiveRun(sha, EMPTY, ops, {});
  }
}

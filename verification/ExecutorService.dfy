/** The executor service: a signed request is verified, parsed, validated, claimed once and run. */
module ExecutorService {
  import opened Basics
  import opened Json
  import opened ExecutorRequest
  import opened ExecutorReplay

  /** HMAC under the shared secret, and SHA-256, over canonical JSON. */
  datatype Crypto = Crypto(mac: Json -> string, sha: Json -> string)

  datatype Context = Context(py: Py, crypto: Crypto, executorId: string)

  function Sign(crypto: Crypto, value: Json): string {
    "v1=" + crypto.mac(value)
  }

  predicate SignatureOk(crypto: Crypto, value: Json, signature: string) {
    "v1=" <= signature && signature == Sign(crypto, value)
  }

  datatype Adapted = Returned(result: map<string, Json>) | Raised

  /** One call of execute_signed: what it was given, the clocks it read, and what the workspace and the adapter did. */
  datatype Visit = Visit(
    value: Json, signature: string, checkedAt: int, claimedAt: int, workspaceOk: bool, adapted: Adapted, finishedAt: int)

  datatype Screened = Turned(refusal: Refusal) | Passed(request: Request)

  /** Everything before the nonce is claimed. */
  function Screen(ctx: Context, v: Visit): Screened {
    if !SignatureOk(ctx.crypto, v.value, v.signature) then Turned(AuthError("request signature invalid"))
    else
      var req := FromDict(ctx.py, v.value);
      if req.None? then Turned(ProtocolError("invalid execution request"))
      else
        var refusal := Validate(req.value, v.checkedAt);
        if refusal.Some? then Turned(refusal.value) else Passed(req.value)
  }

  function ClaimOf(ctx: Context, v: Visit): Option<Claim> {
    var s := Screen(ctx, v);
    if s.Passed? then Some(Claim(s.request.nonce, s.request.expiresAt, v.claimedAt)) else None
  }

  function ReceiptFields(ctx: Context, v: Visit, r: Request): map<Key, Json>
    requires v.adapted.Returned?
  {
    map[Protocol := JStr("executor-v1"),
        ExecutorId := JStr(ctx.executorId),
        OperationId := JStr(r.operationId),
        PlanId := JStr(r.planId),
        RequestSha256 := JStr(ctx.crypto.sha(v.value)),
        IssuedAt := JNum(v.finishedAt),
        VerificationStatus := if "verification_status" in v.adapted.result then v.adapted.result["verification_status"] else JStr("UNKNOWN"),
        ResultKey := JObj(v.adapted.result)]
  }

  function ReceiptOf(ctx: Context, v: Visit, r: Request): Json
    requires v.adapted.Returned?
  {
    Object(ReceiptFields(ctx, v, r))
  }

  datatype Reply = Refused(refusal: Refusal) | AdapterFailed | Answered(receipt: Json, signature: string)

  /** What a call replies, given whether its nonce was accepted. */
  function ReplyTo(ctx: Context, v: Visit, accepted: bool): Reply {
    match Screen(ctx, v)
    case Turned(refusal) => Refused(refusal)
    case Passed(r) =>
      if !accepted then Refused(AuthError("request replay detected"))
      else if !v.workspaceOk then Refused(PolicyError("workspace unavailable"))
      else if v.adapted.Raised? then AdapterFailed
      else Answered(ReceiptOf(ctx, v, r), Sign(ctx.crypto, ReceiptOf(ctx, v, r)))
  }

  /** What is handed to the adapter: the capability, the payload and the envelope. */
  datatype Command = Command(
    capabilityId: string, argv: seq<Json>, cwd: string, operationId: string, workspaceId: string,
    network: string, allowedHosts: seq<Json>, isolationRequired: bool)

  function CommandOf(r: Request): Command {
    Command(r.capabilityId, r.argv, r.cwd, r.operationId, r.workspaceId, "DENY", [], true)
  }

  // ----- one visit, told by its request -----

  /** The command is the request's, with nothing allowed on the network. */
  predicate Carries(c: Command, r: Request) {
    && c.capabilityId == r.capabilityId && c.argv == r.argv && c.cwd == r.cwd
    && c.operationId == r.operationId && c.workspaceId == r.workspaceId
    && c.network == "DENY" && c.allowedHosts == [] && c.isolationRequired
  }

  const RECEIPT_KEYS := {Protocol, ExecutorId, OperationId, PlanId, RequestSha256, IssuedAt, VerificationStatus, ResultKey}

  /** A receipt entry by entry. */
  ghost predicate ReceiptFor(ctx: Context, v: Visit, r: Request, receipt: Json) {
    && v.adapted.Returned? && receipt.JObj? && (forall k :: Has(receipt, k) <==> k in RECEIPT_KEYS)
    && (forall name :: name in receipt.fields ==> exists k :: k in RECEIPT_KEYS && name == Text(k))
    && Field(receipt, Protocol) == JStr("executor-v1") && Field(receipt, ExecutorId) == JStr(ctx.executorId)
    && Field(receipt, OperationId) == JStr(r.operationId) && Field(receipt, PlanId) == JStr(r.planId)
    && Field(receipt, RequestSha256) == JStr(ctx.crypto.sha(v.value)) && Field(receipt, IssuedAt) == JNum(v.finishedAt)
    && Field(receipt, ResultKey) == JObj(v.adapted.result)
    && Field(receipt, VerificationStatus) == if "verification_status" in v.adapted.result then v.adapted.result["verification_status"] else JStr("UNKNOWN")
  }

  lemma ReceiptEntry(ctx: Context, v: Visit, r: Request, receipt: Json, k: Key)
    requires v.adapted.Returned? && receipt == ReceiptOf(ctx, v, r)
    ensures Has(receipt, k) <==> k in RECEIPT_KEYS
    ensures k in RECEIPT_KEYS ==> Field(receipt, k) == ReceiptFields(ctx, v, r)[k]
  {
    ObjectGet(ReceiptFields(ctx, v, r), k);
  }

  lemma ReceiptNames(ctx: Context, v: Visit, r: Request, name: string) returns (k: Key)
    requires v.adapted.Returned? && name in ReceiptOf(ctx, v, r).fields
    ensures k in RECEIPT_KEYS && name == Text(k)
  {
    KeysDiffer();
    k :| k in ReceiptFields(ctx, v, r) && name == Text(k);
  }

  lemma ReceiptHas(ctx: Context, v: Visit, r: Request, receipt: Json)
    requires v.adapted.Returned? && receipt == ReceiptOf(ctx, v, r)
    ensures forall k :: Has(receipt, k) <==> k in RECEIPT_KEYS
    ensures forall name :: name in receipt.fields ==> exists k :: k in RECEIPT_KEYS && name == Text(k)
  {
    forall k ensures Has(receipt, k) <==> k in RECEIPT_KEYS { ReceiptEntry(ctx, v, r, receipt, k); }
    forall name | name in receipt.fields ensures exists k :: k in RECEIPT_KEYS && name == Text(k) {
      var k := ReceiptNames(ctx, v, r, name);
    }
  }

  lemma ReceiptParties(ctx: Context, v: Visit, r: Request, receipt: Json)
    requires v.adapted.Returned? && receipt == ReceiptOf(ctx, v, r)
    ensures Field(receipt, Protocol) == JStr("executor-v1") && Field(receipt, ExecutorId) == JStr(ctx.executorId)
    ensures Field(receipt, OperationId) == JStr(r.operationId) && Field(receipt, PlanId) == JStr(r.planId)
  {
    ReceiptEntry(ctx, v, r, receipt, Protocol);
    ReceiptEntry(ctx, v, r, receipt, ExecutorId);
    ReceiptEntry(ctx, v, r, receipt, OperationId);
    ReceiptEntry(ctx, v, r, receipt, PlanId);
  }

  lemma ReceiptOutcome(ctx: Context, v: Visit, r: Request, receipt: Json)
    requires v.adapted.Returned? && receipt == ReceiptOf(ctx, v, r)
    ensures Field(receipt, RequestSha256) == JStr(ctx.crypto.sha(v.value)) && Field(receipt, IssuedAt) == JNum(v.finishedAt)
    ensures Field(receipt, ResultKey) == JObj(v.adapted.result)
    ensures Field(receipt, VerificationStatus) == if "verification_status" in v.adapted.result then v.adapted.result["verification_status"] else JStr("UNKNOWN")
  {
    ReceiptEntry(ctx, v, r, receipt, RequestSha256);
    ReceiptEntry(ctx, v, r, receipt, IssuedAt);
    ReceiptEntry(ctx, v, r, receipt, VerificationStatus);
    ReceiptEntry(ctx, v, r, receipt, ResultKey);
  }

  lemma ReceiptIssued(ctx: Context, v: Visit, r: Request, receipt: Json)
    requires v.adapted.Returned? && receipt == ReceiptOf(ctx, v, r)
    ensures ReceiptFor(ctx, v, r, receipt)
  {
    ReceiptHas(ctx, v, r, receipt);
    ReceiptParties(ctx, v, r, receipt);
    ReceiptOutcome(ctx, v, r, receipt);
  }

  /** One visit whose message reads as request r: what it does to the ledger and to the adapter, and what it answers. */
  ghost predicate VisitSays(ctx: Context, v: Visit, r: Request, before: Nonces, started: seq<Command>, after: Nonces, now: seq<Command>, reply: Reply) {
    if v.signature != "v1=" + ctx.crypto.mac(v.value)
    then reply == Refused(AuthError("request signature invalid")) && after == before && now == started
    else if !(WellFormed(r) && r.issuedAt - 5 <= v.checkedAt <= r.expiresAt)
    then reply.Refused? && Validate(r, v.checkedAt) == Some(reply.refusal) && after == before && now == started
    else if r.nonce in before && before[r.nonce] >= v.claimedAt
    then reply == Refused(AuthError("request replay detected")) && after == before && now == started
    else
      && LedgerSays(before, Claim(r.nonce, r.expiresAt, v.claimedAt), after)
      && if !v.workspaceOk then reply == Refused(PolicyError("workspace unavailable")) && now == started
         else && |now| == |started| + 1 && now[..|started|] == started && Carries(now[|started|], r)
              && if v.adapted.Raised? then reply == AdapterFailed
                 else reply.Answered? && ReceiptFor(ctx, v, r, reply.receipt) && reply.signature == "v1=" + ctx.crypto.mac(reply.receipt)
  }

  lemma SignatureExactly(crypto: Crypto, value: Json, signature: string)
    ensures SignatureOk(crypto, value, signature) <==> signature == "v1=" + crypto.mac(value)
  {
    assert Sign(crypto, value)[..3] == "v1=";
  }

  lemma Admission(ctx: Context, v: Visit, r: Request, before: Nonces)
    requires FromDict(ctx.py, v.value) == Some(r)
    ensures var signed, inWindow := v.signature == "v1=" + ctx.crypto.mac(v.value), WellFormed(r) && r.issuedAt - 5 <= v.checkedAt <= r.expiresAt;
            && (!signed ==> Screen(ctx, v) == Turned(AuthError("request signature invalid")))
            && (signed && !inWindow ==> Validate(r, v.checkedAt).Some? && Screen(ctx, v) == Turned(Validate(r, v.checkedAt).value))
            && (signed && inWindow ==> Screen(ctx, v) == Passed(r) && ClaimOf(ctx, v) == Some(Claim(r.nonce, r.expiresAt, v.claimedAt)))
    ensures Accepts(before, Claim(r.nonce, r.expiresAt, v.claimedAt)) <==> !(r.nonce in before && before[r.nonce] >= v.claimedAt)
  {
    SignatureExactly(ctx.crypto, v.value, v.signature);
    ValidateExactly(r, v.checkedAt);
  }

  lemma VisitEffect(ctx: Context, v: Visit, r: Request, before: Nonces, started: seq<Command>, after: Nonces, now: seq<Command>, reply: Reply)
    requires FromDict(ctx.py, v.value) == Some(r)
    requires var c := ClaimOf(ctx, v);
             var accepted := c.Some? && Accepts(before, c.value);
             && reply == ReplyTo(ctx, v, accepted)
             && after == (if c.Some? then AfterClaim(before, c.value) else before)
             && now == if accepted && v.workspaceOk then started + [CommandOf(r)] else started
    ensures VisitSays(ctx, v, r, before, started, after, now, reply)
  {
    Admission(ctx, v, r, before);
    if reply.Answered? { ReceiptIssued(ctx, v, r, reply.receipt); }
  }

  // ----- runs of the service, over one nonce ledger and any number of restarts -----

  type Visits = seq<Visit>

  function ClaimsOf(ctx: Context, visits: Visits): (claims: seq<Option<Claim>>)
    ensures |claims| == |visits| && forall k :: 0 <= k < |visits| ==> claims[k] == ClaimOf(ctx, visits[k])
  {
    seq(|visits|, k requires 0 <= k < |visits| => ClaimOf(ctx, visits[k]))
  }

  /** The nonce of visit k was accepted. */
  predicate Admitted(ctx: Context, visits: Visits, k: nat)
    requires k < |visits|
  {
    AcceptedAt(ClaimsOf(ctx, visits), k)
  }

  /** Visit k started the adapter. */
  predicate RanAt(ctx: Context, visits: Visits, k: nat)
    requires k < |visits|
  {
    Admitted(ctx, visits, k) && visits[k].workspaceOk
  }

  function RequestAt(ctx: Context, visits: Visits, k: nat): Request
    requires k < |visits| && Admitted(ctx, visits, k)
  {
    Screen(ctx, visits[k]).request
  }

  /** The commands started over these visits, in order. */
  function CommandsOf(ctx: Context, visits: Visits): seq<Command> {
    if visits == [] then []
    else
      var before, k := CommandsOf(ctx, visits[..|visits| - 1]), |visits| - 1;
      if RanAt(ctx, visits, k) then before + [CommandOf(RequestAt(ctx, visits, k))] else before
  }

  lemma CommandsStep(ctx: Context, visits: Visits, v: Visit)
    ensures var more, k := visits + [v], |visits|;
            CommandsOf(ctx, more) == if RanAt(ctx, more, k) then CommandsOf(ctx, visits) + [CommandOf(RequestAt(ctx, more, k))] else CommandsOf(ctx, visits)
  {
    assert (visits + [v])[..|visits|] == visits;
  }

  lemma ClaimsPrefix(ctx: Context, visits: Visits, k: nat)
    requires k <= |visits|
    ensures ClaimsOf(ctx, visits[..k]) == ClaimsOf(ctx, visits)[..k]
  {
  }

  /** One more visit: whether it is admitted, and the ledger it leaves. */
  lemma VisitStep(ctx: Context, visits: Visits, v: Visit)
    ensures var more, before := visits + [v], Ledger(ClaimsOf(ctx, visits));
            && (Admitted(ctx, more, |visits|) <==> ClaimOf(ctx, v).Some? && Accepts(before, ClaimOf(ctx, v).value))
            && Ledger(ClaimsOf(ctx, more)) == if ClaimOf(ctx, v).Some? then AfterClaim(before, ClaimOf(ctx, v).value) else before
  {
    var more := ClaimsOf(ctx, visits + [v]);
    assert more[..|visits|] == ClaimsOf(ctx, visits) && more[..|visits| + 1] == more;
    LedgerStep(more, |visits|);
  }

  /** The service object; its ledger outlives it. `visits` and `commands` record what it did. */
  class ExecutorService {
    const ctx: Context
    const guard: ReplayGuard
    ghost var visits: Visits
    ghost var commands: seq<Command>

    ghost predicate Valid()
      reads this, guard
    {
      guard.nonces == Ledger(ClaimsOf(ctx, visits)) && commands == CommandsOf(ctx, visits)
    }

    /** A service over the ledger that earlier visits left behind. */
    constructor (ctx: Context, guard: ReplayGuard, ghost earlier: Visits)
      requires guard.nonces == Ledger(ClaimsOf(ctx, earlier))
      ensures this.ctx == ctx && this.guard == guard && visits == earlier && Valid()
    {
      this.ctx, this.guard, this.visits, this.commands := ctx, guard, earlier, CommandsOf(ctx, earlier);
    }

    /** One request: what it does and answers is told by the request that its message reads as; a message that reads as
        none is refused. */
    method ExecuteSigned(v: Visit) returns (reply: Reply)
      requires Valid()
      modifies this, guard
      ensures Valid() && visits == old(visits) + [v]
      ensures reply == ReplyTo(ctx, v, Admitted(ctx, visits, |visits| - 1))
      ensures commands == if RanAt(ctx, visits, |visits| - 1)
                          then old(commands) + [CommandOf(RequestAt(ctx, visits, |visits| - 1))] else old(commands)
      ensures forall r :: FromDict(ctx.py, v.value) == Some(r) || v.value == ToDict(r) ==>
                VisitSays(ctx, v, r, old(guard.nonces), old(commands), guard.nonces, commands, reply)
      ensures FromDict(ctx.py, v.value).None? ==>
                && reply.Refused? && guard.nonces == old(guard.nonces) && commands == old(commands)
                && reply.refusal == if v.signature != "v1=" + ctx.crypto.mac(v.value) then AuthError("request signature invalid")
                                    else ProtocolError("invalid execution request")
    {
      ghost var before, started := guard.nonces, commands;
      reply := Serve(v);
      SignatureExactly(ctx.crypto, v.value, v.signature);
      forall r | FromDict(ctx.py, v.value) == Some(r) || v.value == ToDict(r)
        ensures VisitSays(ctx, v, r, before, started, guard.nonces, commands, reply)
      {
        RequestRoundTrip(ctx.py, r);
        VisitEffect(ctx, v, r, before, started, guard.nonces, commands, reply);
      }
    }

    method Serve(v: Visit) returns (reply: Reply)
      requires Valid()
      modifies this, guard
      ensures Valid() && visits == old(visits) + [v]
      ensures ClaimOf(ctx, v).Some? && Accepts(old(guard.nonces), ClaimOf(ctx, v).value) <==> Admitted(ctx, visits, |visits| - 1)
      ensures guard.nonces == if ClaimOf(ctx, v).Some? then AfterClaim(old(guard.nonces), ClaimOf(ctx, v).value) else old(guard.nonces)
      ensures reply == ReplyTo(ctx, v, Admitted(ctx, visits, |visits| - 1))
      ensures commands == if RanAt(ctx, visits, |visits| - 1)
                          then old(commands) + [CommandOf(RequestAt(ctx, visits, |visits| - 1))] else old(commands)
    {
      VisitStep(ctx, visits, v);
      CommandsStep(ctx, visits, v);
      visits := visits + [v];
      if !SignatureOk(ctx.crypto, v.value, v.signature) {
        return Refused(AuthError("request signature invalid"));
      }
      var req := FromDict(ctx.py, v.value);
      if req.None? {
        return Refused(ProtocolError("invalid execution request"));
      }
      var refusal := Validate(req.value, v.checkedAt);
      if refusal.Some? {
        return Refused(refusal.value);
      }
      var r := req.value;
      var accepted := guard.TryClaim(Claim(r.nonce, r.expiresAt, v.claimedAt));
      if !accepted {
        return Refused(AuthError("request replay detected"));
      }
      if !v.workspaceOk {
        return Refused(PolicyError("workspace unavailable"));
      }
      commands := commands + [CommandOf(r)];
      match v.adapted
      case Raised => return AdapterFailed;
      case Returned(_) =>
        var receipt := ReceiptOf(ctx, v, r);
        return Answered(receipt, Sign(ctx.crypto, receipt));
    }
  }

  // ----- at most once -----

  /** Every visit that passes the checks claims its nonce no later than the request expires. */
  predicate PromptVisits(ctx: Context, visits: Visits) {
    forall k :: 0 <= k < |visits| && ClaimOf(ctx, visits[k]).Some? ==> visits[k].claimedAt <= ClaimOf(ctx, visits[k]).value.expires
  }

  /** Reading both clocks in the same second is enough for that. */
  lemma SameSecondIsPrompt(ctx: Context, visits: Visits)
    requires forall k :: 0 <= k < |visits| ==> visits[k].claimedAt == visits[k].checkedAt
    ensures PromptVisits(ctx, visits)
  {
    forall k | 0 <= k < |visits| && Screen(ctx, visits[k]).Passed? ensures visits[k].claimedAt <= Screen(ctx, visits[k]).request.expiresAt {
      ValidateExactly(Screen(ctx, visits[k]).request, visits[k].checkedAt);
    }
  }

  /** A signed request is run at most once, across restarts and purges, if claims commit in clock order and
      are prompt. */
  lemma AtMostOnce(ctx: Context, visits: Visits, i: nat, j: nat)
    requires ClocksAscend(ClaimsOf(ctx, visits)) && PromptVisits(ctx, visits)
    requires i < |visits| && j < |visits| && RanAt(ctx, visits, i) && RanAt(ctx, visits, j)
    requires visits[i].value == visits[j].value
    ensures i == j
  {
    var claims := ClaimsOf(ctx, visits);
    if i < j { ClaimedAtMostOnce(claims, i, j); }
    if j < i { ClaimedAtMostOnce(claims, j, i); }
  }

  /** When a request already admitted is presented again and passes the checks again, whatever the clocks do: it is
      admitted again exactly when its claim, or an admitted one in between, read a clock past its expiry. */
  lemma ReplayAdmittedExactly(ctx: Context, visits: Visits, i: nat, j: nat)
    requires i < j < |visits| && LastClaim(ClaimsOf(ctx, visits), i, j)
    requires visits[j].value == visits[i].value && Screen(ctx, visits[j]).Passed?
    ensures Admitted(ctx, visits, j)
            <==> || visits[j].claimedAt > RequestAt(ctx, visits, i).expiresAt
                 || exists k :: i < k < j && Admitted(ctx, visits, k) && visits[k].claimedAt > RequestAt(ctx, visits, i).expiresAt
  {
    var claims, e := ClaimsOf(ctx, visits), RequestAt(ctx, visits, i).expiresAt;
    SecondUseExactly(claims, i, j);
    assert forall k :: i < k < j && Admitted(ctx, visits, k) ==> claims[k].value.now == visits[k].claimedAt;
    assert Overtaken(claims, i + 1, j, e) <==> exists k :: i < k < j && AcceptedAt(claims, k) && claims[k].value.now > e;
  }

  /** When a request already admitted is presented again and passes the checks again, it is admitted again
      exactly when the claim reads a clock past its expiry. */
  lemma ReplayAdmittedExactlyWhenLate(ctx: Context, visits: Visits, i: nat, j: nat)
    requires ClocksAscend(ClaimsOf(ctx, visits))
    requires i < j < |visits| && LastClaim(ClaimsOf(ctx, visits), i, j)
    requires visits[j].value == visits[i].value && Screen(ctx, visits[j]).Passed?
    ensures Admitted(ctx, visits, j) <==> visits[j].claimedAt > RequestAt(ctx, visits, i).expiresAt
  {
    SecondUseWithAscendingClocks(ClaimsOf(ctx, visits), i, j);
  }

  /** A well-formed request presented in its window reaches the ledger as itself. */
  lemma PresentedVisit(ctx: Context, r: Request, checked: int, claimed: int, result: map<string, Json>) returns (v: Visit)
    requires WellFormed(r) && r.issuedAt - SKEW <= checked <= r.expiresAt
    ensures v.value == ToDict(r) && v.checkedAt == checked && v.claimedAt == claimed && v.workspaceOk && v.adapted == Returned(result)
    ensures ClaimOf(ctx, v) == Some(Claim(r.nonce, r.expiresAt, claimed))
  {
    v := Visit(ToDict(r), Sign(ctx.crypto, ToDict(r)), checked, claimed, true, Returned(result), claimed);
    RequestRoundTrip(ctx.py, r);
    ValidateExactly(r, checked);
  }

  lemma LateVisitRuns(ctx: Context, first: Visit, second: Visit)
    requires ClaimOf(ctx, first).Some? && ClaimOf(ctx, second).Some? && first.workspaceOk && second.workspaceOk
    requires var c, d := ClaimOf(ctx, first).value, ClaimOf(ctx, second).value;
             c.nonce == d.nonce && c.now == c.expires && d.now > c.expires
    ensures var visits := [first, second]; ClocksAscend(ClaimsOf(ctx, visits)) && RanAt(ctx, visits, 0) && RanAt(ctx, visits, 1)
  {
    var claims := ClaimsOf(ctx, [first, second]);
    assert claims[..0] == [] && AcceptedAt(claims, 0);
    assert LastClaim(claims, 0, 1);
    SecondUseExactly(claims, 0, 1);
  }

  lemma OvertakenVisitRuns(ctx: Context, first: Visit, between: Visit) returns (visits: Visits)
    requires ClaimOf(ctx, first).Some? && ClaimOf(ctx, between).Some? && first.workspaceOk
    requires first.claimedAt == ClaimOf(ctx, first).value.expires < between.claimedAt <= ClaimOf(ctx, between).value.expires
    requires ClaimOf(ctx, first).value.nonce != ClaimOf(ctx, between).value.nonce
    ensures |visits| == 3 && visits[0] == visits[2] == first && visits[1] == between
    ensures PromptVisits(ctx, visits) && RanAt(ctx, visits, 0) && RanAt(ctx, visits, 2)
  {
    visits := [first, between, first];
    var claims := ClaimsOf(ctx, visits);
    assert claims[..0] == [] && AcceptedAt(claims, 0);
    LedgerStep(claims, 0);
    assert AcceptedAt(claims, 1);
    assert LastClaim(claims, 0, 2) && Overtaken(claims, 1, 2, first.claimedAt);
    SecondUseExactly(claims, 0, 2);
  }

  /** Why promptness is needed: checked in the last valid second and claimed in the next, any well-formed
      request runs twice. */
  lemma LateClaimRunsTwice(ctx: Context, r: Request, result: map<string, Json>) returns (visits: Visits)
    requires WellFormed(r)
    ensures |visits| == 2 && visits[0].value == ToDict(r) == visits[1].value
    ensures visits[1].checkedAt == r.expiresAt && visits[1].claimedAt == r.expiresAt + 1
    ensures ClocksAscend(ClaimsOf(ctx, visits)) && RanAt(ctx, visits, 0) && RanAt(ctx, visits, 1)
  {
    var e := r.expiresAt;
    var first := PresentedVisit(ctx, r, e, e, result);
    var second := PresentedVisit(ctx, r, e, e + 1, result);
    LateVisitRuns(ctx, first, second);
    visits := [first, second];
  }

  /** Why claims must commit in clock order: the clock is read before the ledger's lock is taken. If another
      request's claim, which read a later clock, gets in between, the first request runs twice even though
      every visit read both of its clocks in the same second. */
  lemma ClaimsOutOfClockOrderRunTwice(ctx: Context, r: Request, other: Request, result: map<string, Json>) returns (visits: Visits)
    requires WellFormed(r) && WellFormed(other) && other.nonce != r.nonce
    requires other.issuedAt - SKEW <= r.expiresAt + 1 <= other.expiresAt
    ensures |visits| == 3 && visits[0] == visits[2] && visits[0].value == ToDict(r) && visits[1].value == ToDict(other)
    ensures visits[0].checkedAt == visits[0].claimedAt && visits[1].checkedAt == visits[1].claimedAt
    ensures PromptVisits(ctx, visits) && RanAt(ctx, visits, 0) && RanAt(ctx, visits, 2)
  {
    var e := r.expiresAt;
    var first := PresentedVisit(ctx, r, e, e, result);
    var between := PresentedVisit(ctx, other, e + 1, e + 1, result);
    visits := OvertakenVisitRuns(ctx, first, between);
  }

  /** Right after an admission at clock c the other stored expiries all lie in [c, c + 125], and the admitted
      one as well exactly when the claim was prompt. */
  lemma LedgerWindow(ctx: Context, visits: Visits, k: nat)
    requires k < |visits| && Admitted(ctx, visits, k) && ClocksAscend(ClaimsOf(ctx, visits))
    requires forall m :: 0 <= m < |visits| ==> visits[m].checkedAt <= visits[m].claimedAt
    ensures var c, own, stored := visits[k].claimedAt, RequestAt(ctx, visits, k), Ledger(ClaimsOf(ctx, visits[..k + 1]));
            && own.nonce in stored && stored[own.nonce] == own.expiresAt
            && (forall x :: x in stored && x != own.nonce ==> c <= stored[x] <= c + 125)
            && ((forall x :: x in stored ==> c <= stored[x] <= c + 125) <==> c <= own.expiresAt)
  {
    var claims := ClaimsOf(ctx, visits);
    ClaimsPrefix(ctx, visits, k + 1);
    forall m | 0 <= m <= k && claims[m].Some? ensures claims[m].value.expires <= claims[m].value.now + 125 {
      ValidateExactly(Screen(ctx, visits[m]).request, visits[m].checkedAt);
    }
    StoredAfterClaim(claims, k, 125);
  }
}

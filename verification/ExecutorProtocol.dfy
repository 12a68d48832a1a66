/** Client and executor together, over a network that may lose, repeat, reorder and invent messages. All that is
    assumed of the signature is that what verifies was signed earlier by one of the two. */
module ExecutorProtocol {
  import opened Basics
  import opened Json
  import opened ExecutorRequest
  import opened ExecutorReplay
  import opened ExecutorService

  /** A client signs and sends a request; the executor serves a message; a client that sent a request receives a
      response. */
  datatype Event =
    | Sent(request: Request)
    | Served(visit: Visit)
    | Received(sent: Request, receipt: Json, signature: string)

  type Trace = seq<Event>

  // ----- the executor's part of a trace -----

  function ClaimIn(ctx: Context, e: Event): Option<Claim> {
    if e.Served? then ClaimOf(ctx, e.visit) else None
  }

  function TraceClaims(ctx: Context, trace: Trace): (claims: Claims)
    ensures |claims| == |trace| && forall k :: 0 <= k < |trace| ==> claims[k] == ClaimIn(ctx, trace[k])
  {
    seq(|trace|, k requires 0 <= k < |trace| => ClaimIn(ctx, trace[k]))
  }

  /** Event k is a visit that started the adapter. */
  predicate Ran(ctx: Context, trace: Trace, k: nat)
    requires k < |trace|
  {
    AcceptedAt(TraceClaims(ctx, trace), k) && trace[k].visit.workspaceOk
  }

  function RanRequest(ctx: Context, trace: Trace, k: nat): Request
    requires k < |trace| && Ran(ctx, trace, k)
  {
    Screen(ctx, trace[k].visit).request
  }

  /** Event k is a visit answered with this receipt. */
  predicate AnsweredWith(ctx: Context, trace: Trace, k: nat, receipt: Json)
    requires k < |trace|
  {
    Ran(ctx, trace, k) && trace[k].visit.adapted.Returned? && receipt == ReceiptOf(ctx, trace[k].visit, RanRequest(ctx, trace, k))
  }

  /** The visits of a trace, in order: what the service object saw. */
  function VisitsOf(trace: Trace): Visits {
    if trace == [] then []
    else
      var before, last := VisitsOf(trace[..|trace| - 1]), trace[|trace| - 1];
      if last.Served? then before + [last.visit] else before
  }

  lemma {:induction false} TraceLedger(ctx: Context, trace: Trace)
    ensures Ledger(TraceClaims(ctx, trace)) == Ledger(ClaimsOf(ctx, VisitsOf(trace)))
    decreases |trace|
  {
    if trace != [] {
      var before, last := trace[..|trace| - 1], trace[|trace| - 1];
      TraceLedger(ctx, before);
      assert TraceClaims(ctx, trace)[..|trace| - 1] == TraceClaims(ctx, before);
      if last.Served? { VisitStep(ctx, VisitsOf(before), last.visit); }
    }
  }

  /** A visit runs in the trace exactly when the service, having served the trace so far, runs it. */
  lemma RanIsServiceRun(ctx: Context, trace: Trace, k: nat)
    requires k < |trace| && trace[k].Served?
    ensures Ran(ctx, trace, k) <==> RanAt(ctx, VisitsOf(trace[..k]) + [trace[k].visit], |VisitsOf(trace[..k])|)
  {
    TraceLedger(ctx, trace[..k]);
    assert TraceClaims(ctx, trace)[..k] == TraceClaims(ctx, trace[..k]);
    VisitStep(ctx, VisitsOf(trace[..k]), trace[k].visit);
  }

  // ----- the commands of a trace -----

  /** Serving event k, the service hands this command to the adapter. */
  predicate Starts(ctx: Context, trace: Trace, k: nat, c: Command)
    requires k < |trace|
  {
    CommandsOf(ctx, VisitsOf(trace[..k + 1])) == CommandsOf(ctx, VisitsOf(trace[..k])) + [c]
  }

  lemma VisitsStep(trace: Trace, k: nat)
    requires k < |trace|
    ensures VisitsOf(trace[..k + 1]) == VisitsOf(trace[..k]) + if trace[k].Served? then [trace[k].visit] else []
  {
    assert trace[..k + 1][..k] == trace[..k];
  }

  lemma LastElement(a: seq<Command>, c: Command, d: Command)
    ensures a + [c] == a + [d] <==> c == d
    ensures a != a + [c]
  {
    assert (a + [c])[|a|] == c && (a + [d])[|a|] == d;
  }

  /** An event starts a command exactly if it ran, and then its request's. */
  lemma StartsExactly(ctx: Context, trace: Trace, k: nat, c: Command)
    requires k < |trace|
    ensures Starts(ctx, trace, k, c) <==> Ran(ctx, trace, k) && c == CommandOf(RanRequest(ctx, trace, k))
  {
    var visits := VisitsOf(trace[..k]);
    VisitsStep(trace, k);
    LastElement(CommandsOf(ctx, visits), c, c);
    if trace[k].Served? {
      RanIsServiceRun(ctx, trace, k);
      CommandsStep(ctx, visits, trace[k].visit);
      if Ran(ctx, trace, k) { LastElement(CommandsOf(ctx, visits), c, CommandOf(RanRequest(ctx, trace, k))); }
    } else {
      assert visits + [] == visits;
    }
  }

  // ----- signatures -----

  /** Client or executor signed the value before event k. */
  ghost predicate SignedBefore(ctx: Context, trace: Trace, k: nat, value: Json)
    requires k <= |trace|
  {
    || (exists i :: 0 <= i < k && trace[i].Sent? && ToDict(trace[i].request) == value)
    || (exists i :: 0 <= i < k && AnsweredWith(ctx, trace, i, value))
  }

  /** If the message delivered by event k carries a verifying signature, its content was signed earlier. */
  ghost predicate Genuine(ctx: Context, trace: Trace, k: nat)
    requires k < |trace|
  {
    match trace[k]
    case Sent(_) => true
    case Served(v) => SignatureOk(ctx.crypto, v.value, v.signature) ==> SignedBefore(ctx, trace, k, v.value)
    case Received(_, receipt, signature) => SignatureOk(ctx.crypto, receipt, signature) ==> SignedBefore(ctx, trace, k, receipt)
  }

  ghost predicate NoForgery(ctx: Context, trace: Trace) {
    forall k :: 0 <= k < |trace| ==> Genuine(ctx, trace, k)
  }

  /** The digests of sent requests and of served values do not collide. */
  ghost predicate DigestsDiffer(ctx: Context, trace: Trace) {
    forall i, j :: 0 <= i < |trace| && 0 <= j < |trace| && trace[i].Received? && trace[j].Served?
                   && ctx.crypto.sha(ToDict(trace[i].sent)) == ctx.crypto.sha(trace[j].visit.value)
                   ==> ToDict(trace[i].sent) == trace[j].visit.value
  }

  // ----- the client -----

  datatype ClientResult = Returned(receipt: Json) | ClientRefused(refusal: Refusal)

  /** The client's checks on the response to its request. */
  function ClientExecute(crypto: Crypto, r: Request, receipt: Json, signature: Option<string>): ClientResult {
    if !receipt.JObj? || signature.None? then ClientRefused(ProtocolError("executor response missing signed receipt"))
    else if !SignatureOk(crypto, receipt, signature.value) then ClientRefused(AuthError("receipt signature invalid"))
    else if Field(receipt, OperationId) != JStr(r.operationId) then ClientRefused(ProtocolError("receipt operation_id mismatch"))
    else if Field(receipt, RequestSha256) != JStr(crypto.sha(ToDict(r))) then ClientRefused(ProtocolError("receipt request hash mismatch"))
    else ClientResult.Returned(receipt)
  }

  /** What the client accepts, and how it refuses the rest. */
  lemma ClientExactly(crypto: Crypto, r: Request, receipt: Json, signature: Option<string>)
    ensures var result := ClientExecute(crypto, r, receipt, signature);
            var complete, signed := receipt.JObj? && signature.Some?, signature == Some("v1=" + crypto.mac(receipt));
            && (result.Returned? <==>
                  && complete && signed && Field(receipt, OperationId) == JStr(r.operationId)
                  && Field(receipt, RequestSha256) == JStr(crypto.sha(ToDict(r))))
            && (result.Returned? ==> result.receipt == receipt)
            && (result.ClientRefused? && result.refusal.AuthError? <==> complete && !signed)
  {
    if signature.Some? { SignatureExactly(crypto, receipt, signature.value); }
  }

  /** Event k: a client's call of execute returned. */
  predicate ReturnedAt(ctx: Context, trace: Trace, k: nat)
    requires k < |trace|
  {
    trace[k].Received? && ClientExecute(ctx.crypto, trace[k].sent, trace[k].receipt, Some(trace[k].signature)).Returned?
  }

  // ----- requests and receipts cannot be mistaken for each other -----

  lemma ReceiptSays(ctx: Context, v: Visit, r: Request, receipt: Json)
    requires v.adapted.Returned? && receipt == ReceiptOf(ctx, v, r)
    ensures receipt.JObj? && !Has(receipt, CapabilityId)
    ensures Field(receipt, OperationId) == JStr(r.operationId)
    ensures Field(receipt, RequestSha256) == JStr(ctx.crypto.sha(v.value))
    ensures Field(receipt, ResultKey) == JObj(v.adapted.result)
  {
    var fields := ReceiptFields(ctx, v, r);
    ObjectGet(fields, CapabilityId);
    ObjectGet(fields, OperationId);
    ObjectGet(fields, RequestSha256);
    ObjectGet(fields, ResultKey);
  }

  /** A receipt lacks what a request needs. */
  lemma ReceiptIsNoRequest(ctx: Context, py: Py, v: Visit, r: Request, receipt: Json)
    requires v.adapted.Returned? && receipt == ReceiptOf(ctx, v, r)
    ensures FromDict(py, receipt).None?
  {
    ReceiptSays(ctx, v, r, receipt);
    IncompleteIsNoRequest(py, receipt);
  }

  lemma IncompleteIsNoRequest(py: Py, value: Json)
    requires !Has(value, CapabilityId)
    ensures FromDict(py, value).None?
  {
    assert CapabilityId in REQUEST_KEYS && CapabilityId !in OPTIONAL_KEYS;
  }

  /** A request carries no request digest. */
  lemma RequestIsNoReceipt(r: Request)
    ensures Field(ToDict(r), RequestSha256) == JNull
  {
    ToDictField(r, RequestSha256);
  }

  /** Everything the executor ran is a request some client sent before, unaltered. */
  lemma RunsWereRequested(ctx: Context, trace: Trace, k: nat) returns (i: nat)
    requires NoForgery(ctx, trace) && k < |trace| && Ran(ctx, trace, k)
    ensures i < k && trace[i].Sent? && trace[i].request == RanRequest(ctx, trace, k)
    ensures trace[k].visit.value == ToDict(RanRequest(ctx, trace, k))
  {
    var v := trace[k].visit;
    assert TraceClaims(ctx, trace)[k] == ClaimOf(ctx, v);
    assert Genuine(ctx, trace, k) && SignedBefore(ctx, trace, k, v.value);
    forall j, receipt | 0 <= j < k && AnsweredWith(ctx, trace, j, receipt) ensures FromDict(ctx.py, receipt).None? {
      ReceiptIsNoRequest(ctx, ctx.py, trace[j].visit, RanRequest(ctx, trace, j), receipt);
    }
    i :| 0 <= i < k && trace[i].Sent? && ToDict(trace[i].request) == v.value;
    RequestRoundTrip(ctx.py, trace[i].request);
  }

  // ----- agreement -----

  predicate PromptTrace(ctx: Context, trace: Trace) {
    forall k :: 0 <= k < |trace| && trace[k].Served? && ClaimOf(ctx, trace[k].visit).Some?
      ==> trace[k].visit.claimedAt <= ClaimOf(ctx, trace[k].visit).value.expires
  }

  /** No request is run twice in a trace. */
  lemma TraceRunsOnce(ctx: Context, trace: Trace, i: nat, j: nat)
    requires ClocksAscend(TraceClaims(ctx, trace)) && PromptTrace(ctx, trace)
    requires i < |trace| && j < |trace| && Ran(ctx, trace, i) && Ran(ctx, trace, j)
    requires RanRequest(ctx, trace, i) == RanRequest(ctx, trace, j)
    ensures i == j
  {
    var claims := TraceClaims(ctx, trace);
    assert claims[i] == ClaimOf(ctx, trace[i].visit) && claims[j] == ClaimOf(ctx, trace[j].visit);
    if i < j { ClaimedAtMostOnce(claims, i, j); }
    if j < i { ClaimedAtMostOnce(claims, j, i); }
  }

  lemma RanAsSent(ctx: Context, trace: Trace, i: nat, r: Request)
    requires i < |trace| && Ran(ctx, trace, i) && trace[i].visit.value == ToDict(r)
    ensures RanRequest(ctx, trace, i) == r
  {
    RequestRoundTrip(ctx.py, r);
  }

  /** The receipt a client was returned answers a run of exactly its request, and reports that run's result. */
  lemma ReturnedReceiptAnswers(ctx: Context, trace: Trace, k: nat) returns (i: nat)
    requires NoForgery(ctx, trace) && DigestsDiffer(ctx, trace) && k < |trace| && ReturnedAt(ctx, trace, k)
    ensures i < k && AnsweredWith(ctx, trace, i, trace[k].receipt)
    ensures RanRequest(ctx, trace, i) == trace[k].sent && trace[i].visit.value == ToDict(trace[k].sent)
    ensures Field(trace[k].receipt, ResultKey) == JObj(trace[i].visit.adapted.result)
  {
    var r, receipt := trace[k].sent, trace[k].receipt;
    assert Genuine(ctx, trace, k) && SignedBefore(ctx, trace, k, receipt);
    forall m | 0 <= m < k && trace[m].Sent? ensures ToDict(trace[m].request) != receipt { RequestIsNoReceipt(trace[m].request); }
    i :| 0 <= i < k && AnsweredWith(ctx, trace, i, receipt);
    var v := trace[i].visit;
    ReceiptSays(ctx, v, RanRequest(ctx, trace, i), receipt);
    DigestChecked(ctx, trace, k);
    assert v.value == ToDict(r);
    RanAsSent(ctx, trace, i, r);
  }

  /** If a client's execute(r) returns, then in the whole trace the executor ran r exactly once, before that,
      and the receipt returned carries the result of that run. */
  lemma InjectiveAgreement(ctx: Context, trace: Trace, k: nat) returns (i: nat, c: Command)
    requires NoForgery(ctx, trace) && DigestsDiffer(ctx, trace) && k < |trace| && ReturnedAt(ctx, trace, k)
    requires ClocksAscend(TraceClaims(ctx, trace)) && PromptTrace(ctx, trace)
    ensures i < k && AnsweredWith(ctx, trace, i, trace[k].receipt)
    ensures Field(trace[k].receipt, ResultKey) == JObj(trace[i].visit.adapted.result)
    ensures forall j :: 0 <= j < |trace| && Ran(ctx, trace, j) ==> (RanRequest(ctx, trace, j) == trace[k].sent <==> j == i)
    ensures Starts(ctx, trace, i, c) && Carries(c, trace[k].sent) && ReceiptFor(ctx, trace[i].visit, trace[k].sent, trace[k].receipt)
    ensures forall j, d :: 0 <= j < |trace| && Starts(ctx, trace, j, d) ==>
              trace[j].Served? && (trace[j].visit.value == ToDict(trace[k].sent) <==> j == i)
  {
    i := ReturnedReceiptAnswers(ctx, trace, k);
    c := CommandOf(trace[k].sent);
    StartsExactly(ctx, trace, i, c);
    ReceiptIssued(ctx, trace[i].visit, trace[k].sent, trace[k].receipt);
    forall j, d | 0 <= j < |trace| && Starts(ctx, trace, j, d)
      ensures trace[j].Served? && (trace[j].visit.value == ToDict(trace[k].sent) <==> j == i)
    {
      StartsExactly(ctx, trace, j, d);
      if trace[j].visit.value == ToDict(trace[k].sent) {
        RanAsSent(ctx, trace, j, trace[k].sent);
        TraceRunsOnce(ctx, trace, i, j);
      }
    }
    forall j | 0 <= j < |trace| && Ran(ctx, trace, j) && RanRequest(ctx, trace, j) == trace[k].sent ensures j == i {
      TraceRunsOnce(ctx, trace, i, j);
    }
  }

  lemma DigestChecked(ctx: Context, trace: Trace, k: nat)
    requires k < |trace| && ReturnedAt(ctx, trace, k)
    ensures Field(trace[k].receipt, RequestSha256) == JStr(ctx.crypto.sha(ToDict(trace[k].sent)))
  {
  }

  /** The hypotheses of agreement can be met: every well-formed request has a trace in which it is sent, run and
      answered. */
  lemma AgreementAttained(ctx: Context, r: Request, result: map<string, Json>) returns (trace: Trace)
    requires WellFormed(r)
    ensures NoForgery(ctx, trace) && DigestsDiffer(ctx, trace) && ClocksAscend(TraceClaims(ctx, trace)) && PromptTrace(ctx, trace)
    ensures |trace| == 3 && ReturnedAt(ctx, trace, 2) && trace[2].sent == r && Field(trace[2].receipt, ResultKey) == JObj(result)
  {
    var v := PresentedVisit(ctx, r, r.issuedAt, r.issuedAt, result);
    var receipt := ReceiptOf(ctx, v, r);
    trace := [Sent(r), Served(v), Received(r, receipt, Sign(ctx.crypto, receipt))];
    RanOnce(ctx, trace, r);
    ReceiptSays(ctx, v, r, receipt);
    Exchanged(ctx, trace, r, v, receipt);
    OneDigest(ctx, trace);
    OnePrompt(ctx, trace, ClaimOf(ctx, v));
  }

  /** One request, its visit and the answer: nothing in it is forged, and the client accepts it. */
  lemma Exchanged(ctx: Context, trace: Trace, r: Request, v: Visit, receipt: Json)
    requires |trace| == 3 && trace[0] == Sent(r) && trace[1] == Served(v) && trace[2] == Received(r, receipt, Sign(ctx.crypto, receipt))
    requires v.value == ToDict(r) && AnsweredWith(ctx, trace, 1, receipt)
    ensures NoForgery(ctx, trace) && ReturnedAt(ctx, trace, 2)
  {
    HonestReceiptAccepted(ctx, trace, 1, r, receipt);
    assert SignedBefore(ctx, trace, 1, v.value) by { assert ToDict(trace[0].request) == v.value; }
    assert SignedBefore(ctx, trace, 2, receipt);
    AllGenuine(ctx, trace);
  }

  lemma OneDigest(ctx: Context, trace: Trace)
    requires |trace| == 3 && trace[0].Sent? && trace[1].Served? && trace[2].Received?
    requires trace[1].visit.value == ToDict(trace[2].sent)
    ensures DigestsDiffer(ctx, trace)
  {
    forall i, j | 0 <= i < 3 && 0 <= j < 3 && trace[i].Received? && trace[j].Served? ensures i == 2 && j == 1 {}
  }

  lemma OnePrompt(ctx: Context, trace: Trace, c: Option<Claim>)
    requires |trace| == 3 && trace[0].Sent? && trace[1].Served? && trace[2].Received?
    requires ClaimOf(ctx, trace[1].visit) == c && c.Some? && trace[1].visit.claimedAt <= c.value.expires
    ensures PromptTrace(ctx, trace)
  {
    forall k | 0 <= k < 3 && trace[k].Served? ensures k == 1 {}
  }

  lemma AllGenuine(ctx: Context, trace: Trace)
    requires |trace| == 3 && trace[0].Sent? && trace[1].Served? && trace[2].Received?
    requires SignedBefore(ctx, trace, 1, trace[1].visit.value) && SignedBefore(ctx, trace, 2, trace[2].receipt)
    ensures NoForgery(ctx, trace)
  {
    forall k | 0 <= k < 3 ensures Genuine(ctx, trace, k) {}
  }

  lemma RanOnce(ctx: Context, trace: Trace, r: Request)
    requires |trace| == 3 && trace[0].Sent? && trace[1].Served? && trace[2].Received?
    requires trace[1].visit.value == ToDict(r) && trace[1].visit.workspaceOk && ClaimOf(ctx, trace[1].visit).Some?
    ensures Ran(ctx, trace, 1) && RanRequest(ctx, trace, 1) == r && ClocksAscend(TraceClaims(ctx, trace))
  {
    SingleClaim(TraceClaims(ctx, trace));
    RanAsSent(ctx, trace, 1, r);
  }

  /** Two calls of execute with different requests are never returned the same run. */
  lemma ReceiptsAreNotShared(ctx: Context, trace: Trace, k: nat, m: nat)
    requires NoForgery(ctx, trace) && DigestsDiffer(ctx, trace)
    requires k < |trace| && m < |trace| && ReturnedAt(ctx, trace, k) && ReturnedAt(ctx, trace, m)
    requires trace[k].receipt == trace[m].receipt
    ensures trace[k].sent == trace[m].sent
  {
    var j := ReturnedReceiptAnswers(ctx, trace, m);
    DigestChecked(ctx, trace, k);
    DigestChecked(ctx, trace, m);
    assert ToDict(trace[k].sent) == trace[j].visit.value;
    ToDictInjective(ctx.py, trace[k].sent, trace[m].sent);
  }

  lemma SignedIsOk(crypto: Crypto, value: Json)
    ensures SignatureOk(crypto, value, Sign(crypto, value))
  {
    assert Sign(crypto, value)[..3] == "v1=";
  }

  lemma ClientAccepts(crypto: Crypto, r: Request, receipt: Json, signature: string)
    requires receipt.JObj? && SignatureOk(crypto, receipt, signature)
    requires Field(receipt, OperationId) == JStr(r.operationId) && Field(receipt, RequestSha256) == JStr(crypto.sha(ToDict(r)))
    ensures ClientExecute(crypto, r, receipt, Some(signature)) == ClientResult.Returned(receipt)
  {
  }

  /** A client accepts every answer to the request it sent: the checks lose no honest receipt. */
  lemma HonestReceiptAccepted(ctx: Context, trace: Trace, i: nat, r: Request, receipt: Json)
    requires i < |trace| && AnsweredWith(ctx, trace, i, receipt) && trace[i].visit.value == ToDict(r)
    ensures ClientExecute(ctx.crypto, r, receipt, Some(Sign(ctx.crypto, receipt))) == ClientResult.Returned(receipt)
  {
    RanAsSent(ctx, trace, i, r);
    ReceiptSays(ctx, trace[i].visit, r, receipt);
    SignedIsOk(ctx.crypto, receipt);
    ClientAccepts(ctx.crypto, r, receipt, Sign(ctx.crypto, receipt));
  }
}

/** Execution requests of the executor-v1 protocol: their wire form, and when the executor accepts one. */
module ExecutorRequest {
  import opened Basics
  import opened Json
  import FleetModel

  // ----- objects with known keys -----

  datatype Key =
    | OperationId | PlanId | CapabilityId | OperationClass | WorkspaceId | Argv | Cwd | NetworkDefault | AllowedHosts
    | IssuedAt | ExpiresAt | Nonce | RequestedBy
    | Protocol | ExecutorId | RequestSha256 | VerificationStatus | ResultKey

  function Text(k: Key): string {
    match k
    case OperationId => "operation_id"
    case PlanId => "plan_id"
    case CapabilityId => "capability_id"
    case OperationClass => "operation_class"
    case WorkspaceId => "workspace_id"
    case Argv => "argv"
    case Cwd => "cwd"
    case NetworkDefault => "network_default"
    case AllowedHosts => "allowed_hosts"
    case IssuedAt => "issued_at"
    case ExpiresAt => "expires_at"
    case Nonce => "nonce"
    case RequestedBy => "requested_by"
    case Protocol => "protocol"
    case ExecutorId => "executor_id"
    case RequestSha256 => "request_sha256"
    case VerificationStatus => "verification_status"
    case ResultKey => "result"
  }

  /** The names on the wire. */
  lemma WireNames()
    ensures Text(OperationId) == "operation_id" && Text(PlanId) == "plan_id" && Text(CapabilityId) == "capability_id"
    ensures Text(OperationClass) == "operation_class" && Text(WorkspaceId) == "workspace_id" && Text(Argv) == "argv" && Text(Cwd) == "cwd"
    ensures Text(NetworkDefault) == "network_default" && Text(AllowedHosts) == "allowed_hosts" && Text(IssuedAt) == "issued_at"
    ensures Text(ExpiresAt) == "expires_at" && Text(Nonce) == "nonce" && Text(RequestedBy) == "requested_by" && Text(Protocol) == "protocol"
    ensures Text(ExecutorId) == "executor_id" && Text(RequestSha256) == "request_sha256"
    ensures Text(VerificationStatus) == "verification_status" && Text(ResultKey) == "result"
  {
  }

  lemma TextInjective(a: Key, b: Key)
    requires Text(a) == Text(b)
    ensures a == b
  {
  }

  function Object(m: map<Key, Json>): Json {
    KeysDiffer();
    JObj(map k | k in m :: Text(k) := m[k])
  }

  lemma KeysDiffer()
    ensures forall a, b :: Text(a) == Text(b) ==> a == b
  {
    forall a, b | Text(a) == Text(b) ensures a == b { TextInjective(a, b); }
  }

  predicate Has(value: Json, k: Key) {
    value.JObj? && Text(k) in value.fields
  }

  lemma ObjectGet(m: map<Key, Json>, k: Key)
    ensures Has(Object(m), k) <==> k in m
    ensures Get(Object(m), Text(k)) == if k in m then m[k] else JNull
  {
    KeysDiffer();
    if k in m { assert Text(k) in Object(m).fields; }
  }

  // ----- requests -----

  /** The frozen dataclass. `argv` and `allowedHosts` may hold anything until validated. */
  datatype Request = Request(
    operationId: string, planId: string, capabilityId: string, operationClass: string, workspaceId: string,
    argv: seq<Json>, cwd: string, networkDefault: string, allowedHosts: seq<Json>,
    issuedAt: int, expiresAt: int, nonce: string, requestedBy: string)

  function FieldOf(r: Request, k: Key): Json {
    match k
    case OperationId => JStr(r.operationId)
    case PlanId => JStr(r.planId)
    case CapabilityId => JStr(r.capabilityId)
    case OperationClass => JStr(r.operationClass)
    case WorkspaceId => JStr(r.workspaceId)
    case Argv => JArr(r.argv)
    case Cwd => JStr(r.cwd)
    case NetworkDefault => JStr(r.networkDefault)
    case AllowedHosts => JArr(r.allowedHosts)
    case IssuedAt => JNum(r.issuedAt)
    case ExpiresAt => JNum(r.expiresAt)
    case Nonce => JStr(r.nonce)
    case RequestedBy => JStr(r.requestedBy)
    case _ => JNull
  }

  const REQUEST_KEYS := {OperationId, PlanId, CapabilityId, OperationClass, WorkspaceId, Argv, Cwd, NetworkDefault, AllowedHosts,
                         IssuedAt, ExpiresAt, Nonce, RequestedBy}

  const OPTIONAL_KEYS := {Cwd, AllowedHosts}

  function ToDict(r: Request): Json {
    Object(map k | k in REQUEST_KEYS :: FieldOf(r, k))
  }

  /** What Python's conversions do with values that are not already of the wanted kind. */
  datatype Py = Py(text: Json -> string, number: string -> Option<int>, keys: map<string, Json> -> seq<string>)

  /** str(x) */
  function Str(py: Py, j: Json): string {
    if j.JStr? then j.s else py.text(j)
  }

  /** int(x), None where it raises. */
  function Int(py: Py, j: Json): Option<int> {
    match j
    case JNum(n) => Some(n)
    case JBool(b) => Some(if b then 1 else 0)
    case JStr(s) => py.number(s)
    case _ => None
  }

  function Texts(xs: seq<string>): seq<Json> {
    seq(|xs|, i requires 0 <= i < |xs| => JStr(xs[i]))
  }

  /** tuple(x), None where it raises. */
  function Tuple(py: Py, j: Json): Option<seq<Json>> {
    match j
    case JArr(items) => Some(items)
    case JStr(s) => Some(seq(|s|, i requires 0 <= i < |s| => JStr([s[i]])))
    case JObj(fields) => Some(Texts(py.keys(fields)))
    case _ => None
  }

  function Field(value: Json, k: Key): Json {
    Get(value, Text(k))
  }

  predicate Complete(value: Json) {
    forall k :: k in REQUEST_KEYS && k !in OPTIONAL_KEYS ==> Has(value, k)
  }

  /** from_dict: the request, or None where it raises. */
  function FromDict(py: Py, value: Json): Option<Request> {
    if !Complete(value) then None
    else
      var argv := Tuple(py, Field(value, Argv));
      var hosts := if Has(value, AllowedHosts) then Tuple(py, Field(value, AllowedHosts)) else Some([]);
      var issued, expires := Int(py, Field(value, IssuedAt)), Int(py, Field(value, ExpiresAt));
      if argv.None? || hosts.None? || issued.None? || expires.None? then None
      else
        Some(Request(
               Str(py, Field(value, OperationId)), Str(py, Field(value, PlanId)), Str(py, Field(value, CapabilityId)),
               Str(py, Field(value, OperationClass)), Str(py, Field(value, WorkspaceId)), argv.value,
               if Has(value, Cwd) then Str(py, Field(value, Cwd)) else ".",
               Str(py, Field(value, NetworkDefault)), hosts.value, issued.value, expires.value,
               Str(py, Field(value, Nonce)), Str(py, Field(value, RequestedBy))))
  }

  lemma ToDictField(r: Request, k: Key)
    ensures Has(ToDict(r), k) <==> k in REQUEST_KEYS
    ensures Field(ToDict(r), k) == FieldOf(r, k)
  {
    ObjectGet(map q | q in REQUEST_KEYS :: FieldOf(r, q), k);
  }

  lemma ToDictComplete(r: Request)
    ensures Complete(ToDict(r)) && Has(ToDict(r), Cwd) && Has(ToDict(r), AllowedHosts)
  {
    forall k | k in REQUEST_KEYS ensures Has(ToDict(r), k) { ToDictField(r, k); }
  }

  lemma NamesBack(r: Request, value: Json)
    requires value == ToDict(r)
    ensures Field(value, OperationId) == JStr(r.operationId) && Field(value, PlanId) == JStr(r.planId)
    ensures Field(value, CapabilityId) == JStr(r.capabilityId) && Field(value, OperationClass) == JStr(r.operationClass)
  {
    ToDictField(r, OperationId); ToDictField(r, PlanId); ToDictField(r, CapabilityId); ToDictField(r, OperationClass);
  }

  lemma PartiesBack(r: Request, value: Json)
    requires value == ToDict(r)
    ensures Field(value, WorkspaceId) == JStr(r.workspaceId) && Field(value, Nonce) == JStr(r.nonce)
    ensures Field(value, RequestedBy) == JStr(r.requestedBy)
  {
    ToDictField(r, WorkspaceId); ToDictField(r, Nonce); ToDictField(r, RequestedBy);
  }

  lemma LimitsBack(r: Request, value: Json)
    requires value == ToDict(r)
    ensures Field(value, Argv) == JArr(r.argv) && Field(value, AllowedHosts) == JArr(r.allowedHosts)
    ensures Field(value, Cwd) == JStr(r.cwd) && Field(value, NetworkDefault) == JStr(r.networkDefault)
    ensures Field(value, IssuedAt) == JNum(r.issuedAt) && Field(value, ExpiresAt) == JNum(r.expiresAt)
  {
    ToDictField(r, Argv); ToDictField(r, AllowedHosts); ToDictField(r, Cwd); ToDictField(r, NetworkDefault);
    ToDictField(r, IssuedAt); ToDictField(r, ExpiresAt);
  }

  lemma FieldsBack(r: Request, value: Json)
    requires value == ToDict(r)
    ensures Field(value, OperationId) == JStr(r.operationId) && Field(value, PlanId) == JStr(r.planId)
    ensures Field(value, CapabilityId) == JStr(r.capabilityId) && Field(value, OperationClass) == JStr(r.operationClass)
    ensures Field(value, WorkspaceId) == JStr(r.workspaceId) && Field(value, Argv) == JArr(r.argv)
    ensures Field(value, Cwd) == JStr(r.cwd) && Field(value, NetworkDefault) == JStr(r.networkDefault)
    ensures Field(value, AllowedHosts) == JArr(r.allowedHosts) && Field(value, IssuedAt) == JNum(r.issuedAt)
    ensures Field(value, ExpiresAt) == JNum(r.expiresAt) && Field(value, Nonce) == JStr(r.nonce)
    ensures Field(value, RequestedBy) == JStr(r.requestedBy)
  {
    NamesBack(r, value);
    PartiesBack(r, value);
    LimitsBack(r, value);
  }

  /** What the entries of a complete message have to be for it to read as r. */
  lemma ReadsAs(py: Py, value: Json, r: Request)
    requires Complete(value)
    requires Field(value, OperationId) == JStr(r.operationId) && Field(value, PlanId) == JStr(r.planId)
    requires Field(value, CapabilityId) == JStr(r.capabilityId) && Field(value, OperationClass) == JStr(r.operationClass)
    requires Field(value, WorkspaceId) == JStr(r.workspaceId) && Field(value, Argv) == JArr(r.argv)
    requires Field(value, NetworkDefault) == JStr(r.networkDefault) && Field(value, IssuedAt) == JNum(r.issuedAt)
    requires Field(value, ExpiresAt) == JNum(r.expiresAt) && Field(value, Nonce) == JStr(r.nonce)
    requires Field(value, RequestedBy) == JStr(r.requestedBy)
    requires if Has(value, Cwd) then Field(value, Cwd) == JStr(r.cwd) else r.cwd == "."
    requires if Has(value, AllowedHosts) then Field(value, AllowedHosts) == JArr(r.allowedHosts) else r.allowedHosts == []
    ensures FromDict(py, value) == Some(r)
  {
  }

  /** A request survives the wire unchanged, whatever its fields hold. */
  lemma RequestRoundTrip(py: Py, r: Request)
    ensures FromDict(py, ToDict(r)) == Some(r)
  {
    var value := ToDict(r);
    ToDictComplete(r);
    FieldsBack(r, value);
    ReadsAs(py, value, r);
  }

  lemma ToDictInjective(py: Py, a: Request, b: Request)
    requires ToDict(a) == ToDict(b)
    ensures a == b
  {
    RequestRoundTrip(py, a);
    RequestRoundTrip(py, b);
  }

  /** The wire form with some keys left out. */
  function Without(r: Request, dropped: set<Key>): Json {
    Object(map k | k in REQUEST_KEYS && k !in dropped :: FieldOf(r, k))
  }

  lemma WithoutField(r: Request, dropped: set<Key>, k: Key)
    ensures Has(Without(r, dropped), k) <==> k in REQUEST_KEYS && k !in dropped
    ensures k !in dropped ==> Field(Without(r, dropped), k) == FieldOf(r, k)
  {
    ObjectGet(map q | q in REQUEST_KEYS && q !in dropped :: FieldOf(r, q), k);
  }

  lemma WithoutNames(r: Request, dropped: set<Key>, value: Json)
    requires value == Without(r, dropped) && dropped <= OPTIONAL_KEYS
    ensures Field(value, OperationId) == JStr(r.operationId) && Field(value, PlanId) == JStr(r.planId)
    ensures Field(value, CapabilityId) == JStr(r.capabilityId) && Field(value, OperationClass) == JStr(r.operationClass)
  {
    WithoutField(r, dropped, OperationId); WithoutField(r, dropped, PlanId); WithoutField(r, dropped, CapabilityId);
    WithoutField(r, dropped, OperationClass);
  }

  lemma WithoutParties(r: Request, dropped: set<Key>, value: Json)
    requires value == Without(r, dropped) && dropped <= OPTIONAL_KEYS
    ensures Field(value, WorkspaceId) == JStr(r.workspaceId) && Field(value, RequestedBy) == JStr(r.requestedBy)
  {
    WithoutField(r, dropped, WorkspaceId); WithoutField(r, dropped, RequestedBy);
  }

  lemma WithoutLimits(r: Request, dropped: set<Key>, value: Json)
    requires value == Without(r, dropped) && dropped <= OPTIONAL_KEYS
    ensures Field(value, NetworkDefault) == JStr(r.networkDefault) && Field(value, Argv) == JArr(r.argv)
  {
    WithoutField(r, dropped, NetworkDefault); WithoutField(r, dropped, Argv);
  }

  lemma WithoutTimes(r: Request, dropped: set<Key>, value: Json)
    requires value == Without(r, dropped) && dropped <= OPTIONAL_KEYS
    ensures Field(value, IssuedAt) == JNum(r.issuedAt) && Field(value, ExpiresAt) == JNum(r.expiresAt) && Field(value, Nonce) == JStr(r.nonce)
  {
    WithoutField(r, dropped, IssuedAt); WithoutField(r, dropped, ExpiresAt); WithoutField(r, dropped, Nonce);
  }

  lemma WithoutOptions(r: Request, dropped: set<Key>, value: Json)
    requires value == Without(r, dropped)
    ensures (Has(value, Cwd) <==> Cwd !in dropped) && (Cwd !in dropped ==> Field(value, Cwd) == JStr(r.cwd))
    ensures (Has(value, AllowedHosts) <==> AllowedHosts !in dropped) && (AllowedHosts !in dropped ==> Field(value, AllowedHosts) == JArr(r.allowedHosts))
  {
    WithoutField(r, dropped, Cwd);
    WithoutField(r, dropped, AllowedHosts);
  }

  /** A message that lacks some keys reads as the request with "." for a missing directory and no hosts for missing
      hosts; lacking any other key it does not read at all. */
  lemma SparseRoundTrip(py: Py, r: Request, dropped: set<Key>)
    requires dropped <= REQUEST_KEYS
    ensures FromDict(py, Without(r, dropped))
            == if dropped <= {Cwd, AllowedHosts}
               then Some(r.(cwd := if Cwd in dropped then "." else r.cwd, allowedHosts := if AllowedHosts in dropped then [] else r.allowedHosts))
               else None
  {
    if dropped <= OPTIONAL_KEYS {
      SparseReads(py, r, dropped);
    } else {
      var k :| k in dropped && k !in OPTIONAL_KEYS;
      WithoutField(r, dropped, k);
      assert !Complete(Without(r, dropped));
    }
  }

  lemma SparseReads(py: Py, r: Request, dropped: set<Key>)
    requires dropped <= OPTIONAL_KEYS
    ensures FromDict(py, Without(r, dropped))
            == Some(r.(cwd := if Cwd in dropped then "." else r.cwd, allowedHosts := if AllowedHosts in dropped then [] else r.allowedHosts))
  {
    var value := Without(r, dropped);
    forall k | k in REQUEST_KEYS && k !in OPTIONAL_KEYS ensures Has(value, k) { WithoutField(r, dropped, k); }
    WithoutNames(r, dropped, value);
    WithoutParties(r, dropped, value);
    WithoutLimits(r, dropped, value);
    WithoutTimes(r, dropped, value);
    WithoutOptions(r, dropped, value);
    ReadsAs(py, value, r.(cwd := if Cwd in dropped then "." else r.cwd, allowedHosts := if AllowedHosts in dropped then [] else r.allowedHosts));
  }

  // ----- validation -----

  const MAX_TTL := 120
  const SKEW := 5

  datatype Refusal = ProtocolError(text: string) | PolicyError(text: string) | AuthError(text: string)

  predicate ShortText(s: string) {
    1 <= |s| <= 128
  }

  function Validate(r: Request, now: int): Option<Refusal> {
    var ttl := r.expiresAt - r.issuedAt;
    if !("OP-" <= r.operationId) || |r.operationId| > 64 then Some(ProtocolError("invalid operation_id"))
    else if !ShortText(r.planId) then Some(ProtocolError("invalid plan_id"))
    else if !FleetModel.IdOk(r.capabilityId) then Some(ProtocolError("invalid capability_id"))
    else if r.operationClass != "COMPUTE" then Some(PolicyError("executor-v1 authorizes COMPUTE only"))
    else if !FleetModel.IdOk(r.workspaceId) then Some(PolicyError("invalid workspace_id"))
    else if r.argv == [] || |r.argv| > 64 then Some(ProtocolError("argv must contain 1..64 arguments"))
    else if !FleetModel.ArgvOk(r.argv) then Some(ProtocolError("invalid argv"))
    else if !FleetModel.CwdOk(r.cwd) then Some(PolicyError("cwd must stay relative to the workspace"))
    else if r.networkDefault != "DENY" then Some(PolicyError("executor-v1 requires deny-by-default network"))
    else if r.allowedHosts != [] then Some(PolicyError("selective egress is unavailable in executor-v1"))
    else if !ShortText(r.nonce) then Some(ProtocolError("invalid nonce"))
    else if !ShortText(r.requestedBy) then Some(ProtocolError("invalid requested_by"))
    else if ttl < 1 || ttl > MAX_TTL then Some(AuthError("request TTL outside allowed window"))
    else if r.issuedAt > now + SKEW then Some(AuthError("request issued in the future"))
    else if r.expiresAt < now then Some(AuthError("request expired"))
    else None
  }

  /** Everything validate demands that does not depend on the clock. */
  predicate WellFormed(r: Request) {
    && "OP-" <= r.operationId && |r.operationId| <= 64 && ShortText(r.planId)
    && FleetModel.IdOk(r.capabilityId) && FleetModel.IdOk(r.workspaceId) && FleetModel.ArgvOk(r.argv) && FleetModel.CwdOk(r.cwd)
    && r.operationClass == "COMPUTE" && r.networkDefault == "DENY" && r.allowedHosts == []
    && ShortText(r.nonce) && ShortText(r.requestedBy)
    && 1 <= r.expiresAt - r.issuedAt <= MAX_TTL
  }

  /** A request is accepted exactly in its window, and which refusals a clock can cause. */
  lemma ValidateExactly(r: Request, now: int)
    ensures Validate(r, now).None? <==> WellFormed(r) && r.issuedAt - SKEW <= now <= r.expiresAt
    ensures WellFormed(r) && Validate(r, now).Some? ==> Validate(r, now).value.AuthError?
  {
  }

  /** What each kind of refusal says about the request. */
  lemma RefusalNamesItsCause(r: Request, now: int)
    ensures var refusal := Validate(r, now);
            && (refusal.Some? && refusal.value.ProtocolError? ==>
                  || !("OP-" <= r.operationId && |r.operationId| <= 64) || !ShortText(r.planId) || !FleetModel.IdOk(r.capabilityId)
                  || !FleetModel.ArgvOk(r.argv) || !ShortText(r.nonce) || !ShortText(r.requestedBy))
            && (refusal.Some? && refusal.value.PolicyError? ==>
                  || r.operationClass != "COMPUTE" || !FleetModel.IdOk(r.workspaceId) || !FleetModel.CwdOk(r.cwd)
                  || r.networkDefault != "DENY" || r.allowedHosts != [])
            && (refusal.Some? && refusal.value.AuthError? <==>
                  && (WellFormed(r) || WellFormed(r.(expiresAt := r.issuedAt + 1)))
                  && !(1 <= r.expiresAt - r.issuedAt <= 120 && r.issuedAt - 5 <= now <= r.expiresAt))
  {
  }

  datatype Created = Ok(request: Request) | ValueError | Invalid(refusal: Refusal)

  /** create, with the two generated identifiers as parameters. */
  function Create(planId: string, capabilityId: string, workspaceId: string, argv: seq<Json>, cwd: string, requestedBy: string,
                  ttl: int, now: int, operation: string, nonce: string): Created
  {
    if ttl < 1 || ttl > MAX_TTL then ValueError
    else
      var r := Request("OP-" + operation, planId, capabilityId, "COMPUTE", workspaceId, argv, cwd, "DENY", [],
                       now, now + ttl, nonce, requestedBy);
      var refusal := Validate(r, now);
      if refusal.Some? then Invalid(refusal.value) else Ok(r)
  }

  /** A created request arrives as it was sent, is valid from five seconds before its creation to its
      expiry, and at no other time. */
  lemma CreatedRequestWindow(py: Py, planId: string, capabilityId: string, workspaceId: string, argv: seq<Json>, cwd: string,
                             requestedBy: string, ttl: int, now: int, operation: string, nonce: string, t: int)
    requires Create(planId, capabilityId, workspaceId, argv, cwd, requestedBy, ttl, now, operation, nonce).Ok?
    ensures var r := Create(planId, capabilityId, workspaceId, argv, cwd, requestedBy, ttl, now, operation, nonce).request;
            && FromDict(py, ToDict(r)) == Some(r)
            && (Validate(r, t).None? <==> now - 5 <= t <= now + ttl)
            && r.operationId == "OP-" + operation && r.nonce == nonce && r.planId == planId && r.capabilityId == capabilityId
            && r.workspaceId == workspaceId && r.argv == argv && r.cwd == cwd && r.requestedBy == requestedBy
            && r.operationClass == "COMPUTE" && r.networkDefault == "DENY" && r.allowedHosts == []
  {
    var r := Create(planId, capabilityId, workspaceId, argv, cwd, requestedBy, ttl, now, operation, nonce).request;
    RequestRoundTrip(py, r);
    ValidateExactly(r, now);
    ValidateExactly(r, t);
  }

  /** With generated identifiers of at most 61 and 1 to 128 characters, creation fails only on its arguments:
      never because of the clock. */
  lemma CreateAcceptsGoodArguments(planId: string, capabilityId: string, workspaceId: string, argv: seq<Json>, cwd: string,
                                   requestedBy: string, ttl: int, now: int, operation: string, nonce: string)
    requires |operation| <= 61 && ShortText(nonce)
    ensures Create(planId, capabilityId, workspaceId, argv, cwd, requestedBy, ttl, now, operation, nonce).Ok?
            <==> 1 <= ttl <= 120 && ShortText(planId) && FleetModel.IdOk(capabilityId) && FleetModel.IdOk(workspaceId)
                 && FleetModel.ArgvOk(argv) && FleetModel.CwdOk(cwd) && ShortText(requestedBy)
    ensures Create(planId, capabilityId, workspaceId, argv, cwd, requestedBy, ttl, now, operation, nonce).ValueError? <==> !(1 <= ttl <= 120)
  {
    var r := Request("OP-" + operation, planId, capabilityId, "COMPUTE", workspaceId, argv, cwd, "DENY", [],
                     now, now + ttl, nonce, requestedBy);
    assert r.operationId[..3] == "OP-";
    ValidateExactly(r, now);
  }
}

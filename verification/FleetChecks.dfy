/** The checks of the independent verifier: what a verification spec asserts, the dictionary filled in for a job,
    the verdict, and the proof handed in with it. */
module FleetChecks {
  import opened Basics
  import opened Json
  import opened HashChain
  import opened FleetModel
  import opened FleetInvariant

  /** What the verifier sees besides the job: how Python prints a non-string value, and the digest of the
      workspace, which is missing when the directory is missing or outside the root. */
  datatype World = World(show: Json -> string, manifest: Option<string>)

  function TextOf(w: World, j: Json): string {
    if j.JStr? then j.s else w.show(j)
  }

  // ----- what a verification spec asserts -----

  predicate Has(spec: Json, key: string) {
    spec.JObj? && key in spec.fields
  }

  /** `value or {}`. */
  function OrEmpty(j: Json): Json {
    if Truthy(j) then j else JObj(map[])
  }

  function ReceiptOf(job: Job): Json {
    if job.receipt.Some? then OrEmpty(job.receipt.value) else JObj(map[])
  }

  function ResultOf(job: Job): Json {
    OrEmpty(Get(ReceiptOf(job), "result"))
  }

  function IsolationOf(job: Job): Json {
    OrEmpty(Get(ResultOf(job), "isolation"))
  }

  predicate AssertsResult(spec: Json) {
    Has(spec, "expected_exit_code") || Has(spec, "runner") || Has(spec, "persistent_effect")
  }

  predicate AssertsIsolation(spec: Json) {
    Has(spec, "network_default") || Has(spec, "root_filesystem") || Has(spec, "capabilities")
  }

  predicate AssertsWorkspace(spec: Json) {
    Truthy(Get(spec, "require_workspace_unchanged"))
  }

  /** The spec makes at least one assertion the verifier knows. */
  predicate Recognised(spec: Json) {
    AssertsResult(spec) || AssertsIsolation(spec) || Has(spec, "stdout_contains") || AssertsWorkspace(spec)
  }

  predicate StdoutSpecOk(expected: Json) {
    expected.JArr? && expected.items != [] && forall i :: 0 <= i < |expected.items| ==> expected.items[i].JStr? && expected.items[i].s != ""
  }

  /** Everything the asserted checks look at is there to be looked at. */
  predicate WellFormed(w: World, job: Job) {
    var spec := job.order.spec;
    && ReceiptOf(job).JObj? && ResultOf(job).JObj?
    && (AssertsIsolation(spec) ==> IsolationOf(job).JObj?)
    && (Has(spec, "stdout_contains") ==> StdoutSpecOk(Get(spec, "stdout_contains")))
    && (AssertsWorkspace(spec) ==> w.manifest.Some?)
  }

  /** The named field of a dictionary equals what the spec says. */
  predicate Agrees(spec: Json, key: string, actual: Json) {
    Has(spec, key) ==> PyEq(actual, Get(spec, key))
  }

  predicate ResultHolds(spec: Json, result: Json) {
    && Agrees(spec, "expected_exit_code", Get(result, "exit_code"))
    && Agrees(spec, "runner", Get(result, "runner"))
    && Agrees(spec, "persistent_effect", Get(result, "persistent_effect"))
  }

  predicate IsolationHolds(spec: Json, isolation: Json) {
    && Agrees(spec, "network_default", Get(isolation, "network_default"))
    && Agrees(spec, "root_filesystem", Get(isolation, "root_filesystem"))
    && Agrees(spec, "capabilities", Get(isolation, "capabilities"))
  }

  predicate StdoutHolds(expected: Json, stdout: string) {
    StdoutSpecOk(expected) ==> forall i :: 0 <= i < |expected.items| ==> Occurs(expected.items[i].s, stdout)
  }

  /** Every assertion of the spec holds of the job's result and workspace. */
  predicate SpecHolds(w: World, job: Job) {
    var spec := job.order.spec;
    && ResultHolds(spec, ResultOf(job))
    && IsolationHolds(spec, IsolationOf(job))
    && (Has(spec, "stdout_contains") ==> StdoutHolds(Get(spec, "stdout_contains"), StdoutOf(w, job)))
    && (AssertsWorkspace(spec) ==> w.manifest.Some? && job.order.workspaceBefore == w.manifest)
  }

  /** `str(result.get("stdout", ""))`: an absent field reads as empty text, a null one is printed. */
  function StdoutOf(w: World, job: Job): string {
    if Has(ResultOf(job), "stdout") then TextOf(w, Get(ResultOf(job), "stdout")) else ""
  }

  predicate ReceiptUnknown(job: Job) {
    Get(ReceiptOf(job), "verification_status") == JStr("UNKNOWN")
  }

  predicate DigestPresent(job: Job) {
    job.receiptSha.Some? && |job.receiptSha.value| == 64
  }

  // ----- the checks as they are filled in -----

  /** The entries of the checks dictionary; `KeyText` gives their names. */
  datatype CheckKey =
    | ReceiptKey | DigestKey | ExitCodeKey | RunnerKey | EffectKey | NetworkKey | RootKey | CapabilitiesKey
    | StdoutKey(index: nat)
    | WorkspaceKey

  function Digit(n: int): char
    requires 0 <= n < 10
  {
    "0123456789"[n]
  }

  function Decimal(n: nat): string {
    if n < 10 then [Digit(n)] else Decimal(n / 10) + [Digit(n % 10)]
  }

  function KeyText(k: CheckKey): string {
    match k
    case ReceiptKey => "receipt_remains_unknown"
    case DigestKey => "receipt_hash_present"
    case ExitCodeKey => "exit_code"
    case RunnerKey => "runner"
    case EffectKey => "persistent_effect"
    case NetworkKey => "network_default"
    case RootKey => "root_filesystem"
    case CapabilitiesKey => "capabilities"
    case StdoutKey(i) => "stdout_contains_" + Decimal(i)
    case WorkspaceKey => "workspace_unchanged"
  }

  /** The number a decimal numeral stands for. */
  function Numeral(s: string): int {
    if s == "" then 0 else 10 * Numeral(s[..|s| - 1]) + (s[|s| - 1] as int - '0' as int)
  }

  lemma {:induction false} DecimalReads(n: nat)
    ensures Numeral(Decimal(n)) == n
  {
    var s := Decimal(n);
    assert s[|s| - 1] as int - '0' as int == n % 10;
    if n >= 10 {
      assert s[..|s| - 1] == Decimal(n / 10);
      DecimalReads(n / 10);
    } else {
      assert s[..|s| - 1] == "";
    }
  }

  lemma DecimalInjective(a: nat, b: nat)
    requires Decimal(a) == Decimal(b)
    ensures a == b
  {
    DecimalReads(a);
    DecimalReads(b);
  }

  lemma StdoutText(i: nat)
    ensures KeyText(StdoutKey(i))[0] == 's' && KeyText(StdoutKey(i))[16..] == Decimal(i)
  {
    assert KeyText(StdoutKey(i))[0] == "stdout_contains_"[0];
  }

  /** Different checks have different names, so no entry of the dictionary overwrites another. */
  lemma KeyTextInjective(a: CheckKey, b: CheckKey)
    requires KeyText(a) == KeyText(b)
    ensures a == b
  {
    if a.StdoutKey? { StdoutText(a.index); }
    if b.StdoutKey? { StdoutText(b.index); }
    if a.StdoutKey? && b.StdoutKey? { DecimalInjective(a.index, b.index); }
  }

  type CheckMap = map<CheckKey, bool>

  datatype Checked = Checks(checks: CheckMap, observed: Json) | CannotCheck

  predicate AllPass(checks: CheckMap) {
    forall k :: k in checks ==> checks[k]
  }

  /** Some entry is about the outcome rather than the receipt. */
  predicate AboutOutcome(checks: CheckMap) {
    exists k :: k in checks && k != ReceiptKey && k != DigestKey
  }

  /** The spec asks for this check; the two about the receipt are always made. */
  predicate Asserted(spec: Json, k: CheckKey) {
    match k
    case ReceiptKey => true
    case DigestKey => true
    case ExitCodeKey => Has(spec, "expected_exit_code")
    case RunnerKey => Has(spec, "runner")
    case EffectKey => Has(spec, "persistent_effect")
    case NetworkKey => Has(spec, "network_default")
    case RootKey => Has(spec, "root_filesystem")
    case CapabilitiesKey => Has(spec, "capabilities")
    case StdoutKey(i) => Has(spec, "stdout_contains") && StdoutSpecOk(Get(spec, "stdout_contains")) && i < |Get(spec, "stdout_contains").items|
    case WorkspaceKey => AssertsWorkspace(spec)
  }

  /** How the check turns out. */
  predicate Passes(w: World, job: Job, k: CheckKey)
    requires Asserted(job.order.spec, k)
  {
    var spec, result, isolation := job.order.spec, ResultOf(job), IsolationOf(job);
    match k
    case ReceiptKey => ReceiptUnknown(job)
    case DigestKey => DigestPresent(job)
    case ExitCodeKey => PyEq(Get(result, "exit_code"), Get(spec, "expected_exit_code"))
    case RunnerKey => PyEq(Get(result, "runner"), Get(spec, "runner"))
    case EffectKey => PyEq(Get(result, "persistent_effect"), Get(spec, "persistent_effect"))
    case NetworkKey => PyEq(Get(isolation, "network_default"), Get(spec, "network_default"))
    case RootKey => PyEq(Get(isolation, "root_filesystem"), Get(spec, "root_filesystem"))
    case CapabilitiesKey => PyEq(Get(isolation, "capabilities"), Get(spec, "capabilities"))
    case StdoutKey(i) => Occurs(Get(spec, "stdout_contains").items[i].s, StdoutOf(w, job))
    case WorkspaceKey => job.order.workspaceBefore.Some? && job.order.workspaceBefore == w.manifest
  }

  /** The order in which the checks are filled in. */
  function Turn(k: CheckKey): nat {
    match k
    case ReceiptKey => 0
    case DigestKey => 1
    case ExitCodeKey => 2
    case RunnerKey => 3
    case EffectKey => 4
    case NetworkKey => 5
    case RootKey => 6
    case CapabilitiesKey => 7
    case StdoutKey(_) => 8
    case WorkspaceKey => 9
  }

  /** The dictionary holds exactly the asserted checks whose turn has come, each as it turns out. */
  ghost predicate FilledTo(w: World, job: Job, checks: CheckMap, n: nat) {
    && (forall k :: k in checks <==> Asserted(job.order.spec, k) && Turn(k) < n)
    && (forall k :: k in checks ==> checks[k] == Passes(w, job, k))
  }

  /** One more check, made if it is asserted, when its turn comes. */
  lemma FilledOneMore(w: World, job: Job, checks: CheckMap, key: CheckKey, r: CheckMap)
    requires FilledTo(w, job, checks, Turn(key)) && !key.StdoutKey?
    requires r == if Asserted(job.order.spec, key) then checks[key := Passes(w, job, key)] else checks
    ensures FilledTo(w, job, r, Turn(key) + 1)
  {
  }

  /** One comparison of a field with the spec: `if key in spec: checks[name] = actual == spec[key]`. */
  method NoteField(checks: CheckMap, key: CheckKey, spec: Json, specKey: string, actual: Json) returns (r: CheckMap)
    ensures r == if Has(spec, specKey) then checks[key := PyEq(actual, Get(spec, specKey))] else checks
  {
    r := checks;
    if Has(spec, specKey) { r := r[key := PyEq(actual, Get(spec, specKey))]; }
  }

  /** The stdout checks, one entry for each expected text. */
  method NoteStdout(w: World, job: Job, checks: CheckMap, expected: Json, stdout: string) returns (r: CheckMap)
    requires StdoutSpecOk(expected) && Has(job.order.spec, "stdout_contains") && expected == Get(job.order.spec, "stdout_contains")
    requires stdout == StdoutOf(w, job) && FilledTo(w, job, checks, 8)
    ensures FilledTo(w, job, r, 9)
  {
    r := checks;
    var items := expected.items;
    for n := 0 to |items|
      invariant forall k :: k in r <==> Asserted(job.order.spec, k) && Turn(k) < 9 && (k.StdoutKey? ==> k.index < n)
      invariant forall k :: k in r ==> r[k] == Passes(w, job, k)
    {
      r := r[StdoutKey(n) := Occurs(items[n].s, stdout)];
    }
  }

  /** The comparisons with the result dictionary. */
  method NoteResult(w: World, job: Job, checks: CheckMap) returns (r: CheckMap)
    requires FilledTo(w, job, checks, 2)
    ensures FilledTo(w, job, r, 5)
  {
    var spec, result := job.order.spec, ResultOf(job);
    var c := NoteField(checks, ExitCodeKey, spec, "expected_exit_code", Get(result, "exit_code"));
    FilledOneMore(w, job, checks, ExitCodeKey, c);
    var d := NoteField(c, RunnerKey, spec, "runner", Get(result, "runner"));
    FilledOneMore(w, job, c, RunnerKey, d);
    r := NoteField(d, EffectKey, spec, "persistent_effect", Get(result, "persistent_effect"));
    FilledOneMore(w, job, d, EffectKey, r);
  }

  /** The comparisons with the isolation dictionary. */
  method NoteIsolation(w: World, job: Job, checks: CheckMap) returns (r: CheckMap)
    requires FilledTo(w, job, checks, 5)
    ensures FilledTo(w, job, r, 8)
  {
    var spec, isolation := job.order.spec, IsolationOf(job);
    var c := NoteField(checks, NetworkKey, spec, "network_default", Get(isolation, "network_default"));
    FilledOneMore(w, job, checks, NetworkKey, c);
    var d := NoteField(c, RootKey, spec, "root_filesystem", Get(isolation, "root_filesystem"));
    FilledOneMore(w, job, c, RootKey, d);
    r := NoteField(d, CapabilitiesKey, spec, "capabilities", Get(isolation, "capabilities"));
    FilledOneMore(w, job, d, CapabilitiesKey, r);
  }

  function TextOrNull(t: Option<string>): Json {
    if t.Some? then JStr(t.value) else JNull
  }

  /** What the verifier notes beside the checks. */
  method Observe(w: World, job: Job) returns (observed: Json)
    requires AssertsWorkspace(job.order.spec) ==> w.manifest.Some?
    ensures ObservedSays(w, job, observed)
  {
    var result := ResultOf(job);
    var fields := map["receipt_sha256" := TextOrNull(job.receiptSha), "runner" := Get(result, "runner"),
                      "exit_code" := Get(result, "exit_code"), "persistent_effect" := Get(result, "persistent_effect")];
    if AssertsWorkspace(job.order.spec) {
      fields := fields["workspace_before_sha256" := TextOrNull(job.order.workspaceBefore)];
      fields := fields["workspace_after_sha256" := JStr(w.manifest.value)];
    }
    observed := JObj(fields);
  }

  /** The stdout and workspace checks; None when what they look at is missing or malformed. */
  method NoteRest(w: World, job: Job, checks: CheckMap) returns (r: Option<CheckMap>)
    requires FilledTo(w, job, checks, 8)
    ensures r.Some? <==> && (Has(job.order.spec, "stdout_contains") ==> StdoutSpecOk(Get(job.order.spec, "stdout_contains")))
                         && (AssertsWorkspace(job.order.spec) ==> w.manifest.Some?)
    ensures r.Some? ==> FilledTo(w, job, r.value, 10)
  {
    var spec, c := job.order.spec, checks;
    if Has(spec, "stdout_contains") {
      var expected := Get(spec, "stdout_contains");
      if !StdoutSpecOk(expected) {
        return None;
      }
      c := NoteStdout(w, job, checks, expected, StdoutOf(w, job));
    }
    var d := c;
    if AssertsWorkspace(spec) {
      if w.manifest.None? {
        return None;
      }
      d := d[WorkspaceKey := job.order.workspaceBefore.Some? && job.order.workspaceBefore == w.manifest];
    }
    assert FilledTo(w, job, c, 9);
    FilledOneMore(w, job, c, WorkspaceKey, d);
    return Some(d);
  }

  /** All checks of a job, filled in one by one, and what was observed; refused when something asserted cannot be
      looked at, or when nothing is asserted. */
  method FillChecks(w: World, job: Job) returns (r: Checked)
    ensures r.Checks? <==> Recognised(job.order.spec) && WellFormed(w, job)
    ensures r.Checks? ==> FilledTo(w, job, r.checks, 10) && ObservedSays(w, job, r.observed)
    ensures r.Checks? ==> r.checks != map[] && (AllPass(r.checks) <==> ReceiptUnknown(job) && DigestPresent(job) && SpecHolds(w, job))
  {
    var spec := job.order.spec;
    if !Truthy(spec) || !spec.JObj? || !ReceiptOf(job).JObj? || !ResultOf(job).JObj? {
      return CannotCheck;
    }
    if AssertsIsolation(spec) && !IsolationOf(job).JObj? {
      return CannotCheck;
    }
    var first: CheckMap := map[ReceiptKey := ReceiptUnknown(job), DigestKey := DigestPresent(job)];
    FilledFirst(w, job, first);
    var checks := NoteResult(w, job, first);
    checks := NoteIsolation(w, job, checks);
    var all := NoteRest(w, job, checks);
    if all.None? {
      return CannotCheck;
    }
    FilledMeansHolds(w, job, all.value);
    if !(exists k :: k in all.value && k != ReceiptKey && k != DigestKey) {
      return CannotCheck;
    }
    var observed := Observe(w, job);
    return Checks(all.value, observed);
  }

  lemma FilledFirst(w: World, job: Job, first: CheckMap)
    requires first == map[ReceiptKey := ReceiptUnknown(job), DigestKey := DigestPresent(job)]
    ensures FilledTo(w, job, first, 2)
  {
  }

  /** A full dictionary has an outcome entry exactly if the spec asserts one, and passes exactly if all it asserts holds. */
  lemma FilledMeansHolds(w: World, job: Job, checks: CheckMap)
    requires FilledTo(w, job, checks, 10) && WellFormed(w, job)
    ensures checks != map[] && (AboutOutcome(checks) <==> Recognised(job.order.spec))
    ensures AllPass(checks) <==> ReceiptUnknown(job) && DigestPresent(job) && SpecHolds(w, job)
  {
    FilledAboutOutcome(w, job, checks);
    if AllPass(checks) { PassedHolds(w, job, checks); }
    if ReceiptUnknown(job) && DigestPresent(job) && SpecHolds(w, job) {
      forall k | k in checks ensures checks[k] { MayPass(w, job, k); }
    }
  }

  lemma FilledAboutOutcome(w: World, job: Job, checks: CheckMap)
    requires FilledTo(w, job, checks, 10) && WellFormed(w, job)
    ensures checks != map[] && (AboutOutcome(checks) <==> Recognised(job.order.spec))
  {
    var spec := job.order.spec;
    assert ReceiptKey in checks;
    assert Has(spec, "stdout_contains") ==> StdoutKey(0) in checks;
    if Recognised(spec) {
      var k := if Has(spec, "expected_exit_code") then ExitCodeKey else if Has(spec, "runner") then RunnerKey
               else if Has(spec, "persistent_effect") then EffectKey else if Has(spec, "network_default") then NetworkKey
               else if Has(spec, "root_filesystem") then RootKey else if Has(spec, "capabilities") then CapabilitiesKey
               else if Has(spec, "stdout_contains") then StdoutKey(0) else WorkspaceKey;
      assert k in checks;
    }
  }

  lemma PassedHolds(w: World, job: Job, checks: CheckMap)
    requires FilledTo(w, job, checks, 10) && WellFormed(w, job) && AllPass(checks)
    ensures ReceiptUnknown(job) && DigestPresent(job) && SpecHolds(w, job)
  {
    MustPass(w, job, checks, ReceiptKey);
    MustPass(w, job, checks, DigestKey);
    MustPass(w, job, checks, ExitCodeKey);
    MustPass(w, job, checks, RunnerKey);
    MustPass(w, job, checks, EffectKey);
    MustPass(w, job, checks, NetworkKey);
    MustPass(w, job, checks, RootKey);
    MustPass(w, job, checks, CapabilitiesKey);
    MustPass(w, job, checks, WorkspaceKey);
    if Has(job.order.spec, "stdout_contains") {
      var expected := Get(job.order.spec, "stdout_contains");
      forall i | 0 <= i < |expected.items| ensures Occurs(expected.items[i].s, StdoutOf(w, job)) {
        MustPass(w, job, checks, StdoutKey(i));
      }
    }
  }

  lemma MustPass(w: World, job: Job, checks: CheckMap, k: CheckKey)
    requires FilledTo(w, job, checks, 10) && AllPass(checks)
    ensures Asserted(job.order.spec, k) ==> Passes(w, job, k)
  {
  }

  lemma MayPass(w: World, job: Job, k: CheckKey)
    requires WellFormed(w, job) && ReceiptUnknown(job) && DigestPresent(job) && SpecHolds(w, job)
    ensures Asserted(job.order.spec, k) ==> Passes(w, job, k)
  {
  }

  // ----- the verdict -----

  const METHOD_NAME := "independent-fleet-verifier-v1"

  lemma KeysDiffer()
    ensures forall a, b :: KeyText(a) == KeyText(b) ==> a == b
  {
    forall a, b | KeyText(a) == KeyText(b) ensures a == b { KeyTextInjective(a, b); }
  }

  function ChecksJson(checks: CheckMap): Json {
    KeysDiffer();
    JObj(map k | k in checks :: KeyText(k) := JBool(checks[k]))
  }

  function ProofOf(checks: CheckMap, observed: Json): Json {
    JObj(map["checks" := ChecksJson(checks), "observed" := observed, "method" := JStr(METHOD_NAME)])
  }

  function BlockedProof(reason: string): Json {
    JObj(map["checks" := JObj(map[]), "observed" := JObj(map[]), "method" := JStr(METHOD_NAME), "reason" := JStr(reason)])
  }

  /** The store's admission test accepts every proof whose checks are present and all pass, and no other. */
  lemma ProofAdmission(checks: CheckMap, observed: Json)
    ensures ProofPasses(ProofOf(checks, observed)) <==> checks != map[] && AllPass(checks)
  {
    var j := ChecksJson(checks);
    KeysDiffer();
    assert Get(ProofOf(checks, observed), "checks") == j;
    assert forall k :: k in checks ==> KeyText(k) in j.fields && j.fields[KeyText(k)] == JBool(checks[k]);
    if checks != map[] {
      var k :| k in checks;
      assert KeyText(k) in j.fields;
    }
  }

  // ----- the proof, entry by entry -----

  /** The dictionary has this entry exactly if it is asserted, and then with this value. */
  predicate Flag(j: Json, name: string, asserted: bool, value: bool) {
    j.JObj? && (name in j.fields <==> asserted) && (asserted ==> j.fields[name] == JBool(value))
  }

  predicate FieldFlag(j: Json, name: string, spec: Json, specKey: string, actual: Json) {
    Flag(j, name, Has(spec, specKey), PyEq(actual, Get(spec, specKey)))
  }

  const FIXED_NAMES: set<string> :=
    {"receipt_remains_unknown", "receipt_hash_present", "exit_code", "runner", "persistent_effect",
     "network_default", "root_filesystem", "capabilities", "workspace_unchanged"}

  /** The checks dictionary of a proof, by the names a reader finds there. */
  predicate ChecksSay(w: World, job: Job, j: Json) {
    var spec, result, isolation := job.order.spec, ResultOf(job), IsolationOf(job);
    && Flag(j, "receipt_remains_unknown", true, Get(ReceiptOf(job), "verification_status") == JStr("UNKNOWN"))
    && Flag(j, "receipt_hash_present", true, job.receiptSha.Some? && |job.receiptSha.value| == 64)
    && FieldFlag(j, "exit_code", spec, "expected_exit_code", Get(result, "exit_code"))
    && FieldFlag(j, "runner", spec, "runner", Get(result, "runner"))
    && FieldFlag(j, "persistent_effect", spec, "persistent_effect", Get(result, "persistent_effect"))
    && FieldFlag(j, "network_default", spec, "network_default", Get(isolation, "network_default"))
    && FieldFlag(j, "root_filesystem", spec, "root_filesystem", Get(isolation, "root_filesystem"))
    && FieldFlag(j, "capabilities", spec, "capabilities", Get(isolation, "capabilities"))
    && Flag(j, "workspace_unchanged", Truthy(Get(spec, "require_workspace_unchanged")),
            job.order.workspaceBefore.Some? && job.order.workspaceBefore == w.manifest)
    && StdoutSay(w, job, j)
  }

  /** What was observed: the receipt's digest, three fields of its result, and the workspace digests if asked for. */
  predicate ObservedSays(w: World, job: Job, j: Json) {
    var result := ResultOf(job);
    && j.JObj?
    && j.fields.Keys == {"receipt_sha256", "runner", "exit_code", "persistent_effect"}
                        + (if Truthy(Get(job.order.spec, "require_workspace_unchanged")) then {"workspace_before_sha256", "workspace_after_sha256"} else {})
    && j.fields["receipt_sha256"] == TextOrNull(job.receiptSha)
    && j.fields["runner"] == Get(result, "runner") && j.fields["exit_code"] == Get(result, "exit_code")
    && j.fields["persistent_effect"] == Get(result, "persistent_effect")
    && (Truthy(Get(job.order.spec, "require_workspace_unchanged")) ==>
          j.fields["workspace_before_sha256"] == TextOrNull(job.order.workspaceBefore) && j.fields["workspace_after_sha256"] == TextOrNull(w.manifest))
  }

  /** The proof a verdict comes with: the checks and what was observed, or, with BLOCKED, only the reason. */
  predicate ProofSays(w: World, job: Job, verdict: JobState, reason: string, proof: Json) {
    && proof.JObj? && Get(proof, "method") == JStr("independent-fleet-verifier-v1")
    && if verdict == BLOCKED
       then && proof.fields.Keys == {"checks", "observed", "method", "reason"} && Get(proof, "reason") == JStr(reason)
            && Get(proof, "checks") == JObj(map[]) && Get(proof, "observed") == JObj(map[])
       else && proof.fields.Keys == {"checks", "observed", "method"}
            && ChecksSay(w, job, Get(proof, "checks")) && ObservedSays(w, job, Get(proof, "observed"))
  }

  lemma EntrySpelled(w: World, job: Job, checks: CheckMap, k: CheckKey)
    requires FilledTo(w, job, checks, 10)
    ensures var j := ChecksJson(checks);
            (KeyText(k) in j.fields <==> Asserted(job.order.spec, k)) && (Asserted(job.order.spec, k) ==> j.fields[KeyText(k)] == JBool(Passes(w, job, k)))
  {
    KeysDiffer();
  }

  lemma ResultSpelled(w: World, job: Job, checks: CheckMap, j: Json)
    requires FilledTo(w, job, checks, 10) && j == ChecksJson(checks)
    ensures var spec, result := job.order.spec, ResultOf(job);
            && FieldFlag(j, "exit_code", spec, "expected_exit_code", Get(result, "exit_code"))
            && FieldFlag(j, "runner", spec, "runner", Get(result, "runner"))
            && FieldFlag(j, "persistent_effect", spec, "persistent_effect", Get(result, "persistent_effect"))
  {
    EntrySpelled(w, job, checks, ExitCodeKey);
    EntrySpelled(w, job, checks, RunnerKey);
    EntrySpelled(w, job, checks, EffectKey);
  }

  lemma IsolationSpelled(w: World, job: Job, checks: CheckMap, j: Json)
    requires FilledTo(w, job, checks, 10) && j == ChecksJson(checks)
    ensures var spec, isolation := job.order.spec, IsolationOf(job);
            && FieldFlag(j, "network_default", spec, "network_default", Get(isolation, "network_default"))
            && FieldFlag(j, "root_filesystem", spec, "root_filesystem", Get(isolation, "root_filesystem"))
            && FieldFlag(j, "capabilities", spec, "capabilities", Get(isolation, "capabilities"))
  {
    EntrySpelled(w, job, checks, NetworkKey);
    EntrySpelled(w, job, checks, RootKey);
    EntrySpelled(w, job, checks, CapabilitiesKey);
  }

  lemma ReceiptSpelled(w: World, job: Job, checks: CheckMap, j: Json)
    requires FilledTo(w, job, checks, 10) && j == ChecksJson(checks)
    ensures Flag(j, "receipt_remains_unknown", true, Get(ReceiptOf(job), "verification_status") == JStr("UNKNOWN"))
    ensures Flag(j, "receipt_hash_present", true, job.receiptSha.Some? && |job.receiptSha.value| == 64)
    ensures Flag(j, "workspace_unchanged", Truthy(Get(job.order.spec, "require_workspace_unchanged")),
                 job.order.workspaceBefore.Some? && job.order.workspaceBefore == w.manifest)
  {
    EntrySpelled(w, job, checks, ReceiptKey);
    EntrySpelled(w, job, checks, DigestKey);
    EntrySpelled(w, job, checks, WorkspaceKey);
  }

  lemma ChecksSpelled(w: World, job: Job, checks: CheckMap)
    requires FilledTo(w, job, checks, 10) && WellFormed(w, job)
    ensures ChecksSay(w, job, ChecksJson(checks))
  {
    var j := ChecksJson(checks);
    ResultSpelled(w, job, checks, j);
    IsolationSpelled(w, job, checks, j);
    ReceiptSpelled(w, job, checks, j);
    StdoutSpelled(w, job, checks);
  }

  lemma ProofSpelled(w: World, job: Job, verdict: JobState, reason: string, j: Json, observed: Json, proof: Json)
    requires verdict != BLOCKED && ChecksSay(w, job, j) && ObservedSays(w, job, observed)
    requires proof == JObj(map["checks" := j, "observed" := observed, "method" := JStr(METHOD_NAME)])
    ensures ProofSays(w, job, verdict, reason, proof)
  {
    assert Get(proof, "checks") == j && Get(proof, "observed") == observed;
  }

  lemma NameSpelled(w: World, job: Job, checks: CheckMap, name: string) returns (i: nat)
    requires FilledTo(w, job, checks, 10) && WellFormed(w, job) && name in ChecksJson(checks).fields && name !in FIXED_NAMES
    ensures Asserted(job.order.spec, StdoutKey(i)) && name == "stdout_contains_" + Decimal(i)
  {
    var k :| k in checks && name == KeyText(k);
    assert k.StdoutKey?;
    i := k.index;
  }

  /** Beside the fixed names there are the texts expected on stdout, numbered. */
  predicate StdoutSay(w: World, job: Job, j: Json) {
    var spec, expected := job.order.spec, Get(job.order.spec, "stdout_contains");
    && j.JObj? && (Has(spec, "stdout_contains") ==> StdoutSpecOk(expected))
    && (forall name :: name in j.fields && name !in FIXED_NAMES ==>
          Has(spec, "stdout_contains") && exists i :: 0 <= i < |expected.items| && name == "stdout_contains_" + Decimal(i))
    && (Has(spec, "stdout_contains") ==> forall i :: 0 <= i < |expected.items| ==>
          Flag(j, "stdout_contains_" + Decimal(i), true, Occurs(expected.items[i].s, StdoutOf(w, job))))
  }

  lemma StdoutEntry(w: World, job: Job, checks: CheckMap, i: nat, expected: Json)
    requires FilledTo(w, job, checks, 10) && Asserted(job.order.spec, StdoutKey(i)) && expected == Get(job.order.spec, "stdout_contains")
    ensures Flag(ChecksJson(checks), "stdout_contains_" + Decimal(i), true, Occurs(expected.items[i].s, StdoutOf(w, job)))
  {
    EntrySpelled(w, job, checks, StdoutKey(i));
    assert KeyText(StdoutKey(i)) == "stdout_contains_" + Decimal(i);
  }

  lemma StdoutSpelled(w: World, job: Job, checks: CheckMap)
    requires FilledTo(w, job, checks, 10) && WellFormed(w, job)
    ensures StdoutSay(w, job, ChecksJson(checks))
  {
    var j, spec, expected := ChecksJson(checks), job.order.spec, Get(job.order.spec, "stdout_contains");
    forall name | name in j.fields && name !in FIXED_NAMES
      ensures Has(spec, "stdout_contains") && exists i :: 0 <= i < |expected.items| && name == "stdout_contains_" + Decimal(i)
    {
      var i := NameSpelled(w, job, checks, name);
    }
    if Has(spec, "stdout_contains") {
      forall i | 0 <= i < |expected.items|
        ensures Flag(j, "stdout_contains_" + Decimal(i), true, Occurs(expected.items[i].s, StdoutOf(w, job)))
      {
        StdoutEntry(w, job, checks, i, expected);
      }
    }
  }

  /** The job's receipt is what the store admitted. */
  lemma StoredReceiptPassesReceiptChecks(sha: Sha, job: Job)
    requires JobOk(sha, job) && job.receipt.Some? && |sha.receipt(job.receipt.value)| == 64
    ensures ReceiptUnknown(job) && DigestPresent(job)
    ensures ReceiptOf(job).JObj? && ResultOf(job).JObj?
  {
    assert HasReceipt(sha, job);
    var r := job.receipt.value;
    assert "result" in r.fields && "status" in Get(r, "result").fields;
  }

  /** The verdict a job deserves. */
  function RightVerdict(w: World, job: Job): JobState {
    if !Recognised(job.order.spec) || !WellFormed(w, job) then BLOCKED
    else if ReceiptUnknown(job) && DigestPresent(job) && SpecHolds(w, job) then VERIFIED
    else FAILED
  }

  /** What a verifier has to say about a job: VERIFIED exactly when something is asserted, everything asserted
      can be looked at, and all of it holds; BLOCKED exactly when nothing is asserted or something is missing. The
      proof lists every check made, by name, and what was observed. */
  method Assess(w: World, job: Job, reason: string) returns (verdict: JobState, proof: Json)
    ensures verdict == VERIFIED <==>
              Recognised(job.order.spec) && WellFormed(w, job) && ReceiptUnknown(job) && DigestPresent(job) && SpecHolds(w, job)
    ensures verdict == BLOCKED <==> !Recognised(job.order.spec) || !WellFormed(w, job)
    ensures verdict == RightVerdict(w, job)
    ensures proof.JObj? && (ProofPasses(proof) <==> verdict == VERIFIED) && ProofSays(w, job, verdict, reason, proof)
  {
    var checked := FillChecks(w, job);
    match checked
    case CannotCheck =>
      verdict, proof := BLOCKED, BlockedProof(reason);
    case Checks(checks, observed) =>
      ProofAdmission(checks, observed);
      ChecksSpelled(w, job, checks);
      verdict, proof := if AllPass(checks) then VERIFIED else FAILED, ProofOf(checks, observed);
      ProofSpelled(w, job, verdict, reason, ChecksJson(checks), observed, proof);
  }

  /** What a verifier judges: the order and the receipt. */
  predicate SameCase(a: Job, b: Job) {
    a.order == b.order && a.receipt == b.receipt && a.receiptSha == b.receiptSha
  }

  lemma SameCaseSameChecks(w: World, a: Job, b: Job)
    requires SameCase(a, b)
    ensures WellFormed(w, a) == WellFormed(w, b) && SpecHolds(w, a) == SpecHolds(w, b) && RightVerdict(w, a) == RightVerdict(w, b)
  {
  }

  lemma SameCaseSameProof(w: World, a: Job, b: Job, verdict: JobState, reason: string, proof: Json)
    requires SameCase(a, b) && ProofSays(w, a, verdict, reason, proof)
    ensures ProofSays(w, b, verdict, reason, proof)
  {
    if verdict != BLOCKED {
      SameCaseSameEntries(w, a, b, Get(proof, "checks"));
      SameCaseSameObserved(w, a, b, Get(proof, "observed"));
    }
  }

  lemma SameCaseSameEntries(w: World, a: Job, b: Job, j: Json)
    requires SameCase(a, b) && ChecksSay(w, a, j)
    ensures ChecksSay(w, b, j)
  {
    assert StdoutSay(w, a, j) == StdoutSay(w, b, j);
  }

  lemma SameCaseSameObserved(w: World, a: Job, b: Job, j: Json)
    requires SameCase(a, b) && ObservedSays(w, a, j)
    ensures ObservedSays(w, b, j)
  {
  }
}

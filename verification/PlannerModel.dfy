/** Capabilities, the authority gate, and routing: which capabilities a goal selects. */
module PlannerModel {
  import opened Basics
  import opened PlannerSort

  datatype Mode = FAST | PRO | ALL | REDTEAM

  /** UnknownAuthority is any text that names no authority. */
  datatype Authority = READ | COMPUTE | WRITE | REMOTE_WRITE | DEPLOY | DESTRUCTIVE | PRIVILEGED | UnknownAuthority(text: string)

  datatype Kind = Plugin | Tool | OtherKind(text: string)

  datatype Capability = Capability(
    id: string, kind: Kind, intents: set<string>, requiresTools: set<string>, requiresConnectors: set<string>,
    authority: Authority, enabled: bool, alwaysIn: set<Mode>)

  datatype Runtime = Runtime(tools: set<string>, connectors: set<string>, standingGrants: set<string>)

  datatype Intent = Intent(goal: string, intents: seq<string>, writeIntent: bool, deployIntent: bool)

  // ----- the authority gate -----

  datatype Decision = ALLOW | BLOCK | APPROVAL_REQUIRED

  datatype Gate = Gate(capabilityId: string, authority: Authority, decision: Decision, reason: string)

  predicate HasRunner(runtime: Runtime) {
    "isolated-runner" in runtime.tools || "test-runner" in runtime.tools
  }

  function GrantedOr(granted: bool, standing: string, needed: string): (Decision, string) {
    if granted then (ALLOW, standing) else (APPROVAL_REQUIRED, needed)
  }

  function DecisionOn(a: Authority, intent: Intent, runtime: Runtime): (Decision, string)
    requires !a.UnknownAuthority?
  {
    match a
    case READ => (ALLOW, "read capability")
    case COMPUTE =>
      if HasRunner(runtime) then (ALLOW, "isolated compute runner available") else (BLOCK, "compute requires isolated runner")
    case WRITE =>
      if !intent.writeIntent then (BLOCK, "no explicit write intent")
      else GrantedOr("WRITE" in runtime.standingGrants, "standing WRITE grant", "bounded write authorization required")
    case REMOTE_WRITE =>
      if !intent.writeIntent then (BLOCK, "no explicit remote-write intent")
      else GrantedOr("REMOTE_WRITE" in runtime.standingGrants, "standing REMOTE_WRITE grant", "bounded remote-write authorization required")
    case DEPLOY =>
      if !intent.deployIntent then (BLOCK, "no explicit deploy intent")
      else GrantedOr("DEPLOY" in runtime.standingGrants, "dedicated DEPLOY grant", "dedicated deploy approval required")
    case _ => (APPROVAL_REQUIRED, "explicit one-operation authorization required")
  }

  /** authority_gate; None where it raises on an unknown authority. */
  function AuthorityGate(cap: Capability, intent: Intent, runtime: Runtime): Option<Gate> {
    if cap.authority.UnknownAuthority? then None
    else
      var d := DecisionOn(cap.authority, intent, runtime);
      Some(Gate(cap.id, cap.authority, d.0, d.1))
  }

  predicate Writes(a: Authority) {
    a == WRITE || a == REMOTE_WRITE
  }

  /** Whether the goal asks for what the authority does. */
  predicate Wanted(a: Authority, intent: Intent) {
    (Writes(a) ==> intent.writeIntent) && (a == DEPLOY ==> intent.deployIntent)
  }

  // ----- routing -----

  /** A scoring of capabilities, learning included, as an arbitrary function; and how scores are rounded. */
  datatype Scoring = Scoring(raw: Capability -> real, round: real -> real)

  /** One call of the planner. `show` renders a set of names inside a message. */
  datatype Query = Query(intent: Intent, mode: Mode, runtime: Runtime, scoring: Scoring, exclude: set<string>, show: set<string> -> string)

  datatype Reason = ForIntents(overlap: set<string>) | ModeRequired | Supporting

  datatype Selection = Selection(capabilityId: string, score: real, reasons: seq<Reason>)

  function Threshold(mode: Mode): real {
    match mode
    case FAST => 0.52
    case PRO => 0.38
    case ALL => 0.28
    case REDTEAM => 0.30
  }

  function Overlap(q: Query, cap: Capability): set<string> {
    cap.intents * SetOf(q.intent.intents)
  }

  predicate Required(q: Query, cap: Capability) {
    q.mode in cap.alwaysIn
  }

  function ScoreCapability(q: Query, cap: Capability): Selection {
    var raw := q.scoring.raw(cap);
    var score := if Required(q, cap) && raw < 0.92 then 0.92 else raw;
    var reasons := (if Overlap(q, cap) != {} then [ForIntents(Overlap(q, cap))] else []) + (if Required(q, cap) then [ModeRequired] else []);
    Selection(cap.id, q.scoring.round(score), if reasons == [] then [Supporting] else reasons)
  }

  predicate Considered(q: Query, cap: Capability) {
    cap.enabled && cap.id !in q.exclude
  }

  predicate Available(q: Query, cap: Capability) {
    cap.requiresTools <= q.runtime.tools && cap.requiresConnectors <= q.runtime.connectors
  }

  predicate IsIo(cap: Capability) {
    cap.kind.Plugin? || cap.kind.Tool?
  }

  predicate ScoresEnough(q: Query, cap: Capability) {
    ScoreCapability(q, cap).score >= Threshold(q.mode)
  }

  predicate PicksWorker(q: Query, cap: Capability) {
    Considered(q, cap) && Available(q, cap) && !IsIo(cap) && (ScoresEnough(q, cap) || Required(q, cap))
  }

  predicate PicksIo(q: Query, cap: Capability) {
    Considered(q, cap) && Available(q, cap) && IsIo(cap) && Wanted(cap.authority, q.intent) && ScoresEnough(q, cap) && Overlap(q, cap) != {}
  }

  predicate Unavailable(q: Query, cap: Capability) {
    Considered(q, cap) && !Available(q, cap) && Required(q, cap)
  }

  function UnavailableText(q: Query, cap: Capability): string {
    cap.id + ": unavailable tools=" + q.show(cap.requiresTools - q.runtime.tools) + " connectors=" + q.show(cap.requiresConnectors - q.runtime.connectors)
  }

  type Registry = seq<Capability>

  predicate DistinctIds(caps: Registry) {
    forall i, j :: 0 <= i < j < |caps| ==> caps[i].id != caps[j].id
  }

  /** The selections of the capabilities that pass `picks`, in registry order. */
  function Picked(q: Query, caps: Registry, picks: (Query, Capability) -> bool): seq<Selection> {
    if caps == [] then []
    else
      var cap := caps[|caps| - 1];
      Picked(q, caps[..|caps| - 1], picks) + (if picks(q, cap) then [ScoreCapability(q, cap)] else [])
  }

  function UnavailableTexts(q: Query, caps: Registry): seq<string> {
    if caps == [] then []
    else
      var cap := caps[|caps| - 1];
      UnavailableTexts(q, caps[..|caps| - 1]) + (if Unavailable(q, cap) then [UnavailableText(q, cap)] else [])
  }

  /** Higher scores first, then by id. */
  predicate Better(a: Selection, b: Selection) {
    a.score > b.score || (a.score == b.score && Below(a.capabilityId, b.capabilityId))
  }

  /** Best score first, then by id. */
  predicate Ranked(s: seq<Selection>) {
    forall i, j :: 0 <= i < j < |s| ==> s[i].score > s[j].score || (s[i].score == s[j].score && !Below(s[j].capabilityId, s[i].capabilityId))
  }

  lemma BetterIsStrict()
    ensures StrictOrder(Better)
  {
    BelowIsStrict();
  }

  // ----- the routing rules, told by the registry and the query alone -----

  /** The score: what the mode requires has at least 0.92. */
  function ScoreOf(q: Query, cap: Capability): real {
    q.scoring.round(if q.mode in cap.alwaysIn && q.scoring.raw(cap) < 0.92 then 0.92 else q.scoring.raw(cap))
  }

  /** The score reaches what the mode asks for. */
  predicate Reaches(mode: Mode, score: real) {
    && (mode == FAST ==> score >= 0.52) && (mode == PRO ==> score >= 0.38)
    && (mode == ALL ==> score >= 0.28) && (mode == REDTEAM ==> score >= 0.30)
  }

  /** Enabled, not excluded, and with all its tools and connectors there. */
  predicate Usable(q: Query, cap: Capability) {
    && cap.enabled && cap.id !in q.exclude
    && (forall t :: t in cap.requiresTools ==> t in q.runtime.tools) && (forall c :: c in cap.requiresConnectors ==> c in q.runtime.connectors)
  }

  predicate RoutedAsWorker(q: Query, cap: Capability) {
    Usable(q, cap) && cap.kind != Plugin && cap.kind != Tool && (q.mode in cap.alwaysIn || Reaches(q.mode, ScoreOf(q, cap)))
  }

  predicate RoutedAsIo(q: Query, cap: Capability) {
    && Usable(q, cap) && (cap.kind == Plugin || cap.kind == Tool) && Reaches(q.mode, ScoreOf(q, cap))
    && (cap.authority == WRITE || cap.authority == REMOTE_WRITE ==> q.intent.writeIntent) && (cap.authority == DEPLOY ==> q.intent.deployIntent)
    && exists i :: 0 <= i < |q.intent.intents| && q.intent.intents[i] in cap.intents
  }

  function Serves(q: Query, cap: Capability): set<string> {
    set i | i in cap.intents && i in q.intent.intents
  }

  /** The capability's entry: its score, and the intents it serves, that the mode requires it, or neither. */
  predicate EntryFor(q: Query, cap: Capability, s: Selection) {
    var serves := Serves(q, cap);
    s == Selection(cap.id, ScoreOf(q, cap),
                   if serves != {} && q.mode in cap.alwaysIn then [ForIntents(serves), ModeRequired]
                   else if serves != {} then [ForIntents(serves)] else if q.mode in cap.alwaysIn then [ModeRequired] else [Supporting])
  }

  lemma RulesAgree(q: Query, cap: Capability)
    ensures PicksWorker(q, cap) <==> RoutedAsWorker(q, cap)
    ensures PicksIo(q, cap) <==> RoutedAsIo(q, cap)
    ensures EntryFor(q, cap, ScoreCapability(q, cap))
  {
    assert Overlap(q, cap) == Serves(q, cap);
    if Serves(q, cap) != {} {
      var x :| x in Serves(q, cap);
      assert exists i :: 0 <= i < |q.intent.intents| && q.intent.intents[i] == x;
    }
    forall i | 0 <= i < |q.intent.intents| && q.intent.intents[i] in cap.intents ensures Serves(q, cap) != {} {
      assert q.intent.intents[i] in Serves(q, cap);
    }
  }

  /** The blocker of a capability that the mode requires and that lacks something. */
  predicate LacksFor(q: Query, cap: Capability, text: string) {
    && cap.enabled && cap.id !in q.exclude && q.mode in cap.alwaysIn && !Usable(q, cap)
    && text == cap.id + ": unavailable tools=" + q.show(cap.requiresTools - q.runtime.tools)
                      + " connectors=" + q.show(cap.requiresConnectors - q.runtime.connectors)
  }

  /** Who is routed where, and what is reported missing. */
  ghost predicate RoutedByRule(caps: Registry, q: Query, workers: seq<Selection>, io: seq<Selection>, blockers: seq<string>) {
    && (forall s :: s in workers <==> exists k :: 0 <= k < |caps| && RoutedAsWorker(q, caps[k]) && EntryFor(q, caps[k], s))
    && (forall s :: s in io <==> exists k :: 0 <= k < |caps| && RoutedAsIo(q, caps[k]) && EntryFor(q, caps[k], s))
    && (forall b :: b in blockers <==> exists k :: 0 <= k < |caps| && LacksFor(q, caps[k], b))
  }

  lemma EntryIsScored(q: Query, cap: Capability, s: Selection)
    ensures EntryFor(q, cap, s) <==> s == ScoreCapability(q, cap)
  {
    RulesAgree(q, cap);
  }

  lemma PickedByRule(q: Query, caps: Registry, s: Selection)
    ensures s in Picked(q, caps, PicksWorker) <==> exists k :: 0 <= k < |caps| && RoutedAsWorker(q, caps[k]) && EntryFor(q, caps[k], s)
    ensures s in Picked(q, caps, PicksIo) <==> exists k :: 0 <= k < |caps| && RoutedAsIo(q, caps[k]) && EntryFor(q, caps[k], s)
  {
    PickedExactly(q, caps, PicksWorker, s);
    PickedExactly(q, caps, PicksIo, s);
    forall k | 0 <= k < |caps|
      ensures PicksWorker(q, caps[k]) <==> RoutedAsWorker(q, caps[k])
      ensures PicksIo(q, caps[k]) <==> RoutedAsIo(q, caps[k])
      ensures EntryFor(q, caps[k], s) <==> s == ScoreCapability(q, caps[k])
    {
      RulesAgree(q, caps[k]);
      EntryIsScored(q, caps[k], s);
    }
  }

  lemma {:induction false} UnavailableByRule(q: Query, caps: Registry, b: string)
    ensures b in UnavailableTexts(q, caps) <==> exists k :: 0 <= k < |caps| && LacksFor(q, caps[k], b)
    decreases |caps|
  {
    if caps != [] {
      var most := caps[..|caps| - 1];
      UnavailableByRule(q, most, b);
      assert forall k :: 0 <= k < |most| ==> caps[k] == most[k];
      assert LacksFor(q, caps[|caps| - 1], b) <==> Unavailable(q, caps[|caps| - 1]) && b == UnavailableText(q, caps[|caps| - 1]);
    }
  }

  lemma RouteByRule(caps: Registry, q: Query, workers: seq<Selection>, io: seq<Selection>, blockers: seq<string>)
    requires multiset(workers) == multiset(Picked(q, caps, PicksWorker)) && multiset(io) == multiset(Picked(q, caps, PicksIo))
    requires blockers == UnavailableTexts(q, caps)
    ensures RoutedByRule(caps, q, workers, io, blockers)
  {
    forall s
      ensures s in workers <==> exists k :: 0 <= k < |caps| && RoutedAsWorker(q, caps[k]) && EntryFor(q, caps[k], s)
      ensures s in io <==> exists k :: 0 <= k < |caps| && RoutedAsIo(q, caps[k]) && EntryFor(q, caps[k], s)
    {
      SameElements(workers, Picked(q, caps, PicksWorker), s);
      SameElements(io, Picked(q, caps, PicksIo), s);
      PickedByRule(q, caps, s);
    }
    forall b ensures b in blockers <==> exists k :: 0 <= k < |caps| && LacksFor(q, caps[k], b) { UnavailableByRule(q, caps, b); }
  }

  method Route(caps: Registry, q: Query) returns (workers: seq<Selection>, io: seq<Selection>, blockers: seq<string>)
    ensures RoutedByRule(caps, q, workers, io, blockers) && Ranked(workers) && Ranked(io)
    ensures multiset(workers) == multiset(Picked(q, caps, PicksWorker)) && InOrder(workers, Better)
    ensures multiset(io) == multiset(Picked(q, caps, PicksIo)) && InOrder(io, Better)
    ensures blockers == UnavailableTexts(q, caps)
  {
    workers, io, blockers := [], [], [];
    var threshold := Threshold(q.mode);
    for n := 0 to |caps|
      invariant workers == Picked(q, caps[..n], PicksWorker)
      invariant io == Picked(q, caps[..n], PicksIo)
      invariant blockers == UnavailableTexts(q, caps[..n])
    {
      var cap := caps[n];
      assert caps[..n + 1][..n] == caps[..n];
      if !cap.enabled || cap.id in q.exclude { continue; }
      if !Available(q, cap) {
        if Required(q, cap) { blockers := blockers + [UnavailableText(q, cap)]; }
        continue;
      }
      if IsIo(cap) {
        if Writes(cap.authority) && !q.intent.writeIntent { continue; }
        if cap.authority == DEPLOY && !q.intent.deployIntent { continue; }
      }
      var sel := ScoreCapability(q, cap);
      if IsIo(cap) {
        if sel.score >= threshold && Overlap(q, cap) != {} { io := io + [sel]; }
      } else if sel.score >= threshold || Required(q, cap) {
        workers := workers + [sel];
      }
    }
    assert caps[..|caps|] == caps;
    BetterIsStrict();
    workers := Sort(workers, Better);
    io := Sort(io, Better);
    RouteByRule(caps, q, workers, io, blockers);
    SortedIsRanked(workers);
    SortedIsRanked(io);
  }

  lemma SortedIsRanked(s: seq<Selection>)
    requires InOrder(s, Better)
    ensures Ranked(s)
  {
    forall i, j | 0 <= i < j < |s|
      ensures s[i].score > s[j].score || (s[i].score == s[j].score && !Below(s[j].capabilityId, s[i].capabilityId))
    {
      assert !Better(s[j], s[i]);
    }
  }

  // ----- what routing picks -----

  ghost predicate PickedFrom(q: Query, caps: Registry, picks: (Query, Capability) -> bool, s: Selection) {
    exists k :: 0 <= k < |caps| && picks(q, caps[k]) && s == ScoreCapability(q, caps[k])
  }

  lemma {:induction false} PickedExactly(q: Query, caps: Registry, picks: (Query, Capability) -> bool, s: Selection)
    ensures s in Picked(q, caps, picks) <==> PickedFrom(q, caps, picks, s)
    decreases |caps|
  {
    if caps != [] {
      var most, cap := caps[..|caps| - 1], caps[|caps| - 1];
      PickedExactly(q, most, picks, s);
      assert forall k :: 0 <= k < |most| ==> caps[k] == most[k];
    }
  }

  lemma {:induction false} UnavailableExactly(q: Query, caps: Registry)
    ensures UnavailableTexts(q, caps) == [] <==> forall k :: 0 <= k < |caps| ==> !Unavailable(q, caps[k])
    decreases |caps|
  {
    if caps != [] {
      var most := caps[..|caps| - 1];
      UnavailableExactly(q, most);
      assert forall k :: 0 <= k < |most| ==> caps[k] == most[k];
    }
  }

  /** However low its score, what the mode requires is never dropped for it: the floor lies above every
      threshold, provided rounding is monotone and leaves the floor alone. */
  lemma RequiredScoresEnough(q: Query, cap: Capability)
    requires Required(q, cap) && q.scoring.round(0.92) == 0.92
    requires forall x: real, y: real :: x <= y ==> q.scoring.round(x) <= q.scoring.round(y)
    ensures ScoresEnough(q, cap)
  {
    var raw := q.scoring.raw(cap);
    assert q.scoring.round(0.92) <= q.scoring.round(if raw < 0.92 then 0.92 else raw);
  }

  // ----- gate and router -----

  /** The router's own filter leaves the gate only one reason to block a plugin or tool: no compute runner. */
  lemma RoutedIoBlockedOnlyForRunner(q: Query, cap: Capability)
    requires PicksIo(q, cap) && !cap.authority.UnknownAuthority?
    ensures AuthorityGate(cap, q.intent, q.runtime).value.decision == BLOCK <==> cap.authority == COMPUTE && !HasRunner(q.runtime)
  {
  }

  function GrantFor(a: Authority): string {
    match a
    case WRITE => "WRITE"
    case REMOTE_WRITE => "REMOTE_WRITE"
    case DEPLOY => "DEPLOY"
    case _ => ""
  }

  /** What the goal does not ask for is blocked, and so is computing without a runner; writing and deploying are
      allowed exactly with both an intent and the grant of that name; destruction and privilege never are. */
  lemma GateMeaning(cap: Capability, intent: Intent, runtime: Runtime)
    requires !cap.authority.UnknownAuthority?
    ensures var a, d := cap.authority, AuthorityGate(cap, intent, runtime).value.decision;
            && (d == BLOCK <==> || ((a == WRITE || a == REMOTE_WRITE) && !intent.writeIntent) || (a == DEPLOY && !intent.deployIntent)
                                || (a == COMPUTE && "isolated-runner" !in runtime.tools && "test-runner" !in runtime.tools))
            && (a == READ ==> d == ALLOW) && (a == COMPUTE ==> d != APPROVAL_REQUIRED)
            && (Writes(a) || a == DEPLOY ==> (d == ALLOW <==> Wanted(a, intent) && GrantFor(a) in runtime.standingGrants))
            && (a == DESTRUCTIVE || a == PRIVILEGED ==> d == APPROVAL_REQUIRED)
    ensures var a, g := cap.authority, AuthorityGate(cap, intent, runtime).value;
            && g.capabilityId == cap.id && g.authority == a
            && (g.decision == BLOCK ==>
                  g.reason == if a == COMPUTE then "compute requires isolated runner" else if a == WRITE then "no explicit write intent"
                              else if a == REMOTE_WRITE then "no explicit remote-write intent" else "no explicit deploy intent")
  {
  }
}

/** The orchestrator: route, stage, gate, verify; and what a VERIFIED_PLAN then guarantees. */
module PlannerOrchestrator {
  import opened Basics
  import opened PlannerSort
  import opened PlannerDag
  import opened PlannerModel
  import opened PlannerVerifier

  datatype Status = PROPOSED | VERIFIED_PLAN | BLOCKED

  type Items = map<string, Capability>

  /** The registry's dictionary. */
  function ItemsOf(caps: Registry): (items: Items)
    requires DistinctIds(caps)
    ensures forall k :: 0 <= k < |caps| ==> caps[k].id in items && items[caps[k].id] == caps[k]
    ensures forall id :: id in items ==> exists k :: 0 <= k < |caps| && caps[k].id == id
  {
    map c | c in caps :: c.id := c
  }

  function Ids(selections: seq<Selection>): seq<string> {
    seq(|selections|, i requires 0 <= i < |selections| => selections[i].capabilityId)
  }

  /** Every selection names a registered capability. */
  predicate Registered(items: Items, selections: seq<Selection>) {
    forall i :: 0 <= i < |selections| ==> selections[i].capabilityId in items
  }

  predicate KnownAuthorities(items: Items, selections: seq<Selection>)
    requires Registered(items, selections)
  {
    forall i :: 0 <= i < |selections| ==> !items[selections[i].capabilityId].authority.UnknownAuthority?
  }

  function GateOf(q: Query, cap: Capability): Gate
    requires !cap.authority.UnknownAuthority?
  {
    AuthorityGate(cap, q.intent, q.runtime).value
  }

  /** A worker, not a plugin or tool, that its gate blocks. */
  predicate GatedOut(q: Query, cap: Capability)
    requires !cap.authority.UnknownAuthority?
  {
    GateOf(q, cap).decision == BLOCK && !IsIo(cap)
  }

  function Gates(items: Items, q: Query, selections: seq<Selection>): seq<Gate>
    requires Registered(items, selections) && KnownAuthorities(items, selections)
  {
    seq(|selections|, i requires 0 <= i < |selections| => GateOf(q, items[selections[i].capabilityId]))
  }

  /** The blockers the gates raise, in order. */
  function GateTexts(items: Items, q: Query, selections: seq<Selection>): seq<string>
    requires Registered(items, selections) && KnownAuthorities(items, selections)
  {
    if selections == [] then []
    else
      var cap := items[selections[|selections| - 1].capabilityId];
      GateTexts(items, q, selections[..|selections| - 1])
      + (if GatedOut(q, cap) then [cap.id + ": " + GateOf(q, cap).reason] else [])
  }

  class ExecutionPlan {
    const planId: string
    const goal: string
    const mode: Mode
    const intents: seq<string>
    const selections: seq<Selection>
    const ioCapabilities: seq<Selection>
    const stages: Schedule
    const requiredTools: seq<string>
    const requiredConnectors: seq<string>
    const authorityGates: seq<Gate>
    var status: Status
    var blockers: seq<string>

    constructor (planId: string, q: Query, workers: seq<Selection>, io: seq<Selection>, stages: Schedule,
                 tools: seq<string>, connectors: seq<string>, gates: seq<Gate>, blockers: seq<string>)
      ensures this.planId == planId && goal == q.intent.goal && mode == q.mode && intents == q.intent.intents
      ensures selections == workers && ioCapabilities == io && this.stages == stages
      ensures requiredTools == tools && requiredConnectors == connectors && authorityGates == gates
      ensures status == PROPOSED && this.blockers == blockers
    {
      this.planId, goal, mode, intents := planId, q.intent.goal, q.mode, q.intent.intents;
      selections, ioCapabilities, this.stages := workers, io, stages;
      requiredTools, requiredConnectors, authorityGates := tools, connectors, gates;
      status, this.blockers := PROPOSED, blockers;
    }

    /** verify_plan on this plan, as it stands. */
    method Verify(require: bool) returns (r: Checked)
      ensures r.KeyError? <==> Unstaged(Ids(selections), stages)
      ensures r.Checked? ==> r.problems == Structural(Ids(selections), stages, require) + blockers && (r.ok <==> r.problems == [])
    {
      r := VerifyPlan(Ids(selections), stages, blockers, require);
    }

    /** Records the verdict: the status, and the problems not yet among the blockers. */
    method Settle(ok: bool, problems: seq<string>)
      modifies this
      ensures status == if ok then VERIFIED_PLAN else BLOCKED
      ensures blockers == if ok then old(blockers) else Merged(old(blockers), problems)
    {
      status := if ok then VERIFIED_PLAN else BLOCKED;
      if !ok {
        for i := 0 to |problems|
          invariant blockers == Merged(old(blockers), problems[..i])
          invariant status == BLOCKED
        {
          assert problems[..i + 1][..i] == problems[..i];
          if problems[i] !in blockers { blockers := blockers + [problems[i]]; }
        }
        assert problems[..|problems|] == problems;
      }
    }
  }

  /** The blockers with each new problem appended once. */
  function Merged(blockers: seq<string>, problems: seq<string>): seq<string>
    decreases |problems|
  {
    if problems == [] then blockers
    else
      var before, p := Merged(blockers, problems[..|problems| - 1]), problems[|problems| - 1];
      if p in before then before else before + [p]
  }

  lemma {:induction false} MergedHolds(blockers: seq<string>, problems: seq<string>)
    ensures blockers <= Merged(blockers, problems)
    ensures forall p :: p in Merged(blockers, problems) <==> p in blockers || p in problems
    decreases |problems|
  {
    if problems != [] {
      MergedHolds(blockers, problems[..|problems| - 1]);
      assert problems == problems[..|problems| - 1] + [problems[|problems| - 1]];
    }
  }

  lemma {:induction false} MergedNothingNew(blockers: seq<string>, problems: seq<string>)
    requires forall i :: 0 <= i < |problems| ==> problems[i] in blockers
    ensures Merged(blockers, problems) == blockers
    decreases |problems|
  {
    if problems != [] { MergedNothingNew(blockers, problems[..|problems| - 1]); }
  }

  /** Verifying a settled plan again gives the same answer and the same set of problems, and settling it again
      changes nothing. */
  lemma VerdictIsStable(ids: seq<string>, stages: Schedule, blockers: seq<string>, require: bool)
    ensures var problems := Structural(ids, stages, require) + blockers;
            var settled := if problems == [] then blockers else Merged(blockers, problems);
            var again := Structural(ids, stages, require) + settled;
            && (again == [] <==> problems == [])
            && SetOf(again) == SetOf(problems)
            && Merged(settled, again) == settled
  {
    var problems := Structural(ids, stages, require) + blockers;
    if problems != [] {
      MergedHolds(blockers, problems);
      var settled := Merged(blockers, problems);
      var again := Structural(ids, stages, require) + settled;
      SetOfEqual(again, problems);
      forall x ensures x in again <==> x in problems {}
      MergedNothingNew(settled, again);
    }
  }

  // ----- planning -----

  datatype Outcome = Planned(plan: ExecutionPlan) | ValueError

  /** A capability the planner selects has an authority nobody knows. */
  ghost predicate SelectsUnknown(caps: Registry, q: Query) {
    exists k :: 0 <= k < |caps| && (PicksWorker(q, caps[k]) || PicksIo(q, caps[k])) && caps[k].authority.UnknownAuthority?
  }

  /** When the planner may promise the plan: every capability the mode requires is available, no selected worker
      is gated out, and unless the mode is FAST the independent verifier is among the workers. */
  ghost predicate Sanctioned(caps: Registry, q: Query)
    requires !SelectsUnknown(caps, q)
  {
    && (forall k :: 0 <= k < |caps| ==> !Unavailable(q, caps[k]))
    && (forall k :: 0 <= k < |caps| && PicksWorker(q, caps[k]) ==> !GatedOut(q, caps[k]))
    && (q.mode == FAST || exists k :: 0 <= k < |caps| && PicksWorker(q, caps[k]) && caps[k].id == VERIFIER)
  }

  /** Lists that hold exactly the selections the router makes. */
  predicate Routed(caps: Registry, q: Query, workers: seq<Selection>, io: seq<Selection>) {
    multiset(workers) == multiset(Picked(q, caps, PicksWorker)) && multiset(io) == multiset(Picked(q, caps, PicksIo))
  }

  /** What the two lists mean: the picked capabilities' ids. */
  lemma RoutedMeans(caps: Registry, q: Query, workers: seq<Selection>, io: seq<Selection>)
    requires DistinctIds(caps) && Routed(caps, q, workers, io)
    ensures forall s :: s in workers <==> PickedFrom(q, caps, PicksWorker, s)
    ensures forall s :: s in io <==> PickedFrom(q, caps, PicksIo, s)
    ensures Registered(ItemsOf(caps), workers + io)
    ensures KnownAuthorities(ItemsOf(caps), workers + io) <==> !SelectsUnknown(caps, q)
  {
    forall s ensures s in workers <==> PickedFrom(q, caps, PicksWorker, s) {
      SameElements(workers, Picked(q, caps, PicksWorker), s);
      PickedExactly(q, caps, PicksWorker, s);
    }
    forall s ensures s in io <==> PickedFrom(q, caps, PicksIo, s) {
      SameElements(io, Picked(q, caps, PicksIo), s);
      PickedExactly(q, caps, PicksIo, s);
    }
    var all, items := workers + io, ItemsOf(caps);
    forall i | 0 <= i < |all| ensures all[i].capabilityId in items { assert all[i] in workers || all[i] in io; }
    KnownMeans(caps, q, workers, io);
  }

  lemma KnownMeans(caps: Registry, q: Query, workers: seq<Selection>, io: seq<Selection>)
    requires DistinctIds(caps) && Registered(ItemsOf(caps), workers + io)
    requires forall s :: s in workers <==> PickedFrom(q, caps, PicksWorker, s)
    requires forall s :: s in io <==> PickedFrom(q, caps, PicksIo, s)
    ensures KnownAuthorities(ItemsOf(caps), workers + io) <==> !SelectsUnknown(caps, q)
  {
    var all, items := workers + io, ItemsOf(caps);
    if SelectsUnknown(caps, q) {
      var k :| 0 <= k < |caps| && (PicksWorker(q, caps[k]) || PicksIo(q, caps[k])) && caps[k].authority.UnknownAuthority?;
      var s := ScoreCapability(q, caps[k]);
      assert s in workers || s in io;
      assert s in all;
      var i :| 0 <= i < |all| && all[i] == s;
      assert items[all[i].capabilityId] == caps[k];
    } else {
      forall i | 0 <= i < |all| ensures !items[all[i].capabilityId].authority.UnknownAuthority? {
        assert all[i] in workers || all[i] in io;
      }
    }
  }

  lemma {:induction false} GateTextsExactly(items: Items, q: Query, selections: seq<Selection>)
    requires Registered(items, selections) && KnownAuthorities(items, selections)
    ensures GateTexts(items, q, selections) == []
            <==> forall i :: 0 <= i < |selections| ==> !GatedOut(q, items[selections[i].capabilityId])
    decreases |selections|
  {
    if selections != [] {
      var most := selections[..|selections| - 1];
      GateTextsExactly(items, q, most);
      assert forall i :: 0 <= i < |most| ==> most[i] == selections[i];
    }
  }

  /** The gate of a worker, not of a plugin or tool, blocks it for this reason. */
  predicate Blocks(q: Query, cap: Capability, text: string) {
    && !cap.authority.UnknownAuthority? && cap.kind != Plugin && cap.kind != Tool
    && var g := AuthorityGate(cap, q.intent, q.runtime).value; g.decision == BLOCK && text == cap.id + ": " + g.reason
  }

  lemma {:induction false} GateTextsSay(items: Items, q: Query, selections: seq<Selection>, b: string)
    requires Registered(items, selections) && KnownAuthorities(items, selections)
    ensures b in GateTexts(items, q, selections) <==> exists i :: 0 <= i < |selections| && Blocks(q, items[selections[i].capabilityId], b)
    decreases |selections|
  {
    if selections != [] {
      var most := selections[..|selections| - 1];
      GateTextsSay(items, q, most, b);
      assert forall i :: 0 <= i < |most| ==> most[i] == selections[i];
    }
  }

  lemma GatedOutMeans(caps: Registry, q: Query, workers: seq<Selection>, io: seq<Selection>)
    requires DistinctIds(caps) && !SelectsUnknown(caps, q)
    requires Registered(ItemsOf(caps), workers + io) && KnownAuthorities(ItemsOf(caps), workers + io)
    requires forall s :: s in workers <==> PickedFrom(q, caps, PicksWorker, s)
    requires forall s :: s in io <==> PickedFrom(q, caps, PicksIo, s)
    ensures (forall i :: 0 <= i < |workers + io| ==> !GatedOut(q, ItemsOf(caps)[(workers + io)[i].capabilityId]))
            <==> forall k :: 0 <= k < |caps| && PicksWorker(q, caps[k]) ==> !GatedOut(q, caps[k])
  {
    var all, items := workers + io, ItemsOf(caps);
    forall k | 0 <= k < |caps| && PicksWorker(q, caps[k]) ensures exists i :: 0 <= i < |all| && items[all[i].capabilityId] == caps[k] {
      var s := ScoreCapability(q, caps[k]);
      assert s in workers && s in all;
      var i :| 0 <= i < |all| && all[i] == s;
      assert items[all[i].capabilityId] == caps[k];
    }
    forall i | 0 <= i < |all|
      ensures IsIo(items[all[i].capabilityId]) || exists k :: 0 <= k < |caps| && PicksWorker(q, caps[k]) && caps[k] == items[all[i].capabilityId]
    {
      SelectionFrom(caps, q, workers, io, all[i]);
    }
  }

  lemma SelectionFrom(caps: Registry, q: Query, workers: seq<Selection>, io: seq<Selection>, s: Selection)
    requires DistinctIds(caps) && s in workers + io
    requires forall s :: s in workers <==> PickedFrom(q, caps, PicksWorker, s)
    requires forall s :: s in io <==> PickedFrom(q, caps, PicksIo, s)
    ensures exists k :: 0 <= k < |caps| && (PicksWorker(q, caps[k]) || PicksIo(q, caps[k])) && s.capabilityId == caps[k].id
  {
    assert s in workers || s in io;
  }

  /** No gate raises a blocker exactly when no picked worker is gated out. */
  lemma NobodyGatedOut(caps: Registry, q: Query, workers: seq<Selection>, io: seq<Selection>)
    requires DistinctIds(caps) && Routed(caps, q, workers, io) && !SelectsUnknown(caps, q)
    ensures Registered(ItemsOf(caps), workers + io) && KnownAuthorities(ItemsOf(caps), workers + io)
    ensures GateTexts(ItemsOf(caps), q, workers + io) == []
            <==> forall k :: 0 <= k < |caps| && PicksWorker(q, caps[k]) ==> !GatedOut(q, caps[k])
  {
    RoutedMeans(caps, q, workers, io);
    GateTextsExactly(ItemsOf(caps), q, workers + io);
    GatedOutMeans(caps, q, workers, io);
  }

  lemma WorkerIds(caps: Registry, q: Query, workers: seq<Selection>, io: seq<Selection>, id: string)
    requires DistinctIds(caps) && Routed(caps, q, workers, io)
    ensures id in Ids(workers) <==> exists k :: 0 <= k < |caps| && PicksWorker(q, caps[k]) && caps[k].id == id
  {
    RoutedMeans(caps, q, workers, io);
    if id in Ids(workers) {
      var i :| 0 <= i < |workers| && Ids(workers)[i] == id;
      assert workers[i] in workers;
    }
    forall k | 0 <= k < |caps| && PicksWorker(q, caps[k]) && caps[k].id == id ensures id in Ids(workers) {
      var s := ScoreCapability(q, caps[k]);
      assert s in workers;
      var i :| 0 <= i < |workers| && workers[i] == s;
      assert Ids(workers)[i] == id;
    }
  }

  /** The blockers the plan is made with: what is unavailable, then what is gated out. */
  function BlockersOf(caps: Registry, q: Query, workers: seq<Selection>, io: seq<Selection>): seq<string>
    requires DistinctIds(caps) && Registered(ItemsOf(caps), workers + io) && KnownAuthorities(ItemsOf(caps), workers + io)
  {
    UnavailableTexts(q, caps) + GateTexts(ItemsOf(caps), q, workers + io)
  }

  function ProblemsOf(caps: Registry, q: Query, workers: seq<Selection>, io: seq<Selection>, stages: Schedule): seq<string>
    requires DistinctIds(caps) && Registered(ItemsOf(caps), workers + io) && KnownAuthorities(ItemsOf(caps), workers + io)
  {
    Structural(Ids(workers), stages, q.mode != FAST) + BlockersOf(caps, q, workers, io)
  }

  /** The verifier's answer on a composed plan, in terms of the registry and the query alone. */
  lemma AcceptedExactlyWhenSanctioned(caps: Registry, q: Query, workers: seq<Selection>, io: seq<Selection>, stages: Schedule)
    requires DistinctIds(caps) && Routed(caps, q, workers, io) && !SelectsUnknown(caps, q) && Leveled(SetOf(Ids(workers)), stages)
    ensures Registered(ItemsOf(caps), workers + io) && KnownAuthorities(ItemsOf(caps), workers + io)
    ensures ProblemsOf(caps, q, workers, io, stages) == [] <==> Sanctioned(caps, q)
    ensures !Unstaged(Ids(workers), stages)
  {
    NobodyGatedOut(caps, q, workers, io);
    UnavailableExactly(q, caps);
    WorkerIds(caps, q, workers, io, VERIFIER);
    ComposedIsSound(Ids(workers), stages);
    AcceptsExactlySoundPlans(Ids(workers), stages, BlockersOf(caps, q, workers, io), q.mode != FAST);
  }

  /** The gate of every selection, and the blockers they raise; None where a gate raises. */
  method GateAll(items: Items, q: Query, selections: seq<Selection>) returns (r: Option<(seq<Gate>, seq<string>)>)
    requires Registered(items, selections)
    ensures r.Some? <==> KnownAuthorities(items, selections)
    ensures r.Some? ==> r.value == (Gates(items, q, selections), GateTexts(items, q, selections))
    ensures r.Some? ==> forall b :: b in r.value.1 <==> exists i :: 0 <= i < |selections| && Blocks(q, items[selections[i].capabilityId], b)
  {
    var gates, blockers := [], [];
    for i := 0 to |selections|
      invariant KnownAuthorities(items, selections[..i])
      invariant gates == Gates(items, q, selections[..i]) && blockers == GateTexts(items, q, selections[..i])
    {
      var cap := items[selections[i].capabilityId];
      assert selections[..i + 1][..i] == selections[..i];
      var gate := AuthorityGate(cap, q.intent, q.runtime);
      if gate.None? { return None; }
      gates := gates + [gate.value];
      if gate.value.decision == BLOCK && !IsIo(cap) { blockers := blockers + [cap.id + ": " + gate.value.reason]; }
    }
    assert selections[..|selections|] == selections;
    forall b ensures b in blockers <==> exists i :: 0 <= i < |selections| && Blocks(q, items[selections[i].capabilityId], b) {
      GateTextsSay(items, q, selections, b);
    }
    return Some((gates, blockers));
  }

  /** The plan's parts, as functions of the two lists of selections. */
  ghost predicate Assembled(caps: Registry, q: Query, plan: ExecutionPlan)
    requires DistinctIds(caps)
    reads plan
  {
    var workers, io := plan.selections, plan.ioCapabilities;
    && Routed(caps, q, workers, io) && InOrder(workers, Better) && InOrder(io, Better)
    && plan.goal == q.intent.goal && plan.intents == q.intent.intents && Ascending(plan.requiredTools) && Ascending(plan.requiredConnectors)
    && RoutedByRule(caps, q, workers, io, UnavailableTexts(q, caps)) && Ranked(workers) && Ranked(io) && ByTheRules(SetOf(Ids(workers)), plan.stages)
    && plan.mode == q.mode && Leveled(SetOf(Ids(workers)), plan.stages) && |plan.stages| <= 6
    && Registered(ItemsOf(caps), workers + io) && KnownAuthorities(ItemsOf(caps), workers + io)
    && (forall x :: x in plan.requiredTools <==> exists id :: id in Ids(workers + io) && x in ItemsOf(caps)[id].requiresTools)
    && (forall x :: x in plan.requiredConnectors <==> exists id :: id in Ids(workers + io) && x in ItemsOf(caps)[id].requiresConnectors)
    && plan.authorityGates == Gates(ItemsOf(caps), q, workers + io)
    && plan.blockers == Merged(BlockersOf(caps, q, workers, io), ProblemsOf(caps, q, workers, io, plan.stages))
  }

  /** Plans; the status says exactly whether the plan is sanctioned, and a blocked plan lists its problems. */
  method Plan(caps: Registry, q: Query, planId: string) returns (r: Outcome)
    requires DistinctIds(caps)
    ensures r.ValueError? <==> SelectsUnknown(caps, q)
    ensures r.Planned? ==> fresh(r.plan) && r.plan.planId == planId && Assembled(caps, q, r.plan)
    ensures r.Planned? ==> r.plan.status == if Sanctioned(caps, q) then VERIFIED_PLAN else BLOCKED
    ensures r.Planned? ==> (r.plan.blockers == [] <==> Sanctioned(caps, q))
  {
    var workers, io, blockers := Route(caps, q);
    var composed := ComposeStages(Ids(workers));
    RoutedMeans(caps, q, workers, io);
    var items := ItemsOf(caps);
    var gated := GateAll(items, q, workers + io);
    if gated.None? {
      return ValueError;
    }
    blockers := blockers + gated.value.1;
    var tools, connectors := Needs(items, SetOf(Ids(workers + io)));
    var plan := new ExecutionPlan(planId, q, workers, io, composed.stages, tools, connectors, gated.value.0, blockers);
    AcceptedExactlyWhenSanctioned(caps, q, workers, io, composed.stages);
    var checked := plan.Verify(q.mode != FAST);
    MergedHolds(blockers, checked.problems);
    plan.Settle(checked.ok, checked.problems);
    return Planned(plan);
  }

  /** The tools and connectors that the selected capabilities need. */
  method Needs(items: Items, ids: set<string>) returns (tools: seq<string>, connectors: seq<string>)
    requires ids <= items.Keys
    ensures Ascending(tools) && forall t :: t in tools <==> exists id :: id in ids && t in items[id].requiresTools
    ensures Ascending(connectors) && forall c :: c in connectors <==> exists id :: id in ids && c in items[id].requiresConnectors
  {
    tools := SortedTexts(set id, t | id in ids && t in items[id].requiresTools :: t);
    connectors := SortedTexts(set id, c | id in ids && c in items[id].requiresConnectors :: c);
  }

  /** Verifying a returned plan again, blockers and all, gives the answer its status records; a blocked plan's
      blockers are the unavailable, the gated out and, if it is missing, the verifier. */
  lemma ReturnedPlanReverifies(caps: Registry, q: Query, plan: ExecutionPlan)
    requires DistinctIds(caps) && !SelectsUnknown(caps, q) && Assembled(caps, q, plan)
    ensures Structural(Ids(plan.selections), plan.stages, q.mode != FAST) + plan.blockers == [] <==> Sanctioned(caps, q)
    ensures forall p :: p in plan.blockers
              <==> p in BlockersOf(caps, q, plan.selections, plan.ioCapabilities)
                   || (p == NO_VERIFIER && q.mode != FAST && VERIFIER !in Ids(plan.selections))
  {
    var workers, io := plan.selections, plan.ioCapabilities;
    AcceptedExactlyWhenSanctioned(caps, q, workers, io, plan.stages);
    OnlyMissingVerifier(Ids(workers), plan.stages, q.mode != FAST);
    VerdictIsStable(Ids(workers), plan.stages, BlockersOf(caps, q, workers, io), q.mode != FAST);
    MergedHolds(BlockersOf(caps, q, workers, io), ProblemsOf(caps, q, workers, io, plan.stages));
  }

  // ----- what a verified plan guarantees -----

  /** In a sanctioned plan every enabled worker that the mode requires and nobody excluded is staged exactly once,
      whatever scores learning has produced; and no staged worker is blocked by its gate. */
  lemma SanctionedPlanStagesRequired(caps: Registry, q: Query, workers: seq<Selection>, io: seq<Selection>, stages: Schedule)
    requires DistinctIds(caps) && Routed(caps, q, workers, io) && !SelectsUnknown(caps, q) && Leveled(SetOf(Ids(workers)), stages)
    requires Sanctioned(caps, q)
    ensures Distinct(Flat(stages))
    ensures forall k :: 0 <= k < |caps| && Considered(q, caps[k]) && Required(q, caps[k]) && !IsIo(caps[k]) ==> caps[k].id in Flat(stages)
    ensures forall x :: x in Flat(stages)
              ==> exists k :: 0 <= k < |caps| && caps[k].id == x && PicksWorker(q, caps[k]) && GateOf(q, caps[k]).decision != BLOCK
  {
    ComposedIsSound(Ids(workers), stages);
    forall x ensures x in Flat(stages) <==> exists k :: 0 <= k < |caps| && PicksWorker(q, caps[k]) && caps[k].id == x {
      WorkerIds(caps, q, workers, io, x);
    }
    forall k | 0 <= k < |caps| && Considered(q, caps[k]) && Required(q, caps[k]) && !IsIo(caps[k]) ensures caps[k].id in Flat(stages) {
      assert !Unavailable(q, caps[k]) && PicksWorker(q, caps[k]);
    }
    forall x | x in Flat(stages)
      ensures exists k :: 0 <= k < |caps| && caps[k].id == x && PicksWorker(q, caps[k]) && GateOf(q, caps[k]).decision != BLOCK
    {
      var k :| 0 <= k < |caps| && PicksWorker(q, caps[k]) && caps[k].id == x;
      assert !GatedOut(q, caps[k]) && !IsIo(caps[k]);
    }
  }
}

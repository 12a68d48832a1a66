/** Staging: who has to wait for whom, and the level-by-level schedule. */
module PlannerDag {
  import opened Basics
  import opened PlannerSort

  const IMPLEMENTER := "implementer"
  const TESTER := "test-engineer"
  const DEVOPS := "devops-reviewer"
  const RED_TEAM := "red-team"
  const VERIFIER := "independent-verifier"
  const CURATOR := "evidence-curator"

  datatype Rule = Rule(node: string, prereqs: set<string>)

  const RULES: seq<Rule> := [
    Rule(IMPLEMENTER, {"architect", "repo-auditor", "security-reviewer", "reality-checker"}),
    Rule(TESTER, {IMPLEMENTER}),
    Rule(DEVOPS, {TESTER})]

  /** What the first n rules have x wait for. */
  function RulePrereqs(n: nat, x: string): set<string>
    requires n <= |RULES|
  {
    if n == 0 then {} else RulePrereqs(n - 1, x) + (if RULES[n - 1].node == x then RULES[n - 1].prereqs else {})
  }

  /** What waits for everything selected, and what it does not wait for. */
  function Sweeping(x: string): Option<set<string>> {
    if x == RED_TEAM then Some({RED_TEAM, VERIFIER, CURATOR})
    else if x == VERIFIER || x == CURATOR then Some({VERIFIER, CURATOR})
    else None
  }

  /** The selected capabilities x waits for. */
  function Deps(sel: set<string>, x: string): set<string> {
    RulePrereqs(|RULES|, x) * sel + (if Sweeping(x).Some? then sel - Sweeping(x).value else {})
  }

  lemma RulesSpelled(x: string)
    ensures RulePrereqs(|RULES|, x)
            == if x == IMPLEMENTER then RULES[0].prereqs else if x == TESTER then {IMPLEMENTER} else if x == DEVOPS then {TESTER} else {}
  {
    assert RulePrereqs(0, x) == {};
    assert RulePrereqs(1, x) == if x == IMPLEMENTER then RULES[0].prereqs else {};
    assert RulePrereqs(2, x) == RulePrereqs(1, x) + (if x == TESTER then {IMPLEMENTER} else {});
  }

  /** A level above that of everything it waits for. */
  function Rank(x: string): nat {
    if x == IMPLEMENTER then 1
    else if x == TESTER then 2
    else if x == DEVOPS then 3
    else if x == RED_TEAM then 4
    else if x == VERIFIER || x == CURATOR then 5
    else 0
  }

  lemma DepsRankLower(sel: set<string>, x: string, d: string)
    requires d in Deps(sel, x)
    ensures Rank(d) < Rank(x) <= 5
  {
    RulesSpelled(x);
  }

  // ----- chains -----

  /** Each element waits for the one before it. */
  ghost predicate Chain(sel: set<string>, c: seq<string>) {
    c != [] && (forall i :: 0 <= i < |c| ==> c[i] in sel) && forall i :: 0 < i < |c| ==> c[i - 1] in Deps(sel, c[i])
  }

  ghost predicate ChainTo(sel: set<string>, c: seq<string>, x: string) {
    Chain(sel, c) && c[|c| - 1] == x
  }

  /** The longest chain that ends in x has n elements before x. */
  ghost predicate AtDepth(sel: set<string>, x: string, n: nat) {
    (exists c :: ChainTo(sel, c, x) && |c| == n + 1) && forall c :: ChainTo(sel, c, x) ==> |c| <= n + 1
  }

  lemma {:induction false} ChainRank(sel: set<string>, c: seq<string>)
    requires Chain(sel, c)
    ensures |c| - 1 <= Rank(c[|c| - 1]) <= 5
    decreases |c|
  {
    if |c| > 1 {
      ChainRank(sel, c[..|c| - 1]);
      DepsRankLower(sel, c[|c| - 1], c[|c| - 2]);
    }
  }

  // ----- schedules -----

  type Schedule = seq<seq<string>>

  /** Level k is the ascending list of what has depth k; no level is empty and nothing is left over. */
  ghost predicate Leveled(sel: set<string>, stages: Schedule) {
    && (forall k :: 0 <= k < |stages| ==> LevelOk(sel, stages, k))
    && (forall x :: x in sel ==> exists k :: 0 <= k < |stages| && x in stages[k])
  }

  ghost predicate LevelOk(sel: set<string>, stages: Schedule, k: nat)
    requires k < |stages|
  {
    stages[k] != [] && Ascending(stages[k]) && forall x :: x in stages[k] <==> x in sel && AtDepth(sel, x, k)
  }

  datatype Composed = Stages(stages: Schedule) | CycleError(remaining: seq<string>)

  ghost predicate DepsTable(selected: set<string>, deps: map<string, set<string>>) {
    deps.Keys == selected && forall x :: x in selected ==> deps[x] == Deps(selected, x)
  }

  /** The dictionary of dependencies, first from the rules. */
  method BuildRuleDeps(selected: set<string>) returns (deps: map<string, set<string>>)
    ensures deps.Keys == selected && forall x :: x in selected ==> deps[x] == RulePrereqs(|RULES|, x) * selected
  {
    deps := map x | x in selected :: {};
    for n := 0 to |RULES|
      invariant deps.Keys == selected
      invariant forall x :: x in selected ==> deps[x] == RulePrereqs(n, x) * selected
    {
      var rule := RULES[n];
      if rule.node in selected {
        deps := deps[rule.node := deps[rule.node] + rule.prereqs * selected];
      }
    }
  }

  /** One capability waits for everything selected except `spared`. */
  method Sweep(selected: set<string>, deps: map<string, set<string>>, node: string, spared: set<string>) returns (r: map<string, set<string>>)
    requires deps.Keys == selected
    ensures r.Keys == selected && forall x :: x in selected ==> r[x] == deps[x] + (if x == node then selected - spared else {})
  {
    r := deps;
    if node in selected {
      r := deps[node := deps[node] + (set x | x in selected && x !in spared)];
    }
  }

  /** Then from the three capabilities that wait for nearly everything. */
  method BuildDeps(selected: set<string>) returns (deps: map<string, set<string>>)
    ensures DepsTable(selected, deps)
  {
    deps := BuildRuleDeps(selected);
    deps := Sweep(selected, deps, RED_TEAM, {RED_TEAM, VERIFIER, CURATOR});
    deps := Sweep(selected, deps, VERIFIER, {VERIFIER, CURATOR});
    deps := Sweep(selected, deps, CURATOR, {CURATOR, VERIFIER});
    assert RED_TEAM != VERIFIER && RED_TEAM != CURATOR && VERIFIER != CURATOR;
    forall x | x in selected ensures deps[x] == Deps(selected, x) {}
  }

  /** What is staged after k rounds: everything of depth below k, and nothing else; whatever remains ends a chain
      of more than k elements. */
  ghost predicate Progress(sel: set<string>, stages: Schedule, remaining: set<string>) {
    && remaining <= sel
    && (forall k :: 0 <= k < |stages| ==> LevelOk(sel, stages, k))
    && (forall x :: x in sel && x !in remaining ==> exists k :: 0 <= k < |stages| && x in stages[k])
    && (forall k, x :: 0 <= k < |stages| && x in stages[k] ==> x !in remaining)
    && (forall x :: x in remaining ==> exists c :: ChainTo(sel, c, x) && |c| == |stages| + 1)
  }

  /** x has not been staged, and everything it waits for has. */
  predicate Ready(sel: set<string>, remaining: set<string>, x: string) {
    x in remaining && Deps(sel, x) <= sel - remaining
  }

  lemma StartProgress(sel: set<string>)
    ensures Progress(sel, [], sel)
  {
    forall x | x in sel ensures exists c :: ChainTo(sel, c, x) && |c| == 1 { assert ChainTo(sel, [x], x); }
  }

  /** Something is ready: the remaining capability of least rank. */
  lemma SomethingReady(sel: set<string>, remaining: set<string>) returns (x: string)
    requires remaining != {} && remaining <= sel
    ensures Ready(sel, remaining, x)
  {
    x :| x in remaining;
    while exists y :: y in remaining && Rank(y) < Rank(x)
      invariant x in remaining
      decreases Rank(x)
    {
      var y :| y in remaining && Rank(y) < Rank(x);
      x := y;
    }
    forall d | d in Deps(sel, x) ensures d in sel - remaining { DepsRankLower(sel, x, d); }
  }

  lemma ExtendChain(sel: set<string>, c: seq<string>, d: string, x: string)
    requires ChainTo(sel, c, d) && x in sel && d in Deps(sel, x)
    ensures ChainTo(sel, c + [x], x)
  {
  }

  lemma DropLast(sel: set<string>, c: seq<string>, x: string)
    requires ChainTo(sel, c, x) && |c| > 1
    ensures c[|c| - 2] in Deps(sel, x) && ChainTo(sel, c[..|c| - 1], c[|c| - 2])
  {
  }

  lemma DepthUnique(sel: set<string>, x: string, m: nat, n: nat)
    requires AtDepth(sel, x, m) && AtDepth(sel, x, n)
    ensures m == n
  {
  }

  /** Whatever waits only for staged capabilities ends no chain longer than the next level. */
  lemma ReadyIsShallow(sel: set<string>, stages: Schedule, remaining: set<string>, x: string, c: seq<string>)
    requires Progress(sel, stages, remaining) && Deps(sel, x) <= sel - remaining && ChainTo(sel, c, x)
    ensures |c| <= |stages| + 1
  {
    if |c| > 1 {
      DropLast(sel, c, x);
      var d := c[|c| - 2];
      var k :| 0 <= k < |stages| && d in stages[k];
      assert LevelOk(sel, stages, k) && AtDepth(sel, d, k);
    }
  }

  /** Whatever waits for something unstaged is deeper than the next level. */
  lemma UnreadyIsDeep(sel: set<string>, stages: Schedule, remaining: set<string>, x: string)
    requires Progress(sel, stages, remaining) && x in remaining && !(Deps(sel, x) <= sel - remaining)
    ensures exists c :: ChainTo(sel, c, x) && |c| == |stages| + 2
  {
    var d :| d in Deps(sel, x) && d in remaining;
    var c :| ChainTo(sel, c, d) && |c| == |stages| + 1;
    ExtendChain(sel, c, d, x);
  }

  lemma NextLevel(sel: set<string>, stages: Schedule, remaining: set<string>, ready: seq<string>)
    requires Progress(sel, stages, remaining) && ready != [] && Ascending(ready)
    requires forall x :: x in ready <==> Ready(sel, remaining, x)
    ensures LevelOk(sel, stages + [ready], |stages|)
  {
    var k := |stages|;
    forall x ensures x in ready <==> x in sel && AtDepth(sel, x, k) {
      if x in ready {
        forall c | ChainTo(sel, c, x) ensures |c| <= k + 1 { ReadyIsShallow(sel, stages, remaining, x, c); }
      } else if x in remaining {
        UnreadyIsDeep(sel, stages, remaining, x);
      } else if x in sel {
        var j :| 0 <= j < k && x in stages[j];
        assert LevelOk(sel, stages, j);
        if AtDepth(sel, x, k) { DepthUnique(sel, x, j, k); }
      }
    }
  }

  lemma NextProgress(sel: set<string>, stages: Schedule, remaining: set<string>, ready: seq<string>)
    requires Progress(sel, stages, remaining) && ready != [] && Ascending(ready)
    requires forall x :: x in ready <==> Ready(sel, remaining, x)
    ensures Progress(sel, stages + [ready], remaining - SetOf(ready))
  {
    var more, rest := stages + [ready], remaining - SetOf(ready);
    NextLevel(sel, stages, remaining, ready);
    forall k | 0 <= k < |more| ensures LevelOk(sel, more, k) {
      if k < |stages| { assert LevelOk(sel, stages, k); }
    }
    forall x | x in rest ensures exists c :: ChainTo(sel, c, x) && |c| == |more| + 1 { UnreadyIsDeep(sel, stages, remaining, x); }
    forall x | x in sel && x !in rest ensures exists k :: 0 <= k < |more| && x in more[k] {
      if x in ready {
        assert x in more[|stages|];
      } else {
        var k :| 0 <= k < |stages| && x in stages[k];
        assert x in more[k];
      }
    }
  }

  lemma DoneIsLeveled(sel: set<string>, stages: Schedule)
    requires Progress(sel, stages, {})
    ensures Leveled(sel, stages)
  {
  }

  lemma ReadySet(selected: set<string>, deps: map<string, set<string>>, remaining: set<string>)
    requires DepsTable(selected, deps) && remaining <= selected
    ensures forall x :: x in remaining && deps[x] <= selected - remaining <==> Ready(selected, remaining, x)
  {
  }

  lemma RemainingShrinks(sel: set<string>, remaining: set<string>, ready: seq<string>, x: string)
    requires remaining <= sel && x in remaining && x in ready && forall y :: y in ready ==> y in remaining
    ensures |remaining - SetOf(ready)| < |remaining|
    ensures sel - remaining + SetOf(ready) == sel - (remaining - SetOf(ready))
  {
    assert remaining - SetOf(ready) <= remaining - {x};
    CardinalityOrder(remaining - SetOf(ready), remaining - {x});
  }

  lemma {:induction false} CardinalityOrder(a: set<string>, b: set<string>)
    requires a <= b
    ensures |a| <= |b|
  {
    assert b == a + (b - a);
  }

  /** There are never more than six levels. */
  lemma AtMostSix(sel: set<string>, stages: Schedule)
    requires forall k :: 0 <= k < |stages| ==> LevelOk(sel, stages, k)
    ensures |stages| <= 6
  {
    if stages != [] {
      var k := |stages| - 1;
      assert LevelOk(sel, stages, k) && stages[k][0] in stages[k];
      var c :| ChainTo(sel, c, stages[k][0]) && |c| == k + 1;
      ChainRank(sel, c);
    }
  }

  /** Whatever ids are given, repeated or unknown: no cycle is ever reported, and the levels are the depths. */
  method ComposeStages(selectedIds: seq<string>) returns (r: Composed)
    ensures r.Stages? && Leveled(SetOf(selectedIds), r.stages) && ByTheRules(SetOf(selectedIds), r.stages) && |r.stages| <= 6
  {
    var selected := SetOf(selectedIds);
    var deps := BuildDeps(selected);
    var stages, remaining, completed := [], selected, {};
    StartProgress(selected);
    while remaining != {}
      invariant completed == selected - remaining && Progress(selected, stages, remaining)
      decreases |remaining|
    {
      ReadySet(selected, deps, remaining);
      ghost var some := SomethingReady(selected, remaining);
      var ready := SortedTexts(set x | x in remaining && deps[x] <= completed);
      assert some in ready;
      if ready == [] {
        var left := SortedTexts(remaining);
        return CycleError(left);
      }
      NextProgress(selected, stages, remaining, ready);
      RemainingShrinks(selected, remaining, ready, some);
      stages := stages + [ready];
      completed := completed + SetOf(ready);
      remaining := remaining - SetOf(ready);
    }
    DoneIsLeveled(selected, stages);
    LeveledByTheRules(selected, stages);
    AtMostSix(selected, stages);
    return Stages(stages);
  }

  // ----- the schedule is the best there is -----

  /** Every selected capability is scheduled, and after everything it waits for. */
  ghost predicate ValidSchedule(sel: set<string>, stages: Schedule) {
    && (forall x :: x in sel ==> exists k :: 0 <= k < |stages| && x in stages[k])
    && (forall i, j, x, d :: 0 <= i < |stages| && 0 <= j < |stages| && x in stages[i] && d in stages[j] && d in Deps(sel, x) ==> j < i)
  }

  lemma LeveledIsValid(sel: set<string>, stages: Schedule)
    requires Leveled(sel, stages)
    ensures ValidSchedule(sel, stages)
  {
    forall i, j, x, d | 0 <= i < |stages| && 0 <= j < |stages| && x in stages[i] && d in stages[j] && d in Deps(sel, x) ensures j < i {
      assert LevelOk(sel, stages, i) && LevelOk(sel, stages, j);
      var c :| ChainTo(sel, c, d) && |c| == j + 1;
      ExtendChain(sel, c, d, x);
    }
  }

  /** The end of a chain comes no earlier than the chain is long. */
  lemma {:induction false} ChainTakesTime(sel: set<string>, stages: Schedule, c: seq<string>, i: nat)
    requires ValidSchedule(sel, stages) && Chain(sel, c) && i < |stages| && c[|c| - 1] in stages[i]
    ensures |c| - 1 <= i
    decreases |c|
  {
    if |c| > 1 {
      var d := c[|c| - 2];
      var j :| 0 <= j < |stages| && d in stages[j];
      ChainTakesTime(sel, stages, c[..|c| - 1], j);
    }
  }

  /** No valid schedule has fewer stages, or places any capability earlier. */
  lemma LeveledIsOptimal(sel: set<string>, stages: Schedule, other: Schedule)
    requires Leveled(sel, stages) && ValidSchedule(sel, other)
    ensures |stages| <= |other|
    ensures forall i, k, x :: 0 <= k < |stages| && 0 <= i < |other| && x in stages[k] && x in other[i] ==> k <= i
  {
    forall i, k, x | 0 <= k < |stages| && 0 <= i < |other| && x in stages[k] && x in other[i] ensures k <= i {
      assert LevelOk(sel, stages, k);
      var c :| ChainTo(sel, c, x) && |c| == k + 1;
      ChainTakesTime(sel, other, c, i);
    }
    if stages != [] {
      var k := |stages| - 1;
      assert LevelOk(sel, stages, k) && stages[k][0] in stages[k];
      var i :| 0 <= i < |other| && stages[k][0] in other[i];
    }
  }

  /** Each capability is in one stage, once. */
  lemma LeveledOnce(sel: set<string>, stages: Schedule, i: nat, j: nat, x: string)
    requires Leveled(sel, stages) && i < |stages| && j < |stages| && x in stages[i] && x in stages[j]
    ensures i == j
  {
    assert LevelOk(sel, stages, i) && LevelOk(sel, stages, j);
    DepthUnique(sel, x, i, j);
  }

  /** The schedule depends on the set of ids alone: not on their order or on repetitions. */
  lemma LeveledUnique(sel: set<string>, a: Schedule, b: Schedule)
    requires Leveled(sel, a) && Leveled(sel, b)
    ensures a == b
  {
    LeveledIsValid(sel, a);
    LeveledIsValid(sel, b);
    LeveledIsOptimal(sel, a, b);
    LeveledIsOptimal(sel, b, a);
    forall k | 0 <= k < |a| ensures a[k] == b[k] {
      assert LevelOk(sel, a, k) && LevelOk(sel, b, k);
      AscendingUnique(a[k], b[k]);
    }
  }

  // ----- the schedule, told by the names -----

  ghost predicate Precedes(stages: Schedule, a: string, b: string) {
    forall i, j :: 0 <= i < |stages| && 0 <= j < |stages| && a in stages[i] && b in stages[j] ==> i < j
  }

  /** The planning rules: b may not start before a is done. */
  predicate Before(a: string, b: string) {
    || (b == "implementer" && (a == "architect" || a == "repo-auditor" || a == "security-reviewer" || a == "reality-checker"))
    || (b == "test-engineer" && a == "implementer")
    || (b == "devops-reviewer" && a == "test-engineer")
    || (b == "red-team" && a != "red-team" && a != "independent-verifier" && a != "evidence-curator")
    || ((b == "independent-verifier" || b == "evidence-curator") && a != "independent-verifier" && a != "evidence-curator")
  }

  lemma DepsAreBefore(sel: set<string>, a: string, b: string)
    ensures a in Deps(sel, b) <==> a in sel && Before(a, b)
  {
    RulesSpelled(b);
  }

  /** In stage k > 0, something in the stage just before is what x has been waiting for. */
  ghost predicate Needed(stages: Schedule, k: nat, x: string)
    requires k < |stages|
  {
    k > 0 ==> exists a :: a in stages[k - 1] && Before(a, x)
  }

  /** A schedule by the rules alone: it has exactly the selected ids, each stage in ascending order and none empty;
      the rules are kept; and nothing is later than the rules make it. */
  ghost predicate ByTheRules(sel: set<string>, stages: Schedule) {
    && (forall k :: 0 <= k < |stages| ==> stages[k] != [] && Ascending(stages[k]))
    && (forall k, x :: 0 <= k < |stages| && x in stages[k] ==> x in sel && Needed(stages, k, x))
    && (forall x :: x in sel ==> exists k :: 0 <= k < |stages| && x in stages[k])
    && (forall a, b :: a in sel && b in sel && Before(a, b) ==> Precedes(stages, a, b))
  }

  /** What comes just before the end of a longest chain has the depth just below. */
  lemma StepDown(sel: set<string>, x: string, k: nat) returns (a: string)
    requires AtDepth(sel, x, k + 1)
    ensures a in sel && a in Deps(sel, x) && AtDepth(sel, a, k)
  {
    var c :| ChainTo(sel, c, x) && |c| == k + 2;
    a := c[k];
    DropLast(sel, c, x);
    NoLongerChain(sel, a, x, k);
    assert ChainTo(sel, c[..k + 1], a) && |c[..k + 1]| == k + 1;
  }

  lemma NoLongerChain(sel: set<string>, a: string, x: string, k: nat)
    requires x in sel && a in Deps(sel, x) && forall c :: ChainTo(sel, c, x) ==> |c| <= k + 2
    ensures forall d :: ChainTo(sel, d, a) ==> |d| <= k + 1
  {
    forall d | ChainTo(sel, d, a) ensures |d| <= k + 1 { ExtendChain(sel, d, a, x); }
  }

  lemma LeveledByTheRules(sel: set<string>, stages: Schedule)
    requires Leveled(sel, stages)
    ensures ByTheRules(sel, stages)
  {
    LeveledIsValid(sel, stages);
    forall k | 0 <= k < |stages| ensures stages[k] != [] && Ascending(stages[k]) { assert LevelOk(sel, stages, k); }
    forall k, x | 0 <= k < |stages| && x in stages[k] ensures x in sel && Needed(stages, k, x) {
      assert LevelOk(sel, stages, k);
      if k > 0 {
        var a := StepDown(sel, x, k - 1);
        assert LevelOk(sel, stages, k - 1);
        DepsAreBefore(sel, a, x);
      }
    }
    forall a, b | a in sel && b in sel && Before(a, b) ensures Precedes(stages, a, b) { DepsAreBefore(sel, a, b); }
  }

  /** Following the needs down gives a chain as long as the stage is deep. */
  lemma {:induction false} NeedsChain(sel: set<string>, stages: Schedule, k: nat, x: string) returns (c: seq<string>)
    requires ByTheRules(sel, stages) && k < |stages| && x in stages[k]
    ensures ChainTo(sel, c, x) && |c| == k + 1
    decreases k
  {
    c := [x];
    assert Needed(stages, k, x);
    if k > 0 {
      var a :| a in stages[k - 1] && Before(a, x);
      var b := NeedsChain(sel, stages, k - 1, a);
      DepsAreBefore(sel, a, x);
      ExtendChain(sel, b, a, x);
      c := b + [x];
    }
  }

  lemma RulesAreValid(sel: set<string>, stages: Schedule)
    requires ByTheRules(sel, stages)
    ensures ValidSchedule(sel, stages)
  {
    forall i, j, x, d | 0 <= i < |stages| && 0 <= j < |stages| && x in stages[i] && d in stages[j] && d in Deps(sel, x) ensures j < i {
      DepsAreBefore(sel, d, x);
      assert Precedes(stages, d, x);
    }
  }

  /** The levels are the one schedule by the rules. */
  lemma LeveledExactly(sel: set<string>, stages: Schedule)
    ensures Leveled(sel, stages) <==> ByTheRules(sel, stages)
  {
    if Leveled(sel, stages) { LeveledByTheRules(sel, stages); }
    if ByTheRules(sel, stages) {
      RulesAreValid(sel, stages);
      forall k, x | 0 <= k < |stages| && x in stages[k] ensures AtDepth(sel, x, k) { PlacedAtDepth(sel, stages, k, x); }
      forall k | 0 <= k < |stages| ensures LevelOk(sel, stages, k) {
        forall x | x in sel && AtDepth(sel, x, k) ensures x in stages[k] {
          var i :| 0 <= i < |stages| && x in stages[i];
          DepthUnique(sel, x, i, k);
        }
      }
    }
  }

  lemma PlacedAtDepth(sel: set<string>, stages: Schedule, k: nat, x: string)
    requires ByTheRules(sel, stages) && ValidSchedule(sel, stages) && k < |stages| && x in stages[k]
    ensures AtDepth(sel, x, k)
  {
    var c := NeedsChain(sel, stages, k, x);
    forall d | ChainTo(sel, d, x) ensures |d| <= k + 1 { ChainTakesTime(sel, stages, d, k); }
  }

  /** The rules one by one, and who starts at once. */
  lemma StagesByName(sel: set<string>, stages: Schedule)
    requires Leveled(sel, stages)
    ensures Precedes(stages, "architect", "implementer") && Precedes(stages, "repo-auditor", "implementer")
    ensures Precedes(stages, "security-reviewer", "implementer") && Precedes(stages, "reality-checker", "implementer")
    ensures Precedes(stages, "implementer", "test-engineer") && Precedes(stages, "test-engineer", "devops-reviewer")
    ensures forall x :: x != "red-team" && x != "independent-verifier" && x != "evidence-curator" ==> Precedes(stages, x, "red-team")
    ensures forall x :: x != "independent-verifier" && x != "evidence-curator" ==>
              Precedes(stages, x, "independent-verifier") && Precedes(stages, x, "evidence-curator")
    ensures forall x :: x in sel ==> ((|stages| > 0 && x in stages[0]) <==> forall a :: a in sel ==> !Before(a, x))
  {
    LeveledByTheRules(sel, stages);
    forall a, b | Before(a, b) ensures Precedes(stages, a, b) { OnlySelected(sel, stages, a, b); }
    forall x | x in sel ensures (|stages| > 0 && x in stages[0]) <==> forall a :: a in sel ==> !Before(a, x) {
      FirstStage(sel, stages, x);
    }
  }

  lemma OnlySelected(sel: set<string>, stages: Schedule, a: string, b: string)
    requires ByTheRules(sel, stages) && Before(a, b)
    ensures Precedes(stages, a, b)
  {
    if a !in sel { assert forall i :: 0 <= i < |stages| ==> a !in stages[i]; }
    if b !in sel { assert forall j :: 0 <= j < |stages| ==> b !in stages[j]; }
  }

  lemma FirstStage(sel: set<string>, stages: Schedule, x: string)
    requires ByTheRules(sel, stages) && x in sel
    ensures (|stages| > 0 && x in stages[0]) <==> forall a :: a in sel ==> !Before(a, x)
  {
    var k :| 0 <= k < |stages| && x in stages[k];
    assert Needed(stages, k, x);
    if x in stages[0] {
      forall a | a in sel ensures !Before(a, x) {
        var i :| 0 <= i < |stages| && a in stages[i];
        assert Before(a, x) ==> Precedes(stages, a, x);
      }
    }
  }
}

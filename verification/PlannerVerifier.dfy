/** The plan verifier, a check on a plan that knows nothing of how the plan was made. */
module PlannerVerifier {
  import opened Basics
  import opened PlannerSort
  import opened PlannerDag

  function Flat(stages: Schedule): seq<string> {
    if stages == [] then [] else Flat(stages[..|stages| - 1]) + stages[|stages| - 1]
  }

  /** The last stage that lists x: later entries of the dictionary overwrite earlier ones. */
  function Where(stages: Schedule, x: string): Option<nat> {
    if stages == [] then None
    else if x in stages[|stages| - 1] then Some(|stages| - 1)
    else Where(stages[..|stages| - 1], x)
  }

  predicate Exempt(x: string) {
    x == VERIFIER || x == CURATOR
  }

  /** x is staged no earlier than the verifier. */
  predicate Late(stages: Schedule, x: string) {
    !Exempt(x) && Where(stages, x).Some? && Where(stages, VERIFIER).Some? && Where(stages, x).value >= Where(stages, VERIFIER).value
  }

  function LateTexts(ids: seq<string>, stages: Schedule): seq<string> {
    if ids == [] then []
    else LateTexts(ids[..|ids| - 1], stages)
         + (if Late(stages, ids[|ids| - 1]) then ["verifier must run after " + ids[|ids| - 1]] else [])
  }

  predicate TestsTooEarly(stages: Schedule) {
    var i, t := Where(stages, IMPLEMENTER), Where(stages, TESTER);
    i.Some? && t.Some? && i.value >= t.value
  }

  /** The lookup that fails: a selected id without a stage, when the verifier has one. */
  predicate Unstaged(ids: seq<string>, stages: Schedule) {
    Where(stages, VERIFIER).Some? && exists k :: 0 <= k < |ids| && !Exempt(ids[k]) && Where(stages, ids[k]).None?
  }

  predicate Distinct(xs: seq<string>) {
    forall i, j :: 0 <= i < j < |xs| ==> xs[i] != xs[j]
  }

  const NO_VERIFIER := "independent verifier missing"

  function When(c: bool, text: string): seq<string> {
    if c then [text] else []
  }

  function Counted(ids: seq<string>, stages: Schedule, require: bool): seq<string> {
    When(!Distinct(Flat(stages)), "duplicate capability in DAG")
    + When(SetOf(Flat(stages)) != SetOf(ids), "DAG does not cover selected workers")
    + When(require && VERIFIER !in ids, NO_VERIFIER)
  }

  /** The problems of a plan other than its blockers. */
  function Structural(ids: seq<string>, stages: Schedule, require: bool): seq<string> {
    Counted(ids, stages, require) + When(TestsTooEarly(stages), "tests must run after implementer") + LateTexts(ids, stages)
  }

  datatype Checked = Checked(ok: bool, problems: seq<string>) | KeyError

  lemma {:induction false} DistinctIsSetSize(xs: seq<string>)
    ensures |SetOf(xs)| <= |xs|
    ensures Distinct(xs) <==> |SetOf(xs)| == |xs|
    decreases |xs|
  {
    if xs != [] {
      var most, last := xs[..|xs| - 1], xs[|xs| - 1];
      DistinctIsSetSize(most);
      assert SetOf(xs) == SetOf(most) + {last};
      assert last in SetOf(most) <==> exists i :: 0 <= i < |most| && xs[i] == last;
      if Distinct(xs) {
        assert last !in SetOf(most);
      } else if last !in SetOf(most) {
        assert !Distinct(most);
      }
    }
  }

  /** The dictionary from capability to stage. */
  method Places(stages: Schedule) returns (places: map<string, nat>)
    ensures forall x :: Where(stages, x) == if x in places then Some(places[x]) else None
  {
    places := map[];
    for i := 0 to |stages|
      invariant forall x :: Where(stages[..i], x) == if x in places then Some(places[x]) else None
    {
      ghost var before := places;
      for j := 0 to |stages[i]|
        invariant forall x :: x in places <==> x in before || x in stages[i][..j]
        invariant forall x :: x in places ==> places[x] == if x in stages[i][..j] then i else before[x]
      {
        places := places[stages[i][j] := i];
      }
      assert stages[i][..|stages[i]|] == stages[i] && stages[..i + 1][..i] == stages[..i];
    }
    assert stages[..|stages|] == stages;
  }

  method Flatten(stages: Schedule) returns (flat: seq<string>)
    ensures flat == Flat(stages)
  {
    flat := [];
    for i := 0 to |stages|
      invariant flat == Flat(stages[..i])
    {
      assert stages[..i + 1][..i] == stages[..i];
      flat := flat + stages[i];
    }
    assert stages[..|stages|] == stages;
  }

  /** Everything that must come before the verifier does; None where a selected id has no place. */
  method LateProblems(ids: seq<string>, places: map<string, nat>, ghost stages: Schedule) returns (late: Option<seq<string>>)
    requires forall x :: Where(stages, x) == if x in places then Some(places[x]) else None
    requires VERIFIER in places
    ensures late.None? <==> Unstaged(ids, stages)
    ensures late.Some? ==> late.value == LateTexts(ids, stages)
  {
    var problems := [];
    for k := 0 to |ids|
      invariant problems == LateTexts(ids[..k], stages)
      invariant forall m :: 0 <= m < k && !Exempt(ids[m]) ==> Where(stages, ids[m]).Some?
    {
      var x := ids[k];
      assert ids[..k + 1][..k] == ids[..k];
      if !Exempt(x) {
        if x !in places { return None; }
        if places[x] >= places[VERIFIER] { problems := problems + ["verifier must run after " + x]; }
      }
    }
    assert ids[..|ids|] == ids;
    return Some(problems);
  }

  /** Reports every problem, or fails on a selected id that the dictionary of places lacks. */
  method VerifyPlan(ids: seq<string>, stages: Schedule, blockers: seq<string>, require: bool) returns (r: Checked)
    ensures r.KeyError? <==> Unstaged(ids, stages)
    ensures r.Checked? ==> r.problems == Structural(ids, stages, require) + blockers && (r.ok <==> r.problems == [])
    ensures r.Checked? ==> forall p :: p in r.problems <==> p in blockers || Reports(ids, stages, require, p)
  {
    var flat := Flatten(stages);
    DistinctIsSetSize(flat);
    var problems := When(|flat| != |SetOf(flat)|, "duplicate capability in DAG");
    problems := problems + When(SetOf(flat) != SetOf(ids), "DAG does not cover selected workers");
    problems := problems + When(require && VERIFIER !in ids, NO_VERIFIER);
    assert problems == Counted(ids, stages, require);
    var places := Places(stages);
    problems := problems + When(IMPLEMENTER in places && TESTER in places && places[IMPLEMENTER] >= places[TESTER],
                                "tests must run after implementer");
    if VERIFIER in places {
      var late := LateProblems(ids, places, stages);
      if late.None? { return KeyError; }
      problems := problems + late.value;
    } else {
      NobodyLate(ids, stages);
    }
    assert problems == Structural(ids, stages, require);
    forall p ensures p in problems <==> Reports(ids, stages, require, p) { StructuralSays(ids, stages, require, p); }
    problems := problems + blockers;
    return Checked(problems == [], problems);
  }

  lemma {:induction false} NobodyLate(ids: seq<string>, stages: Schedule)
    requires forall k :: 0 <= k < |ids| ==> !Late(stages, ids[k])
    ensures LateTexts(ids, stages) == []
    decreases |ids|
  {
    if ids != [] { NobodyLate(ids[..|ids| - 1], stages); }
  }

  lemma {:induction false} LateTextsExactly(ids: seq<string>, stages: Schedule)
    ensures LateTexts(ids, stages) == [] <==> forall k :: 0 <= k < |ids| ==> !Late(stages, ids[k])
    decreases |ids|
  {
    if ids != [] {
      var most := ids[..|ids| - 1];
      LateTextsExactly(most, stages);
      assert forall k :: 0 <= k < |most| ==> ids[k] == most[k];
    }
  }

  lemma {:induction false} FlatHolds(stages: Schedule, x: string)
    ensures x in Flat(stages) <==> exists k :: 0 <= k < |stages| && x in stages[k]
    ensures x in Flat(stages) <==> Where(stages, x).Some?
    decreases |stages|
  {
    if stages != [] {
      var most := stages[..|stages| - 1];
      FlatHolds(most, x);
      assert forall k :: 0 <= k < |most| ==> stages[k] == most[k];
    }
  }

  lemma {:induction false} WhereIsLast(stages: Schedule, x: string)
    ensures Where(stages, x).Some? ==> Where(stages, x).value < |stages| && x in stages[Where(stages, x).value]
    ensures forall k :: 0 <= k < |stages| && x in stages[k] ==> Where(stages, x).Some? && k <= Where(stages, x).value
    decreases |stages|
  {
    if stages != [] { WhereIsLast(stages[..|stages| - 1], x); }
  }

  lemma {:induction false} PlaceUnique(stages: Schedule, x: string, i: nat)
    requires Distinct(Flat(stages)) && i < |stages| && x in stages[i]
    ensures Where(stages, x) == Some(i)
    decreases |stages|
  {
    var most, last := stages[..|stages| - 1], stages[|stages| - 1];
    if i < |most| {
      FlatHolds(most, x);
      assert most[i] == stages[i] && x in Flat(most);
      var a :| 0 <= a < |Flat(most)| && Flat(most)[a] == x;
      assert Flat(stages)[a] == x;
      assert forall b :: 0 <= b < |last| ==> last[b] == Flat(stages)[|Flat(most)| + b];
      assert Distinct(Flat(most)) by {
        assert forall k :: 0 <= k < |Flat(most)| ==> Flat(most)[k] == Flat(stages)[k];
      }
      PlaceUnique(most, x, i);
    }
  }

  lemma StructuralExactly(ids: seq<string>, stages: Schedule, require: bool)
    ensures Structural(ids, stages, require) == []
            <==> && Distinct(Flat(stages)) && SetOf(Flat(stages)) == SetOf(ids) && (require ==> VERIFIER in ids)
                 && !TestsTooEarly(stages) && (forall k :: 0 <= k < |ids| ==> !Late(stages, ids[k]))
  {
    LateTextsExactly(ids, stages);
  }

  lemma {:induction false} LateTextsSay(ids: seq<string>, stages: Schedule, p: string)
    ensures p in LateTexts(ids, stages) <==> exists k :: 0 <= k < |ids| && Late(stages, ids[k]) && p == "verifier must run after " + ids[k]
    decreases |ids|
  {
    if ids != [] {
      var most := ids[..|ids| - 1];
      LateTextsSay(most, stages, p);
      assert forall k :: 0 <= k < |most| ==> ids[k] == most[k];
    }
  }

  /** Some stage of a comes no earlier than some stage of b, judged by the last stage of each. */
  ghost predicate LastNotBefore(stages: Schedule, a: string, b: string) {
    exists i, j :: 0 <= j <= i < |stages| && a in stages[i] && b in stages[j]
                   && (forall k :: i < k < |stages| ==> a !in stages[k]) && (forall k :: j < k < |stages| ==> b !in stages[k])
  }

  lemma WhereNotBefore(stages: Schedule, a: string, b: string)
    ensures LastNotBefore(stages, a, b)
            <==> Where(stages, a).Some? && Where(stages, b).Some? && Where(stages, a).value >= Where(stages, b).value
  {
    WhereIsLast(stages, a);
    WhereIsLast(stages, b);
    if Where(stages, a).Some? && Where(stages, b).Some? && Where(stages, a).value >= Where(stages, b).value {
      var i, j := Where(stages, a).value, Where(stages, b).value;
      assert 0 <= j <= i < |stages| && a in stages[i] && b in stages[j];
    }
  }

  /** The problem each text reports. */
  ghost predicate Reports(ids: seq<string>, stages: Schedule, require: bool, p: string) {
    || (p == "duplicate capability in DAG" && !Distinct(Flat(stages)))
    || (p == "DAG does not cover selected workers" && exists x :: (x in ids) != (x in Flat(stages)))
    || (p == "independent verifier missing" && require && "independent-verifier" !in ids)
    || (p == "tests must run after implementer" && LastNotBefore(stages, "implementer", "test-engineer"))
    || exists k :: 0 <= k < |ids| && p == "verifier must run after " + ids[k]
                   && ids[k] != "independent-verifier" && ids[k] != "evidence-curator" && LastNotBefore(stages, ids[k], "independent-verifier")
  }

  lemma CoverSays(ids: seq<string>, flat: seq<string>)
    ensures SetOf(flat) != SetOf(ids) <==> exists x :: (x in ids) != (x in flat)
  {
    if forall x :: (x in ids) == (x in flat) { assert SetOf(flat) == SetOf(ids); }
    forall x | (x in ids) != (x in flat) ensures SetOf(flat) != SetOf(ids) { assert (x in SetOf(ids)) != (x in SetOf(flat)); }
  }

  /** Every problem is reported under its own text, and no other text appears. */
  lemma StructuralSays(ids: seq<string>, stages: Schedule, require: bool, p: string)
    ensures p in Structural(ids, stages, require) <==> Reports(ids, stages, require, p)
  {
    LateTextsSay(ids, stages, p);
    CoverSays(ids, Flat(stages));
    WhereNotBefore(stages, "implementer", "test-engineer");
    forall k | 0 <= k < |ids|
      ensures Late(stages, ids[k])
              <==> ids[k] != "independent-verifier" && ids[k] != "evidence-curator" && LastNotBefore(stages, ids[k], "independent-verifier")
    {
      WhereNotBefore(stages, ids[k], "independent-verifier");
    }
    assert p in Structural(ids, stages, require) <==>
      || p in When(!Distinct(Flat(stages)), "duplicate capability in DAG")
      || p in When(SetOf(Flat(stages)) != SetOf(ids), "DAG does not cover selected workers")
      || p in When(require && VERIFIER !in ids, NO_VERIFIER)
      || p in When(TestsTooEarly(stages), "tests must run after implementer")
      || p in LateTexts(ids, stages);
  }

  /** Every selected id staged exactly once and nothing else staged; the tests after the implementer; everything
      but the evidence curator before the verifier. */
  ghost predicate SoundPlan(ids: seq<string>, stages: Schedule) {
    && Distinct(Flat(stages))
    && (forall x :: x in ids <==> x in Flat(stages))
    && Precedes(stages, IMPLEMENTER, TESTER)
    && (forall x :: x in ids && !Exempt(x) ==> Precedes(stages, x, VERIFIER))
  }

  lemma PrecedesByPlace(stages: Schedule, a: string, b: string)
    requires Distinct(Flat(stages))
    ensures Precedes(stages, a, b) <==> (Where(stages, a).Some? && Where(stages, b).Some? ==> Where(stages, a).value < Where(stages, b).value)
  {
    WhereIsLast(stages, a);
    WhereIsLast(stages, b);
    forall i | 0 <= i < |stages| && a in stages[i] ensures Where(stages, a) == Some(i) { PlaceUnique(stages, a, i); }
    forall j | 0 <= j < |stages| && b in stages[j] ensures Where(stages, b) == Some(j) { PlaceUnique(stages, b, j); }
  }

  lemma SetOfEqual(a: seq<string>, b: seq<string>)
    ensures SetOf(a) == SetOf(b) <==> forall x :: x in a <==> x in b
  {
    assert forall x :: x in SetOf(a) <==> x in a;
    assert forall x :: x in SetOf(b) <==> x in b;
  }

  /** The verifier accepts exactly the sound plans that have no blocker and, where one is required, a verifier;
      and then it never fails on a missing place. */
  lemma AcceptsExactlySoundPlans(ids: seq<string>, stages: Schedule, blockers: seq<string>, require: bool)
    ensures Structural(ids, stages, require) + blockers == [] <==> SoundPlan(ids, stages) && (require ==> VERIFIER in ids) && blockers == []
    ensures SoundPlan(ids, stages) ==> !Unstaged(ids, stages)
  {
    StructuralExactly(ids, stages, require);
    forall x ensures x in Flat(stages) <==> Where(stages, x).Some? { FlatHolds(stages, x); }
    SetOfEqual(ids, Flat(stages));
    if Distinct(Flat(stages)) {
      PrecedesByPlace(stages, IMPLEMENTER, TESTER);
      forall x ensures Precedes(stages, x, VERIFIER)
                       <==> (Where(stages, x).Some? && Where(stages, VERIFIER).Some? ==> Where(stages, x).value < Where(stages, VERIFIER).value) {
        PrecedesByPlace(stages, x, VERIFIER);
      }
    }
  }

  // ----- the composer and the verifier agree -----

  lemma {:induction false} FlatDistinct(stages: Schedule)
    requires forall k :: 0 <= k < |stages| ==> Distinct(stages[k])
    requires forall i, j, x :: 0 <= i < |stages| && 0 <= j < |stages| && x in stages[i] && x in stages[j] ==> i == j
    ensures Distinct(Flat(stages))
    decreases |stages|
  {
    if stages != [] {
      var most, last := stages[..|stages| - 1], stages[|stages| - 1];
      FlatDistinct(most);
      forall a, b | 0 <= a < |Flat(most)| && 0 <= b < |last| ensures Flat(most)[a] != last[b] {
        FlatHolds(most, Flat(most)[a]);
        var k :| 0 <= k < |most| && Flat(most)[a] in most[k];
        assert most[k] == stages[k];
      }
    }
  }

  lemma AscendingDistinct(xs: seq<string>)
    requires Ascending(xs)
    ensures Distinct(xs)
  {
    BelowIsStrict();
    forall i, j | 0 <= i < j < |xs| ensures xs[i] != xs[j] { assert Below(xs[i], xs[j]); }
  }

  /** Every composed schedule is sound for the ids it was composed from. */
  lemma ComposedIsSound(ids: seq<string>, stages: Schedule)
    requires Leveled(SetOf(ids), stages)
    ensures SoundPlan(ids, stages)
  {
    var sel := SetOf(ids);
    forall k | 0 <= k < |stages| ensures Distinct(stages[k]) && forall x :: x in stages[k] ==> x in sel {
      assert LevelOk(sel, stages, k);
      AscendingDistinct(stages[k]);
    }
    forall i, j, x | 0 <= i < |stages| && 0 <= j < |stages| && x in stages[i] && x in stages[j] ensures i == j {
      LeveledOnce(sel, stages, i, j, x);
    }
    FlatDistinct(stages);
    forall x ensures x in ids <==> x in Flat(stages) {
      FlatHolds(stages, x);
      assert x in sel <==> x in ids;
    }
    LeveledIsValid(sel, stages);
    WaitsFor(sel);
  }

  lemma WaitsFor(sel: set<string>)
    ensures IMPLEMENTER in sel ==> IMPLEMENTER in Deps(sel, TESTER)
    ensures forall x :: x in sel && !Exempt(x) ==> x in Deps(sel, VERIFIER)
  {
    RulesSpelled(TESTER);
  }

  /** On a composed schedule the verifier can find fault with one thing only: that there is no verifier. */
  lemma OnlyMissingVerifier(ids: seq<string>, stages: Schedule, require: bool)
    requires Leveled(SetOf(ids), stages)
    ensures Structural(ids, stages, require) == When(require && VERIFIER !in ids, NO_VERIFIER)
    ensures !Unstaged(ids, stages)
  {
    ComposedIsSound(ids, stages);
    AcceptsExactlySoundPlans(ids, stages, [], false);
    assert Structural(ids, stages, false) + [] == Structural(ids, stages, false);
    StructuralExactly(ids, stages, false);
  }
}

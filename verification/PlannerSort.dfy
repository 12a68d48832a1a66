/** Sorting, as Python's sorted() and list.sort() promise it: the same elements, in order. */
module PlannerSort {
  import opened Basics

  /** No later element belongs before an earlier one. */
  ghost predicate InOrder<T(!new)>(xs: seq<T>, before: (T, T) -> bool) {
    forall i, j :: 0 <= i < j < |xs| ==> !before(xs[j], xs[i])
  }

  ghost predicate StrictOrder<T(!new)>(before: (T, T) -> bool) {
    && (forall x :: !before(x, x))
    && (forall x, y, z :: before(x, y) && before(y, z) ==> before(x, z))
  }

  lemma InsertInOrder<T(!new)>(sorted: seq<T>, x: T, p: nat, before: (T, T) -> bool)
    requires StrictOrder(before) && InOrder(sorted, before) && p <= |sorted|
    requires forall i :: 0 <= i < p ==> !before(x, sorted[i])
    requires p < |sorted| ==> before(x, sorted[p])
    ensures InOrder(sorted[..p] + [x] + sorted[p..], before)
  {
    var r := sorted[..p] + [x] + sorted[p..];
    forall i, j | 0 <= i < j < |r| ensures !before(r[j], r[i]) {
      if i == p {
        assert j - 1 == p || !before(sorted[j - 1], sorted[p]);
      } else if j != p {
        assert !before(sorted[if j < p then j else j - 1], sorted[if i < p then i else i - 1]);
      }
    }
  }

  method Sort<T(!new, ==)>(xs: seq<T>, before: (T, T) -> bool) returns (r: seq<T>)
    requires StrictOrder(before)
    ensures InOrder(r, before) && multiset(r) == multiset(xs)
  {
    r := [];
    for n := 0 to |xs|
      invariant InOrder(r, before) && multiset(r) == multiset(xs[..n])
    {
      var p := 0;
      while p < |r| && !before(xs[n], r[p])
        invariant 0 <= p <= |r|
        invariant forall i :: 0 <= i < p ==> !before(xs[n], r[i])
      {
        p := p + 1;
      }
      InsertInOrder(r, xs[n], p, before);
      assert r == r[..p] + r[p..] && xs[..n + 1] == xs[..n] + [xs[n]];
      r := r[..p] + [xs[n]] + r[p..];
    }
    assert xs[..|xs|] == xs;
  }

  lemma SameElements<T>(a: seq<T>, b: seq<T>, x: T)
    requires multiset(a) == multiset(b)
    ensures x in a <==> x in b
  {
    assert x in multiset(a) <==> x in multiset(b);
  }

  // ----- texts -----

  predicate Ascending(xs: seq<string>) {
    forall i, j :: 0 <= i < j < |xs| ==> Below(xs[i], xs[j])
  }

  lemma BelowIsStrict()
    ensures StrictOrder(Below)
  {
    forall x ensures !Below(x, x) { BelowIrreflexive(x); }
    forall x, y, z | Below(x, y) && Below(y, z) ensures Below(x, z) { BelowTransitive(x, y, z); }
  }

  /** sorted() of a set of texts. */
  method SortedTexts(s: set<string>) returns (r: seq<string>)
    ensures Ascending(r) && forall x :: x in r <==> x in s
  {
    var listed, rest := [], s;
    while rest != {}
      invariant rest <= s && Enumerates(listed, s - rest)
      decreases |rest|
    {
      var x :| x in rest;
      listed, rest := listed + [x], rest - {x};
    }
    BelowIsStrict();
    r := Sort(listed, Below);
    assert s - rest == s;
    forall x ensures x in r <==> x in s { assert x in multiset(r) <==> x in multiset(listed); }
    forall i, j | 0 <= i < j < |r| ensures Below(r[i], r[j]) {
      DistinctStays(listed, r, i, j);
      BelowTotal(r[i], r[j]);
    }
  }

  lemma {:induction false} CountOne<T>(xs: seq<T>, x: T)
    requires forall i, j :: 0 <= i < j < |xs| ==> xs[i] != xs[j]
    ensures multiset(xs)[x] <= 1
    decreases |xs|
  {
    if xs != [] {
      var most, last := xs[..|xs| - 1], xs[|xs| - 1];
      assert xs == most + [last];
      CountOne(most, x);
    }
  }

  lemma DistinctStays<T>(xs: seq<T>, ys: seq<T>, i: nat, j: nat)
    requires forall i, j :: 0 <= i < j < |xs| ==> xs[i] != xs[j]
    requires multiset(xs) == multiset(ys) && i < j < |ys|
    ensures ys[i] != ys[j]
  {
    CountOne(xs, ys[i]);
    assert ys == ys[..j] + [ys[j]] + ys[j + 1..];
    assert ys[i] in ys[..j];
  }

  /** An ascending list is fixed by what it holds. */
  lemma {:induction false} AscendingUnique(a: seq<string>, b: seq<string>)
    requires Ascending(a) && Ascending(b) && forall x :: x in a <==> x in b
    ensures a == b
    decreases |a|
  {
    BelowIsStrict();
    assert b == [] || b[0] in a;
    if a != [] {
      assert a[0] in b && b != [] && b[0] in a;
      assert a[0] == b[0];
      forall x ensures x in a[1..] <==> x in b[1..] {
        assert x in a <==> x == a[0] || x in a[1..];
        assert x in b <==> x == b[0] || x in b[1..];
        if x == a[0] { assert x !in a[1..] && x !in b[1..]; }
      }
      AscendingUnique(a[1..], b[1..]);
    }
  }
}

/** Hash-chained logs, for any content type and any hash function.
    No assumption is made about the hash function itself: where a result needs collision resistance it
    says so about the rows at hand only, so it applies to a real 256-bit digest. */
module HashChain {

  type Digest = string

  const GENESIS: Digest := "0000000000000000000000000000000000000000000000000000000000000000"

  /** A stored row. `id` is the key the rows are read by; it is not part of what is hashed. */
  datatype Row<C> = Row(id: int, content: C, prev: Digest, hash: Digest)

  function Head<C>(rows: seq<Row<C>>): Digest {
    if rows == [] then GENESIS else rows[|rows| - 1].hash
  }

  /** Row k stores the hash of the row before it and its own hash over content and link. */
  ghost predicate RowOk<C>(H: (C, Digest) -> Digest, rows: seq<Row<C>>, k: nat)
    requires k < |rows|
  {
    rows[k].prev == Head(rows[..k]) && rows[k].hash == H(rows[k].content, rows[k].prev)
  }

  ghost predicate Linked<C>(H: (C, Digest) -> Digest, rows: seq<Row<C>>) {
    forall k :: 0 <= k < |rows| ==> RowOk(H, rows, k)
  }

  /** What an append writes: the current head as link, and the hash over both. */
  function Append<C>(H: (C, Digest) -> Digest, rows: seq<Row<C>>, id: int, content: C): seq<Row<C>> {
    rows + [Row(id, content, Head(rows), H(content, Head(rows)))]
  }

  predicate UniqueHashes<C>(rows: seq<Row<C>>) {
    forall i, j :: 0 <= i < j < |rows| ==> rows[i].hash != rows[j].hash
  }

  /** No two different bodies among these rows hash alike, and none hashes to the genesis value. */
  ghost predicate CollisionFree<C(!new)>(H: (C, Digest) -> Digest, rows: seq<Row<C>>) {
    && (forall i, j :: 0 <= i < |rows| && 0 <= j < |rows|
                       && H(rows[i].content, rows[i].prev) == H(rows[j].content, rows[j].prev)
                       ==> rows[i].content == rows[j].content && rows[i].prev == rows[j].prev)
    && (forall i :: 0 <= i < |rows| ==> H(rows[i].content, rows[i].prev) != GENESIS)
  }

  /** Equality in everything the chain protects. */
  ghost predicate SameRecord<C>(a: Row<C>, b: Row<C>) {
    a.content == b.content && a.prev == b.prev && a.hash == b.hash
  }

  // ----- appending -----

  lemma AppendKeepsLinked<C>(H: (C, Digest) -> Digest, rows: seq<Row<C>>, id: int, content: C)
    requires Linked(H, rows)
    ensures Linked(H, Append(H, rows, id, content))
  {
    var all := Append(H, rows, id, content);
    forall k | 0 <= k < |all| ensures RowOk(H, all, k) {
      if k < |rows| {
        assert RowOk(H, rows, k);
        assert all[..k] == rows[..k];
      } else {
        assert all[..k] == rows;
      }
    }
  }

  lemma PrefixLinked<C>(H: (C, Digest) -> Digest, rows: seq<Row<C>>, n: nat)
    requires n <= |rows| && Linked(H, rows)
    ensures Linked(H, rows[..n])
  {
    forall k | 0 <= k < n ensures RowOk(H, rows[..n], k) {
      assert RowOk(H, rows, k);
      assert rows[..n][..k] == rows[..k];
    }
  }

  // ----- a hash fixes the whole history behind it -----

  lemma NeverGenesis<C(!new)>(H: (C, Digest) -> Digest, a: seq<Row<C>>, b: seq<Row<C>>)
    requires Linked(H, a) && Linked(H, b) && CollisionFree(H, a + b)
    ensures forall i :: 0 <= i < |a| ==> a[i].hash != GENESIS
    ensures forall j :: 0 <= j < |b| ==> b[j].hash != GENESIS
    ensures forall i :: 0 <= i <= |a| ==> (Head(a[..i]) == GENESIS <==> i == 0)
    ensures forall j :: 0 <= j <= |b| ==> (Head(b[..j]) == GENESIS <==> j == 0)
  {
    var ab := a + b;
    forall i | 0 <= i < |a| ensures a[i].hash != GENESIS { assert RowOk(H, a, i) && ab[i] == a[i]; }
    forall j | 0 <= j < |b| ensures b[j].hash != GENESIS { assert RowOk(H, b, j) && ab[|a| + j] == b[j]; }
  }

  /** Two valid chains that share a hash, at any two positions, have the same history up to there. */
  lemma {:induction false} SharedHashSameHistory<C(!new)>(H: (C, Digest) -> Digest, a: seq<Row<C>>, b: seq<Row<C>>, i: nat, j: nat)
    requires i < |a| && j < |b|
    requires Linked(H, a) && Linked(H, b) && CollisionFree(H, a + b)
    requires a[i].hash == b[j].hash
    ensures i == j
    ensures forall k :: 0 <= k <= i ==> SameRecord(a[k], b[k])
  {
    var ab := a + b;
    assert RowOk(H, a, i) && RowOk(H, b, j);
    assert ab[i] == a[i] && ab[|a| + j] == b[j];
    assert SameRecord(a[i], b[j]);
    NeverGenesis(H, a, b);
    assert Head(a[..i]) == Head(b[..j]);
    if i > 0 && j > 0 {
      SharedHashSameHistory(H, a, b, i - 1, j - 1);
    }
  }

  lemma DoubledCollisionFree<C(!new)>(H: (C, Digest) -> Digest, rows: seq<Row<C>>)
    requires CollisionFree(H, rows)
    ensures CollisionFree(H, rows + rows)
  {
    var two := rows + rows;
    forall i | 0 <= i < |two| ensures two[i] == rows[if i < |rows| then i else i - |rows|] {}
  }

  lemma DistinctHashes<C(!new)>(H: (C, Digest) -> Digest, rows: seq<Row<C>>)
    requires Linked(H, rows) && CollisionFree(H, rows)
    ensures UniqueHashes(rows)
  {
    DoubledCollisionFree(H, rows);
    forall i, j | 0 <= i < j < |rows| ensures rows[i].hash != rows[j].hash {
      if rows[i].hash == rows[j].hash { SharedHashSameHistory(H, rows, rows, i, j); }
    }
  }

  /** The UNIQUE constraint on the hash column can never reject an append. */
  lemma AppendIsUnique<C(!new)>(H: (C, Digest) -> Digest, rows: seq<Row<C>>, id: int, content: C)
    requires Linked(H, rows) && CollisionFree(H, Append(H, rows, id, content))
    ensures UniqueHashes(Append(H, rows, id, content))
  {
    AppendKeepsLinked(H, rows, id, content);
    DistinctHashes(H, Append(H, rows, id, content));
  }

  /** Equal heads mean equal logs. */
  lemma EqualHeadsEqualLogs<C(!new)>(H: (C, Digest) -> Digest, a: seq<Row<C>>, b: seq<Row<C>>)
    requires Linked(H, a) && Linked(H, b) && CollisionFree(H, a + b)
    requires Head(a) == Head(b)
    ensures |a| == |b|
    ensures forall k :: 0 <= k < |a| ==> SameRecord(a[k], b[k])
  {
    NeverGenesis(H, a, b);
    assert a[..|a|] == a && b[..|b|] == b;
    if a != [] && b != [] {
      SharedHashSameHistory(H, a, b, |a| - 1, |b| - 1);
    }
  }

  /** Whoever remembers only the head of a valid log detects every edit, insertion or removal. */
  lemma TamperingDetected<C(!new)>(H: (C, Digest) -> Digest, honest: seq<Row<C>>, found: seq<Row<C>>)
    requires Linked(H, honest) && CollisionFree(H, honest + found) && Head(honest) == Head(found)
    requires |honest| != |found| || exists k :: 0 <= k < |honest| && !SameRecord(honest[k], found[k])
    ensures !Linked(H, found)
  {
    if Linked(H, found) { EqualHeadsEqualLogs(H, honest, found); }
  }

  // ----- the verifying loop -----

  datatype Verdict = Verified(count: nat) | PrevMismatch(id: int) | HashMismatch(id: int)

  /** `k` is the first row that breaks the chain. */
  ghost predicate FirstBad<C>(H: (C, Digest) -> Digest, rows: seq<Row<C>>, k: nat)
  {
    k < |rows| && Linked(H, rows[..k]) && !RowOk(H, rows, k)
  }

  /** Walks the rows in order; accepts exactly the valid chains and otherwise names the first bad row. */
  method VerifyRows<C>(H: (C, Digest) -> Digest, rows: seq<Row<C>>) returns (v: Verdict, ghost bad: nat)
    ensures v.Verified? <==> Linked(H, rows)
    ensures v.Verified? ==> v.count == |rows|
    ensures !v.Verified? ==> FirstBad(H, rows, bad) && v.id == rows[bad].id
    ensures !v.Verified? ==> (v.PrevMismatch? <==> rows[bad].prev != Head(rows[..bad]))
  {
    var previous := GENESIS;
    bad := 0;
    for i := 0 to |rows|
      invariant previous == Head(rows[..i])
      invariant Linked(H, rows[..i])
    {
      var row := rows[i];
      bad := i;
      if row.prev != previous {
        assert !RowOk(H, rows, i);
        return PrevMismatch(row.id), i;
      }
      if row.hash != H(row.content, row.prev) {
        assert !RowOk(H, rows, i);
        return HashMismatch(row.id), i;
      }
      assert RowOk(H, rows, i);
      ExtendLinked(H, rows, i);
      previous := row.hash;
    }
    assert rows[..|rows|] == rows;
    return Verified(|rows|), 0;
  }

  lemma ExtendLinked<C>(H: (C, Digest) -> Digest, rows: seq<Row<C>>, i: nat)
    requires i < |rows| && Linked(H, rows[..i]) && RowOk(H, rows, i)
    ensures Linked(H, rows[..i + 1])
  {
    var more := rows[..i + 1];
    forall k | 0 <= k <= i ensures RowOk(H, more, k) {
      assert more[..k] == rows[..k];
      if k < i {
        assert RowOk(H, rows[..i], k);
        assert rows[..i][..k] == rows[..k];
      }
    }
  }
}

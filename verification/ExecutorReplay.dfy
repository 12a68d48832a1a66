/** The nonce ledger: a claim first forgets the nonces that have expired and then fails on one it still holds. */
module ExecutorReplay {
  import opened Basics

  type Nonces = map<string, int>

  datatype Claim = Claim(nonce: string, expires: int, now: int)

  function Purged(nonces: Nonces, now: int): Nonces {
    map n | n in nonces && nonces[n] >= now :: nonces[n]
  }

  predicate Accepts(nonces: Nonces, c: Claim) {
    c.nonce !in Purged(nonces, c.now)
  }

  /** A refused claim rolls its purge back. */
  function AfterClaim(nonces: Nonces, c: Claim): Nonces {
    if Accepts(nonces, c) then Purged(nonces, c.now)[c.nonce := c.expires] else nonces
  }

  /** The ledger a claim leaves: the same if the nonce is held and unexpired; otherwise this nonce and those not yet expired. */
  ghost predicate LedgerSays(before: Nonces, c: Claim, after: Nonces) {
    if c.nonce in before && before[c.nonce] >= c.now then after == before
    else && (forall n :: n in after <==> n == c.nonce || (n in before && before[n] >= c.now))
         && after[c.nonce] == c.expires && forall n :: n in after && n != c.nonce ==> after[n] == before[n]
  }

  class ReplayGuard {
    var nonces: Nonces

    constructor (stored: Nonces)
      ensures nonces == stored
    {
      nonces := stored;
    }

    /** One transaction, which the primary key on the nonce can reject. */
    method TryClaim(c: Claim) returns (ok: bool)
      modifies this
      ensures ok <==> !(c.nonce in old(nonces) && old(nonces)[c.nonce] >= c.now)
      ensures nonces == AfterClaim(old(nonces), c) && LedgerSays(old(nonces), c, nonces)
      ensures !ok ==> nonces == old(nonces)
    {
      var before := nonces;
      nonces := Purged(nonces, c.now);
      if c.nonce in nonces {
        nonces := before;
        return false;
      }
      nonces := nonces[c.nonce := c.expires];
      return true;
    }
  }

  // ----- runs: one entry a transaction or a call that never reached the ledger -----

  type Claims = seq<Option<Claim>>

  function Ledger(claims: Claims): Nonces {
    if claims == [] then map[]
    else
      var before, last := Ledger(claims[..|claims| - 1]), claims[|claims| - 1];
      if last.Some? then AfterClaim(before, last.value) else before
  }

  predicate AcceptedAt(claims: Claims, k: nat)
    requires k < |claims|
  {
    claims[k].Some? && Accepts(Ledger(claims[..k]), claims[k].value)
  }

  lemma LedgerStep(claims: Claims, k: nat)
    requires k < |claims|
    ensures Ledger(claims[..k + 1]) == if claims[k].Some? then AfterClaim(Ledger(claims[..k]), claims[k].value) else Ledger(claims[..k])
  {
    assert claims[..k + 1][..k] == claims[..k];
  }

  /** Some accepted claim in [from, to) read a clock beyond `expires`. */
  ghost predicate Overtaken(claims: Claims, from: nat, to: nat, expires: int) {
    exists k :: from <= k < to && k < |claims| && AcceptedAt(claims, k) && claims[k].value.now > expires
  }

  lemma OvertakenLast(claims: Claims, from: nat, to: nat, expires: int)
    requires from <= to < |claims|
    ensures Overtaken(claims, from, to + 1, expires)
            <==> Overtaken(claims, from, to, expires) || (AcceptedAt(claims, to) && claims[to].value.now > expires)
  {
  }

  /** No claim in [from, to) was accepted for this nonce. */
  ghost predicate Unclaimed(claims: Claims, from: nat, to: nat, nonce: string) {
    forall k :: from <= k < to && k < |claims| && AcceptedAt(claims, k) ==> claims[k].value.nonce != nonce
  }

  /** Claim i was accepted, and its nonce was not claimed again before j. */
  ghost predicate LastClaim(claims: Claims, i: nat, j: nat) {
    i < j <= |claims| && AcceptedAt(claims, i) && Unclaimed(claims, i + 1, j, claims[i].value.nonce)
  }

  predicate Stored(nonces: Nonces, c: Claim) {
    c.nonce in nonces && nonces[c.nonce] == c.expires
  }

  /** Another claim leaves an entry as it is, unless it is accepted with a clock beyond the entry's expiry. */
  lemma EntryAcrossClaim(nonces: Nonces, c: Claim, d: Claim)
    requires Accepts(nonces, d) ==> d.nonce != c.nonce
    ensures Stored(nonces, c) ==> if Accepts(nonces, d) && d.now > c.expires then c.nonce !in AfterClaim(nonces, d) else Stored(AfterClaim(nonces, d), c)
    ensures c.nonce !in nonces ==> c.nonce !in AfterClaim(nonces, d)
  {
  }

  /** An accepted nonce stays stored, with its expiry, until an accepted claim reads a later clock. */
  lemma {:induction false} StoredUntilOvertaken(claims: Claims, i: nat, j: nat)
    requires LastClaim(claims, i, j)
    ensures var c := claims[i].value;
            if Overtaken(claims, i + 1, j, c.expires) then c.nonce !in Ledger(claims[..j]) else Stored(Ledger(claims[..j]), c)
    decreases j
  {
    LedgerStep(claims, j - 1);
    if j > i + 1 {
      var c := claims[i].value;
      StoredUntilOvertaken(claims, i, j - 1);
      OvertakenLast(claims, i + 1, j - 1, c.expires);
      if claims[j - 1].Some? { EntryAcrossClaim(Ledger(claims[..j - 1]), c, claims[j - 1].value); }
    }
  }

  /** Exactly when a nonce can be used a second time: some accepted claim since, or the second one itself,
      read a clock beyond the first one's expiry. No assumption about clocks. */
  lemma SecondUseExactly(claims: Claims, i: nat, j: nat)
    requires j < |claims| && LastClaim(claims, i, j)
    requires claims[j].Some? && claims[j].value.nonce == claims[i].value.nonce
    ensures AcceptedAt(claims, j)
            <==> Overtaken(claims, i + 1, j, claims[i].value.expires) || claims[j].value.now > claims[i].value.expires
  {
    StoredUntilOvertaken(claims, i, j);
  }

  /** Claims commit in the order of the clocks they read. */
  predicate ClocksAscend(claims: Claims) {
    forall i, j :: 0 <= i < j < |claims| && claims[i].Some? && claims[j].Some? ==> claims[i].value.now <= claims[j].value.now
  }

  /** With ascending clocks a nonce can be used again exactly when the second claim reads a clock past its expiry. */
  lemma SecondUseWithAscendingClocks(claims: Claims, i: nat, j: nat)
    requires j < |claims| && LastClaim(claims, i, j) && ClocksAscend(claims)
    requires claims[j].Some? && claims[j].value.nonce == claims[i].value.nonce
    ensures AcceptedAt(claims, j) <==> claims[j].value.now > claims[i].value.expires
  {
    SecondUseExactly(claims, i, j);
  }

  /** Every accepted claim read a clock no later than the expiry it stored. */
  ghost predicate Prompt(claims: Claims) {
    forall k :: 0 <= k < |claims| && AcceptedAt(claims, k) ==> claims[k].value.now <= claims[k].value.expires
  }

  /** An accepted nonce is still stored, unless a claim has read a clock beyond its expiry. */
  lemma {:induction false} StoredOrExpired(claims: Claims, i: nat, n: nat)
    requires i < n <= |claims| && AcceptedAt(claims, i)
    requires forall k :: i < k < n && claims[k].Some? ==> claims[k].value.now <= claims[i].value.expires
    ensures var c := claims[i].value; c.nonce in Ledger(claims[..n]) && Ledger(claims[..n])[c.nonce] == c.expires
    decreases n
  {
    LedgerStep(claims, n - 1);
    if n > i + 1 { StoredOrExpired(claims, i, n - 1); }
  }

  /** The same nonce and expiry are accepted at most once, if claims are prompt and commit in clock order. */
  lemma ClaimedAtMostOnce(claims: Claims, i: nat, j: nat)
    requires ClocksAscend(claims) && Prompt(claims)
    requires i < j < |claims| && AcceptedAt(claims, i) && claims[j].Some?
    requires claims[i].value.nonce == claims[j].value.nonce && claims[i].value.expires == claims[j].value.expires
    ensures !AcceptedAt(claims, j)
  {
    if AcceptedAt(claims, j) { StoredOrExpired(claims, i, j); }
  }

  /** No stored expiry lies further than `reach` beyond the clocks read so far. */
  lemma {:induction false} StoredWithin(claims: Claims, n: nat, now: int, reach: int)
    requires n <= |claims|
    requires forall k :: 0 <= k < n && claims[k].Some? ==> claims[k].value.now <= now && claims[k].value.expires <= claims[k].value.now + reach
    ensures forall x :: x in Ledger(claims[..n]) ==> Ledger(claims[..n])[x] <= now + reach
    decreases n
  {
    if n > 0 {
      LedgerStep(claims, n - 1);
      StoredWithin(claims, n - 1, now, reach);
    }
  }

  /** Right after an accepted claim at clock `now` every other stored expiry lies in [now, now + reach]; the
      claim's own does so exactly when the claim was prompt. */
  lemma StoredAfterClaim(claims: Claims, k: nat, reach: int)
    requires k < |claims| && AcceptedAt(claims, k) && ClocksAscend(claims)
    requires forall m :: 0 <= m <= k && claims[m].Some? ==> claims[m].value.expires <= claims[m].value.now + reach
    ensures var c, stored := claims[k].value, Ledger(claims[..k + 1]);
            && c.nonce in stored && stored[c.nonce] == c.expires
            && (forall x :: x in stored && x != c.nonce ==> c.now <= stored[x] <= c.now + reach)
            && ((forall x :: x in stored ==> c.now <= stored[x] <= c.now + reach) <==> c.now <= c.expires)
  {
    LedgerStep(claims, k);
    StoredWithin(claims, k + 1, claims[k].value.now, reach);
  }

  /** A single claim is accepted. */
  lemma SingleClaim(claims: Claims)
    requires |claims| == 3 && claims[0].None? && claims[1].Some? && claims[2].None?
    ensures AcceptedAt(claims, 1) && ClocksAscend(claims)
  {
    LedgerStep(claims, 0);
    assert claims[..0] == [] && Ledger(claims[..1]) == map[];
  }
}

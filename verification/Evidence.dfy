/** The evidence ledger: a second hash chain, which also hashes each event's position. */
module Evidence {
  import opened Json
  import opened HashChain

  /** What is hashed together with the link. */
  datatype Core = Core(seqNo: int, timestamp: string, kind: string, subject: string, payload: Json)

  datatype EvidenceEvent = EvidenceEvent(core: Core, prev: Digest, hash: Digest)

  function RowOf(e: EvidenceEvent): Row<Core> {
    Row(0, e.core, e.prev, e.hash)
  }

  function Rows(events: seq<EvidenceEvent>): (rows: seq<Row<Core>>)
    ensures |rows| == |events|
  {
    seq(|events|, i requires 0 <= i < |events| => RowOf(events[i]))
  }

  predicate Numbered(events: seq<EvidenceEvent>) {
    forall i :: 0 <= i < |events| ==> events[i].core.seqNo == i + 1
  }

  ghost predicate Intact(H: (Core, Digest) -> Digest, events: seq<EvidenceEvent>) {
    Numbered(events) && Linked(H, Rows(events))
  }

  datatype Result = Pass | SequenceMismatch(at: nat) | PrevMismatch(at: nat) | HashMismatch(at: nat)

  /** The first event, counting from 1, that breaks the ledger, and the first of its three checks to fail. */
  ghost predicate FirstBreak(H: (Core, Digest) -> Digest, events: seq<EvidenceEvent>, r: Result) {
    && !r.Pass? && 1 <= r.at <= |events| && Intact(H, events[..r.at - 1])
    && var e, prev := events[r.at - 1], Head(Rows(events[..r.at - 1]));
       && (r.SequenceMismatch? <==> e.core.seqNo != r.at)
       && (r.PrevMismatch? <==> e.core.seqNo == r.at && e.prev != prev)
       && (r.HashMismatch? <==> e.core.seqNo == r.at && e.prev == prev && e.hash != H(e.core, e.prev))
  }

  /** One more event on an intact prefix. */
  lemma IntactNext(H: (Core, Digest) -> Digest, events: seq<EvidenceEvent>, i: nat)
    requires i < |events| && Intact(H, events[..i])
    ensures Intact(H, events[..i + 1])
            <==> events[i].core.seqNo == i + 1 && events[i].prev == Head(Rows(events[..i])) && events[i].hash == H(events[i].core, events[i].prev)
  {
    var before, after := Rows(events[..i]), Rows(events[..i + 1]);
    assert after[..i] == before;
    if events[i].prev == Head(before) && events[i].hash == H(events[i].core, events[i].prev) {
      forall k | 0 <= k <= i ensures RowOk(H, after, k) {
        if k < i { assert RowOk(H, before, k) && after[..k] == before[..k]; }
      }
    } else {
      assert !RowOk(H, after, i);
    }
  }

  lemma {:induction false} IntactPrefix(H: (Core, Digest) -> Digest, events: seq<EvidenceEvent>, n: nat)
    requires n <= |events| && Intact(H, events)
    ensures Intact(H, events[..n])
  {
    PrefixLinked(H, Rows(events), n);
    assert Rows(events)[..n] == Rows(events[..n]);
  }

  /** Two intact ledgers with the same last hash are the same ledger, positions included, unless the hash has a
      collision among their events. */
  lemma SameHeadSameLedger(H: (Core, Digest) -> Digest, a: seq<EvidenceEvent>, b: seq<EvidenceEvent>)
    requires Intact(H, a) && Intact(H, b) && CollisionFree(H, Rows(a) + Rows(b))
    requires Head(Rows(a)) == Head(Rows(b))
    ensures a == b
  {
    EqualHeadsEqualLogs(H, Rows(a), Rows(b));
    forall k | 0 <= k < |a| ensures a[k] == b[k] { assert SameRecord(Rows(a)[k], Rows(b)[k]); }
  }

  /** No hash is needed to notice missing, repeated or exchanged events: a ledger made of the events of an intact
      one is intact only if it is a prefix of it. */
  lemma RearrangingDetected(H: (Core, Digest) -> Digest, honest: seq<EvidenceEvent>, found: seq<EvidenceEvent>)
    requires Intact(H, honest) && Intact(H, found)
    requires forall i :: 0 <= i < |found| ==> found[i] in honest
    ensures found <= honest
  {
    forall i | 0 <= i < |found| ensures i < |honest| && found[i] == honest[i] {
      var j :| 0 <= j < |honest| && honest[j] == found[i];
      assert honest[j].core.seqNo == j + 1;
    }
    if found != [] {
      var last := found[|found| - 1];
      assert |found| - 1 < |honest|;
    }
  }

  class EvidenceLedger {
    const H: (Core, Digest) -> Digest
    var events: seq<EvidenceEvent>

    constructor (H: (Core, Digest) -> Digest, stored: seq<EvidenceEvent>)
      ensures this.H == H && events == stored
    {
      this.H, this.events := H, stored;
    }

    /** Adds one event at the end; an intact ledger stays intact. */
    method Append(kind: string, subject: string, payload: Json, timestamp: string) returns (e: EvidenceEvent)
      modifies this
      ensures events == old(events) + [e]
      ensures e.core == Core(|old(events)| + 1, timestamp, kind, subject, payload)
      ensures e.prev == Head(Rows(old(events))) && e.hash == H(e.core, e.prev)
      ensures Intact(H, old(events)) ==> Intact(H, events)
    {
      var prev := if events != [] then events[|events| - 1].hash else GENESIS;
      var core := Core(|events| + 1, timestamp, kind, subject, payload);
      e := EvidenceEvent(core, prev, H(core, prev));
      events := events + [e];
      assert events[..|events| - 1] == old(events) && events[..|events|] == events;
      if Intact(H, old(events)) { IntactNext(H, events, |events| - 1); }
    }

    /** Accepts exactly the intact ledgers and otherwise names the first break. */
    method Verify() returns (r: Result)
      ensures r.Pass? <==> Intact(H, events)
      ensures !r.Pass? ==> FirstBreak(H, events, r)
    {
      var prev := GENESIS;
      for i := 0 to |events|
        invariant Intact(H, events[..i]) && prev == Head(Rows(events[..i]))
      {
        var e := events[i];
        IntactNext(H, events, i);
        if Intact(H, events) { IntactPrefix(H, events, i + 1); }
        if e.core.seqNo != i + 1 {
          return SequenceMismatch(i + 1);
        }
        if e.prev != prev {
          return Result.PrevMismatch(i + 1);
        }
        if H(e.core, e.prev) != e.hash {
          return Result.HashMismatch(i + 1);
        }
        assert events[..i + 1] == events[..i] + [e];
        prev := e.hash;
      }
      assert events[..|events|] == events;
      return Pass;
    }
  }
}

/** ORDER BY updated_at, id LIMIT n: the listing that the access queue, the recovery of operations and the
    reconciliation of orders share. The order is that of the stored texts. */
module Listing {
  import opened Domain
  import opened Timestamps

  ghost predicate Earlier(t: int, a: nat, u: int, b: nat) {
    TextBefore(t, u) || (t == u && a < b)
  }

  lemma EarlierTotal(t: int, a: nat, u: int, b: nat)
    requires a != b
    ensures Earlier(t, a, u, b) <==> !Earlier(u, b, t, a)
  {
    TextBeforeTrichotomy(t, u);
    TextBeforeIrreflexive(t);
  }

  lemma EarlierTransitive(t: int, a: nat, u: int, b: nat, v: int, c: nat)
    requires Earlier(t, a, u, b) && Earlier(u, b, v, c)
    ensures Earlier(t, a, v, c)
  {
    if TextBefore(t, u) && TextBefore(u, v) {
      TextBeforeTransitive(t, u, v);
    }
  }

  /** The first `limit` of the stamped ids, in order. */
  ghost predicate IsListing(stamps: map<nat, int>, limit: nat, ids: seq<nat>) {
    && (forall i :: 0 <= i < |ids| ==> ids[i] in stamps)
    && (forall i, j :: 0 <= i < j < |ids| ==> Earlier(stamps[ids[i]], ids[i], stamps[ids[j]], ids[j]))
    && (forall a, b :: a in stamps && a !in ids && b in ids ==> Earlier(stamps[b], b, stamps[a], a))
    && |ids| == if |stamps| < limit then |stamps| else limit
  }

  lemma ListingDistinct(stamps: map<nat, int>, limit: nat, ids: seq<nat>)
    requires IsListing(stamps, limit, ids)
    ensures forall i, j :: 0 <= i < j < |ids| ==> ids[i] != ids[j]
  {
    forall i, j | 0 <= i < j < |ids|
      ensures ids[i] != ids[j]
    {
      assert Earlier(stamps[ids[i]], ids[i], stamps[ids[j]], ids[j]);
      TextBeforeIrreflexive(stamps[ids[i]]);
    }
  }

  method Earliest(stamps: map<nat, int>, candidates: set<nat>) returns (first: nat)
    requires candidates != {} && candidates <= stamps.Keys
    ensures first in candidates
    ensures forall a :: a in candidates && a != first ==> Earlier(stamps[first], first, stamps[a], a)
  {
    first :| first in candidates;
    var rest := candidates - {first};
    while rest != {}
      invariant first in candidates && first !in rest && rest <= candidates
      invariant forall a :: a in candidates && a !in rest && a != first ==> Earlier(stamps[first], first, stamps[a], a)
      decreases |rest|
    {
      var next: nat :| next in rest;
      EarlierTotal(stamps[first], first, stamps[next], next);
      if TextBefore(stamps[next], stamps[first]) || (stamps[next] == stamps[first] && next < first) {
        forall a | a in candidates && a !in rest - {next} && a != next
          ensures Earlier(stamps[next], next, stamps[a], a)
        {
          if a != first {
            EarlierTransitive(stamps[next], next, stamps[first], first, stamps[a], a);
          }
        }
        first := next;
      }
      rest := rest - {next};
    }
  }

  method FirstOf(stamps: map<nat, int>, limit: nat) returns (ids: seq<nat>)
    ensures IsListing(stamps, limit, ids)
  {
    ids := [];
    var rest := stamps.Keys;
    while |ids| < limit && rest != {}
      invariant |ids| <= limit && rest <= stamps.Keys && |rest| + |ids| == |stamps.Keys|
      invariant forall a :: a in stamps ==> (a in ids <==> a !in rest)
      invariant forall i :: 0 <= i < |ids| ==> ids[i] in stamps
      invariant forall i, j :: 0 <= i < j < |ids| ==> Earlier(stamps[ids[i]], ids[i], stamps[ids[j]], ids[j])
      invariant forall a, i :: 0 <= i < |ids| && a in rest ==> Earlier(stamps[ids[i]], ids[i], stamps[a], a)
      decreases |rest|
    {
      var first := Earliest(stamps, rest);
      ids, rest := ids + [first], rest - {first};
    }
    assert |stamps| == |stamps.Keys|;
  }
}

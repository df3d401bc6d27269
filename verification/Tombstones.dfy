/**
 The bounded first-in-first-out tombstone sets of the Codex event router.

 The router keeps three of them with the same code: retired roots, retired
 (child thread, child turn) pairs, and children retired before any turn of
 theirs was seen. Membership removal is lazy: it leaves a stale queue entry.
 */
module Tombstones {
  const ROUTE_EVENT_BUDGET: nat := 1024
  const ROUTE_TOMBSTONE_BUDGET: nat := ROUTE_EVENT_BUDGET * 4

  datatype Tombstones<K> = Tombstones(live: set<K>, order: seq<K>)

  ghost predicate Distinct<K>(s: seq<K>) {
    forall i, j | 0 <= i < j < |s| :: s[i] != s[j]
  }

  /** Bounded memory: the live set is covered by a duplicate-free, bounded queue. */
  ghost predicate WellFormed<K>(t: Tombstones<K>) {
    && Distinct(t.order)
    && (forall k | k in t.live :: k in t.order)
    && |t.order| <= ROUTE_TOMBSTONE_BUDGET
  }

  function Empty<K>(): Tombstones<K> {
    Tombstones({}, [])
  }

  function Without<K(==)>(s: seq<K>, k: K): seq<K> {
    if s == [] then []
    else if s[0] == k then Without(s[1..], k)
    else [s[0]] + Without(s[1..], k)
  }

  function Trim<K(==)>(t: Tombstones<K>): Tombstones<K>
    decreases |t.order|
  {
    if |t.order| <= ROUTE_TOMBSTONE_BUDGET then t
    else Trim(Tombstones(t.live - {t.order[0]}, t.order[1..]))
  }

  /** Tombstone `k`, expiring the oldest entries beyond the budget. */
  function Bury<K(==)>(t: Tombstones<K>, k: K): Tombstones<K> {
    if k in t.live then t
    else Trim(Tombstones(t.live + {k}, Without(t.order, k) + [k]))
  }

  /** Lift a tombstone; its queue entry is deliberately left behind. */
  function Exhume<K(==)>(t: Tombstones<K>, k: K): Tombstones<K> {
    t.(live := t.live - {k})
  }

  lemma {:induction false} WithoutKeepsTheOthers<K>(s: seq<K>, k: K)
    ensures k !in Without(s, k)
    ensures forall x :: x in Without(s, k) <==> x in s && x != k
    ensures |Without(s, k)| <= |s|
    ensures Distinct(s) ==> Distinct(Without(s, k))
  {
    if s != [] {
      WithoutKeepsTheOthers(s[1..], k);
      assert s == [s[0]] + s[1..];
      if Distinct(s) {
        assert Distinct(s[1..]);
        assert s[0] !in s[1..];
      }
    }
  }

  /** How many entries are beyond the budget. */
  function Excess<K>(t: Tombstones<K>): nat {
    if |t.order| > ROUTE_TOMBSTONE_BUDGET then |t.order| - ROUTE_TOMBSTONE_BUDGET else 0
  }

  lemma TrimUnfolds<K>(t: Tombstones<K>)
    ensures Excess(t) == 0 ==> Trim(t) == t
    ensures Excess(t) > 0 ==>
              && 0 < Excess(t) <= |t.order|
              && var u := Tombstones(t.live - {t.order[0]}, t.order[1..]);
                 Trim(t) == Trim(u) && Excess(u) == Excess(t) - 1
  {
  }

  /** Exactly the oldest entries beyond the budget expire. */
  lemma {:induction false} TrimExpiresTheOldest<K>(t: Tombstones<K>)
    ensures Excess(t) <= |t.order| && Trim(t).order == t.order[Excess(t)..]
    ensures forall k | k in Trim(t).live :: k in t.live && k !in t.order[..Excess(t)]
    ensures forall k | k in t.live && k !in t.order[..Excess(t)] :: k in Trim(t).live
    decreases |t.order|
  {
    hide Trim, Excess;
    TrimUnfolds(t);
    if Excess(t) > 0 {
      TrimExpiresTheOldest(Tombstones(t.live - {t.order[0]}, t.order[1..]));
      FirstOf(t.order, Excess(t));
    } else {
      assert t.order[0..] == t.order && t.order[..0] == [];
    }
  }

  /** The first `n` of a queue are its head and the first `n - 1` after it. */
  lemma FirstOf<K>(s: seq<K>, n: nat)
    requires 0 < n <= |s|
    ensures s[1..][n - 1..] == s[n..]
    ensures forall k :: k in s[..n] <==> k == s[0] || k in s[1..][..n - 1]
  {
    assert s[..n] == [s[0]] + s[1..][..n - 1];
  }

  lemma TrimKeepsBounds<K>(t: Tombstones<K>)
    requires Distinct(t.order) && (forall k | k in t.live :: k in t.order)
    ensures WellFormed(Trim(t)) && Trim(t).live <= t.live
    ensures t.order != [] && t.order[|t.order| - 1] in t.live ==> t.order[|t.order| - 1] in Trim(t).live
  {
    TrimExpiresTheOldest(t);
    var n := Excess(t);
    forall k | k in Trim(t).live
      ensures k in t.order[n..]
    {
      assert k in t.live && k !in t.order[..n];
      assert k in t.order && t.order == t.order[..n] + t.order[n..];
    }
  }

  /** A tombstone just laid is live, only older ones can have expired, and the bounds hold. */
  lemma BuryKeepsBounds<K>(t: Tombstones<K>, k: K)
    requires WellFormed(t)
    ensures WellFormed(Bury(t, k))
    ensures k in Bury(t, k).live
    ensures Bury(t, k).live <= t.live + {k}
  {
    WithoutKeepsTheOthers(t.order, k);
    if k !in t.live {
      TrimKeepsBounds(Tombstones(t.live + {k}, Without(t.order, k) + [k]));
    }
  }
}

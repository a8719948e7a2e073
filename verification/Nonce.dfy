// Replay protection of LTI launches: the in-memory cache that prunes as it
// goes, against the full history of launches. Section 5.1.3 of the 1EdTech
// Security Framework 1.0 asks that a nonce seen within the window be refused.

module Nonce {
  import opened Types

  datatype Key = Key(issuer: string, nonce: string)

  // A nonce presented at a reading of the verifier's clock.
  datatype Claim = Presented(key: Key, now: Time)

  // ---------------------------------------------------------------------
  // The rule, over the whole history.

  // Claim number n is fresh: no earlier fresh claim of its nonce lies within
  // the window that ends at it.
  ghost predicate Fresh(claims: seq<Claim>, ttl: Time, n: nat)
    requires n < |claims|
    decreases n
  {
    forall i | 0 <= i < n :: claims[i].key == claims[n].key && Fresh(claims, ttl, i) ==>
      claims[i].now + ttl <= claims[n].now
  }

  ghost predicate NonDecreasing(claims: seq<Claim>) {
    forall i, j :: 0 <= i <= j < |claims| ==> claims[i].now <= claims[j].now
  }

  // The accepted claim number i is still inside its window at time now.
  ghost predicate Remembered(claims: seq<Claim>, ttl: Time, i: nat, now: Time) {
    i < |claims| && Fresh(claims, ttl, i) && now < claims[i].now + ttl
  }

  // ---------------------------------------------------------------------
  // The cache.

  type Cache = map<Key, Time>

  function Pruned(seen: Cache, now: Time): Cache {
    map k | k in seen && now < seen[k] :: seen[k]
  }

  datatype Answer = Answer(seen: Cache, accepted: bool)

  function Step(seen: Cache, ttl: Time, c: Claim): Answer {
    var pruned := Pruned(seen, c.now);
    if c.key in pruned then Answer(pruned, false) else Answer(pruned[c.key := c.now + ttl], true)
  }

  class NonceCache {
    const ttl: Time
    var seen: Cache

    constructor (ttl: Time)
      ensures seen == map[] && this.ttl == if ttl <= 0 then 600 else ttl
    {
      this.ttl := if ttl <= 0 then 600 else ttl;
      seen := map[];
    }

    method Claim(issuer: string, nonce: string, now: Time) returns (accepted: bool)
      modifies this
      ensures Answer(seen, accepted) == Step(old(seen), ttl, Presented(Key(issuer, nonce), now))
    {
      var key := Key(issuer, nonce);
      var unseen := seen.Keys;
      while unseen != {}
        invariant unseen <= old(seen).Keys
        invariant seen == map k | k in old(seen) && (k in unseen || now < old(seen)[k]) :: old(seen)[k]
        decreases unseen
      {
        var k :| k in unseen;
        if now >= seen[k] {
          seen := seen - {k};
        }
        unseen := unseen - {k};
      }
      if key in seen && now < seen[key] {
        return false;
      }
      seen := seen[key := now + ttl];
      accepted := true;
    }
  }

  // ---------------------------------------------------------------------
  // The cache refines the rule.

  function CacheAfter(claims: seq<Claim>, ttl: Time): Cache {
    if claims == [] then map[]
    else Step(CacheAfter(claims[..|claims| - 1], ttl), ttl, claims[|claims| - 1]).seen
  }

  function Accepted(claims: seq<Claim>, ttl: Time, n: nat): bool
    requires n < |claims|
  {
    Step(CacheAfter(claims[..n], ttl), ttl, claims[n]).accepted
  }

  lemma {:induction false} FreshInPrefix(claims: seq<Claim>, ttl: Time, m: nat, n: nat)
    requires n < m <= |claims|
    ensures Fresh(claims[..m], ttl, n) == Fresh(claims, ttl, n)
    decreases n
  {
    forall i | 0 <= i < n
      ensures Fresh(claims[..m], ttl, i) == Fresh(claims, ttl, i)
    {
      FreshInPrefix(claims, ttl, m, i);
    }
  }

  // The cache holds exactly the acceptances inside the window, each under its
  // nonce with the end of its window.
  ghost predicate Exact(seen: Cache, claims: seq<Claim>, ttl: Time, now: Time) {
    && (forall k :: k in seen ==>
          exists i: nat :: Remembered(claims, ttl, i, now) && claims[i].key == k && seen[k] == claims[i].now + ttl)
    && (forall i: nat :: Remembered(claims, ttl, i, now) ==>
          claims[i].key in seen && seen[claims[i].key] == claims[i].now + ttl)
  }

  lemma PruningKeepsExact(seen: Cache, claims: seq<Claim>, ttl: Time, then': Time, now: Time)
    requires Exact(seen, claims, ttl, then') && then' <= now
    ensures Exact(Pruned(seen, now), claims, ttl, now)
  {
    var pruned := Pruned(seen, now);
    forall k | k in pruned
      ensures exists i: nat :: Remembered(claims, ttl, i, now) && claims[i].key == k && pruned[k] == claims[i].now + ttl
    {
      var i: nat :| Remembered(claims, ttl, i, then') && claims[i].key == k && seen[k] == claims[i].now + ttl;
      assert Remembered(claims, ttl, i, now);
    }
    forall i: nat | Remembered(claims, ttl, i, now)
      ensures claims[i].key in pruned && pruned[claims[i].key] == claims[i].now + ttl
    {
      assert Remembered(claims, ttl, i, then');
    }
  }

  // A nonce missing from an exact cache is fresh, and only such a nonce.
  lemma MissingIsFresh(pruned: Cache, claims: seq<Claim>, ttl: Time)
    requires claims != []
    requires var n := |claims| - 1; Exact(pruned, claims[..n], ttl, claims[n].now)
    ensures var n := |claims| - 1; claims[n].key !in pruned <==> Fresh(claims, ttl, n)
  {
    var n := |claims| - 1;
    var front, c := claims[..n], claims[n];
    forall i: nat | i < n
      ensures Remembered(front, ttl, i, c.now) <==> Fresh(claims, ttl, i) && c.now < claims[i].now + ttl
    {
      FreshInPrefix(claims, ttl, n, i);
    }
    if c.key in pruned {
      var i: nat :| Remembered(front, ttl, i, c.now) && front[i].key == c.key;
      assert Fresh(claims, ttl, i);
    }
  }

  lemma RememberedInPrefix(claims: seq<Claim>, ttl: Time, n: nat, i: nat, now: Time)
    requires i < n <= |claims|
    ensures Remembered(claims[..n], ttl, i, now) <==> Remembered(claims, ttl, i, now)
  {
    FreshInPrefix(claims, ttl, n, i);
  }

  // Accepting the last claim, or refusing it, keeps the cache exact.
  lemma AcceptingKeepsExact(pruned: Cache, claims: seq<Claim>, ttl: Time)
    requires claims != [] && ttl > 0
    requires var n := |claims| - 1; var c := claims[n];
      Exact(pruned, claims[..n], ttl, c.now) && c.key !in pruned && Fresh(claims, ttl, n)
    ensures var c := claims[|claims| - 1]; Exact(pruned[c.key := c.now + ttl], claims, ttl, c.now)
  {
    hide Fresh;
    var n := |claims| - 1;
    var front, c := claims[..n], claims[n];
    var seen := pruned[c.key := c.now + ttl];
    assert Remembered(claims, ttl, n, c.now);
    forall k | k in seen
      ensures exists i: nat :: Remembered(claims, ttl, i, c.now) && claims[i].key == k && seen[k] == claims[i].now + ttl
    {
      if k != c.key {
        var i: nat :| Remembered(front, ttl, i, c.now) && front[i].key == k && pruned[k] == front[i].now + ttl;
        RememberedInPrefix(claims, ttl, n, i, c.now);
      }
    }
    forall i: nat | Remembered(claims, ttl, i, c.now)
      ensures claims[i].key in seen && seen[claims[i].key] == claims[i].now + ttl
    {
      if i < n {
        RememberedInPrefix(claims, ttl, n, i, c.now);
      }
    }
  }

  lemma RefusingKeepsExact(pruned: Cache, claims: seq<Claim>, ttl: Time)
    requires claims != []
    requires var n := |claims| - 1; Exact(pruned, claims[..n], ttl, claims[n].now) && !Fresh(claims, ttl, n)
    ensures Exact(pruned, claims, ttl, claims[|claims| - 1].now)
  {
    hide Fresh;
    var n := |claims| - 1;
    var front, c := claims[..n], claims[n];
    forall k | k in pruned
      ensures exists i: nat ::
        Remembered(claims, ttl, i, c.now) && claims[i].key == k && pruned[k] == claims[i].now + ttl
    {
      var i: nat :| Remembered(front, ttl, i, c.now) && front[i].key == k && pruned[k] == front[i].now + ttl;
      RememberedInPrefix(claims, ttl, n, i, c.now);
    }
    forall i: nat | Remembered(claims, ttl, i, c.now)
      ensures claims[i].key in pruned && pruned[claims[i].key] == claims[i].now + ttl
    {
      assert i < n;
      RememberedInPrefix(claims, ttl, n, i, c.now);
    }
  }

  lemma NothingIsExact(ttl: Time, now: Time)
    ensures Exact(Pruned(map[], now), [], ttl, now)
  {
  }

  // With a clock that does not go back, the cache holds exactly the
  // acceptances still inside their window.
  lemma {:induction false} CacheIsExact(claims: seq<Claim>, ttl: Time)
    requires claims != [] && ttl > 0 && NonDecreasing(claims)
    ensures var n := |claims| - 1;
      && Exact(Pruned(CacheAfter(claims[..n], ttl), claims[n].now), claims[..n], ttl, claims[n].now)
      && Exact(CacheAfter(claims, ttl), claims, ttl, claims[n].now)
  {
    hide Exact, Fresh, Pruned;
    var n := |claims| - 1;
    var front := claims[..n];
    if front == [] {
      NothingIsExact(ttl, claims[n].now);
    } else {
      assert NonDecreasing(front);
      CacheIsExact(front, ttl);
      assert front[n - 1] == claims[n - 1];
      PruningKeepsExact(CacheAfter(front, ttl), front, ttl, front[n - 1].now, claims[n].now);
    }
    var pruned := Pruned(CacheAfter(front, ttl), claims[n].now);
    MissingIsFresh(pruned, claims, ttl);
    if claims[n].key in pruned {
      RefusingKeepsExact(pruned, claims, ttl);
    } else {
      AcceptingKeepsExact(pruned, claims, ttl);
    }
  }

  // ---------------------------------------------------------------------
  // Any clock.

  // No claim between numbers i and n came at or after the end of i's window.
  ghost predicate Survives(claims: seq<Claim>, ttl: Time, i: nat, n: nat)
    requires i < n <= |claims|
  {
    forall j :: i < j < n ==> claims[j].now < claims[i].now + ttl
  }

  // Claim i was accepted and is still cached after n claims.
  ghost predicate Cached(claims: seq<Claim>, ttl: Time, i: nat, n: nat) {
    i < n <= |claims| && Accepted(claims, ttl, i) && Survives(claims, ttl, i, n)
  }

  ghost predicate HoldsCached(seen: Cache, claims: seq<Claim>, ttl: Time, n: nat)
    requires n <= |claims|
  {
    && (forall k :: k in seen ==>
          exists i: nat :: Cached(claims, ttl, i, n) && claims[i].key == k && seen[k] == claims[i].now + ttl)
    && (forall i: nat :: Cached(claims, ttl, i, n) ==>
          claims[i].key in seen && seen[claims[i].key] == claims[i].now + ttl)
  }

  lemma PruningSurvives(claims: seq<Claim>, ttl: Time, i: nat, n: nat)
    requires i < n < |claims|
    ensures Cached(claims, ttl, i, n + 1) <==> Cached(claims, ttl, i, n) && claims[n].now < claims[i].now + ttl
  {
    hide Accepted;
  }

  // What is left after pruning for claim n.
  ghost predicate HoldsPruned(pruned: Cache, claims: seq<Claim>, ttl: Time, n: nat)
    requires n < |claims|
  {
    && (forall k :: k in pruned ==>
          exists i: nat :: i < n && Cached(claims, ttl, i, n + 1) && claims[i].key == k
            && pruned[k] == claims[i].now + ttl)
    && (forall i: nat :: i < n && Cached(claims, ttl, i, n + 1) ==>
          claims[i].key in pruned && pruned[claims[i].key] == claims[i].now + ttl)
  }

  lemma PruningHolds(seen: Cache, claims: seq<Claim>, ttl: Time, n: nat)
    requires n < |claims| && HoldsCached(seen, claims, ttl, n)
    ensures HoldsPruned(Pruned(seen, claims[n].now), claims, ttl, n)
  {
    hide Accepted, Survives;
    var pruned := Pruned(seen, claims[n].now);
    forall k | k in pruned
      ensures exists i: nat ::
        i < n && Cached(claims, ttl, i, n + 1) && claims[i].key == k && pruned[k] == claims[i].now + ttl
    {
      var i: nat :| Cached(claims, ttl, i, n) && claims[i].key == k && seen[k] == claims[i].now + ttl;
      PruningSurvives(claims, ttl, i, n);
    }
    forall i: nat | i < n && Cached(claims, ttl, i, n + 1)
      ensures claims[i].key in pruned && pruned[claims[i].key] == claims[i].now + ttl
    {
      PruningSurvives(claims, ttl, i, n);
    }
  }

  lemma CachedLast(claims: seq<Claim>, ttl: Time, n: nat)
    requires n < |claims|
    ensures Cached(claims, ttl, n, n + 1) <==> Accepted(claims, ttl, n)
  {
    hide Accepted;
  }

  lemma TakingHolds(claims: seq<Claim>, ttl: Time, n: nat)
    requires n < |claims| && HoldsCached(CacheAfter(claims[..n], ttl), claims, ttl, n)
    ensures HoldsCached(Step(CacheAfter(claims[..n], ttl), ttl, claims[n]).seen, claims, ttl, n + 1)
  {
    hide Cached, CacheAfter, Pruned, HoldsCached, HoldsPruned;
    var seen := CacheAfter(claims[..n], ttl);
    PruningHolds(seen, claims, ttl, n);
    CachedLast(claims, ttl, n);
    JoiningHolds(Pruned(seen, claims[n].now), Accepted(claims, ttl, n), claims, ttl, n);
  }

  lemma JoiningHolds(pruned: Cache, accepted: bool, claims: seq<Claim>, ttl: Time, n: nat)
    requires n < |claims| && HoldsPruned(pruned, claims, ttl, n)
    requires accepted == (claims[n].key !in pruned) == Cached(claims, ttl, n, n + 1)
    ensures HoldsCached(if accepted then pruned[claims[n].key := claims[n].now + ttl] else pruned, claims, ttl, n + 1)
  {
    hide Survives, Accepted;
    var next := if accepted then pruned[claims[n].key := claims[n].now + ttl] else pruned;
    forall k | k in next
      ensures exists i: nat :: Cached(claims, ttl, i, n + 1) && claims[i].key == k && next[k] == claims[i].now + ttl
    {
      if k in pruned {
        var i: nat :| i < n && Cached(claims, ttl, i, n + 1) && claims[i].key == k && pruned[k] == claims[i].now + ttl;
      } else {
        assert Cached(claims, ttl, n, n + 1);
      }
    }
  }

  lemma {:induction false} CacheHoldsCached(claims: seq<Claim>, ttl: Time, n: nat)
    requires n <= |claims|
    ensures HoldsCached(CacheAfter(claims[..n], ttl), claims, ttl, n)
  {
    if n > 0 {
      hide HoldsCached, Step, Accepted;
      CacheHoldsCached(claims, ttl, n - 1);
      assert claims[..n][..n - 1] == claims[..n - 1];
      TakingHolds(claims, ttl, n - 1);
    }
  }

  // Whatever the clock does, a nonce is accepted exactly when each earlier
  // acceptance of it was followed, up to now, by some claim at or after the
  // end of its window.
  lemma AcceptedIffOutlived(claims: seq<Claim>, ttl: Time, n: nat)
    requires n < |claims|
    ensures Accepted(claims, ttl, n) <==>
            forall i | 0 <= i < n && claims[i].key == claims[n].key && Accepted(claims, ttl, i) ::
              exists j :: i < j <= n && claims[j].now >= claims[i].now + ttl
  {
    CacheHoldsCached(claims, ttl, n);
    var seen := CacheAfter(claims[..n], ttl);
    PruningHolds(seen, claims, ttl, n);
    forall i: nat | i < n
      ensures Survives(claims, ttl, i, n + 1) <==> !exists j :: i < j <= n && claims[j].now >= claims[i].now + ttl
    {
      SurvivesIff(claims, ttl, i, n);
    }
    assert Accepted(claims, ttl, n) <==> claims[n].key !in Pruned(seen, claims[n].now);
    hide Accepted, CacheAfter, Pruned, Survives, HoldsCached;
  }

  lemma SurvivesIff(claims: seq<Claim>, ttl: Time, i: nat, n: nat)
    requires i < n < |claims|
    ensures Survives(claims, ttl, i, n + 1) <==> !exists j :: i < j <= n && claims[j].now >= claims[i].now + ttl
  {
  }

  // With a clock that does not go back, the pruning cache accepts a nonce
  // exactly when the whole history has no earlier acceptance of it within the
  // window.
  lemma {:induction false} AcceptedIffFresh(claims: seq<Claim>, ttl: Time, n: nat)
    requires n < |claims| && NonDecreasing(claims)
    ensures Accepted(claims, ttl, n) <==> Fresh(claims, ttl, n)
  {
    hide Accepted;
    AcceptedIffOutlived(claims, ttl, n);
    forall i | 0 <= i < n
      ensures Accepted(claims, ttl, i) <==> Fresh(claims, ttl, i)
      ensures (exists j :: i < j <= n && claims[j].now >= claims[i].now + ttl) <==> claims[i].now + ttl <= claims[n].now
    {
      AcceptedIffFresh(claims, ttl, i);
    }
  }

  // A clock set back makes the cache accept a nonce it has already pruned.
  lemma ClockSetBackForgets(k: Key, other: Key, ttl: Time)
    requires k != other && ttl > 0
    ensures var claims := [Presented(k, 0), Presented(other, ttl), Presented(k, ttl - 1)];
      Accepted(claims, ttl, 2) && !Fresh(claims, ttl, 2)
  {
    var claims := [Presented(k, 0), Presented(other, ttl), Presented(k, ttl - 1)];
    assert Fresh(claims, ttl, 0);
    assert claims[..2][..1][..0] == [] && claims[..2][..1] == [claims[0]] && claims[..2] == [claims[0], claims[1]];
    var none: seq<Claim> := [];
    assert CacheAfter(none, ttl) == map[];
    assert CacheAfter(claims[..2][..1], ttl) == map[k := ttl];
    assert CacheAfter(claims[..2], ttl) == map[other := ttl + ttl];
  }
}

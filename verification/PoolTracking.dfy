/** How long a pool has been seen empty: the tracking of the empty-pool collector over its whole history. */
module PoolTracking {

  /** A managed pool was listed, or the collector deleted it. */
  datatype Event = Seen(key: string, empty: bool, at: int) | Deleted(key: string)

  type Tracked = map<string, int>

  function Track(t: Tracked, e: Event): Tracked
  {
    match e
    case Seen(key, empty, at) => if !empty then t - {key} else if key !in t then t[key := at] else t
    case Deleted(key) => t - {key}
  }

  function After(h: seq<Event>): Tracked
  {
    if h == [] then map[] else Track(After(h[..|h|-1]), h[|h|-1])
  }

  /** From i on, every event of the pool is a sighting of it empty. */
  ghost predicate EmptySince(h: seq<Event>, key: string, i: int)
    requires 0 <= i
  {
    forall j :: i <= j < |h| && h[j].key == key ==> h[j].Seen? && h[j].empty
  }

  /** The first sighting of the pool's present run of empty sightings. */
  ghost predicate StreakStart(h: seq<Event>, key: string, i: int)
  {
    && 0 <= i < |h| && h[i].key == key && EmptySince(h, key, i)
    && forall j :: 0 <= j < i && h[j].key == key ==> !EmptySince(h, key, j)
  }

  /** The recorded time is that of the first sighting since the pool was last seen in use or deleted. */
  lemma {:induction false} TrackedFromStreakStart(h: seq<Event>, key: string)
    ensures key in After(h) ==> exists i :: StreakStart(h, key, i) && After(h)[key] == h[i].at
    ensures key !in After(h) ==> forall i :: !StreakStart(h, key, i)
  {
    if h != [] {
      var head, e, n := h[..|h|-1], h[|h|-1], |h| - 1;
      TrackedFromStreakStart(head, key);
      if e.key != key {
        forall i | 0 <= i < n ensures StreakStart(h, key, i) <==> StreakStart(head, key, i) { Unrelated(h, key, i); }
      } else if e.Seen? && e.empty {
        if key in After(head) {
          var i :| StreakStart(head, key, i) && After(head)[key] == head[i].at;
          Extended(h, key, i);
        } else {
          NewStreak(h, head, key);
        }
      } else {
        assert h[n] == e;
        forall i ensures !StreakStart(h, key, i) { Broken(h, key, i); }
      }
    }
  }

  lemma Unrelated(h: seq<Event>, key: string, i: int)
    requires h != [] && h[|h|-1].key != key && 0 <= i < |h| - 1
    ensures StreakStart(h, key, i) <==> StreakStart(h[..|h|-1], key, i)
  {
    var head := h[..|h|-1];
    forall j | 0 <= j ensures EmptySince(h, key, j) <==> EmptySince(head, key, j) { Shorter(h, key, j); }
  }

  lemma Shorter(h: seq<Event>, key: string, j: int)
    requires h != [] && 0 <= j
    requires h[|h|-1].key == key ==> h[|h|-1].Seen? && h[|h|-1].empty
    ensures EmptySince(h, key, j) <==> EmptySince(h[..|h|-1], key, j)
  {
    var head := h[..|h|-1];
    assert forall k :: 0 <= k < |head| ==> head[k] == h[k];
    if EmptySince(h, key, j) {
      assert forall k :: j <= k < |head| && head[k].key == key ==> h[k].Seen? && h[k].empty;
    }
  }

  lemma Extended(h: seq<Event>, key: string, i: int)
    requires h != [] && h[|h|-1].key == key && h[|h|-1].Seen? && h[|h|-1].empty
    requires StreakStart(h[..|h|-1], key, i)
    ensures StreakStart(h, key, i)
  {
    forall j | 0 <= j ensures EmptySince(h, key, j) <==> EmptySince(h[..|h|-1], key, j) { Shorter(h, key, j); }
  }

  lemma NewStreak(h: seq<Event>, head: seq<Event>, key: string)
    requires h != [] && h[|h|-1].key == key && h[|h|-1].Seen? && h[|h|-1].empty
    requires head == h[..|h|-1] && forall i :: !StreakStart(head, key, i)
    ensures StreakStart(h, key, |h| - 1)
  {
    forall j | 0 <= j < |head| && h[j].key == key ensures !EmptySince(h, key, j) {
      Shorter(h, key, j);
      NoStreak(head, key, j);
    }
  }

  /** Where no streak starts, none goes on. */
  lemma NoStreak(h: seq<Event>, key: string, j: int)
    requires 0 <= j < |h| && h[j].key == key && forall i :: !StreakStart(h, key, i)
    ensures !EmptySince(h, key, j)
    decreases j
  {
    forall k | 0 <= k < j && h[k].key == key ensures !EmptySince(h, key, k) { NoStreak(h, key, k); }
    assert !StreakStart(h, key, j);
  }

  lemma Broken(h: seq<Event>, key: string, i: int)
    requires h != [] && h[|h|-1].key == key && !(h[|h|-1].Seen? && h[|h|-1].empty)
    ensures !StreakStart(h, key, i)
  {
    if 0 <= i < |h| {
      assert !EmptySince(h, key, i);
    }
  }

  // ---- one pass of the collector -----------------------------------------------------------------

  /**
   * A listed pool with what the collector reads of the world while it handles it: whether the pool is its own,
   * the two clock readings, whether the class still allows cleanup, and whether the deletion went through.
   */
  datatype Listed = Listed(key: string, own: bool, empty: bool, now: int, later: int, allowed: bool, deleted: bool)

  class Tracker {
    var tracking: Tracked

    constructor ()
      ensures tracking == After([])
    {
      tracking := map[];
    }

    /** One listed pool; `after` is the history with what was seen and done. */
    method HandlePool(pool: Listed, ttl: int, ghost h: seq<Event>) returns (tried: bool, ghost after: seq<Event>)
      requires tracking == After(h)
      modifies this
      ensures tracking == After(after) && h <= after
      ensures Decided(pool, ttl, after, |h|, tried)
    {
      if !pool.own {
        return false, h;
      }
      var tracked := pool.key in tracking;
      var since := if tracked then tracking[pool.key] else 0;
      if !pool.empty {
        tracking := tracking - {pool.key};
      } else if !tracked {
        tracking := tracking[pool.key := pool.now];
      }
      after := AddEvent(h, Seen(pool.key, pool.empty, pool.now));
      tried := pool.empty && tracked && !(pool.later - since < ttl) && pool.allowed;
      DueIsLongEmpty(h, pool.key, pool.later - ttl);
      DecidedNow(pool, ttl, h, after, tried);
      if tried && pool.deleted {
        tracking := tracking - {pool.key};
        ghost var seen := after;
        after := AddEvent(after, Deleted(pool.key));
        StillDecided(pool, ttl, seen, after, |h|, tried);
      }
    }

    /**
     * cleanupEmptyPools: `at` is where in the history each pool was handled. A pool is tried exactly when it is the
     * collector's own, listed empty, still allowed, and had been seen empty without a break since at least the TTL
     * before.
     */
    method CleanupEmptyPools(pools: seq<Listed>, ttl: int, ghost h: seq<Event>)
      returns (tried: seq<bool>, ghost after: seq<Event>, ghost at: seq<nat>)
      requires tracking == After(h)
      modifies this
      ensures tracking == After(after) && h <= after
      ensures |tried| == |at| == |pools|
      ensures forall i :: 0 <= i < |pools| ==> |h| <= at[i] && Decided(pools[i], ttl, after, at[i], tried[i])
    {
      tried, after, at := [], h, [];
      for i := 0 to |pools|
        invariant tracking == After(after) && h <= after
        invariant |tried| == |at| == i
        invariant forall k :: 0 <= k < i ==> |h| <= at[k] && Decided(pools[k], ttl, after, at[k], tried[k])
      {
        ghost var before := after;
        var attempt;
        attempt, after := HandlePool(pools[i], ttl, before);
        forall k | 0 <= k < i ensures Decided(pools[k], ttl, after, at[k], tried[k]) {
          StillDecided(pools[k], ttl, before, after, at[k], tried[k]);
        }
        tried, at := tried + [attempt], at + [|before|];
      }
    }
  }

  /** The pool's run of empty sightings began by `limit`. */
  ghost predicate LongEmpty(h: seq<Event>, key: string, limit: int)
  {
    exists i :: StreakStart(h, key, i) && h[i].at <= limit
  }

  lemma OneStreak(h: seq<Event>, key: string, i: int, j: int)
    requires StreakStart(h, key, i) && StreakStart(h, key, j)
    ensures i == j
  {
    assert EmptySince(h, key, i) && EmptySince(h, key, j);
  }

  lemma DueIsLongEmpty(h: seq<Event>, key: string, limit: int)
    ensures LongEmpty(h, key, limit) <==> key in After(h) && After(h)[key] <= limit
  {
    TrackedFromStreakStart(h, key);
    if key in After(h) {
      var i :| StreakStart(h, key, i) && After(h)[key] == h[i].at;
      forall j | StreakStart(h, key, j) ensures j == i { OneStreak(h, key, i, j); }
    }
  }

  /** The pool was handled at event n, and tried exactly when it should be. */
  ghost predicate Decided(pool: Listed, ttl: int, h: seq<Event>, n: nat, tried: bool)
  {
    if !pool.own then !tried
    else
      && n < |h| && h[n] == Seen(pool.key, pool.empty, pool.now)
      && (tried <==> pool.empty && pool.allowed && LongEmpty(h[..n], pool.key, pool.later - ttl))
  }

  ghost function AddEvent(h: seq<Event>, e: Event): (r: seq<Event>)
    ensures r == h + [e] && After(r) == Track(After(h), e)
  {
    assert (h + [e])[..|h|] == h;
    h + [e]
  }

  lemma DecidedNow(pool: Listed, ttl: int, before: seq<Event>, h: seq<Event>, tried: bool)
    requires pool.own && h == before + [Seen(pool.key, pool.empty, pool.now)]
    requires tried <==> pool.empty && pool.allowed && LongEmpty(before, pool.key, pool.later - ttl)
    ensures Decided(pool, ttl, h, |before|, tried)
  {
    assert h[..|before|] == before;
  }

  /** Later events do not change what was decided. */
  lemma StillDecided(pool: Listed, ttl: int, before: seq<Event>, h: seq<Event>, n: nat, tried: bool)
    requires before <= h && Decided(pool, ttl, before, n, tried)
    ensures Decided(pool, ttl, h, n, tried)
  {
    if pool.own {
      assert h[..n] == before[..n];
    }
  }
}

/** The per-NodeClass breaker manager. */
module BreakerManager {
  import opened Options
  import opened Breaker

  const CLEANUP_INTERVAL := 1_800_000_000_000
  const UNUSED := 7_200_000_000_000

  /** The breakers by key, and the time of the last cleanup. */
  datatype Fleet = Fleet(breakers: map<string, State>, lastCleanup: int)

  function Key(nodeClass: string, region: string): string
  {
    nodeClass + "-" + region
  }

  /** Closed, or without recent failures, and unchanged for more than two hours. */
  predicate Droppable(c: Config, s: State, now: int)
  {
    (s.mode.Closed? || |Recent(s.failures, now - c.window)| == 0) && s.changed < now - UNUSED
  }

  function Cleaned(c: Config, f: Fleet, now: int): Fleet
  {
    if now - f.lastCleanup < CLEANUP_INTERVAL then f
    else Fleet(map k | k in f.breakers && !Droppable(c, f.breakers[k], now) :: f.breakers[k], now)
  }

  function Ensured(f: Fleet, key: string, now: int): Fleet
    ensures key in Ensured(f, key, now).breakers
  {
    if key in f.breakers then f else f.(breakers := f.breakers[key := New(now)])
  }

  function Put(f: Fleet, key: string, s: State): Fleet
  {
    f.(breakers := f.breakers[key := s])
  }

  function FleetRequest(c: Config, f: Fleet, key: string, now: int): (Fleet, Verdict)
  {
    var g := Ensured(Cleaned(c, f, now), key, now);
    var r := Request(c, g.breakers[key], now);
    (Put(g, key, r.0), r.1)
  }

  function FleetPending(f: Fleet, key: string): Fleet
  {
    if key in f.breakers then Put(f, key, Pending(f.breakers[key])) else f
  }

  function FleetSuccess(f: Fleet, key: string, now: int): Fleet
  {
    if key in f.breakers then Put(f, key, Success(f.breakers[key], now)) else f
  }

  function FleetFailure(c: Config, f: Fleet, key: string, now: int): Fleet
  {
    var g := Ensured(f, key, now);
    Put(g, key, Failure(c, g.breakers[key], now))
  }

  lemma CleanedIsRemoval(c: Config, f: Fleet, now: int, unused: set<string>)
    requires now - f.lastCleanup >= CLEANUP_INTERVAL
    requires forall k :: k in f.breakers ==> (k in unused <==> Droppable(c, f.breakers[k], now))
    ensures Cleaned(c, f, now) == Fleet(f.breakers - unused, now)
  {
    assert f.breakers - unused == Cleaned(c, f, now).breakers;
  }

  lemma FewerValues(m: map<string, CircuitBreaker>, keys: set<string>)
    ensures (m - keys).Values <= m.Values
  {
    forall b | b in (m - keys).Values ensures b in m.Values {
      var k :| k in m - keys && (m - keys)[k] == b;
      assert k in m;
    }
  }

  class Manager {
    const config: Option<Config>
    const fallback: Config
    var breakers: map<string, CircuitBreaker>
    var lastCleanup: int

    ghost predicate Valid()
      reads this
    {
      && (forall k :: k in breakers ==> breakers[k].enabled && Some(breakers[k].config) == config)
      && (forall k, l :: k in breakers && l in breakers && breakers[k] == breakers[l] ==> k == l)
    }

    ghost function View(): Fleet
      reads this, breakers.Values
    {
      Fleet(map k | k in breakers :: breakers[k].View(), lastCleanup)
    }

    constructor (config: Option<Config>, fallback: Config, now: int)
      ensures Valid() && View() == Fleet(map[], now) && this.config == config && fresh(breakers.Values)
    {
      this.config := config;
      this.fallback := fallback;
      breakers := map[];
      lastCleanup := now;
    }

    /** The first loop of the cleanup: the keys whose breakers are unused. */
    method UnusedKeys(now: int) returns (unused: set<string>)
      requires Valid() && config.Some?
      ensures unused <= breakers.Keys
      ensures forall k :: k in breakers ==> (k in unused <==> Droppable(config.value, breakers[k].View(), now))
    {
      unused := {};
      var todo := breakers.Keys;
      while todo != {}
        invariant todo <= breakers.Keys && unused <= breakers.Keys - todo
        invariant forall k :: k in breakers && k !in todo ==> (k in unused <==> Droppable(config.value, breakers[k].View(), now))
        decreases |todo|
      {
        var k :| k in todo;
        var recent := breakers[k].RecentFailures(now);
        if (breakers[k].mode.Closed? || recent == 0) && breakers[k].changed < now - UNUSED {
          unused := unused + {k};
        }
        todo := todo - {k};
      }
    }

    /** The second loop: delete the collected keys. */
    method DeleteKeys(keys: set<string>)
      requires Valid()
      modifies this`breakers
      ensures Valid() && breakers.Values <= old(breakers.Values)
      ensures View() == old(View()).(breakers := old(View()).breakers - keys)
    {
      var drop := keys;
      while drop != {}
        invariant drop <= keys
        invariant breakers == old(breakers) - (keys - drop)
        decreases |drop|
      {
        var k :| k in drop;
        breakers := breakers - {k};
        drop := drop - {k};
      }
      FewerValues(old(breakers), keys);
      assert breakers == old(breakers) - keys;
      assert View().breakers == old(View()).breakers - keys;
    }

    /** cleanupUnusedBreakersIfNeeded. */
    method CleanupIfNeeded(now: int)
      requires Valid() && config.Some?
      modifies this
      ensures Valid() && View() == Cleaned(config.value, old(View()), now)
      ensures breakers.Values <= old(breakers.Values)
    {
      if now - lastCleanup < CLEANUP_INTERVAL {
        return;
      }
      lastCleanup := now;
      var unused := UnusedKeys(now);
      DeleteKeys(unused);
      CleanedIsRemoval(config.value, old(View()), now, unused);
    }

    /** Get or create the breaker of a key. */
    method Ensure(key: string, now: int)
      requires Valid() && config.Some?
      modifies this
      ensures Valid() && key in breakers && View() == Ensured(old(View()), key, now)
      ensures fresh(breakers.Values - old(breakers.Values)) && lastCleanup == old(lastCleanup)
    {
      if key !in breakers {
        var b := new CircuitBreaker(config, fallback, now);
        breakers := breakers[key := b];
        assert View().breakers == Ensured(old(View()), key, now).breakers;
      }
    }

    method CanProvision(nodeClass: string, region: string, now: int) returns (v: Verdict)
      requires Valid()
      modifies this, breakers.Values
      ensures Valid()
      ensures config.None? ==> v == Admit && View() == old(View())
      ensures config.Some? ==> (View(), v) == FleetRequest(config.value, old(View()), Key(nodeClass, region), now)
      ensures fresh(breakers.Values - old(breakers.Values))
    {
      if config.None? {
        return Admit;
      }
      CleanupIfNeeded(now);
      var key := Key(nodeClass, region);
      Ensure(key, now);
      ghost var g := View();
      v := breakers[key].CanProvision(now);
      assert View().breakers == g.breakers[key := Request(config.value, g.breakers[key], now).0];
    }

    /** The locked lookup with which RecordPending and RecordSuccess begin. */
    method Find(nodeClass: string, region: string) returns (b: Option<CircuitBreaker>)
      ensures b == if config.Some? && Key(nodeClass, region) in breakers then Some(breakers[Key(nodeClass, region)]) else None
    {
      var key := Key(nodeClass, region);
      b := if config.Some? && key in breakers then Some(breakers[key]) else None;
    }

    /** What an outcome recorded on `b` outside the lock does: `b` may have been discarded or replaced since its lookup. */
    method LandPending(b: CircuitBreaker)
      requires Valid()
      modifies b
      ensures Valid() && View().lastCleanup == old(View()).lastCleanup && breakers == old(breakers)
      ensures b.View() == Pending(old(b.View()))
      ensures forall k :: k in breakers ==>
                View().breakers[k] == if breakers[k] == b then Pending(old(View()).breakers[k]) else old(View()).breakers[k]
    {
      b.RecordPending();
    }

    method LandSuccess(b: CircuitBreaker, now: int)
      requires Valid() && b.enabled
      modifies b
      ensures Valid() && View().lastCleanup == old(View()).lastCleanup && breakers == old(breakers)
      ensures b.View() == Success(old(b.View()), now)
      ensures forall k :: k in breakers ==>
                View().breakers[k] == if breakers[k] == b then Success(old(View()).breakers[k], now) else old(View()).breakers[k]
    {
      b.RecordSuccess(now);
    }

    /** Both steps with nothing in between. */
    method RecordPending(nodeClass: string, region: string)
      requires Valid()
      modifies breakers.Values
      ensures Valid()
      ensures View() == if config.None? then old(View()) else FleetPending(old(View()), Key(nodeClass, region))
    {
      var b := Find(nodeClass, region);
      if b.Some? {
        LandPending(b.value);
        assert View().breakers == FleetPending(old(View()), Key(nodeClass, region)).breakers;
      }
    }

    method RecordSuccess(nodeClass: string, region: string, now: int)
      requires Valid()
      modifies breakers.Values
      ensures Valid()
      ensures View() == if config.None? then old(View()) else FleetSuccess(old(View()), Key(nodeClass, region), now)
    {
      var b := Find(nodeClass, region);
      if b.Some? {
        LandSuccess(b.value, now);
        assert View().breakers == FleetSuccess(old(View()), Key(nodeClass, region), now).breakers;
      }
    }

    method RecordFailure(nodeClass: string, region: string, now: int)
      requires Valid()
      modifies this, breakers.Values
      ensures Valid()
      ensures View() == if config.None? then old(View()) else FleetFailure(config.value, old(View()), Key(nodeClass, region), now)
    {
      if config.Some? {
        var key := Key(nodeClass, region);
        Ensure(key, now);
        ghost var g := View();
        breakers[key].RecordFailure(now);
        assert View().breakers == g.breakers[key := Failure(config.value, g.breakers[key], now)];
      }
    }

    /** ResetNodeClass replaces the breaker of a known key. */
    method ResetNodeClass(nodeClass: string, region: string, now: int) returns (ok: bool)
      requires Valid()
      modifies this
      ensures Valid()
      ensures ok == (config.Some? && Key(nodeClass, region) in old(breakers))
      ensures View() == if ok then Put(old(View()), Key(nodeClass, region), New(now)) else old(View())
    {
      var key := Key(nodeClass, region);
      ok := config.Some? && key in breakers;
      if ok {
        var b := new CircuitBreaker(config, fallback, now);
        breakers := breakers[key := b];
        assert View().breakers == Put(old(View()), key, New(now)).breakers;
      }
    }
  }
}

/** The admit-and-record part of CloudProvider.Create. */
module Provisioning {
  import opened Breaker
  import opened BreakerManager
  import opened BreakerRuns

  /** How the attempt behind an admission ends; Interrupted is a panic or an early return. */
  datatype Attempt = NoProvider | Interrupted | Provisioning | Failing | Launched

  /** What the fleet records for an attempt. */
  function Recorded(c: Config, f: Fleet, key: string, a: Attempt, now: int): Fleet
  {
    match a
    case Provisioning => FleetPending(f, key)
    case Launched => FleetSuccess(f, key, now)
    case _ => FleetFailure(c, f, key, now)
  }

  /** The attempt ends without an instance and without one being on its way. */
  predicate Failed(a: Attempt)
  {
    a == NoProvider || a == Interrupted || a == Failing
  }

  /** Only the key's breaker changes. A breaker that was there loses one create in flight. */
  ghost predicate OnlyKey(f: Fleet, g: Fleet, key: string)
  {
    && g.lastCleanup == f.lastCleanup
    && (forall k :: k != key ==> (k in g.breakers <==> k in f.breakers) && (k in f.breakers ==> g.breakers[k] == f.breakers[k]))
    && (key in f.breakers ==>
          && key in g.breakers
          && g.breakers[key].concurrent == if f.breakers[key].concurrent > 0 then f.breakers[key].concurrent - 1 else 0)
  }

  /**
   * What an outcome means to the key's breaker. A failed attempt is among its failures, and opens it if half open; an
   * instance still on its way changes neither failures nor mode; an instance launched closes it if half open.
   */
  ghost predicate Told(f: Fleet, g: Fleet, key: string, a: Attempt, now: int)
  {
    && OnlyKey(f, g, key)
    && (Failed(a) ==>
          && key in g.breakers && now in g.breakers[key].failures
          && (key in f.breakers && f.breakers[key].mode.HalfOpen? ==> g.breakers[key].mode.Open?))
    && (!Failed(a) ==>
          && (key in g.breakers <==> key in f.breakers)
          && (key in f.breakers ==>
                && g.breakers[key].failures == f.breakers[key].failures
                && g.breakers[key].mode == if a.Launched? && f.breakers[key].mode.HalfOpen? then Closed else f.breakers[key].mode))
  }

  lemma RecordedIsTold(c: Config, f: Fleet, key: string, a: Attempt, now: int)
    requires c.window > 0
    ensures Told(f, Recorded(c, f, key, a, now), key, a, now)
  {
    if Failed(a) {
      var s := Ensured(f, key, now).breakers[key];
      RecentAppend(s.failures, now, now - c.window);
    }
  }

  /**
   * The second half of an admitted attempt, from whatever state other attempts have left the manager in: exactly one
   * outcome is recorded, on each return path and on a panic.
   */
  method Conclude(m: Manager, nodeClass: string, region: string, a: Attempt, done: int) returns (records: nat)
    requires m.Valid()
    modifies m, m.breakers.Values
    ensures m.Valid() && records == 1
    ensures m.config.Some? ==> m.View() == Recorded(m.config.value, old(m.View()), Key(nodeClass, region), a, done)
    ensures m.config.Some? && m.config.value.window > 0 ==> Told(old(m.View()), m.View(), Key(nodeClass, region), a, done)
  {
    records := 0;
    var recorded := false;
    match a {
      case NoProvider =>
        m.RecordFailure(nodeClass, region, done);
        records := records + 1;
        recorded := true;
      case Interrupted =>
      case Provisioning =>
        m.RecordPending(nodeClass, region);
        records := records + 1;
        recorded := true;
      case Failing =>
        m.RecordFailure(nodeClass, region, done);
        records := records + 1;
        recorded := true;
      case Launched =>
        m.RecordSuccess(nodeClass, region, done);
        records := records + 1;
        recorded := true;
    }
    // The deferred call.
    if !recorded {
      m.RecordFailure(nodeClass, region, done);
      records := records + 1;
    }
    if m.config.Some? && m.config.value.window > 0 {
      RecordedIsTold(m.config.value, old(m.View()), Key(nodeClass, region), a, done);
    }
  }

  /** A whole attempt that nobody interrupts: a refused one records nothing. */
  method Create(m: Manager, nodeClass: string, region: string, a: Attempt, asked: int, done: int)
    returns (v: Verdict, records: nat)
    requires m.Valid()
    modifies m, m.breakers.Values
    ensures m.Valid()
    ensures records == if v.Admit? then 1 else 0
    ensures m.config.Some? ==>
              var r := FleetRequest(m.config.value, old(m.View()), Key(nodeClass, region), asked);
              && v == r.1
              && m.View() == (if v.Admit? then Recorded(m.config.value, r.0, Key(nodeClass, region), a, done) else r.0)
              && (v.Admit? && m.config.value.window > 0 ==> Told(r.0, m.View(), Key(nodeClass, region), a, done))
  {
    v := m.CanProvision(nodeClass, region, asked);
    if !v.Admit? {
      return v, 0;
    }
    records := Conclude(m, nodeClass, region, a, done);
  }

  // ---- failures add up ------------------------------------------------------------------------------------

  /** An attempt for a key and the moment it was concluded. */
  datatype Conclusion = Conclusion(key: string, attempt: Attempt, at: int)

  function Concluded(c: Config, f: Fleet, cs: seq<Conclusion>): Fleet
  {
    if cs == [] then f
    else
      var last := cs[|cs|-1];
      Recorded(c, Concluded(c, f, cs[..|cs|-1]), last.key, last.attempt, last.at)
  }

  predicate InOrder(cs: seq<Conclusion>)
  {
    forall i, j :: 0 <= i < j < |cs| ==> cs[i].at <= cs[j].at
  }

  /** When the failed attempts of a key were concluded. */
  function FailedAt(cs: seq<Conclusion>, key: string): seq<int>
  {
    if cs == [] then []
    else
      var last := cs[|cs|-1];
      FailedAt(cs[..|cs|-1], key) + if last.key == key && Failed(last.attempt) then [last.at] else []
  }

  function FailuresOf(f: Fleet, key: string): seq<int>
  {
    if key in f.breakers then f.breakers[key].failures else []
  }

  lemma FailureIsAdded(c: Config, f: Fleet, x: Conclusion, g: Fleet, key: string)
    requires g == Recorded(c, f, x.key, x.attempt, x.at)
    ensures FailuresOf(g, key) ==
            if x.key == key && Failed(x.attempt) then Recent(FailuresOf(f, key) + [x.at], x.at - c.window) else FailuresOf(f, key)
  {
  }

  lemma RecentStep(all: seq<int>, history: seq<int>, x: int, window: int, now: int)
    requires x <= now && Recent(all, now - window) == Recent(history, now - window)
    ensures Recent(Recent(all + [x], x - window), now - window) == Recent(history + [x], now - window)
  {
    RecentRecent(all + [x], |all| + 1, x - window, now - window);
    RecentAppend(all, x, now - window);
    RecentAppend(history, x, now - window);
  }

  /** The failures a breaker keeps, each time pruned to the window. */
  function Kept(window: int, before: seq<int>, cs: seq<Conclusion>, key: string): seq<int>
  {
    if cs == [] then before
    else
      var last, kept := cs[|cs|-1], Kept(window, before, cs[..|cs|-1], key);
      if last.key == key && Failed(last.attempt) then Recent(kept + [last.at], last.at - window) else kept
  }

  lemma {:induction false} FailuresAreKept(c: Config, f: Fleet, cs: seq<Conclusion>, key: string)
    ensures FailuresOf(Concluded(c, f, cs), key) == Kept(c.window, FailuresOf(f, key), cs, key)
  {
    if cs != [] {
      var front := cs[..|cs|-1];
      FailuresAreKept(c, f, front, key);
      FailureIsAdded(c, Concluded(c, f, front), cs[|cs|-1], Concluded(c, f, cs), key);
    }
  }

  /** However often the list is pruned, no recent failure is forgotten or invented. */
  lemma {:induction false} KeptIsComplete(window: int, before: seq<int>, cs: seq<Conclusion>, key: string, now: int)
    requires forall i :: 0 <= i < |cs| ==> cs[i].at <= now
    ensures Recent(Kept(window, before, cs, key), now - window) == Recent(before + FailedAt(cs, key), now - window)
  {
    if cs == [] {
      assert before + [] == before;
    } else {
      var front, x := cs[..|cs|-1], cs[|cs|-1];
      KeptIsComplete(window, before, front, key, now);
      if x.key == key && Failed(x.attempt) {
        RecentStep(Kept(window, before, front, key), before + FailedAt(front, key), x.at, window, now);
        assert before + FailedAt(cs, key) == before + FailedAt(front, key) + [x.at];
      } else {
        assert FailedAt(cs, key) == FailedAt(front, key);
      }
    }
  }

  /** Whatever attempts of whatever keys are concluded: the recent failures of a key are those of its failed attempts. */
  lemma FailuresAddUp(c: Config, f: Fleet, cs: seq<Conclusion>, key: string, now: int)
    requires forall i :: 0 <= i < |cs| ==> cs[i].at <= now
    ensures Recent(FailuresOf(Concluded(c, f, cs), key), now - c.window) ==
            Recent(FailuresOf(f, key) + FailedAt(cs, key), now - c.window)
  {
    FailuresAreKept(c, f, cs, key);
    KeptIsComplete(c.window, FailuresOf(f, key), cs, key, now);
  }

  /** A failed attempt that makes it `threshold` failures of the key in the window leaves its breaker open. */
  lemma EnoughFailuresOpen(c: Config, f: Fleet, cs: seq<Conclusion>)
    requires cs != [] && InOrder(cs) && Failed(cs[|cs|-1].attempt)
    requires var last := cs[|cs|-1]; |Recent(FailedAt(cs, last.key), last.at - c.window)| >= c.threshold
    ensures var g := Concluded(c, f, cs); cs[|cs|-1].key in g.breakers && g.breakers[cs[|cs|-1].key].mode.Open?
  {
    var front, x := cs[..|cs|-1], cs[|cs|-1];
    var before := FailuresOf(f, x.key);
    FailuresAddUp(c, f, cs, x.key, x.at);
    RecentJoin(before, FailedAt(cs, x.key), |FailedAt(cs, x.key)|, x.at - c.window);
    assert FailedAt(cs, x.key)[..|FailedAt(cs, x.key)|] == FailedAt(cs, x.key);
    var g := Concluded(c, f, front);
    var s := Ensured(g, x.key, x.at).breakers[x.key];
    var kept := Recent(s.failures + [x.at], x.at - c.window);
    assert FailuresOf(Concluded(c, f, cs), x.key) == kept;
  }

  lemma {:induction false} RecentJoin(a: seq<int>, b: seq<int>, n: nat, cutoff: int)
    requires n <= |b|
    ensures Recent(a + b[..n], cutoff) == Recent(a, cutoff) + Recent(b[..n], cutoff)
  {
    if n == 0 {
      assert a + b[..0] == a;
    } else {
      RecentJoin(a, b, n - 1, cutoff);
      assert b[..n] == b[..n-1] + [b[n-1]] && a + b[..n] == a + b[..n-1] + [b[n-1]];
      RecentAppend(a + b[..n-1], b[n-1], cutoff);
      RecentAppend(b[..n-1], b[n-1], cutoff);
    }
  }

  /** In particular `threshold` failed attempts of one key in a row, inside the window, whatever the breaker was before. */
  lemma ThresholdInARowOpens(c: Config, f: Fleet, cs: seq<Conclusion>, key: string)
    requires cs != [] && |cs| >= c.threshold && InOrder(cs)
    requires forall i :: 0 <= i < |cs| ==> cs[i].key == key && Failed(cs[i].attempt) && cs[i].at > cs[|cs|-1].at - c.window
    ensures var g := Concluded(c, f, cs); key in g.breakers && g.breakers[key].mode.Open?
  {
    AllFailed(cs, |cs|, key, cs[|cs|-1].at - c.window);
    assert cs[..|cs|] == cs;
    EnoughFailuresOpen(c, f, cs);
  }

  lemma {:induction false} AllFailed(cs: seq<Conclusion>, n: nat, key: string, cutoff: int)
    requires n <= |cs| && forall i :: 0 <= i < |cs| ==> cs[i].key == key && Failed(cs[i].attempt) && cs[i].at > cutoff
    ensures |Recent(FailedAt(cs[..n], key), cutoff)| == n
  {
    if n > 0 {
      assert cs[..n][..n-1] == cs[..n-1];
      AllFailed(cs, n - 1, key, cutoff);
      RecentAppend(FailedAt(cs[..n-1], key), cs[n-1].at, cutoff);
    }
  }
}

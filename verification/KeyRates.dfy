/** How much of one key a minute can admit, and for which configurations. */
module KeyRates {
  import opened Options
  import opened Breaker
  import opened BreakerRuns
  import opened BreakerManager
  import opened FleetRuns
  import opened KeyRuns

  // ---- bursts ---------------------------------------------------------------------------------------

  /** No create of `k` is recorded as failed. */
  predicate NoFailures(es: seq<FleetEvent>, k: string)
  {
    forall i :: 0 <= i < |es| ==> !(es[i].key == k && es[i].op.Fail?)
  }

  /** n requests at one moment, each succeeding at once. */
  function KeyBurst(pre: seq<FleetEvent>, t: int, n: nat, k: string): seq<FleetEvent>
  {
    if n == 0 then pre else KeyBurst(pre, t, n - 1, k) + [FleetEvent(t, k, Ask)] + [FleetEvent(t, k, Succeed)]
  }

  lemma {:induction false} BurstFailsNot(pre: seq<FleetEvent>, t: int, n: nat, k: string)
    requires NoFailures(pre, k)
    ensures NoFailures(KeyBurst(pre, t, n, k), k)
  {
    if n > 0 {
      BurstFailsNot(pre, t, n - 1, k);
    }
  }

  /** The breaker a request at t would find. */
  function Ready(f: Fleet, k: string, t: int): State
  {
    ResetMinute(if k in f.breakers then f.breakers[k] else New(t), t)
  }

  predicate CanBurst(c: Config, f: Fleet, k: string, t: int, n: nat)
  {
    var s := Ready(f, k, t);
    t - f.lastCleanup < CLEANUP_INTERVAL && s.mode.Closed? && s.concurrent == 0 && s.minute + n <= c.rate
  }

  lemma KeyAskAndSucceed(c: Config, f: Fleet, k: string, t: int)
    requires ValidConfig(c) && CanBurst(c, f, k, t, 1)
    ensures KeyAdmitted(c, f, FleetEvent(t, k, Ask), k)
    ensures var g := FleetStep(c, FleetStep(c, f, FleetEvent(t, k, Ask)), FleetEvent(t, k, Succeed));
            k in g.breakers && g.breakers[k] == Ready(f, k, t).(minute := Ready(f, k, t).minute + 1) && g.lastCleanup == f.lastCleanup
  {
  }

  /** `es` goes on from `pre` with n more admissions at t and is ready for another. */
  ghost predicate Burst(c: Config, pre: seq<FleetEvent>, es: seq<FleetEvent>, t: int, n: nat, k: string, a: int)
  {
    var f, g := FleetRun(c, Start(0), pre), FleetRun(c, Start(0), es);
    && FleetMonotone(0, es) && FleetLast(0, es) <= t && g.lastCleanup == f.lastCleanup
    && Ready(g, k, t) == Ready(f, k, t).(minute := Ready(f, k, t).minute + n)
    && (n > 0 ==> k in g.breakers && g.breakers[k] == Ready(g, k, t))
    && KeyAdmissions(c, 0, es, k, a) == KeyAdmissions(c, 0, pre, k, a) + n
  }

  lemma OnePair(c: Config, es: seq<FleetEvent>, t: int, k: string, a: int)
    requires ValidConfig(c) && FleetMonotone(0, es) && FleetLast(0, es) <= t && a <= t < a + MINUTE
    requires CanBurst(c, FleetRun(c, Start(0), es), k, t, 1)
    ensures var more := es + [FleetEvent(t, k, Ask)] + [FleetEvent(t, k, Succeed)];
            var f, g := FleetRun(c, Start(0), es), FleetRun(c, Start(0), more);
            && FleetMonotone(0, more) && FleetLast(0, more) == t && g.lastCleanup == f.lastCleanup
            && k in g.breakers && g.breakers[k] == Ready(f, k, t).(minute := Ready(f, k, t).minute + 1)
            && KeyAdmissions(c, 0, more, k, a) == KeyAdmissions(c, 0, es, k, a) + 1
  {
    FleetSnoc(c, 0, es, FleetEvent(t, k, Ask), k, a);
    FleetSnoc(c, 0, es + [FleetEvent(t, k, Ask)], FleetEvent(t, k, Succeed), k, a);
    KeyAskAndSucceed(c, FleetRun(c, Start(0), es), k, t);
  }

  lemma OneMore(f: Fleet, g: Fleet, k: string, t: int)
    requires k in g.breakers && g.breakers[k] == Ready(f, k, t).(minute := Ready(f, k, t).minute + 1)
    ensures Ready(g, k, t) == g.breakers[k]
  {
  }

  lemma BurstGrows(c: Config, pre: seq<FleetEvent>, es: seq<FleetEvent>, t: int, n: nat, k: string, a: int)
    requires ValidConfig(c) && a <= t < a + MINUTE && Burst(c, pre, es, t, n, k, a)
    requires CanBurst(c, FleetRun(c, Start(0), pre), k, t, n + 1)
    ensures Burst(c, pre, es + [FleetEvent(t, k, Ask)] + [FleetEvent(t, k, Succeed)], t, n + 1, k, a)
  {
    OnePair(c, es, t, k, a);
    OneMore(FleetRun(c, Start(0), es), FleetRun(c, Start(0), es + [FleetEvent(t, k, Ask)] + [FleetEvent(t, k, Succeed)]), k, t);
  }

  lemma {:induction false} KeyBurstAdmits(c: Config, pre: seq<FleetEvent>, t: int, n: nat, k: string, a: int)
    requires ValidConfig(c) && FleetMonotone(0, pre) && FleetLast(0, pre) <= t && a <= t < a + MINUTE
    requires CanBurst(c, FleetRun(c, Start(0), pre), k, t, n)
    ensures Burst(c, pre, KeyBurst(pre, t, n, k), t, n, k, a)
  {
    if n > 0 {
      KeyBurstAdmits(c, pre, t, n - 1, k, a);
      BurstGrows(c, pre, KeyBurst(pre, t, n - 1, k), t, n - 1, k, a);
    }
  }

  /** A run that has admitted n requests in the minute from `a` and leaves `k` this breaker. */
  ghost predicate Held(c: Config, es: seq<FleetEvent>, k: string, s: State, cleaned: int, t: int, n: nat, a: int)
  {
    var f := FleetRun(c, Start(0), es);
    && FleetMonotone(0, es) && FleetLast(0, es) <= t && NoFailures(es, k) && KeyAdmissions(c, 0, es, k, a) == n
    && f.lastCleanup == cleaned && k in f.breakers && f.breakers[k] == s
  }

  ghost predicate Standing(c: Config, es: seq<FleetEvent>, k: string, s: State, cleaned: int, t: int, a: int)
  {
    Held(c, es, k, s, cleaned, t, 0, a)
  }

  /** A closed, unfailed breaker made at 0. */
  function Plain(concurrent: nat, minute: nat, began: int): State
  {
    State(Closed, [], 0, 0, concurrent, minute, began)
  }

  /** n more requests in the minute the breaker is in. */
  lemma BurstsOn(c: Config, es: seq<FleetEvent>, k: string, m: nat, began: int, cleaned: int, t: int, at: int, n: nat, total: nat, a: int)
    returns (more: seq<FleetEvent>)
    requires ValidConfig(c) && Held(c, es, k, Plain(0, m, began), cleaned, t, total, a) && t <= at && a <= at < a + MINUTE
    requires at - cleaned < CLEANUP_INTERVAL && at - began < MINUTE && m + n <= c.rate
    ensures Held(c, more, k, Plain(0, m + n, began), cleaned, at, total + n, a)
  {
    assert Ready(FleetRun(c, Start(0), es), k, at) == Plain(0, m, began);
    KeyBurstAdmits(c, es, at, n, k, a);
    BurstFailsNot(es, at, n, k);
    more := KeyBurst(es, at, n, k);
  }

  /** A full minute's requests once the breaker's minute is over. */
  lemma BurstsAnew(c: Config, es: seq<FleetEvent>, k: string, m: nat, began: int, cleaned: int, t: int, at: int, total: nat, a: int)
    returns (more: seq<FleetEvent>)
    requires ValidConfig(c) && Held(c, es, k, Plain(0, m, began), cleaned, t, total, a) && t <= at && a <= at < a + MINUTE
    requires at - cleaned < CLEANUP_INTERVAL && at - began >= MINUTE
    ensures Held(c, more, k, Plain(0, c.rate, at), cleaned, at, total + c.rate, a)
  {
    assert Ready(FleetRun(c, Start(0), es), k, at) == Plain(0, 0, at);
    KeyBurstAdmits(c, es, at, c.rate, k, a);
    BurstFailsNot(es, at, c.rate, k);
    more := KeyBurst(es, at, c.rate, k);
  }

  /** A full minute's requests on the breaker that follows a discarded one. */
  lemma BurstsRenewed(c: Config, es: seq<FleetEvent>, k: string, other: string, m: nat, began: int, cleaned: int, t: int,
                      at: int, total: nat, a: int)
    returns (more: seq<FleetEvent>)
    requires ValidConfig(c) && k != other && Held(c, es, k, Plain(0, m, began), cleaned, t, total, a) && t <= at
    requires a <= at < a + MINUTE && at - cleaned >= CLEANUP_INTERVAL && at > UNUSED
    ensures FleetMonotone(0, more) && NoFailures(more, k) && KeyAdmissions(c, 0, more, k, a) == total + c.rate
  {
    var e := FleetEvent(at, other, Ask);
    FleetSnoc(c, 0, es, e, k, a);
    OthersUntouched(c, FleetRun(c, Start(0), es), e, k);
    CleanupMoves(c, FleetRun(c, Start(0), es), e);
    KeyBurstAdmits(c, es + [e], at, c.rate, k, a);
    BurstFailsNot(es + [e], at, c.rate, k);
    more := KeyBurst(es + [e], at, c.rate, k);
  }

  /**
   * A closed breaker last changed at 0 whose minute began a minute before d, and a cleanup that falls due a tick after
   * d: three bursts, the last on a new breaker, fit into the minute that begins a tick before d.
   */
  lemma ThreeBursts(c: Config, pre: seq<FleetEvent>, d: int, used: nat, k: string, other: string) returns (es: seq<FleetEvent>)
    requires ValidConfig(c) && k != other && used <= c.rate && UNUSED <= d
    requires Standing(c, pre, k, Plain(0, used, d - MINUTE), d + 1 - CLEANUP_INTERVAL, d - MINUTE, d - 1)
    ensures FleetMonotone(0, es) && NoFailures(es, k) && KeyAdmissions(c, 0, es, k, d - 1) == 3 * c.rate - used
  {
    var cleaned, n, a := d + 1 - CLEANUP_INTERVAL, c.rate - used, d - 1;
    es := BurstsOn(c, pre, k, used, d - MINUTE, cleaned, d - MINUTE, d - 1, n, 0, a);
    es := BurstsAnew(c, es, k, c.rate, d - MINUTE, cleaned, d - 1, d, n, a);
    es := BurstsRenewed(c, es, k, other, c.rate, d, cleaned, d, d + 1, n + c.rate, a);
  }

  lemma StandsAsked(c: Config, es: seq<FleetEvent>, k: string, s: State, cleaned: int, t: int, at: int, a: int)
    requires ValidConfig(c) && Standing(c, es, k, s, cleaned, t, a) && t <= at < a && at - cleaned < CLEANUP_INTERVAL
    ensures Standing(c, es + [FleetEvent(at, k, Ask)], k, Request(c, s, at).0, cleaned, at, a)
  {
    var e := FleetEvent(at, k, Ask);
    FleetSnoc(c, 0, es, e, k, a);
    OwnEntry(c, FleetRun(c, Start(0), es), e, k);
    CleanupMoves(c, FleetRun(c, Start(0), es), e);
  }

  lemma StandsSucceeded(c: Config, es: seq<FleetEvent>, k: string, s: State, cleaned: int, t: int, at: int, a: int)
    requires Standing(c, es, k, s, cleaned, t, a) && t <= at
    ensures Standing(c, es + [FleetEvent(at, k, Succeed)], k, Success(s, at), cleaned, at, a)
  {
    var e := FleetEvent(at, k, Succeed);
    FleetSnoc(c, 0, es, e, k, a);
    OwnEntry(c, FleetRun(c, Start(0), es), e, k);
    CleanupMoves(c, FleetRun(c, Start(0), es), e);
  }

  /** Another key's request cleans up when that is due, and spares a breaker not yet two hours old. */
  lemma StandsAside(c: Config, es: seq<FleetEvent>, k: string, other: string, s: State, cleaned: int, t: int, at: int, a: int)
    requires k != other && Standing(c, es, k, s, cleaned, t, a) && t <= at
    requires at - cleaned < CLEANUP_INTERVAL || at - UNUSED <= s.changed
    ensures Standing(c, es + [FleetEvent(at, other, Ask)], k, s, if at - cleaned >= CLEANUP_INTERVAL then at else cleaned, at, a)
  {
    var e := FleetEvent(at, other, Ask);
    FleetSnoc(c, 0, es, e, k, a);
    OthersUntouched(c, FleetRun(c, Start(0), es), e, k);
    CleanupMoves(c, FleetRun(c, Start(0), es), e);
  }

  /** The first request makes the breaker. */
  lemma StandsUp(c: Config, k: string, a: int)
    requires ValidConfig(c) && a > 0
    ensures Standing(c, [FleetEvent(0, k, Ask)], k, Plain(1, 1, 0), 0, 0, a)
  {
    var e := FleetEvent(0, k, Ask);
    assert NoFailures([e], k);
    FleetSnoc(c, 0, [], e, k, a);
    assert [] + [e] == [e];
    OwnEntry(c, Start(0), e, k);
    CleanupMoves(c, Start(0), e);
  }

  const D := UNUSED + CLEANUP_INTERVAL - 1

  /** Every configuration has a run that comes within one of three times the limit. */
  lemma AlmostThreeTimes(c: Config, k: string, other: string) returns (es: seq<FleetEvent>)
    requires ValidConfig(c) && k != other
    ensures FleetMonotone(0, es) && NoFailures(es, k) && KeyAdmissions(c, 0, es, k, D - 1) == 3 * c.rate - 1
  {
    var a := D - 1;
    es := [FleetEvent(0, k, Ask)];
    StandsUp(c, k, a);
    StandsSucceeded(c, es, k, Plain(1, 1, 0), 0, 0, 0, a);
    es := es + [FleetEvent(0, k, Succeed)];
    StandsAside(c, es, k, other, Plain(0, 1, 0), 0, 0, UNUSED, a);
    es := es + [FleetEvent(UNUSED, other, Ask)];
    StandsAsked(c, es, k, Plain(0, 1, 0), UNUSED, UNUSED, D - MINUTE, a);
    es := es + [FleetEvent(D - MINUTE, k, Ask)];
    StandsSucceeded(c, es, k, Plain(1, 1, D - MINUTE), UNUSED, D - MINUTE, D - MINUTE, a);
    es := es + [FleetEvent(D - MINUTE, k, Succeed)];
    es := ThreeBursts(c, es, D, 1, k, other);
  }

  // ---- filling a breaker before its minute begins ---------------------------------------------------

  /** n requests at t, in a minute that began there, none of them concluded. */
  lemma {:induction false} Fills(c: Config, es: seq<FleetEvent>, k: string, q: nat, m: nat, n: nat, cleaned: int, t: int, a: int)
    returns (more: seq<FleetEvent>)
    requires ValidConfig(c) && Standing(c, es, k, Plain(q, m, t), cleaned, t, a) && t < a && t - cleaned < CLEANUP_INTERVAL
    requires m + n <= c.rate && q + n <= c.maxConcurrent
    ensures Standing(c, more, k, Plain(q + n, m + n, t), cleaned, t, a)
    decreases n
  {
    more := es;
    if n > 0 {
      StandsAsked(c, es, k, Plain(q, m, t), cleaned, t, t, a);
      more := Fills(c, es + [FleetEvent(t, k, Ask)], k, q + 1, m + 1, n - 1, cleaned, t, a);
    }
  }

  /** A minute's worth of requests, as far as the breaker has room. */
  lemma FillsMinute(c: Config, es: seq<FleetEvent>, k: string, q: nat, m: nat, began: int, cleaned: int, t: int, a: int)
    returns (more: seq<FleetEvent>, m': nat, began': int)
    requires ValidConfig(c) && Standing(c, es, k, Plain(q, m, began), cleaned, t, a) && t < a && t - cleaned < CLEANUP_INTERVAL
    requires began <= t - MINUTE && q <= c.maxConcurrent
    ensures Standing(c, more, k, Plain(Least(c.maxConcurrent, q + c.rate), m', began'), cleaned, t, a) && began' <= t
  {
    if q == c.maxConcurrent {
      more, m', began' := es, m, began;
    } else {
      StandsAsked(c, es, k, Plain(q, m, began), cleaned, t, t, a);
      var n := Least(c.rate, c.maxConcurrent - q);
      more := Fills(c, es + [FleetEvent(t, k, Ask)], k, q + 1, 1, n - 1, cleaned, t, a);
      m', began' := n, t;
    }
  }

  function Least(x: int, y: int): int
  {
    if x < y then x else y
  }

  /** The last time a cleanup was due when a request comes every minute. */
  function Cleaned(i: nat): int
  {
    i / 30 * CLEANUP_INTERVAL
  }

  const MINUTES := 147

  lemma CleanedNext(i: nat)
    ensures Cleaned(i + 1) == if (i + 1) * MINUTE - Cleaned(i) >= CLEANUP_INTERVAL then (i + 1) * MINUTE else Cleaned(i)
    ensures i < MINUTES && (i + 1) * MINUTE - Cleaned(i) >= CLEANUP_INTERVAL ==> (i + 1) * MINUTE <= UNUSED
  {
  }

  /** Another key's request, which may clean up, and then a minute's worth. */
  lemma FillsAfter(c: Config, es: seq<FleetEvent>, k: string, other: string, q: nat, m: nat, began: int, cleaned: int, t: int, a: int)
    returns (more: seq<FleetEvent>, m': nat, began': int)
    requires ValidConfig(c) && k != other && q <= c.maxConcurrent && t < a && began <= t - MINUTE
    requires Standing(c, es, k, Plain(q, m, began), cleaned, t - MINUTE, a) && (t - cleaned >= CLEANUP_INTERVAL ==> t <= UNUSED)
    ensures Standing(c, more, k, Plain(Least(c.maxConcurrent, q + c.rate), m', began'),
                     if t - cleaned >= CLEANUP_INTERVAL then t else cleaned, t, a)
    ensures began' <= t
  {
    StandsAside(c, es, k, other, Plain(q, m, began), cleaned, t - MINUTE, t, a);
    more, m', began' := FillsMinute(c, es + [FleetEvent(t, other, Ask)], k, q, m, began,
                                    if t - cleaned >= CLEANUP_INTERVAL then t else cleaned, t, a);
  }

  lemma FillsFirst(c: Config, k: string, a: int) returns (es: seq<FleetEvent>, m: nat, began: int)
    requires ValidConfig(c) && a > 0
    ensures Standing(c, es, k, Plain(Least(c.maxConcurrent, c.rate), m, began), 0, 0, a) && began <= 0
  {
    StandsUp(c, k, a);
    m, began := Least(c.maxConcurrent, c.rate), 0;
    es := Fills(c, [FleetEvent(0, k, Ask)], k, 1, 1, m - 1, 0, 0, a);
  }

  /** After i more minutes of requests, with another key asking every minute. */
  lemma {:induction false} FillsUp(c: Config, k: string, other: string, i: nat) returns (es: seq<FleetEvent>, m: nat, began: int)
    requires ValidConfig(c) && k != other && i <= MINUTES
    ensures Standing(c, es, k, Plain(Least(c.maxConcurrent, (i + 1) * c.rate), m, began), Cleaned(i), i * MINUTE, D - 1)
    ensures began <= i * MINUTE
  {
    if i == 0 {
      es, m, began := FillsFirst(c, k, D - 1);
    } else {
      es, m, began := FillsUp(c, k, other, i - 1);
      CleanedNext(i - 1);
      es, m, began := FillsAfter(c, es, k, other, Least(c.maxConcurrent, i * c.rate), m, began, Cleaned(i - 1), i * MINUTE, D - 1);
      GrowsTo(c.maxConcurrent, i, c.rate);
    }
  }

  lemma GrowsTo(most: nat, i: nat, rate: nat)
    ensures Least(most, Least(most, i * rate) + rate) == Least(most, (i + 1) * rate)
  {
  }

  /** n successes at t. */
  lemma {:induction false} Drains(c: Config, es: seq<FleetEvent>, k: string, n: nat, m: nat, cleaned: int, t: int, a: int)
    returns (more: seq<FleetEvent>)
    requires Standing(c, es, k, Plain(n, m, t), cleaned, t, a)
    ensures Standing(c, more, k, Plain(0, m, t), cleaned, t, a)
    decreases n
  {
    more := es;
    if n > 0 {
      StandsSucceeded(c, es, k, Plain(n, m, t), cleaned, t, t, a);
      more := Drains(c, es + [FleetEvent(t, k, Succeed)], k, n - 1, m, cleaned, t, a);
    }
  }

  /**
   * The bound is reached whenever 148 minutes of requests can fill the breaker: a request refused for that begins a
   * minute in which nothing has been admitted yet.
   */
  lemma KeyRateIsSharp(c: Config, k: string, other: string) returns (es: seq<FleetEvent>)
    requires ValidConfig(c) && c.maxConcurrent <= (MINUTES + 1) * c.rate && k != other
    ensures FleetMonotone(0, es) && NoFailures(es, k) && KeyAdmissions(c, 0, es, k, D - 1) == 3 * c.rate
  {
    var m, began;
    es, m, began := FillsUp(c, k, other, MINUTES);
    assert Cleaned(MINUTES) == UNUSED;
    StandsAsked(c, es, k, Plain(c.maxConcurrent, m, began), UNUSED, MINUTES * MINUTE, D - MINUTE, D - 1);
    es := es + [FleetEvent(D - MINUTE, k, Ask)];
    es := Drains(c, es, k, c.maxConcurrent, 0, UNUSED, D - MINUTE, D - 1);
    es := ThreeBursts(c, es, D, 0, k, other);
  }

  // ---- otherwise it is not ---------------------------------------------------------------------------

  /** What a lifetime can leave in flight: the rate for every minute before the current one, and the current one. */
  predicate Filled(c: Config, s: State)
  {
    s.mode.Closed? && s.changed <= s.minuteStart && s.minute <= c.rate
    && s.concurrent <= (s.minuteStart - s.changed) / MINUTE * c.rate + s.minute
  }

  /** The current minute began too late for another one before the breaker is discarded. */
  predicate Late(s: State)
  {
    s.minuteStart >= s.changed + (MINUTES + 2) * MINUTE
  }

  /** n admissions since a, last event at t, d whether discarded in the minute from a. */
  predicate StrictOk(c: Config, s: Option<State>, lastCleanup: int, n: nat, t: int, d: bool, a: int)
  {
    && n < 3 * c.rate && lastCleanup <= t && (d ==> a <= lastCleanup)
    && (s.Some? ==> Filled(c, s.value) && s.value.minuteStart <= t && lastCleanup - UNUSED <= s.value.changed)
    && (t < a ==> n == 0)
    && (t < a + MINUTE && s.None? ==> n <= if d then 2 * c.rate - 1 else 0)
    && (t < a + MINUTE && s.Some? ==>
          if d then s.value.minuteStart >= a && n <= 2 * c.rate - 1 + s.value.minute
          else if s.value.minuteStart < a then n <= s.value.minute && (n == s.value.minute ==> Late(s.value))
          else n <= c.rate - 1 + s.value.minute)
  }

  /** A new minute is a whole one after the last, so there is room for a full rate more. */
  lemma Room(c: Config, s: State, now: int)
    requires c.rate >= 1 && Filled(c, s) && now - s.minuteStart >= MINUTE
    ensures s.concurrent <= (now - s.changed) / MINUTE * c.rate
  {
    var x, y := (s.minuteStart - s.changed) / MINUTE, (now - s.changed) / MINUTE;
    assert x + 1 <= y;
    assert (x + 1) * c.rate <= y * c.rate;
  }

  lemma RequestFills(c: Config, s: State, now: int)
    requires ValidConfig(c) && Filled(c, s) && s.minuteStart <= now
    ensures Filled(c, Request(c, s, now).0) && Request(c, s, now).0.changed == s.changed
  {
    if now - s.minuteStart >= MINUTE {
      Room(c, s, now);
    }
  }

  /** A minute that begins with a refusal begins late. */
  lemma RefusedLate(c: Config, s: State, now: int)
    requires ValidConfig(c) && c.maxConcurrent > (MINUTES + 1) * c.rate && Filled(c, s)
    requires now - s.minuteStart >= MINUTE && !Request(c, s, now).1.Admit?
    ensures Late(Request(c, s, now).0)
  {
    Room(c, s, now);
    var y := (now - s.changed) / MINUTE;
    assert y <= MINUTES + 1 ==> y * c.rate <= (MINUTES + 1) * c.rate;
  }

  lemma OtherStrict(c: Config, f: Fleet, e: FleetEvent, k: string, n: nat, t: int, d: bool, a: int)
    requires ValidConfig(c) && e.key != k && t <= e.at && StrictOk(c, Entry(f, k), f.lastCleanup, n, t, d, a)
    ensures var g := FleetStep(c, f, e);
            StrictOk(c, Entry(g, k), g.lastCleanup, n, e.at, d || (InMinute(e, a) && Discards(c, f, e, k)), a)
  {
    OthersUntouched(c, f, e, k);
    CleanupMoves(c, f, e);
  }

  /** What a request of `k` makes of what was found after the cleanup. */
  lemma AskStrict(c: Config, s: State, now: int, lastCleanup: int, n: nat, t: int, a: int)
    requires ValidConfig(c) && c.maxConcurrent > (MINUTES + 1) * c.rate && t <= now && now - lastCleanup < CLEANUP_INTERVAL
    requires StrictOk(c, Some(s), lastCleanup, n, t, false, a)
    ensures var (g, v) := Request(c, s, now);
            StrictOk(c, Some(g), lastCleanup, n + Count(a <= now < a + MINUTE && v.Admit?), now, false, a)
  {
    RequestFills(c, s, now);
    if now - s.minuteStart >= MINUTE && !Request(c, s, now).1.Admit? {
      RefusedLate(c, s, now);
    }
  }

  lemma NewStrict(c: Config, now: int, lastCleanup: int, n: nat, t: int, d: bool, a: int)
    requires ValidConfig(c) && t <= now && StrictOk(c, None, lastCleanup, n, t, d, a)
    ensures var (g, v) := Request(c, New(now), now);
            StrictOk(c, Some(g), lastCleanup, n + Count(a <= now < a + MINUTE && v.Admit?), now, d, a)
  {
    RequestFills(c, New(now), now);
  }

  /** A breaker that replaced a discarded one stays in its first minute for the rest of the minute from a. */
  lemma AgainStrict(c: Config, s: State, now: int, lastCleanup: int, n: nat, t: int, a: int)
    requires ValidConfig(c) && t <= now && StrictOk(c, Some(s), lastCleanup, n, t, true, a)
    ensures var (g, v) := Request(c, s, now);
            StrictOk(c, Some(g), lastCleanup, n + Count(a <= now < a + MINUTE && v.Admit?), now, true, a)
  {
    RequestFills(c, s, now);
  }

  /** The cleanup that comes before a request. */
  lemma CleanStrict(c: Config, f: Fleet, e: FleetEvent, k: string, n: nat, t: int, d: bool, a: int)
    requires ValidConfig(c) && e.op.Ask? && t <= e.at && StrictOk(c, Entry(f, k), f.lastCleanup, n, t, d, a)
    ensures var cleaned := if e.at - f.lastCleanup >= CLEANUP_INTERVAL then e.at else f.lastCleanup;
            && e.at - cleaned < CLEANUP_INTERVAL
            && StrictOk(c, if Discards(c, f, e, k) then None else Entry(f, k), cleaned, n, e.at,
                        d || (InMinute(e, a) && Discards(c, f, e, k)), a)
  {
  }

  lemma RequestStrict(c: Config, f: Fleet, e: FleetEvent, k: string, n: nat, t: int, d: bool, a: int)
    requires ValidConfig(c) && c.maxConcurrent > (MINUTES + 1) * c.rate && e.key == k && e.op.Ask? && t <= e.at
    requires StrictOk(c, Entry(f, k), f.lastCleanup, n, t, d, a)
    ensures var g := FleetStep(c, f, e);
            StrictOk(c, Entry(g, k), g.lastCleanup, n + Count(InMinute(e, a) && KeyAdmitted(c, f, e, k)), e.at,
                     d || (InMinute(e, a) && Discards(c, f, e, k)), a)
  {
    CleanStrict(c, f, e, k, n, t, d, a);
    OwnEntry(c, f, e, k);
    CleanupMoves(c, f, e);
    CleanedEntry(c, f, e.at, k);
    var cleaned := if e.at - f.lastCleanup >= CLEANUP_INTERVAL then e.at else f.lastCleanup;
    var gone := d || (InMinute(e, a) && Discards(c, f, e, k));
    if Discards(c, f, e, k) || k !in f.breakers {
      assert FleetRequest(c, f, k, e.at).1 == Request(c, New(e.at), e.at).1;
      NewStrict(c, e.at, cleaned, n, e.at, gone, a);
    } else {
      assert FleetRequest(c, f, k, e.at).1 == Request(c, f.breakers[k], e.at).1;
      if gone {
        AgainStrict(c, f.breakers[k], e.at, cleaned, n, e.at, a);
      } else {
        AskStrict(c, f.breakers[k], e.at, cleaned, n, e.at, a);
      }
    }
  }

  lemma OutcomeStrict(c: Config, f: Fleet, e: FleetEvent, k: string, n: nat, t: int, d: bool, a: int)
    requires ValidConfig(c) && e.key == k && (e.op.Pend? || e.op.Succeed?) && t <= e.at
    requires StrictOk(c, Entry(f, k), f.lastCleanup, n, t, d, a)
    ensures var g := FleetStep(c, f, e); StrictOk(c, Entry(g, k), g.lastCleanup, n, e.at, d, a)
  {
    OwnEntry(c, f, e, k);
    CleanupMoves(c, f, e);
  }

  ghost predicate StrictInv(c: Config, start: int, es: seq<FleetEvent>, k: string, a: int)
  {
    var f := FleetRun(c, Start(start), es);
    StrictOk(c, Entry(f, k), f.lastCleanup, KeyAdmissions(c, start, es, k, a), FleetLast(start, es),
             DiscardedIn(c, start, es, k, a), a)
  }

  lemma {:induction false} StrictKept(c: Config, start: int, es: seq<FleetEvent>, k: string, a: int)
    requires ValidConfig(c) && c.maxConcurrent > (MINUTES + 1) * c.rate && FleetMonotone(start, es) && NoFailures(es, k)
    ensures StrictInv(c, start, es, k, a)
  {
    if es != [] {
      var front, e := es[..|es|-1], es[|es|-1];
      StrictKept(c, start, front, k, a);
      var f, n, d := FleetRun(c, Start(start), front), KeyAdmissions(c, start, front, k, a), DiscardedIn(c, start, front, k, a);
      if e.key != k {
        OtherStrict(c, f, e, k, n, FleetLast(start, front), d, a);
      } else if e.op.Ask? {
        RequestStrict(c, f, e, k, n, FleetLast(start, front), d, a);
      } else {
        OutcomeStrict(c, f, e, k, n, FleetLast(start, front), d, a);
      }
    }
  }

  /** Some run without a failed create of `k` admits n requests of `k` in a minute. */
  ghost predicate Attains(c: Config, k: string, n: nat)
  {
    exists es, a :: FleetMonotone(0, es) && NoFailures(es, k) && KeyAdmissions(c, 0, es, k, a) == n
  }

  /**
   * While no create of `k` fails, a minute can admit three times the limit if and only if 148 minutes of requests can
   * fill the breaker; three times the limit less one can always be admitted, and more never.
   */
  lemma MostPerMinute(c: Config, k: string)
    requires ValidConfig(c)
    ensures Attains(c, k, 3 * c.rate - 1)
    ensures Attains(c, k, 3 * c.rate) <==> c.maxConcurrent <= 148 * c.rate
    ensures forall n :: n > 3 * c.rate ==> !Attains(c, k, n)
  {
    var other := k + "-";
    var almost := AlmostThreeTimes(c, k, other);
    if c.maxConcurrent <= (MINUTES + 1) * c.rate {
      var es := KeyRateIsSharp(c, k, other);
    }
    forall es, a | FleetMonotone(0, es) && NoFailures(es, k)
      ensures KeyAdmissions(c, 0, es, k, a) <= 3 * c.rate
      ensures c.maxConcurrent > (MINUTES + 1) * c.rate ==> KeyAdmissions(c, 0, es, k, a) < 3 * c.rate
    {
      KeyRateBound(c, 0, es, k, a);
      if c.maxConcurrent > (MINUTES + 1) * c.rate {
        StrictKept(c, 0, es, k, a);
      }
    }
  }
}

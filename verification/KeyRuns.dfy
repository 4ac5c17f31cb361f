/** One key among all others: its breaker is that of its own events since it was last discarded. */
module KeyRuns {
  import opened Options
  import opened Breaker
  import opened BreakerRuns
  import opened BreakerManager
  import opened FleetRuns

  function Start(t: int): Fleet
  {
    Fleet(map[], t)
  }

  // ---- projection --------------------------------------------------------------------------------

  /** What an event of its own does to a breaker that may not exist yet. */
  function OwnStep(c: Config, s: Option<State>, e: FleetEvent): Option<State>
  {
    match e.op
    case Ask => Some(Request(c, if s.Some? then s.value else New(e.at), e.at).0)
    case Pend => if s.Some? then Some(Pending(s.value)) else None
    case Succeed => if s.Some? then Some(Success(s.value, e.at)) else None
    case Fail => Some(Failure(c, if s.Some? then s.value else New(e.at), e.at))
  }

  /** The breaker of a key that is alone in the world. */
  function Alone(c: Config, es: seq<FleetEvent>): Option<State>
  {
    if es == [] then None else OwnStep(c, Alone(c, es[..|es|-1]), es[|es|-1])
  }

  function OwnEvents(es: seq<FleetEvent>, k: string): seq<FleetEvent>
  {
    if es == [] then []
    else OwnEvents(es[..|es|-1], k) + if es[|es|-1].key == k then [es[|es|-1]] else []
  }

  /** The key's own events since its breaker was last discarded. */
  function SinceDiscard(c: Config, start: int, es: seq<FleetEvent>, k: string): seq<FleetEvent>
  {
    if es == [] then []
    else
      var front, e := es[..|es|-1], es[|es|-1];
      var before := if Discards(c, FleetRun(c, Start(start), front), e, k) then [] else SinceDiscard(c, start, front, k);
      before + if e.key == k then [e] else []
  }

  lemma OwnEntry(c: Config, f: Fleet, e: FleetEvent, k: string)
    requires e.key == k
    ensures Entry(FleetStep(c, f, e), k) == OwnStep(c, if Discards(c, f, e, k) then None else Entry(f, k), e)
  {
    if e.op.Ask? {
      CleanedEntry(c, f, e.at, k);
      RequestEntry(c, f, k, e.at, k);
    }
  }

  /** In every run: nothing of the other keys is left in the breaker of `k`, except when it was discarded. */
  lemma {:induction false} Projection(c: Config, start: int, es: seq<FleetEvent>, k: string)
    ensures Entry(FleetRun(c, Start(start), es), k) == Alone(c, SinceDiscard(c, start, es, k))
  {
    if es != [] {
      var front, e := es[..|es|-1], es[|es|-1];
      var f, own := FleetRun(c, Start(start), front), SinceDiscard(c, start, front, k);
      Projection(c, start, front, k);
      if e.key == k {
        OwnEntry(c, f, e, k);
        assert (own + [e])[..|own + [e]|-1] == own;
        assert [e][..0] == [];
      } else {
        OthersUntouched(c, f, e, k);
        assert own + [] == own;
      }
    }
  }

  /** No due cleanup of the run meets the breaker of `k` unused. */
  predicate Spared(c: Config, start: int, es: seq<FleetEvent>, k: string)
  {
    es == [] || (Spared(c, start, es[..|es|-1], k) && !Discards(c, FleetRun(c, Start(start), es[..|es|-1]), es[|es|-1], k))
  }

  /** Then the other keys might as well not exist. */
  lemma {:induction false} SparedIsAlone(c: Config, start: int, es: seq<FleetEvent>, k: string)
    requires Spared(c, start, es, k)
    ensures Entry(FleetRun(c, Start(start), es), k) == Alone(c, OwnEvents(es, k))
    ensures SinceDiscard(c, start, es, k) == OwnEvents(es, k)
  {
    Projection(c, start, es, k);
    if es != [] {
      SparedIsAlone(c, start, es[..|es|-1], k);
    }
  }

  /** Otherwise a request of another key can make `k` forget a create that is in flight. */
  lemma InFlightForgotten(c: Config, k: string, other: string)
    requires ValidConfig(c) && k != other
    ensures var ask, later := FleetEvent(0, k, Ask), FleetEvent(UNUSED + 1, other, Ask);
            && FleetMonotone(0, [ask, later])
            && k in FleetRun(c, Start(0), [ask]).breakers && FleetRun(c, Start(0), [ask]).breakers[k].concurrent == 1
            && k !in FleetRun(c, Start(0), [ask, later]).breakers
  {
    var ask, later := FleetEvent(0, k, Ask), FleetEvent(UNUSED + 1, other, Ask);
    FleetSnoc(c, 0, [], ask, k, 0);
    FleetSnoc(c, 0, [ask], later, k, 0);
    assert [] + [ask] == [ask] && [ask] + [later] == [ask, later];
    var f := FleetRun(c, Start(0), [ask]);
    OwnEntry(c, Start(0), ask, k);
    CleanupMoves(c, Start(0), ask);
    assert Entry(f, k) == Some(Request(c, New(0), 0).0);
    assert Discards(c, f, later, k);
    OthersUntouched(c, f, later, k);
  }

  // ---- the rate of one key -------------------------------------------------------------------------

  predicate KeyAdmitted(c: Config, f: Fleet, e: FleetEvent, k: string)
  {
    e.key == k && e.op.Ask? && FleetRequest(c, f, k, e.at).1.Admit?
  }

  predicate InMinute(e: FleetEvent, a: int)
  {
    a <= e.at < a + MINUTE
  }

  /** Admissions of `k` in the half-open minute that begins at `a`. */
  function KeyAdmissions(c: Config, start: int, es: seq<FleetEvent>, k: string, a: int): nat
  {
    if es == [] then 0
    else
      var front, e := es[..|es|-1], es[|es|-1];
      KeyAdmissions(c, start, front, k, a) + Count(InMinute(e, a) && KeyAdmitted(c, FleetRun(c, Start(start), front), e, k))
  }

  /** The breaker of `k` was discarded in that minute. */
  predicate DiscardedIn(c: Config, start: int, es: seq<FleetEvent>, k: string, a: int)
  {
    es != [] &&
    (DiscardedIn(c, start, es[..|es|-1], k, a) ||
     (InMinute(es[|es|-1], a) && Discards(c, FleetRun(c, Start(start), es[..|es|-1]), es[|es|-1], k)))
  }

  /** n admissions so far, last event at t, d whether discarded in the minute. */
  predicate RateOk(c: Config, s: Option<State>, lastCleanup: int, n: nat, t: int, d: bool, a: int)
  {
    && n <= (if d then 3 * c.rate else 2 * c.rate) && lastCleanup <= t && (d ==> a <= lastCleanup)
    && (s.Some? ==> s.value.minute <= c.rate && s.value.minuteStart <= t)
    && (t < a ==> n == 0)
    && (t < a + MINUTE && s.None? ==> n <= if d then 2 * c.rate else 0)
    && (t < a + MINUTE && s.Some? ==>
          if d then s.value.minuteStart >= a && n <= 2 * c.rate + s.value.minute
          else n <= if s.value.minuteStart < a then s.value.minute else c.rate + s.value.minute)
  }

  ghost predicate KeyRateInv(c: Config, start: int, es: seq<FleetEvent>, k: string, a: int)
  {
    var f := FleetRun(c, Start(start), es);
    RateOk(c, Entry(f, k), f.lastCleanup, KeyAdmissions(c, start, es, k, a), FleetLast(start, es),
           DiscardedIn(c, start, es, k, a), a)
  }

  /** The cleanup time only moves when a cleanup is due. */
  lemma CleanupMoves(c: Config, f: Fleet, e: FleetEvent)
    ensures FleetStep(c, f, e).lastCleanup ==
            if e.op.Ask? && e.at - f.lastCleanup >= CLEANUP_INTERVAL then e.at else f.lastCleanup
  {
  }

  lemma OtherRate(c: Config, f: Fleet, e: FleetEvent, k: string, n: nat, t: int, d: bool, a: int)
    requires ValidConfig(c) && e.key != k && t <= e.at && RateOk(c, Entry(f, k), f.lastCleanup, n, t, d, a)
    ensures var g := FleetStep(c, f, e);
            RateOk(c, Entry(g, k), g.lastCleanup, n, e.at, d || (InMinute(e, a) && Discards(c, f, e, k)), a)
  {
    OthersUntouched(c, f, e, k);
    CleanupMoves(c, f, e);
  }

  lemma OwnRate(c: Config, f: Fleet, e: FleetEvent, k: string, n: nat, t: int, d: bool, a: int)
    requires ValidConfig(c) && e.key == k && t <= e.at && RateOk(c, Entry(f, k), f.lastCleanup, n, t, d, a)
    ensures var g := FleetStep(c, f, e);
            RateOk(c, Entry(g, k), g.lastCleanup, n + Count(InMinute(e, a) && KeyAdmitted(c, f, e, k)), e.at,
                   d || (InMinute(e, a) && Discards(c, f, e, k)), a)
  {
    OwnEntry(c, f, e, k);
    CleanupMoves(c, f, e);
    if e.op.Ask? {
      var before := if Discards(c, f, e, k) || k !in f.breakers then New(e.at) else f.breakers[k];
      CleanedEntry(c, f, e.at, k);
      assert FleetRequest(c, f, k, e.at).1 == Request(c, before, e.at).1;
      MinuteStep(c, before, e.at);
    }
  }

  lemma {:induction false} KeyRateKept(c: Config, start: int, es: seq<FleetEvent>, k: string, a: int)
    requires ValidConfig(c) && FleetMonotone(start, es)
    ensures KeyRateInv(c, start, es, k, a)
  {
    if es != [] {
      var front, e := es[..|es|-1], es[|es|-1];
      KeyRateKept(c, start, front, k, a);
      var f, n, d := FleetRun(c, Start(start), front), KeyAdmissions(c, start, front, k, a), DiscardedIn(c, start, front, k, a);
      if e.key == k {
        OwnRate(c, f, e, k, n, FleetLast(start, front), d, a);
      } else {
        OtherRate(c, f, e, k, n, FleetLast(start, front), d, a);
      }
    }
  }

  /**
   * Over every run of the fleet, any minute admits at most twice the limit for a key, unless its breaker is discarded
   * in that minute; then at most three times.
   */
  lemma KeyRateBound(c: Config, start: int, es: seq<FleetEvent>, k: string, a: int)
    requires ValidConfig(c) && FleetMonotone(start, es)
    ensures KeyAdmissions(c, start, es, k, a) <= if DiscardedIn(c, start, es, k, a) then 3 * c.rate else 2 * c.rate
  {
    KeyRateKept(c, start, es, k, a);
  }

  lemma FleetSnoc(c: Config, start: int, es: seq<FleetEvent>, e: FleetEvent, k: string, a: int)
    requires FleetMonotone(start, es) && FleetLast(start, es) <= e.at
    ensures FleetMonotone(start, es + [e]) && FleetLast(start, es + [e]) == e.at
    ensures FleetRun(c, Start(start), es + [e]) == FleetStep(c, FleetRun(c, Start(start), es), e)
    ensures KeyAdmissions(c, start, es + [e], k, a) ==
            KeyAdmissions(c, start, es, k, a) + Count(InMinute(e, a) && KeyAdmitted(c, FleetRun(c, Start(start), es), e, k))
  {
    assert (es + [e])[..|es + [e]|-1] == es;
  }
}

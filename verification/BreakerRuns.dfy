/** Properties of one breaker over every run of requests and outcomes. */
module BreakerRuns {
  import opened Breaker

  datatype Op = Ask | Pend | Succeed | Fail

  datatype Event = Event(at: int, op: Op)

  function Step(c: Config, s: State, e: Event): State
  {
    match e.op
    case Ask => Request(c, s, e.at).0
    case Pend => Pending(s)
    case Succeed => Success(s, e.at)
    case Fail => Failure(c, s, e.at)
  }

  /** The state after a run of events from `s`. */
  function Run(c: Config, s: State, es: seq<Event>): State
  {
    if es == [] then s else Step(c, Run(c, s, es[..|es|-1]), es[|es|-1])
  }

  function Last(start: int, es: seq<Event>): int
  {
    if es == [] then start else es[|es|-1].at
  }

  /** The clock never goes back. */
  predicate Monotone(start: int, es: seq<Event>)
  {
    es == [] || (Monotone(start, es[..|es|-1]) && Last(start, es[..|es|-1]) <= es[|es|-1].at)
  }

  predicate Admitted(c: Config, s: State, e: Event)
  {
    e.op.Ask? && Request(c, s, e.at).1.Admit?
  }

  function Count(b: bool): nat
  {
    if b then 1 else 0
  }

  // ---- the sliding rate bound ------------------------------------------------------------------

  /** Admissions in the half-open minute that begins at `a`. */
  function AdmissionsIn(c: Config, s: State, es: seq<Event>, a: int): nat
  {
    if es == [] then 0
    else
      var front := es[..|es|-1];
      var e := es[|es|-1];
      AdmissionsIn(c, s, front, a) + Count(a <= e.at < a + MINUTE && Admitted(c, Run(c, s, front), e))
  }

  ghost predicate RateInv(c: Config, start: int, es: seq<Event>, a: int)
  {
    var s, n, t := Run(c, New(start), es), AdmissionsIn(c, New(start), es, a), Last(start, es);
    && s.minute <= c.rate && s.minuteStart <= t && n <= 2 * c.rate
    && (t < a ==> n == 0)
    && (t < a + MINUTE ==> n <= if s.minuteStart < a then s.minute else c.rate + s.minute)
  }

  lemma {:induction false} RateKept(c: Config, start: int, es: seq<Event>, a: int)
    requires ValidConfig(c) && Monotone(start, es)
    ensures RateInv(c, start, es, a)
  {
    if es != [] {
      RateKept(c, start, es[..|es|-1], a);
      RateStep(c, start, es, a);
    }
  }

  lemma RateStep(c: Config, start: int, es: seq<Event>, a: int)
    requires ValidConfig(c) && es != [] && Monotone(start, es)
    requires RateInv(c, start, es[..|es|-1], a)
    ensures RateInv(c, start, es, a)
  {
    var s, e := Run(c, New(start), es[..|es|-1]), es[|es|-1];
    if !e.op.Ask? {
      assert Step(c, s, e).minute == s.minute && Step(c, s, e).minuteStart == s.minuteStart;
    } else {
      MinuteStep(c, s, e.at);
    }
  }

  /** What a request does to the minute counter. */
  lemma MinuteStep(c: Config, s: State, now: int)
    ensures var r, v := ResetMinute(s, now), Request(c, s, now);
            && v.0.minuteStart == r.minuteStart
            && v.0.minute == r.minute + Count(v.1.Admit?)
            && (v.1.Admit? ==> r.minute < c.rate)
  {
  }

  /** Wherever a minute starts, at most twice the limit is admitted in it. */
  lemma SlidingRateBound(c: Config, start: int, es: seq<Event>, a: int)
    requires ValidConfig(c) && Monotone(start, es)
    ensures AdmissionsIn(c, New(start), es, a) <= 2 * c.rate
  {
    RateKept(c, start, es, a);
  }

  /** A rate-limited caller is told exactly how long its minute still lasts: not a tick more or less. */
  lemma RateWaitIsExact(c: Config, s: State, now: int, later: int)
    requires ValidConfig(c) && s.minuteStart <= now <= later && Request(c, s, now).1.RateLimited?
    ensures var r := Request(c, s, now);
            && 0 < r.1.reset <= MINUTE
            && (Request(c, r.0, later).1.RateLimited? <==> later < now + r.1.reset)
  {
  }

  /** n requests at one moment, each succeeding at once. */
  function Burst(pre: seq<Event>, t: int, n: nat): seq<Event>
  {
    if n == 0 then pre else Burst(pre, t, n - 1) + [Event(t, Ask)] + [Event(t, Succeed)]
  }

  lemma RunSnoc(c: Config, start: int, es: seq<Event>, e: Event, a: int)
    requires Monotone(start, es) && Last(start, es) <= e.at
    ensures Monotone(start, es + [e]) && Last(start, es + [e]) == e.at
    ensures Run(c, New(start), es + [e]) == Step(c, Run(c, New(start), es), e)
    ensures AdmissionsIn(c, New(start), es + [e], a) ==
            AdmissionsIn(c, New(start), es, a) + Count(a <= e.at < a + MINUTE && Admitted(c, Run(c, New(start), es), e))
  {
    assert (es + [e])[..|es + [e]|-1] == es;
  }

  /** `es` goes on from `pre` with n more admissions at t and is ready for another. */
  ghost predicate Bursts(c: Config, start: int, pre: seq<Event>, es: seq<Event>, t: int, n: nat, a: int)
  {
    var s, u := Run(c, New(start), pre), Run(c, New(start), es);
    var r := ResetMinute(s, t);
    && Monotone(start, es) && Last(start, es) <= t
    && ResetMinute(u, t) == r.(minute := r.minute + n)
    && (if n == 0 then u == s else u == r.(minute := r.minute + n))
    && AdmissionsIn(c, New(start), es, a) == AdmissionsIn(c, New(start), pre, a) + n
  }

  lemma BurstGrows(c: Config, start: int, pre: seq<Event>, es: seq<Event>, t: int, n: nat, a: int)
    requires ValidConfig(c) && a <= t < a + MINUTE && Bursts(c, start, pre, es, t, n, a)
    requires var s := Run(c, New(start), pre);
             s.mode.Closed? && s.concurrent == 0 && ResetMinute(s, t).minute + n + 1 <= c.rate
    ensures Bursts(c, start, pre, es + [Event(t, Ask)] + [Event(t, Succeed)], t, n + 1, a)
  {
    RunSnoc(c, start, es, Event(t, Ask), a);
    RunSnoc(c, start, es + [Event(t, Ask)], Event(t, Succeed), a);
    AskAndSucceed(c, Run(c, New(start), es), t);
  }

  lemma {:induction false} BurstAdmits(c: Config, start: int, pre: seq<Event>, t: int, n: nat, a: int)
    requires ValidConfig(c) && Monotone(start, pre) && Last(start, pre) <= t && a <= t < a + MINUTE
    requires var s := Run(c, New(start), pre);
             s.mode.Closed? && s.concurrent == 0 && ResetMinute(s, t).minute + n <= c.rate
    ensures Bursts(c, start, pre, Burst(pre, t, n), t, n, a)
  {
    if n > 0 {
      BurstAdmits(c, start, pre, t, n - 1, a);
      BurstGrows(c, start, pre, Burst(pre, t, n - 1), t, n - 1, a);
    }
  }

  lemma AskAndSucceed(c: Config, s: State, t: int)
    requires ValidConfig(c) && s.mode.Closed? && s.concurrent == 0 && ResetMinute(s, t).minute < c.rate
    ensures Admitted(c, s, Event(t, Ask))
    ensures var r := ResetMinute(s, t);
            Step(c, Step(c, s, Event(t, Ask)), Event(t, Succeed)) == r.(minute := r.minute + 1)
  {
  }

  /** The bound is sharp: every configuration has a minute with exactly twice the limit. */
  lemma SlidingRateIsSharp(c: Config) returns (es: seq<Event>)
    requires ValidConfig(c)
    ensures Monotone(0, es) && AdmissionsIn(c, New(0), es, MINUTE - 1) == 2 * c.rate
  {
    BurstAdmits(c, 0, [], MINUTE - 1, c.rate, MINUTE - 1);
    var first := Burst([], MINUTE - 1, c.rate);
    BurstAdmits(c, 0, first, MINUTE, c.rate, MINUTE - 1);
    es := Burst(first, MINUTE, c.rate);
  }

  // ---- conservation and no wedge ---------------------------------------------------------------

  /** Creates admitted and not yet recorded. */
  function InFlight(c: Config, s: State, es: seq<Event>): int
  {
    if es == [] then 0
    else
      var front := es[..|es|-1];
      var e := es[|es|-1];
      InFlight(c, s, front) +
      if e.op.Ask? then Count(Admitted(c, Run(c, s, front), e)) else -1
  }

  /** Every outcome belongs to an admitted create, as Create arranges on each return path. */
  predicate Disciplined(c: Config, s: State, es: seq<Event>)
  {
    es == [] ||
    (Disciplined(c, s, es[..|es|-1]) && (es[|es|-1].op.Ask? || InFlight(c, s, es[..|es|-1]) > 0))
  }

  predicate SlotInv(c: Config, s: State)
  {
    && s.concurrent <= c.maxConcurrent && s.half <= s.concurrent && s.half <= c.halfOpenMax
    && (!s.mode.HalfOpen? ==> s.half == 0)
  }

  lemma {:induction false} Conservation(c: Config, start: int, es: seq<Event>)
    requires ValidConfig(c) && Disciplined(c, New(start), es)
    ensures Run(c, New(start), es).concurrent == InFlight(c, New(start), es)
    ensures SlotInv(c, Run(c, New(start), es))
  {
    if es != [] {
      Conservation(c, start, es[..|es|-1]);
      SlotStep(c, Run(c, New(start), es[..|es|-1]), es[|es|-1]);
    }
  }

  lemma SlotStep(c: Config, s: State, e: Event)
    requires ValidConfig(c) && SlotInv(c, s) && (e.op.Ask? || s.concurrent > 0)
    ensures SlotInv(c, Step(c, s, e))
    ensures Step(c, s, e).concurrent == s.concurrent + if e.op.Ask? then Count(Admitted(c, s, e)) else -1
  {
  }

  /** A half-open breaker with no free probe always has a create whose outcome unblocks it. */
  lemma NoHalfOpenWedge(c: Config, start: int, es: seq<Event>, e: Event)
    requires ValidConfig(c) && Disciplined(c, New(start), es) && !e.op.Ask?
    requires var s := Run(c, New(start), es); s.mode.HalfOpen? && s.half >= c.halfOpenMax
    ensures InFlight(c, New(start), es) >= 1
    ensures var s := Step(c, Run(c, New(start), es), e); !s.mode.HalfOpen? || s.half < c.halfOpenMax
    ensures e.op.Succeed? ==> Step(c, Run(c, New(start), es), e).mode.Closed?
    ensures e.op.Fail? ==> Step(c, Run(c, New(start), es), e).mode.Open?
  {
    Conservation(c, start, es);
  }

  /** Probes admitted in the current half-open episode. */
  function EpisodeAdmits(c: Config, s: State, es: seq<Event>): nat
  {
    if es == [] || !Run(c, s, es).mode.HalfOpen? then 0
    else
      var before := Run(c, s, es[..|es|-1]);
      (if before.mode.HalfOpen? then EpisodeAdmits(c, s, es[..|es|-1]) else 0) + Count(Admitted(c, before, es[|es|-1]))
  }

  function EpisodePendings(c: Config, s: State, es: seq<Event>): nat
  {
    if es == [] || !Run(c, s, es).mode.HalfOpen? then 0
    else
      var before := Run(c, s, es[..|es|-1]);
      (if before.mode.HalfOpen? then EpisodePendings(c, s, es[..|es|-1]) else 0) + Count(es[|es|-1].op.Pend?)
  }

  /** A half-open episode admits at most its probe limit plus the pending outcomes recorded in it. */
  lemma {:induction false} EpisodeBound(c: Config, start: int, es: seq<Event>)
    requires ValidConfig(c)
    ensures var s := Run(c, New(start), es);
            s.mode.HalfOpen? ==>
              && s.half <= c.halfOpenMax
              && EpisodeAdmits(c, New(start), es) <= s.half + EpisodePendings(c, New(start), es)
              && EpisodeAdmits(c, New(start), es) <= c.halfOpenMax + EpisodePendings(c, New(start), es)
  {
    if es != [] {
      EpisodeBound(c, start, es[..|es|-1]);
      if Run(c, New(start), es).mode.HalfOpen? {
        EpisodeStep(c, Run(c, New(start), es[..|es|-1]), es[|es|-1]);
      }
    }
  }

  lemma EpisodeStep(c: Config, s: State, e: Event)
    requires ValidConfig(c) && (s.mode.HalfOpen? ==> s.half <= c.halfOpenMax) && Step(c, s, e).mode.HalfOpen?
    ensures var s' := Step(c, s, e);
            && s'.half <= c.halfOpenMax
            && (if s.mode.HalfOpen? then s.half else 0) + Count(Admitted(c, s, e)) <= s'.half + Count(e.op.Pend?)
  {
  }

  // ---- open means blocked ------------------------------------------------------------------------

  predicate Within(es: seq<Event>, lo: int, hi: int)
  {
    forall i :: 0 <= i < |es| ==> lo <= es[i].at < hi
  }

  /** Until the recovery timeout has passed, no outcome changes an open breaker. */
  lemma {:induction false} OpenStaysOpen(c: Config, s: State, es: seq<Event>)
    requires s.mode.Open? && Within(es, s.changed, s.changed + c.recovery)
    ensures Run(c, s, es).mode.Open? && Run(c, s, es).changed == s.changed
  {
    if es != [] {
      assert es[|es|-1].at < s.changed + c.recovery;
      OpenStaysOpen(c, s, es[..|es|-1]);
    }
  }

  /** Every request in that time is refused with exactly the time that is left. */
  lemma OpenMeansBlocked(c: Config, s: State, es: seq<Event>, now: int)
    requires s.mode.Open? && Within(es, s.changed, s.changed + c.recovery)
    requires s.changed <= now < s.changed + c.recovery
    ensures Request(c, Run(c, s, es), now).1 == Blocked(s.changed + c.recovery - now)
  {
    OpenStaysOpen(c, s, es);
  }

  /** The first request after the timeout probes, however long the breaker was left alone. */
  lemma RecoveryProbes(c: Config, s: State, es: seq<Event>, now: int)
    requires ValidConfig(c) && s.mode.Open? && Within(es, s.changed, s.changed + c.recovery)
    requires now >= s.changed + c.recovery
    ensures var r := Request(c, Run(c, s, es), now);
            && r.0.mode.HalfOpen? && r.0.changed == now && !r.1.Blocked? && !r.1.ProbesFull?
            && r.0.half == Count(r.1.Admit?)
  {
    OpenStaysOpen(c, s, es);
  }

  // ---- pruned failures against the full history -----------------------------------------------------

  /** Every failure ever recorded. */
  function History(es: seq<Event>): seq<int>
  {
    if es == [] then []
    else
      var e := es[|es|-1];
      History(es[..|es|-1]) + (if e.op.Fail? then [e.at] else [])
  }

  lemma {:induction false} RecentPrefix(f: seq<int>, t: int, n: nat, cutoff: int)
    requires n <= |f|
    ensures RecentIn(f + [t], n, cutoff) == RecentIn(f, n, cutoff)
  {
    if n > 0 {
      RecentPrefix(f, t, n - 1, cutoff);
    }
  }

  lemma RecentAppend(f: seq<int>, t: int, cutoff: int)
    ensures Recent(f + [t], cutoff) == Recent(f, cutoff) + (if t > cutoff then [t] else [])
  {
    RecentPrefix(f, t, |f|, cutoff);
  }

  /** Counting after pruning at an earlier cutoff loses nothing. */
  lemma {:induction false} RecentRecent(f: seq<int>, n: nat, early: int, late: int)
    requires n <= |f| && early <= late
    ensures Recent(RecentIn(f, n, early), late) == RecentIn(f, n, late)
  {
    if n > 0 {
      RecentRecent(f, n - 1, early, late);
      if f[n-1] > early {
        RecentAppend(RecentIn(f, n - 1, early), f[n-1], late);
      } else {
        assert RecentIn(f, n, early) == RecentIn(f, n - 1, early);
      }
    }
  }

  /** From the last event on, the pruned list counts exactly the failures of the whole history. */
  lemma {:induction false} PrunedIsComplete(c: Config, start: int, es: seq<Event>, now: int)
    requires Monotone(start, es) && Last(start, es) <= now
    ensures Recent(Run(c, New(start), es).failures, now - c.window) == Recent(History(es), now - c.window)
  {
    if es != [] {
      var front, e := es[..|es|-1], es[|es|-1];
      var s := Run(c, New(start), front);
      PrunedIsComplete(c, start, front, now);
      if e.op.Fail? {
        RecentRecent(s.failures + [e.at], |s.failures| + 1, e.at - c.window, now - c.window);
        RecentAppend(s.failures, e.at, now - c.window);
        RecentAppend(History(front), e.at, now - c.window);
        assert Run(c, New(start), es).failures == Recent(s.failures + [e.at], e.at - c.window);
      } else {
        assert Run(c, New(start), es).failures == s.failures;
        assert History(es) == History(front);
      }
    }
  }

  /** A closed breaker opens exactly on the failure that brings the true recent count to the threshold. */
  lemma ClosedOpensExactly(c: Config, start: int, es: seq<Event>)
    requires es != [] && Monotone(start, es) && Run(c, New(start), es[..|es|-1]).mode.Closed?
    ensures var e := es[|es|-1];
            Run(c, New(start), es).mode.Open? <==>
              e.op.Fail? && |Recent(History(es), e.at - c.window)| >= c.threshold
  {
    var front, e := es[..|es|-1], es[|es|-1];
    var s := Run(c, New(start), front);
    if e.op.Fail? {
      PrunedIsComplete(c, start, es, e.at);
      var kept := Recent(s.failures + [e.at], e.at - c.window);
      assert Run(c, New(start), es).failures == kept;
    }
  }

  // ---- what decides a request, by the history alone ---------------------------------------------------

  /** When the mode last changed. */
  function LastChange(c: Config, start: int, es: seq<Event>): int
  {
    if es == [] then start
    else
      var front := es[..|es|-1];
      if Run(c, New(start), es).mode != Run(c, New(start), front).mode then es[|es|-1].at else LastChange(c, start, front)
  }

  lemma {:induction false} ChangedIsLastChange(c: Config, start: int, es: seq<Event>)
    ensures Run(c, New(start), es).changed == LastChange(c, start, es)
  {
    if es != [] {
      ChangedIsLastChange(c, start, es[..|es|-1]);
    }
  }

  /** A counted minute counts what was admitted since it began, and nothing has been asked since it ended. */
  ghost predicate MinuteInv(c: Config, start: int, es: seq<Event>)
  {
    var s := Run(c, New(start), es);
    && start <= s.minuteStart <= Last(start, es)
    && s.minute == AdmissionsIn(c, New(start), es, s.minuteStart)
    && forall a :: a >= s.minuteStart + MINUTE ==> AdmissionsIn(c, New(start), es, a) == 0
  }

  lemma {:induction false} MinuteCounts(c: Config, start: int, es: seq<Event>)
    requires Monotone(start, es)
    ensures MinuteInv(c, start, es)
  {
    if es != [] {
      MinuteCounts(c, start, es[..|es|-1]);
      MinuteCountStep(c, start, es);
    }
  }

  lemma MinuteCountStep(c: Config, start: int, es: seq<Event>)
    requires es != [] && Monotone(start, es) && MinuteInv(c, start, es[..|es|-1])
    ensures MinuteInv(c, start, es)
  {
    var front, e := es[..|es|-1], es[|es|-1];
    var s := Run(c, New(start), front);
    if e.op.Ask? {
      MinuteStep(c, s, e.at);
    } else {
      assert Step(c, s, e).minute == s.minute && Step(c, s, e).minuteStart == s.minuteStart;
    }
  }

  /**
   * In every disciplined run a request is admitted if and only if the breaker is not open, or was opened at least the
   * recovery timeout ago; half open, fewer than the allowed probes are out; fewer than the limit were admitted since the
   * counted minute began, or that is over; and fewer creates than allowed are in flight.
   */
  lemma AdmittedIff(c: Config, start: int, es: seq<Event>, now: int)
    requires ValidConfig(c) && Monotone(start, es) && Disciplined(c, New(start), es) && Last(start, es) <= now
    ensures var s, v := Run(c, New(start), es), Request(c, Run(c, New(start), es), now).1;
            var begun := s.minuteStart;
            && (v.Blocked? <==> s.mode.Open? && now < LastChange(c, start, es) + c.recovery)
            && (v.ProbesFull? <==> s.mode.HalfOpen? && s.half >= c.halfOpenMax)
            && (v.Admit? <==>
                 && (s.mode.Open? ==> now >= LastChange(c, start, es) + c.recovery)
                 && (s.mode.HalfOpen? ==> s.half < c.halfOpenMax)
                 && (now < begun + MINUTE ==> AdmissionsIn(c, New(start), es, begun) < c.rate)
                 && InFlight(c, New(start), es) < c.maxConcurrent)
  {
    ChangedIsLastChange(c, start, es);
    MinuteCounts(c, start, es);
    Conservation(c, start, es);
  }

  // ---- a recovering breaker admits its probes ---------------------------------------------------------

  /** n requests at one moment, none of them concluded. */
  function Asks(es: seq<Event>, t: int, n: nat): seq<Event>
  {
    if n == 0 then es else Asks(es, t, n - 1) + [Event(t, Ask)]
  }

  /** An open breaker that may recover, or a half-open one, with room for a probe, a request and a create. */
  lemma ProbeAdmitted(c: Config, s: State, t: int)
    requires ValidConfig(c) && ResetMinute(s, t).minute < c.rate && s.concurrent < c.maxConcurrent
    requires (s.mode.Open? && t >= s.changed + c.recovery) || (s.mode.HalfOpen? && s.half < c.halfOpenMax)
    ensures Admitted(c, s, Event(t, Ask))
    ensures var r, u := ResetMinute(s, t), Step(c, s, Event(t, Ask));
            && u.mode.HalfOpen? && u.half == (if s.mode.HalfOpen? then s.half else 0) + 1
            && u.minute == r.minute + 1 && u.minuteStart == r.minuteStart && u.concurrent == s.concurrent + 1
  {
  }

  lemma {:induction false} AsksAdmit(c: Config, start: int, es: seq<Event>, t: int, n: nat)
    requires ValidConfig(c) && 1 <= n <= c.halfOpenMax
    requires var s := Run(c, New(start), es);
             && s.mode.Open? && t >= s.changed + c.recovery
             && ResetMinute(s, t).minute + n <= c.rate && s.concurrent + n <= c.maxConcurrent
    ensures var s, u := Run(c, New(start), es), Run(c, New(start), Asks(es, t, n));
            && u.mode.HalfOpen? && u.half == n && EpisodeAdmits(c, New(start), Asks(es, t, n)) == n
            && u.minute == ResetMinute(s, t).minute + n && u.concurrent == s.concurrent + n
            && u.minuteStart == ResetMinute(s, t).minuteStart
  {
    var before, after := Asks(es, t, n - 1), Asks(es, t, n);
    assert after[..|after|-1] == before && after[|after|-1] == Event(t, Ask);
    if n > 1 {
      AsksAdmit(c, start, es, t, n - 1);
    }
    ProbeAdmitted(c, Run(c, New(start), before), t);
  }

  /**
   * From every run that left the breaker open, once the timeout has passed: as many requests as there are probes are
   * admitted at one moment, if rate and concurrency have room for them, and the next one is refused as one too many.
   */
  lemma RecoveryAdmitsAllProbes(c: Config, start: int, es: seq<Event>, t: int)
    requires ValidConfig(c)
    requires var s := Run(c, New(start), es);
             && s.mode.Open? && t >= s.changed + c.recovery
             && ResetMinute(s, t).minute + c.halfOpenMax <= c.rate && s.concurrent + c.halfOpenMax <= c.maxConcurrent
    ensures var probes := Asks(es, t, c.halfOpenMax);
            && EpisodeAdmits(c, New(start), probes) == c.halfOpenMax
            && Request(c, Run(c, New(start), probes), t).1 == ProbesFull
  {
    AsksAdmit(c, start, es, t, c.halfOpenMax);
  }

  /** Open to half open on a request after the timeout; half open to closed on a success, to open on a failure; closed to open only. */
  lemma ModeMoves(c: Config, start: int, es: seq<Event>)
    requires es != []
    ensures var before, after, e := Run(c, New(start), es[..|es|-1]).mode, Run(c, New(start), es).mode, es[|es|-1];
            match before
            case Closed => !after.HalfOpen?
            case Open =>
              after == if e.op.Ask? && e.at >= LastChange(c, start, es[..|es|-1]) + c.recovery then HalfOpen else Open
            case HalfOpen => after == match e.op case Succeed => Closed case Fail => Open case _ => HalfOpen
  {
    ChangedIsLastChange(c, start, es[..|es|-1]);
  }
}

/** The breakers of all NodeClasses together: isolation, and how long an open breaker is kept. */
module FleetRuns {
  import opened Options
  import opened Breaker
  import opened BreakerRuns
  import opened BreakerManager

  // ---- keys ----------------------------------------------------------------------------------

  predicate Lower(ch: char)
  {
    'a' <= ch <= 'z'
  }

  /** The CRD's region pattern: two letters, a hyphen, letters. */
  predicate ValidRegion(r: string)
  {
    && |r| >= 4 && Lower(r[0]) && Lower(r[1]) && r[2] == '-'
    && forall i :: 3 <= i < |r| ==> Lower(r[i])
  }

  /** Although NodeClass names may contain hyphens, distinct pairs have distinct keys. */
  lemma KeysAreDistinct(n: string, r: string, n': string, r': string)
    requires ValidRegion(r) && ValidRegion(r') && Key(n, r) == Key(n', r')
    ensures n == n' && r == r'
  {
    var key := Key(n, r);
    if |r| < |r'| {
      LastHyphen(n, r, n', r');
    } else if |r'| < |r| {
      LastHyphen(n', r', n, r);
    }
    assert |n| == |n'|;
    assert n == key[..|n|] && n' == key[..|n'|];
    assert r == key[|n|+1..] && r' == key[|n'|+1..];
  }

  lemma LastHyphen(n: string, r: string, n': string, r': string)
    requires ValidRegion(r) && ValidRegion(r') && Key(n, r) == Key(n', r')
    ensures |r| >= |r'|
  {
    assert Key(n, r)[|n| + 3] == '-';
    assert forall j :: 3 <= j < |r'| ==> Key(n', r')[|n'| + 1 + j] == r'[j];
  }

  // ---- runs of the whole fleet ------------------------------------------------------------------

  datatype FleetEvent = FleetEvent(at: int, key: string, op: Op)

  function FleetStep(c: Config, f: Fleet, e: FleetEvent): Fleet
  {
    match e.op
    case Ask => FleetRequest(c, f, e.key, e.at).0
    case Pend => FleetPending(f, e.key)
    case Succeed => FleetSuccess(f, e.key, e.at)
    case Fail => FleetFailure(c, f, e.key, e.at)
  }

  function FleetRun(c: Config, f: Fleet, es: seq<FleetEvent>): Fleet
  {
    if es == [] then f else FleetStep(c, FleetRun(c, f, es[..|es|-1]), es[|es|-1])
  }

  function FleetLast(start: int, es: seq<FleetEvent>): int
  {
    if es == [] then start else es[|es|-1].at
  }

  predicate FleetMonotone(start: int, es: seq<FleetEvent>)
  {
    es == [] || (FleetMonotone(start, es[..|es|-1]) && FleetLast(start, es[..|es|-1]) <= es[|es|-1].at)
  }

  function Entry(f: Fleet, k: string): Option<State>
  {
    if k in f.breakers then Some(f.breakers[k]) else None
  }

  /** Two events that differ at most in what happens to other keys. */
  predicate SameFor(k: string, e: FleetEvent, e': FleetEvent)
  {
    e.at == e'.at && (if e.key == k then e == e' else e'.key != k && (e.op.Ask? <==> e'.op.Ask?))
  }

  lemma CleanedEntry(c: Config, f: Fleet, now: int, k: string)
    ensures Entry(Cleaned(c, f, now), k) ==
            if k in f.breakers && (now - f.lastCleanup < CLEANUP_INTERVAL || !Droppable(c, f.breakers[k], now))
            then Some(f.breakers[k]) else None
    ensures Cleaned(c, f, now).lastCleanup == if now - f.lastCleanup < CLEANUP_INTERVAL then f.lastCleanup else now
  {
  }

  /** What a request does to an entry, its own or another. */
  lemma RequestEntry(c: Config, f: Fleet, key: string, now: int, k: string)
    ensures var g := FleetRequest(c, f, key, now).0;
            var e := Entry(Cleaned(c, f, now), k);
            && Entry(g, k) == (if k != key then e else Some(Request(c, if e.Some? then e.value else New(now), now).0))
            && g.lastCleanup == Cleaned(c, f, now).lastCleanup
  {
  }

  lemma StepIsolation(c: Config, f: Fleet, f': Fleet, e: FleetEvent, e': FleetEvent, k: string)
    requires Entry(f, k) == Entry(f', k) && f.lastCleanup == f'.lastCleanup && SameFor(k, e, e')
    ensures Entry(FleetStep(c, f, e), k) == Entry(FleetStep(c, f', e'), k)
    ensures FleetStep(c, f, e).lastCleanup == FleetStep(c, f', e').lastCleanup
  {
    if e.op.Ask? {
      CleanedEntry(c, f, e.at, k);
      CleanedEntry(c, f', e.at, k);
      RequestEntry(c, f, e.key, e.at, k);
      RequestEntry(c, f', e'.key, e.at, k);
    }
  }

  /**
   * Other keys reach `k` only through the times of their requests: two runs with the same events for `k`, and requests
   * at the same other times, leave `k` the same breaker, whatever the other keys, admissions and outcomes are.
   */
  lemma {:induction false} Isolation(c: Config, f: Fleet, f': Fleet, es: seq<FleetEvent>, es': seq<FleetEvent>, k: string)
    requires Entry(f, k) == Entry(f', k) && f.lastCleanup == f'.lastCleanup
    requires |es| == |es'| && forall i :: 0 <= i < |es| ==> SameFor(k, es[i], es'[i])
    ensures Entry(FleetRun(c, f, es), k) == Entry(FleetRun(c, f', es'), k)
    ensures FleetRun(c, f, es).lastCleanup == FleetRun(c, f', es').lastCleanup
  {
    if es != [] {
      var n := |es| - 1;
      Isolation(c, f, f', es[..n], es'[..n], k);
      assert SameFor(k, es[n], es'[n]);
      StepIsolation(c, FleetRun(c, f, es[..n]), FleetRun(c, f', es'[..n]), es[n], es'[n], k);
    }
  }

  /** A request for any key makes a due cleanup discard the breaker of `k` as unused. */
  predicate Discards(c: Config, f: Fleet, e: FleetEvent, k: string)
  {
    e.op.Ask? && e.at - f.lastCleanup >= CLEANUP_INTERVAL && k in f.breakers && Droppable(c, f.breakers[k], e.at)
  }

  /** An event of another key changes the breaker of `k` if and only if it discards it. */
  lemma OthersUntouched(c: Config, f: Fleet, e: FleetEvent, k: string)
    requires e.key != k
    ensures Entry(FleetStep(c, f, e), k) != Entry(f, k) <==> Discards(c, f, e, k)
    ensures Discards(c, f, e, k) ==> Entry(FleetStep(c, f, e), k) == None
  {
  }

  // ---- an open breaker is kept long enough ---------------------------------------------------------

  predicate OpenSince(f: Fleet, k: string, t: int)
  {
    k in f.breakers && f.breakers[k].mode.Open? && f.breakers[k].changed == t
  }

  /** The last failure of an open breaker is not older than its opening. */
  predicate OpenOk(s: State, now: int)
  {
    s.mode.Open? ==> s.changed <= now && |s.failures| > 0 && s.failures[|s.failures|-1] >= s.changed
  }

  ghost predicate FleetOk(f: Fleet, now: int)
  {
    forall k :: k in f.breakers ==> OpenOk(f.breakers[k], now)
  }

  lemma FailureOk(c: Config, s: State, now: int)
    requires ValidConfig(c) && OpenOk(s, now)
    ensures OpenOk(Failure(c, s, now), now)
  {
    RecentAppend(s.failures, now, now - c.window);
  }

  lemma StepOk(c: Config, f: Fleet, before: int, e: FleetEvent)
    requires ValidConfig(c) && FleetOk(f, before) && before <= e.at
    ensures FleetOk(FleetStep(c, f, e), e.at)
  {
    if e.op.Fail? {
      FailureOk(c, Ensured(f, e.key, e.at).breakers[e.key], e.at);
    }
  }

  lemma {:induction false} RunOk(c: Config, start: int, es: seq<FleetEvent>)
    requires ValidConfig(c) && FleetMonotone(start, es)
    ensures FleetOk(FleetRun(c, Fleet(map[], start), es), FleetLast(start, es))
  {
    if es != [] {
      RunOk(c, start, es[..|es|-1]);
      StepOk(c, FleetRun(c, Fleet(map[], start), es[..|es|-1]), FleetLast(start, es[..|es|-1]), es[|es|-1]);
    }
  }

  function Max(a: int, b: int): int
  {
    if a < b then b else a
  }

  lemma NotDroppedEarly(c: Config, s: State, now: int)
    requires ValidConfig(c) && s.mode.Open? && OpenOk(s, now) && now < s.changed + c.recovery
    requires c.recovery <= Max(UNUSED + 1, c.window)
    ensures !Droppable(c, s, now)
  {
    if now < s.changed + c.window {
      assert s.failures[|s.failures|-1] > now - c.window;
    }
  }

  lemma StepKeepsOpen(c: Config, f: Fleet, e: FleetEvent, k: string, t: int)
    requires ValidConfig(c) && OpenSince(f, k, t) && OpenOk(f.breakers[k], e.at)
    requires c.recovery <= Max(UNUSED + 1, c.window) && t <= e.at < t + c.recovery
    ensures OpenSince(FleetStep(c, f, e), k, t)
  {
    NotDroppedEarly(c, f.breakers[k], e.at);
  }

  predicate Before(es: seq<FleetEvent>, t: int)
  {
    forall i :: 0 <= i < |es| ==> es[i].at < t
  }

  lemma {:induction false} RunKeepsOpen(c: Config, start: int, es: seq<FleetEvent>, more: seq<FleetEvent>, k: string, t: int)
    requires ValidConfig(c) && c.recovery <= Max(UNUSED + 1, c.window)
    requires FleetMonotone(start, es + more) && OpenSince(FleetRun(c, Fleet(map[], start), es), k, t)
    requires Before(more, t + c.recovery)
    ensures OpenSince(FleetRun(c, Fleet(map[], start), es + more), k, t)
  {
    var all := es + more;
    if more == [] {
      assert all == es;
    } else {
      var n := |more| - 1;
      assert all[..|all|-1] == es + more[..n] && all[|all|-1] == more[n];
      RunKeepsOpen(c, start, es, more[..n], k, t);
      RunOk(c, start, es + more[..n]);
      StepKeepsOpen(c, FleetRun(c, Fleet(map[], start), es + more[..n]), more[n], k, t);
    }
  }

  /** An open breaker keeps blocking its own NodeClass for its whole recovery timeout, in every run. */
  ghost predicate KeepsBlocking(c: Config)
  {
    forall start, es, more, k, t ::
      FleetMonotone(start, es + more) && OpenSince(FleetRun(c, Fleet(map[], start), es), k, t) && Before(more, t + c.recovery) ==>
        OpenSince(FleetRun(c, Fleet(map[], start), es + more), k, t)
  }

  function Zeros(n: nat): seq<int>
  {
    if n == 0 then [] else Zeros(n - 1) + [0]
  }

  lemma {:induction false} RecentZeros(n: nat, cutoff: int)
    ensures Recent(Zeros(n), cutoff) == if cutoff < 0 then Zeros(n) else []
    ensures |Zeros(n)| == n
  {
    if n > 0 {
      RecentZeros(n - 1, cutoff);
      RecentAppend(Zeros(n - 1), 0, cutoff);
    }
  }

  function Failures(n: nat): seq<FleetEvent>
  {
    if n == 0 then [] else Failures(n - 1) + [FleetEvent(0, "k", Fail)]
  }

  lemma {:induction false} FailuresMonotone(n: nat)
    ensures FleetMonotone(0, Failures(n)) && FleetLast(0, Failures(n)) == 0
  {
    if n > 0 {
      FailuresMonotone(n - 1);
      assert Failures(n)[..|Failures(n)|-1] == Failures(n - 1);
    }
  }

  /** The breaker after n failures at time 0. */
  function Failed(c: Config, n: nat): State
  {
    State(if n < c.threshold then Closed else Open, Zeros(n), 0, 0, 0, 0, 0)
  }

  lemma NextFailed(c: Config, n: nat)
    requires ValidConfig(c) && n < c.threshold
    ensures Failure(c, Failed(c, n), 0) == Failed(c, n + 1)
  {
    assert Zeros(n + 1) == Zeros(n) + [0];
    RecentZeros(n + 1, 0 - c.window);
  }

  lemma FleetFails(c: Config, f: Fleet, s: State, s': State)
    requires Ensured(f, "k", 0) == Fleet(map["k" := s], 0) && Failure(c, s, 0) == s'
    ensures FleetFailure(c, f, "k", 0) == Fleet(map["k" := s'], 0)
  {
    assert map["k" := s]["k" := s'] == map["k" := s'];
  }

  function AfterFailures(c: Config, n: nat): Fleet
  {
    FleetRun(c, Fleet(map[], 0), Failures(n))
  }

  lemma AfterOneMore(c: Config, n: nat)
    ensures AfterFailures(c, n + 1) == FleetFailure(c, AfterFailures(c, n), "k", 0)
  {
    assert Failures(n + 1)[..|Failures(n + 1)|-1] == Failures(n);
  }

  lemma {:induction false} FailuresOpen(c: Config, n: nat)
    requires ValidConfig(c) && n < c.threshold
    ensures AfterFailures(c, n + 1) == Fleet(map["k" := Failed(c, n + 1)], 0)
  {
    AfterOneMore(c, n);
    NextFailed(c, n);
    if n > 0 {
      FailuresOpen(c, n - 1);
    }
    FleetFails(c, AfterFailures(c, n), Failed(c, n), Failed(c, n + 1));
  }

  /** With a longer timeout, a quiet open breaker is dropped and its NodeClass admitted again too early. */
  lemma DroppedEarly(c: Config) returns (es: seq<FleetEvent>, more: seq<FleetEvent>)
    requires ValidConfig(c) && c.recovery > Max(UNUSED + 1, c.window)
    ensures FleetMonotone(0, es + more) && Before(more, 0 + c.recovery)
    ensures OpenSince(FleetRun(c, Fleet(map[], 0), es), "k", 0)
    ensures !OpenSince(FleetRun(c, Fleet(map[], 0), es + more), "k", 0)
  {
    es := Failures(c.threshold);
    FailuresOpen(c, c.threshold - 1);
    FailuresMonotone(c.threshold);
    var t := Max(UNUSED + 1, c.window);
    more := [FleetEvent(t, "k", Ask)];
    assert (es + more)[..|es + more|-1] == es;
    var f := FleetRun(c, Fleet(map[], 0), es);
    RecentZeros(c.threshold, t - c.window);
    assert Droppable(c, f.breakers["k"], t);
    assert "k" !in Cleaned(c, f, t).breakers;
    assert FleetRun(c, Fleet(map[], 0), es + more) == FleetStep(c, f, more[0]);
  }

  /**
   * The manager's cleanup never discards an open breaker before its recovery timeout if and only if
   * the timeout is at most two hours (and a tick) or at most the failure window.
   */
  lemma KeepsBlockingIff(c: Config)
    requires ValidConfig(c)
    ensures KeepsBlocking(c) <==> c.recovery <= Max(UNUSED + 1, c.window)
  {
    if c.recovery <= Max(UNUSED + 1, c.window) {
      forall start, es, more, k, t |
        FleetMonotone(start, es + more) && OpenSince(FleetRun(c, Fleet(map[], start), es), k, t) && Before(more, t + c.recovery)
        ensures OpenSince(FleetRun(c, Fleet(map[], start), es + more), k, t)
      {
        RunKeepsOpen(c, start, es, more, k, t);
      }
    } else {
      var es, more := DroppedEarly(c);
      assert FleetMonotone(0, es + more) && OpenSince(FleetRun(c, Fleet(map[], 0), es), "k", 0) && Before(more, 0 + c.recovery);
      assert !OpenSince(FleetRun(c, Fleet(map[], 0), es + more), "k", 0);
    }
  }
}

/**
 * Concurrent creates through the manager. Each attempt asks for its key once and, if admitted, records one outcome
 * later; attempts of all keys interleave freely. A key's counter is right exactly as long as its breaker is not
 * discarded while one of its attempts is running.
 */
module KeyCreates {
  import opened Options
  import opened Breaker
  import opened BreakerRuns
  import opened BreakerManager
  import opened FleetRuns
  import opened KeyRuns

  /** An event of attempt `id`. */
  datatype FleetCall = FleetCall(id: nat, event: FleetEvent)

  function EventsOf(calls: seq<FleetCall>): seq<FleetEvent>
  {
    if calls == [] then [] else EventsOf(calls[..|calls|-1]) + [calls[|calls|-1].event]
  }

  function After(c: Config, start: int, calls: seq<FleetCall>): Fleet
  {
    if calls == [] then Start(start) else FleetStep(c, After(c, start, calls[..|calls|-1]), calls[|calls|-1].event)
  }

  /** The same fleet as after the bare events. */
  lemma {:induction false} AfterIsRun(c: Config, start: int, calls: seq<FleetCall>)
    ensures After(c, start, calls) == FleetRun(c, Start(start), EventsOf(calls))
  {
    if calls != [] {
      var es, e := EventsOf(calls[..|calls|-1]), calls[|calls|-1].event;
      AfterIsRun(c, start, calls[..|calls|-1]);
      assert (es + [e])[..|es + [e]|-1] == es;
    }
  }

  function CallIds(calls: seq<FleetCall>): set<nat>
  {
    set i | 0 <= i < |calls| :: calls[i].id
  }

  /** The attempts for `k` admitted and not yet recorded. */
  function Running(c: Config, start: int, calls: seq<FleetCall>, k: string): set<nat>
  {
    if calls == [] then {}
    else
      var front, x := calls[..|calls|-1], calls[|calls|-1];
      var before := Running(c, start, front, k);
      if x.event.key != k then before
      else if !x.event.op.Ask? then before - {x.id}
      else if KeyAdmitted(c, After(c, start, front), x.event, k) then before + {x.id}
      else before
  }

  /** The order of events within each attempt, and nothing more. */
  predicate Attempts(c: Config, start: int, calls: seq<FleetCall>)
  {
    calls == [] ||
    var front, x := calls[..|calls|-1], calls[|calls|-1];
    Attempts(c, start, front) &&
    if x.event.op.Ask? then x.id !in CallIds(front) else x.id in Running(c, start, front, x.event.key)
  }

  /** The counter of `k`; a key without a breaker counts nothing. */
  function Counter(s: Option<State>): nat
  {
    if s.Some? then s.value.concurrent else 0
  }

  predicate CountsRight(c: Config, start: int, calls: seq<FleetCall>, k: string)
  {
    Counter(Entry(After(c, start, calls), k)) == |Running(c, start, calls, k)|
  }

  /** Call i discards the breaker of `k` while one of its attempts is running. */
  predicate Forgets(c: Config, start: int, calls: seq<FleetCall>, i: int, k: string)
    requires 0 <= i < |calls|
  {
    Discards(c, After(c, start, calls[..i]), calls[i].event, k) && Running(c, start, calls[..i], k) != {}
  }

  lemma {:induction false} RunningCalled(c: Config, start: int, calls: seq<FleetCall>, k: string)
    ensures Running(c, start, calls, k) <= CallIds(calls)
  {
    if calls != [] {
      var front := calls[..|calls|-1];
      RunningCalled(c, start, front, k);
      forall id | id in CallIds(front) ensures id in CallIds(calls) {
        var i :| 0 <= i < |front| && front[i].id == id;
        assert calls[i].id == id;
      }
      assert calls[|calls|-1].id in CallIds(calls);
    }
  }

  predicate EntryOk(c: Config, s: Option<State>)
  {
    s.Some? ==> SlotInv(c, s.value)
  }

  /** An event of its own moves the counter by one, unless it discards the breaker first. */
  lemma OwnCount(c: Config, f: Fleet, e: FleetEvent, k: string)
    requires ValidConfig(c) && e.key == k && EntryOk(c, Entry(f, k)) && (!e.op.Ask? ==> Counter(Entry(f, k)) > 0)
    ensures EntryOk(c, Entry(FleetStep(c, f, e), k))
    ensures Counter(Entry(FleetStep(c, f, e), k)) ==
            (if Discards(c, f, e, k) then 0 else Counter(Entry(f, k))) + if e.op.Ask? then Count(KeyAdmitted(c, f, e, k)) else -1
  {
    OwnEntry(c, f, e, k);
    var before := if Discards(c, f, e, k) || k !in f.breakers then New(e.at) else f.breakers[k];
    if e.op.Ask? {
      CleanedEntry(c, f, e.at, k);
      assert FleetRequest(c, f, k, e.at).1 == Request(c, before, e.at).1;
    }
    SlotStep(c, before, Event(e.at, e.op));
  }

  /** A request that finds no breaker, or has just lost it, is admitted by the new one. */
  lemma NewAdmits(c: Config, f: Fleet, e: FleetEvent, k: string)
    requires ValidConfig(c) && e.key == k && e.op.Ask? && Discards(c, f, e, k)
    ensures KeyAdmitted(c, f, e, k)
  {
    CleanedEntry(c, f, e.at, k);
    assert FleetRequest(c, f, k, e.at).1 == Request(c, New(e.at), e.at).1;
  }

  /** As long as nothing is forgotten the counter is right. */
  lemma {:induction false} CountKept(c: Config, start: int, calls: seq<FleetCall>, k: string)
    requires ValidConfig(c) && Attempts(c, start, calls) && forall i :: 0 <= i < |calls| ==> !Forgets(c, start, calls, i, k)
    ensures CountsRight(c, start, calls, k) && EntryOk(c, Entry(After(c, start, calls), k))
  {
    if calls != [] {
      var n := |calls| - 1;
      var front, x := calls[..n], calls[n];
      forall i | 0 <= i < n ensures !Forgets(c, start, front, i, k) {
        assert front[..i] == calls[..i] && !Forgets(c, start, calls, i, k);
      }
      CountKept(c, start, front, k);
      RunningCalled(c, start, front, k);
      CountStep(c, start, calls, k);
    }
  }

  lemma CountStep(c: Config, start: int, calls: seq<FleetCall>, k: string)
    requires ValidConfig(c) && calls != [] && Attempts(c, start, calls) && !Forgets(c, start, calls, |calls| - 1, k)
    requires var front := calls[..|calls|-1];
             CountsRight(c, start, front, k) && EntryOk(c, Entry(After(c, start, front), k)) && Running(c, start, front, k) <= CallIds(front)
    ensures CountsRight(c, start, calls, k) && EntryOk(c, Entry(After(c, start, calls), k))
  {
    var front, x := calls[..|calls|-1], calls[|calls|-1];
    var f := After(c, start, front);
    if x.event.key != k {
      OthersUntouched(c, f, x.event, k);
    } else {
      OwnCount(c, f, x.event, k);
      if !x.event.op.Ask? {
        assert Running(c, start, front, k) == Running(c, start, calls, k) + {x.id};
      }
    }
  }

  /** A forgotten attempt makes the counter wrong at once. */
  lemma ForgottenMiscounts(c: Config, start: int, front: seq<FleetCall>, calls: seq<FleetCall>, k: string)
    requires ValidConfig(c) && calls != [] && calls[..|calls|-1] == front && Attempts(c, start, calls)
    requires Forgets(c, start, calls, |calls| - 1, k) && CountsRight(c, start, front, k)
    requires EntryOk(c, Entry(After(c, start, front), k)) && Running(c, start, front, k) <= CallIds(front)
    ensures !CountsRight(c, start, calls, k)
  {
    var x, f := calls[|calls|-1], After(c, start, front);
    if x.event.key != k {
      OthersUntouched(c, f, x.event, k);
    } else {
      OwnCount(c, f, x.event, k);
      NewAdmits(c, f, x.event, k);
      assert Running(c, start, calls, k) == Running(c, start, front, k) + {x.id} && x.id !in Running(c, start, front, k);
    }
  }

  /** Whatever was attempted before is still a sequence of attempts. */
  lemma {:induction false} AttemptsPrefix(c: Config, start: int, calls: seq<FleetCall>, n: nat)
    requires Attempts(c, start, calls) && n <= |calls|
    ensures Attempts(c, start, calls[..n])
  {
    if n == |calls| {
      assert calls[..n] == calls;
    } else {
      var front := calls[..|calls|-1];
      AttemptsPrefix(c, start, front, n);
      assert front[..n] == calls[..n];
    }
  }

  /** The first forgotten attempt, if any. */
  lemma FirstForgets(c: Config, start: int, calls: seq<FleetCall>, k: string, i: nat) returns (j: nat)
    requires i < |calls| && Forgets(c, start, calls, i, k)
    ensures j < |calls| && Forgets(c, start, calls, j, k) && forall m :: 0 <= m < j ==> !Forgets(c, start, calls, m, k)
    decreases i
  {
    if m: nat :| m < i && Forgets(c, start, calls, m, k) {
      j := FirstForgets(c, start, calls, k, m);
    } else {
      j := i;
    }
  }

  /**
   * Over every run of attempts: after each of its calls the counter of `k` is the number of its running attempts, if and
   * only if no call's due cleanup discards its breaker while one of them is running.
   */
  lemma CountsRightIff(c: Config, start: int, calls: seq<FleetCall>, k: string)
    requires ValidConfig(c) && Attempts(c, start, calls)
    ensures (forall n :: 0 <= n <= |calls| ==> CountsRight(c, start, calls[..n], k))
            <==> (forall i :: 0 <= i < |calls| ==> !Forgets(c, start, calls, i, k))
  {
    if i: nat :| i < |calls| && Forgets(c, start, calls, i, k) {
      var j := FirstForgets(c, start, calls, k, i);
      ForgetsAt(c, start, calls, k, j);
    } else {
      forall n | 0 <= n <= |calls| ensures CountsRight(c, start, calls[..n], k) {
        RightBefore(c, start, calls, k, n);
      }
    }
  }

  lemma RightBefore(c: Config, start: int, calls: seq<FleetCall>, k: string, n: nat)
    requires ValidConfig(c) && Attempts(c, start, calls) && n <= |calls|
    requires forall i :: 0 <= i < n ==> !Forgets(c, start, calls, i, k)
    ensures CountsRight(c, start, calls[..n], k) && EntryOk(c, Entry(After(c, start, calls[..n]), k))
  {
    var front := calls[..n];
    AttemptsPrefix(c, start, calls, n);
    forall i | 0 <= i < n ensures !Forgets(c, start, front, i, k) {
      assert front[..i] == calls[..i] && !Forgets(c, start, calls, i, k);
    }
    CountKept(c, start, front, k);
  }

  lemma ForgetsAt(c: Config, start: int, calls: seq<FleetCall>, k: string, j: nat)
    requires ValidConfig(c) && Attempts(c, start, calls) && j < |calls| && Forgets(c, start, calls, j, k)
    requires forall m :: 0 <= m < j ==> !Forgets(c, start, calls, m, k)
    ensures !CountsRight(c, start, calls[..j + 1], k)
  {
    var front, upto := calls[..j], calls[..j + 1];
    AttemptsPrefix(c, start, calls, j + 1);
    assert upto[..|upto|-1] == front && upto[|upto|-1] == calls[j];
    RightBefore(c, start, calls, k, j);
    RunningCalled(c, start, front, k);
    ForgottenMiscounts(c, start, front, upto, k);
  }

  /** Under that condition no more creates of a key run at once than are allowed. */
  lemma AtMostMaxConcurrent(c: Config, start: int, calls: seq<FleetCall>, k: string)
    requires ValidConfig(c) && Attempts(c, start, calls) && forall i :: 0 <= i < |calls| ==> !Forgets(c, start, calls, i, k)
    ensures |Running(c, start, calls, k)| <= c.maxConcurrent
  {
    CountKept(c, start, calls, k);
  }

  // ---- without the condition there is no limit ----------------------------------------------------

  const ROUND := UNUSED + 1

  lemma CallsSnoc(c: Config, start: int, calls: seq<FleetCall>, x: FleetCall, k: string)
    requires Attempts(c, start, calls) && x.event.op.Ask? && x.id !in CallIds(calls)
    ensures Attempts(c, start, calls + [x]) && After(c, start, calls + [x]) == FleetStep(c, After(c, start, calls), x.event)
    ensures Running(c, start, calls + [x], k) ==
            Running(c, start, calls, k) + if KeyAdmitted(c, After(c, start, calls), x.event, k) then {x.id} else {}
    ensures CallIds(calls + [x]) == CallIds(calls) + {x.id}
  {
    var more := calls + [x];
    assert more[..|more|-1] == calls;
    forall id ensures id in CallIds(more) <==> id in CallIds(calls) + {x.id} {
      if id in CallIds(calls) {
        var i :| 0 <= i < |calls| && calls[i].id == id;
        assert more[i].id == id;
      }
      assert more[|calls|].id == x.id;
    }
  }

  /** The breaker made by one round's request is gone at its end. */
  lemma OneRound(c: Config, f: Fleet, k: string, other: string, t: int)
    requires ValidConfig(c) && k != other && k !in f.breakers && f.lastCleanup <= t
    ensures KeyAdmitted(c, f, FleetEvent(t, k, Ask), k)
    ensures var g := FleetStep(c, FleetStep(c, f, FleetEvent(t, k, Ask)), FleetEvent(t + ROUND, other, Ask));
            k !in g.breakers && g.lastCleanup <= t + ROUND
  {
    var ask, later := FleetEvent(t, k, Ask), FleetEvent(t + ROUND, other, Ask);
    CleanedEntry(c, f, t, k);
    assert FleetRequest(c, f, k, t).1 == Request(c, New(t), t).1;
    var g := FleetStep(c, f, ask);
    OwnEntry(c, f, ask, k);
    CleanupMoves(c, f, ask);
    assert Entry(g, k) == Some(Request(c, New(t), t).0);
    assert Discards(c, g, later, k);
    OthersUntouched(c, g, later, k);
    CleanupMoves(c, g, later);
  }

  /** n attempts of `k` are running, and nothing is left of its breaker at time t. */
  ghost predicate Piled(c: Config, calls: seq<FleetCall>, k: string, n: nat, t: int)
  {
    && Attempts(c, 0, calls) && |Running(c, 0, calls, k)| == n && (forall id :: id in CallIds(calls) ==> id <= 2 * n + 1)
    && k !in After(c, 0, calls).breakers && After(c, 0, calls).lastCleanup <= t
  }

  lemma EventsSnoc(calls: seq<FleetCall>, x: FleetCall)
    requires FleetMonotone(0, EventsOf(calls)) && FleetLast(0, EventsOf(calls)) <= x.event.at
    ensures FleetMonotone(0, EventsOf(calls + [x])) && FleetLast(0, EventsOf(calls + [x])) == x.event.at
  {
    var es := EventsOf(calls);
    assert (calls + [x])[..|calls + [x]|-1] == calls;
    assert (es + [x.event])[..|es + [x.event]|-1] == es;
  }

  /** One attempt of `k` that never ends, and a request of another key once the breaker counts as unused. */
  function Round(calls: seq<FleetCall>, k: string, other: string, n: nat, t: int): seq<FleetCall>
  {
    calls + [FleetCall(2 * n + 2, FleetEvent(t, k, Ask))] + [FleetCall(2 * n + 3, FleetEvent(t + ROUND, other, Ask))]
  }

  lemma RoundGrows(c: Config, calls: seq<FleetCall>, k: string, other: string, n: nat, t: int)
    requires ValidConfig(c) && k != other && Piled(c, calls, k, n, t)
    ensures Piled(c, Round(calls, k, other, n, t), k, n + 1, t + ROUND)
  {
    var x, y := FleetCall(2 * n + 2, FleetEvent(t, k, Ask)), FleetCall(2 * n + 3, FleetEvent(t + ROUND, other, Ask));
    OneRound(c, After(c, 0, calls), k, other, t);
    CallsSnoc(c, 0, calls, x, k);
    CallsSnoc(c, 0, calls + [x], y, k);
    OneMoreRuns(c, calls, x, y, k);
  }

  /** The key's attempt runs on, and the other key's does not count. */
  lemma OneMoreRuns(c: Config, calls: seq<FleetCall>, x: FleetCall, y: FleetCall, k: string)
    requires x.id !in CallIds(calls) && y.event.key != k
    requires Running(c, 0, calls + [x], k) == Running(c, 0, calls, k) + {x.id}
    requires Running(c, 0, calls + [x] + [y], k) ==
             Running(c, 0, calls + [x], k) + if KeyAdmitted(c, After(c, 0, calls + [x]), y.event, k) then {y.id} else {}
    ensures |Running(c, 0, calls + [x] + [y], k)| == |Running(c, 0, calls, k)| + 1
  {
    RunningCalled(c, 0, calls, k);
  }

  lemma {:induction false} RoundsPileUp(c: Config, k: string, other: string, n: nat) returns (calls: seq<FleetCall>)
    requires ValidConfig(c) && k != other
    ensures Piled(c, calls, k, n, n * ROUND)
    ensures FleetMonotone(0, EventsOf(calls)) && FleetLast(0, EventsOf(calls)) <= n * ROUND
  {
    if n == 0 {
      calls := [];
    } else {
      var t := (n - 1) * ROUND;
      var front := RoundsPileUp(c, k, other, n - 1);
      calls := Round(front, k, other, n - 1, t);
      RoundGrows(c, front, k, other, n - 1, t);
      InOrder(front, k, other, n - 1, t);
    }
  }

  lemma InOrder(calls: seq<FleetCall>, k: string, other: string, n: nat, t: int)
    requires FleetMonotone(0, EventsOf(calls)) && FleetLast(0, EventsOf(calls)) <= t
    ensures var more := Round(calls, k, other, n, t); FleetMonotone(0, EventsOf(more)) && FleetLast(0, EventsOf(more)) <= t + ROUND
  {
    var x, y := FleetCall(2 * n + 2, FleetEvent(t, k, Ask)), FleetCall(2 * n + 3, FleetEvent(t + ROUND, other, Ask));
    EventsSnoc(calls, x);
    EventsSnoc(calls + [x], y);
  }

  /** For every configuration some run has more creates of one key in flight than are allowed. */
  lemma TooManyInFlight(c: Config, k: string, other: string) returns (calls: seq<FleetCall>)
    requires ValidConfig(c) && k != other
    ensures FleetMonotone(0, EventsOf(calls)) && Attempts(c, 0, calls) && |Running(c, 0, calls, k)| == c.maxConcurrent + 1
  {
    calls := RoundsPileUp(c, k, other, c.maxConcurrent + 1);
  }
}

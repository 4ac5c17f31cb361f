/**
 * Concurrent creates against one breaker. Each attempt asks once and, if it was admitted, records exactly one outcome
 * later; between the two anything may happen. The attempts interleave freely.
 */
module CreateRuns {
  import opened Breaker
  import opened BreakerRuns

  /** An event of attempt `id`. */
  datatype Call = Call(id: nat, event: Event)

  function Events(calls: seq<Call>): seq<Event>
  {
    if calls == [] then [] else Events(calls[..|calls|-1]) + [calls[|calls|-1].event]
  }

  function Ids(calls: seq<Call>): set<nat>
  {
    set i | 0 <= i < |calls| :: calls[i].id
  }

  /** The attempts admitted and not yet recorded. */
  function Running(c: Config, s: State, calls: seq<Call>): set<nat>
  {
    if calls == [] then {}
    else
      var front, x := calls[..|calls|-1], calls[|calls|-1];
      if !x.event.op.Ask? then Running(c, s, front) - {x.id}
      else if Admitted(c, Run(c, s, Events(front)), x.event) then Running(c, s, front) + {x.id}
      else Running(c, s, front)
  }

  /** The order of events within each attempt, and nothing more: first the question, then at most one outcome if admitted. */
  predicate Interleaved(c: Config, s: State, calls: seq<Call>)
  {
    calls == [] ||
    var front, x := calls[..|calls|-1], calls[|calls|-1];
    Interleaved(c, s, front) && if x.event.op.Ask? then x.id !in Ids(front) else x.id in Running(c, s, front)
  }

  lemma {:induction false} RunningAsked(c: Config, s: State, calls: seq<Call>)
    ensures Running(c, s, calls) <= Ids(calls)
  {
    if calls != [] {
      var front := calls[..|calls|-1];
      RunningAsked(c, s, front);
      forall id | id in Ids(front) ensures id in Ids(calls) {
        var i :| 0 <= i < |front| && front[i].id == id;
        assert calls[i].id == id;
      }
      assert calls[|calls|-1].id in Ids(calls);
    }
  }

  /** Every interleaving is disciplined, and the attempts in flight are the running ones. */
  lemma {:induction false} InterleavedIsDisciplined(c: Config, s: State, calls: seq<Call>)
    requires Interleaved(c, s, calls)
    ensures Disciplined(c, s, Events(calls)) && InFlight(c, s, Events(calls)) == |Running(c, s, calls)|
  {
    if calls != [] {
      var front, x := calls[..|calls|-1], calls[|calls|-1];
      InterleavedIsDisciplined(c, s, front);
      RunningAsked(c, s, front);
      var es := Events(front);
      assert Events(calls) == es + [x.event] && (es + [x.event])[..|es + [x.event]|-1] == es;
      if !x.event.op.Ask? {
        assert Running(c, s, front) == Running(c, s, calls) + {x.id};
      }
    }
  }

  /** Over concurrent creates the counter is the number of attempts between question and outcome, and within its limit. */
  lemma ConcurrentConservation(c: Config, start: int, calls: seq<Call>)
    requires ValidConfig(c) && Interleaved(c, New(start), calls)
    ensures var s := Run(c, New(start), Events(calls));
            s.concurrent == |Running(c, New(start), calls)| <= c.maxConcurrent && s.half <= s.concurrent
  {
    InterleavedIsDisciplined(c, New(start), calls);
    Conservation(c, start, Events(calls));
  }

  /** A full half-open breaker has a running attempt, and whatever its outcome the breaker is no longer full. */
  lemma ConcurrentNoWedge(c: Config, start: int, calls: seq<Call>)
    requires ValidConfig(c) && Interleaved(c, New(start), calls)
    requires var s := Run(c, New(start), Events(calls)); s.mode.HalfOpen? && s.half >= c.halfOpenMax
    ensures Running(c, New(start), calls) != {}
    ensures forall id, e: Event :: id in Running(c, New(start), calls) && !e.op.Ask? ==>
              && Interleaved(c, New(start), calls + [Call(id, e)])
              && var s := Step(c, Run(c, New(start), Events(calls)), e); !s.mode.HalfOpen? || s.half < c.halfOpenMax
  {
    InterleavedIsDisciplined(c, New(start), calls);
    Conservation(c, start, Events(calls));
    forall id, e: Event | id in Running(c, New(start), calls) && !e.op.Ask?
      ensures Interleaved(c, New(start), calls + [Call(id, e)])
      ensures var s := Step(c, Run(c, New(start), Events(calls)), e); !s.mode.HalfOpen? || s.half < c.halfOpenMax
    {
      var more := calls + [Call(id, e)];
      assert more[..|more|-1] == calls;
      NoHalfOpenWedge(c, start, Events(calls), e);
    }
  }
}

/** The circuit breaker for instance provisioning: a state machine over clock readings. */
module Breaker {
  import opened Options

  const MINUTE := 60_000_000_000

  datatype Config = Config(threshold: int, window: int, recovery: int, halfOpenMax: int, rate: int, maxConcurrent: int)

  /** Options validation refuses anything else. */
  predicate ValidConfig(c: Config)
  {
    c.threshold >= 1 && c.window > 0 && c.recovery > 0 && c.halfOpenMax >= 1 && c.rate >= 1 && c.maxConcurrent >= 1
  }

  datatype Mode = Closed | Open | HalfOpen

  /** Failures are kept by their timestamps; `changed` is the last state change. */
  datatype State = State(mode: Mode, failures: seq<int>, changed: int, half: nat, concurrent: nat,
                         minute: nat, minuteStart: int)

  datatype Verdict =
    | Admit
    | Blocked(wait: int)
    | ProbesFull
    | RateLimited(reset: int)
    | TooManyConcurrent

  function New(now: int): State
  {
    State(Closed, [], now, 0, 0, 0, now)
  }

  /** The timestamps strictly after the cutoff among the first n, in order. */
  function RecentIn(failures: seq<int>, n: nat, cutoff: int): seq<int>
    requires n <= |failures|
  {
    if n == 0 then []
    else RecentIn(failures, n - 1, cutoff) + (if failures[n-1] > cutoff then [failures[n-1]] else [])
  }

  function Recent(failures: seq<int>, cutoff: int): seq<int>
  {
    RecentIn(failures, |failures|, cutoff)
  }

  function To(s: State, mode: Mode, now: int): State
  {
    s.(mode := mode, changed := now, half := 0)
  }

  /** resetCountersIfNeeded. */
  function ResetMinute(s: State, now: int): State
  {
    if now - s.minuteStart >= MINUTE then s.(minute := 0, minuteStart := now) else s
  }

  function Wake(c: Config, s: State, now: int): State
  {
    if s.mode.Open? && now - s.changed >= c.recovery then To(s, HalfOpen, now) else s
  }

  /** CanProvision: the new state and the verdict. */
  function Request(c: Config, s0: State, now: int): (r: (State, Verdict))
  {
    var s := Wake(c, ResetMinute(s0, now), now);
    if s.mode.Open? then (s, Blocked(c.recovery - (now - s.changed)))
    else if s0.mode.HalfOpen? && s.half >= c.halfOpenMax then (s, ProbesFull)
    else if s.minute >= c.rate then (s, RateLimited(MINUTE - (now - s.minuteStart)))
    else if s.concurrent >= c.maxConcurrent then (s, TooManyConcurrent)
    else (s.(minute := s.minute + 1, concurrent := s.concurrent + 1,
             half := if s.mode.HalfOpen? then s.half + 1 else s.half), Admit)
  }

  function Dec(n: nat): nat
  {
    if n > 0 then n - 1 else 0
  }

  function Pending(s: State): State
  {
    s.(concurrent := Dec(s.concurrent), half := if s.mode.HalfOpen? then Dec(s.half) else s.half)
  }

  function Success(s: State, now: int): State
  {
    var s' := s.(concurrent := Dec(s.concurrent));
    if s.mode.HalfOpen? then To(s', Closed, now) else s'
  }

  /** The state once `recent` failures are counted in the window. */
  function Judge(c: Config, s: State, recent: nat, now: int): State
  {
    if recent >= c.threshold then
      if s.mode.Open? then s else To(s, Open, now)
    else if s.mode.HalfOpen? then To(s, Open, now)
    else s
  }

  function Failure(c: Config, s: State, now: int): State
  {
    var kept := Recent(s.failures + [now], now - c.window);
    Judge(c, s.(concurrent := Dec(s.concurrent), failures := kept), |Recent(kept, now - c.window)|, now)
  }

  /** The breaker object. A nil configuration makes a disabled breaker. */
  class CircuitBreaker {
    const config: Config
    const enabled: bool
    var mode: Mode
    var failures: seq<int>
    var changed: int
    var half: nat
    var concurrent: nat
    var minute: nat
    var minuteStart: int

    function View(): State
      reads this
    {
      State(mode, failures, changed, half, concurrent, minute, minuteStart)
    }

    constructor (config: Option<Config>, fallback: Config, now: int)
      ensures enabled == config.Some?
      ensures this.config == if config.Some? then config.value else fallback
      ensures View() == New(now)
    {
      enabled := config.Some?;
      this.config := if config.Some? then config.value else fallback;
      mode, failures, changed, half, concurrent, minute, minuteStart := Closed, [], now, 0, 0, 0, now;
    }

    method CanProvision(now: int) returns (v: Verdict)
      modifies this
      ensures enabled ==> (View(), v) == Request(config, old(View()), now)
      ensures !enabled ==> v == Admit && View() == old(View())
    {
      if !enabled {
        return Admit;
      }
      if now - minuteStart >= MINUTE {
        minute := 0;
        minuteStart := now;
      }
      if mode.Open? {
        var elapsed := now - changed;
        if elapsed >= config.recovery {
          mode, changed, half := HalfOpen, now, 0;
        } else {
          return Blocked(config.recovery - elapsed);
        }
      } else if mode.HalfOpen? {
        if half >= config.halfOpenMax {
          return ProbesFull;
        }
      }
      if minute >= config.rate {
        return RateLimited(MINUTE - (now - minuteStart));
      }
      if concurrent >= config.maxConcurrent {
        return TooManyConcurrent;
      }
      minute := minute + 1;
      concurrent := concurrent + 1;
      if mode.HalfOpen? {
        half := half + 1;
      }
      v := Admit;
    }

    /** The source does not ask whether the breaker is enabled here. */
    method RecordPending()
      modifies this
      ensures View() == Pending(old(View()))
    {
      if concurrent > 0 {
        concurrent := concurrent - 1;
      }
      if mode.HalfOpen? && half > 0 {
        half := half - 1;
      }
    }

    method RecordSuccess(now: int)
      modifies this
      ensures View() == if enabled then Success(old(View()), now) else old(View())
    {
      if !enabled {
        return;
      }
      if concurrent > 0 {
        concurrent := concurrent - 1;
      }
      if mode.HalfOpen? {
        mode, changed, half := Closed, now, 0;
      }
    }

    method RecordFailure(now: int)
      modifies this
      ensures View() == if enabled then Failure(config, old(View()), now) else old(View())
    {
      if !enabled {
        return;
      }
      if concurrent > 0 {
        concurrent := concurrent - 1;
      }
      var cutoff := now - config.window;
      failures := CleanOldFailures(failures + [now], cutoff);
      var recent := CountRecentFailures(failures, cutoff);
      if recent >= config.threshold {
        if !mode.Open? {
          mode, changed, half := Open, now, 0;
        }
      } else if mode.HalfOpen? {
        mode, changed, half := Open, now, 0;
      }
    }

    method RecentFailures(now: int) returns (n: nat)
      ensures n == |Recent(failures, now - config.window)|
    {
      n := CountRecentFailures(failures, now - config.window);
    }
  }

  method CleanOldFailures(failures: seq<int>, cutoff: int) returns (kept: seq<int>)
    ensures kept == Recent(failures, cutoff)
  {
    kept := [];
    for i := 0 to |failures|
      invariant kept == RecentIn(failures, i, cutoff)
    {
      if failures[i] > cutoff {
        kept := kept + [failures[i]];
      }
    }
  }

  method CountRecentFailures(failures: seq<int>, cutoff: int) returns (count: nat)
    ensures count == |Recent(failures, cutoff)|
  {
    count := 0;
    for i := 0 to |failures|
      invariant count == |RecentIn(failures, i, cutoff)|
    {
      if failures[i] > cutoff {
        count := count + 1;
      }
    }
  }
}

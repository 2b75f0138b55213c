/**
 * The circuit breaker (brpc/brpc/circuit_breaker.cpp) over the reals: a double assigned to an
 * integer is cut down to its floor. Every loop around compare_exchange is one atomic update, so
 * statements about sequences of updates hold for any interleaving of threads making them.
 */
module CircuitBreaker {
  function Pow(s: real, n: nat): real { if n == 0 then 1.0 else Pow(s, n - 1) * s }

  /** The flags; smooth is the window_size-th root of epsilon. */
  datatype Config = Config(window: nat, percent: nat, smooth: real, epsilon: real, minCost: int, multiple: nat)

  ghost predicate Sane(c: Config) {
    c.window > 0 && 0.0 < c.smooth < 1.0 && Pow(c.smooth, c.window) == c.epsilon
  }

  /** EmaErrorRecorder: counters of the first window, average error cost and latency. */
  datatype Recorder = Recorder(samples: nat, errors: nat, cost: nat, latency: nat)

  const FRESH := Recorder(0, 0, 0, 0)

  function Max0(x: int): nat { if x < 0 then 0 else x }

  /** UpdateLatency */
  function NextLatency(c: Config, ema: nat, latency: nat): nat {
    if ema == 0 then latency else Max0((ema as real * c.smooth + latency as real * (1.0 - c.smooth)).Floor)
  }

  /** An ordinary response in UpdateErrorCost. */
  function Decay(c: Config, cost: nat): nat {
    if cost == 0 || cost < c.minCost then 0 else Max0((cost as real * c.smooth).Floor)
  }

  function Charged(c: Config, latency: nat, ema: nat): nat {
    if ema != 0 && ema * c.multiple < latency then ema * c.multiple else latency
  }

  function MaxCost(c: Config, ema: nat): int {
    (ema as real * c.window as real * (c.percent as real / 100.0) * (1.0 + c.epsilon)).Floor
  }

  /** UpdateErrorCost: the new average, and whether it is acceptable. */
  function Charge(c: Config, cost: nat, latency: nat, ema: nat): (nat, bool) {
    var more := Charged(c, latency, ema);
    if more != 0 then (cost + more, cost + more <= MaxCost(c, ema)) else (Decay(c, cost), true)
  }

  function Tolerated(c: Config): nat { c.window * c.percent / 100 }

  /** EmaErrorRecorder::OnCallEnd */
  function Record(c: Config, r: Recorder, error: bool, latency: nat): (Recorder, bool) {
    var ema := if error then r.latency else NextLatency(c, r.latency, latency);
    var (cost, healthy) := Charge(c, r.cost, if error then latency else 0, ema);
    if r.samples < c.window then
      (Recorder(r.samples + 1, r.errors + (if error then 1 else 0), cost, ema), !error || r.errors < Tolerated(c))
    else (r.(cost := cost, latency := ema), healthy)
  }

  /** EmaErrorRecorder::Reset: a recorder past its first window keeps its latency. */
  function ResetRecorder(c: Config, r: Recorder): Recorder {
    if r.samples < c.window then FRESH else r.(cost := 0)
  }

  // ---- successes wear the error cost down ----

  function Decays(c: Config, cost: nat, n: nat): nat {
    if n == 0 then cost else Decay(c, Decays(c, cost, n - 1))
  }

  lemma {:induction false} ScaleDown(x: real, y: real, s: real)
    requires x <= y && 0.0 <= s
    ensures x * s <= y * s
  {}

  lemma {:induction false} Assoc(a: real, p: real, s: real)
    ensures (a * p) * s == a * (p * s)
  {}

  lemma {:induction false} NonNeg(a: real, b: real)
    requires a >= 0.0 && b >= 0.0
    ensures a * b >= 0.0
  {}

  lemma {:induction false} Convex(x: real, y: real, lo: real, hi: real, s: real)
    requires lo <= x <= hi && lo <= y <= hi && 0.0 < s < 1.0
    ensures lo <= x * s + y * (1.0 - s) <= hi
  {
    NonNeg(x - lo, s);
    NonNeg(y - lo, 1.0 - s);
    NonNeg(hi - x, s);
    NonNeg(hi - y, 1.0 - s);
  }

  /** x shrunk n times by the factor s. */
  function Scaled(x: real, s: real, n: nat): real { if n == 0 then x else Scaled(x, s, n - 1) * s }

  lemma {:induction false} ScaledIsPower(x: real, s: real, n: nat)
    ensures Scaled(x, s, n) == x * Pow(s, n)
  {
    if n > 0 {
      ScaledIsPower(x, s, n - 1);
      Assoc(x, Pow(s, n - 1), s);
    }
  }

  lemma {:induction false} DecayBound(c: Config, cost: nat)
    requires 0.0 < c.smooth < 1.0
    ensures Decay(c, cost) as real <= cost as real * c.smooth
    ensures cost > 0 ==> Decay(c, cost) < cost
  {
    ScaleDown(0.0, cost as real, c.smooth);
    if cost > 0 { Shrinks(cost as real, c.smooth); }
  }

  lemma {:induction false} ChargeMeans(c: Config, cost: nat, latency: nat, ema: nat)
    ensures var (next, healthy) := Charge(c, cost, latency, ema);
      && (latency == 0 && 0.0 < c.smooth < 1.0 ==> healthy && (next < cost || next == 0))
      && (latency > 0 && ema > 0 && c.multiple > 0 ==> cost < next <= cost + ema * c.multiple)
  {
    if latency == 0 {
      assert Charged(c, latency, ema) == 0;
      if 0.0 < c.smooth < 1.0 { DecayBound(c, cost); }
    } else if ema > 0 && c.multiple > 0 {
      Positive(ema, c.multiple);
    }
  }

  lemma {:induction false} Positive(a: nat, b: nat)
    requires a > 0 && b > 0
    ensures a * b > 0
  {}

  lemma {:induction false} Shrinks(x: real, s: real)
    requires x > 0.0 && s < 1.0
    ensures x * s < x
  {
    assert x * (1.0 - s) > 0.0;
  }

  lemma {:induction false} DecayBelow(c: Config, x: nat, y: real)
    requires 0.0 < c.smooth < 1.0 && x as real <= y
    ensures Decay(c, x) as real <= y * c.smooth
  {
    DecayBound(c, x);
    ScaleDown(x as real, y, c.smooth);
  }

  lemma {:induction false} DecaysBound(c: Config, cost: nat, n: nat)
    requires 0.0 < c.smooth < 1.0
    ensures Decays(c, cost, n) as real <= Scaled(cost as real, c.smooth, n)
  {
    if n > 0 {
      var x := Decays(c, cost, n - 1);
      DecaysBound(c, cost, n - 1);
      DecayBelow(c, x, Scaled(cost as real, c.smooth, n - 1));
    }
  }

  /** A window of successes leaves at most epsilon of the error cost. */
  lemma {:induction false} WindowForgets(c: Config, cost: nat)
    requires Sane(c)
    ensures Decays(c, cost, c.window) as real <= c.epsilon * cost as real
  {
    DecaysBound(c, cost, c.window);
    ScaledIsPower(cost as real, c.smooth, c.window);
  }

  /** Enough successes bring the error cost to exactly zero, and it stays there. */
  lemma {:induction false} SuccessesForget(c: Config, cost: nat, n: nat)
    requires Sane(c) && n >= cost
    ensures Decays(c, cost, n) == 0
  {
    DecaysShrink(c, cost, n);
  }

  lemma {:induction false} DecaysShrink(c: Config, cost: nat, n: nat)
    requires Sane(c)
    ensures Decays(c, cost, n) == 0 || Decays(c, cost, n) + n <= cost
  {
    if n > 0 {
      DecaysShrink(c, cost, n - 1);
      DecayBound(c, Decays(c, cost, n - 1));
    }
  }

  // ---- the latency average ----

  function Average(c: Config, samples: seq<nat>): nat {
    if samples == [] then 0 else NextLatency(c, Average(c, samples[..|samples| - 1]), samples[|samples| - 1])
  }

  /** The range of the average and the next sample; an average of 0 means that there is none. */
  function Least(ema: nat, latency: nat): nat { if ema == 0 || latency < ema then latency else ema }
  function Most(ema: nat, latency: nat): nat { if latency > ema then latency else if ema == 0 then latency else ema }

  lemma {:induction false} Between(c: Config, ema: nat, latency: nat, lo: nat, hi: nat)
    requires 0.0 < c.smooth < 1.0 && lo <= latency <= hi && (ema == 0 || lo <= ema <= hi)
    ensures lo <= NextLatency(c, ema, latency) <= hi
  {
    if ema != 0 {
      Convex(ema as real, latency as real, lo as real, hi as real, c.smooth);
    }
  }

  /** The average stays between the smallest and the largest sampled success latency. */
  lemma {:induction false} AverageInRange(c: Config, samples: seq<nat>, lo: nat, hi: nat)
    requires Sane(c) && samples != [] && forall i :: 0 <= i < |samples| ==> lo <= samples[i] <= hi
    ensures lo <= Average(c, samples) <= hi
    decreases |samples|
  {
    var init := samples[..|samples| - 1];
    if init != [] { AverageInRange(c, init, lo, hi); }
    Between(c, Average(c, init), samples[|samples| - 1], lo, hi);
  }

  // ---- the first window ----

  datatype Call = Call(error: bool, latency: nat)

  function Errors(calls: seq<Call>): nat {
    if calls == [] then 0 else (if calls[0].error then 1 else 0) + Errors(calls[1..])
  }

  predicate AllHealthy(c: Config, r: Recorder, calls: seq<Call>)
    decreases |calls|
  {
    calls == [] || (var (next, ok) := Record(c, r, calls[0].error, calls[0].latency); ok && AllHealthy(c, next, calls[1..]))
  }

  lemma {:induction false} InitialErrors(c: Config, r: Recorder, calls: seq<Call>)
    requires r.samples + |calls| <= c.window
    ensures AllHealthy(c, r, calls) <==> Errors(calls) == 0 || r.errors + Errors(calls) <= Tolerated(c)
    decreases |calls|
  {
    if calls != [] {
      InitialErrors(c, Record(c, r, calls[0].error, calls[0].latency).0, calls[1..]);
    }
  }

  /** In its first window a recorder trips iff the errors exceed the tolerated share of the window. */
  lemma {:induction false} FirstWindow(c: Config, calls: seq<Call>)
    requires |calls| <= c.window
    ensures AllHealthy(c, FRESH, calls) <==> Errors(calls) <= Tolerated(c)
  {
    InitialErrors(c, FRESH, calls);
  }

  // ---- runs of successes through a recorder ----

  function Successes(c: Config, r: Recorder, latencies: seq<nat>): Recorder {
    if latencies == [] then r
    else Record(c, Successes(c, r, latencies[..|latencies| - 1]), false, latencies[|latencies| - 1]).0
  }

  lemma {:induction false} SuccessesDecay(c: Config, r: Recorder, latencies: seq<nat>)
    ensures Successes(c, r, latencies).cost == Decays(c, r.cost, |latencies|)
    decreases |latencies|
  {
    if latencies != [] { SuccessesDecay(c, r, latencies[..|latencies| - 1]); }
  }

  /** Whatever their latencies: a window of successes leaves at most epsilon of the error cost. */
  lemma {:induction false} RecorderForgets(c: Config, r: Recorder, latencies: seq<nat>)
    requires Sane(c) && |latencies| == c.window
    ensures Successes(c, r, latencies).cost as real <= c.epsilon * r.cost as real
  {
    SuccessesDecay(c, r, latencies);
    WindowForgets(c, r.cost);
  }

  /** As many successes as the cost has microseconds leave nothing of it. */
  lemma {:induction false} RecorderClears(c: Config, r: Recorder, latencies: seq<nat>)
    requires Sane(c) && |latencies| >= r.cost
    ensures Successes(c, r, latencies).cost == 0
  {
    SuccessesDecay(c, r, latencies);
    SuccessesForget(c, r.cost, |latencies|);
  }

  /** What a recorder sees: calls and resets. */
  datatype Seen = Finished(error: bool, latency: nat) | Cleared

  function See(c: Config, r: Recorder, x: Seen): Recorder {
    match x
    case Finished(error, latency) => Record(c, r, error, latency).0
    case Cleared => ResetRecorder(c, r)
  }

  function SeeAll(c: Config, xs: seq<Seen>): Recorder {
    if xs == [] then FRESH else See(c, SeeAll(c, xs[..|xs| - 1]), xs[|xs| - 1])
  }

  /** The latencies of the successful calls since the last reset inside a first window. */
  function Sampled(c: Config, xs: seq<Seen>): seq<nat> {
    if xs == [] then []
    else
      var before, last := Sampled(c, xs[..|xs| - 1]), xs[|xs| - 1];
      match last
      case Finished(error, latency) => if error then before else before + [latency]
      case Cleared => if SeeAll(c, xs[..|xs| - 1]).samples < c.window then [] else before
  }

  lemma {:induction false} LatencyIsAverage(c: Config, xs: seq<Seen>)
    ensures SeeAll(c, xs).latency == Average(c, Sampled(c, xs))
    decreases |xs|
  {
    if xs != [] {
      var init, last := xs[..|xs| - 1], xs[|xs| - 1];
      LatencyIsAverage(c, init);
      if last.Finished? && !last.error {
        var s := Sampled(c, init);
        assert (s + [last.latency])[..|s|] == s;
      }
    }
  }

  /**
   * Whatever calls fail and resets happen in between: the latency average is 0 when nothing was
   * sampled since the last clearing reset, and within the sampled latencies otherwise.
   */
  lemma {:induction false} LatencyInRange(c: Config, xs: seq<Seen>, lo: nat, hi: nat)
    requires Sane(c)
    requires forall i :: 0 <= i < |Sampled(c, xs)| ==> lo <= Sampled(c, xs)[i] <= hi
    ensures Sampled(c, xs) == [] ==> SeeAll(c, xs).latency == 0
    ensures Sampled(c, xs) != [] ==> lo <= SeeAll(c, xs).latency <= hi
  {
    LatencyIsAverage(c, xs);
    if Sampled(c, xs) != [] { AverageInRange(c, Sampled(c, xs), lo, hi); }
  }

  // ---- the breaker ----

  const ELIMIT := 2004

  datatype Limits = Limits(long: Config, short: Config, minMs: int, maxMs: int)

  datatype Breaker = Breaker(long: Recorder, short: Recorder, lastReset: int, duration: int, times: nat, broken: bool)

  function NextDuration(l: Limits, b: Breaker, now: int): int {
    if now - b.lastReset < l.maxMs then (if b.duration * 2 < l.maxMs then b.duration * 2 else l.maxMs) else l.minMs
  }

  /** MarkAsBroken: only the first call of an episode has an effect. */
  function Mark(l: Limits, b: Breaker, now: int): Breaker {
    if b.broken then b else b.(broken := true, times := b.times + 1, duration := NextDuration(l, b, now))
  }

  /** OnCallEnd; the short window is not asked when the long one trips. */
  function EndCall(l: Limits, b: Breaker, code: int, latency: nat, now: int): (Breaker, bool) {
    if code == ELIMIT then (b, true)
    else if b.broken then (b, false)
    else
      var (long, ok) := Record(l.long, b.long, code != 0, latency);
      if !ok then (Mark(l, b.(long := long), now), false)
      else
        var (short, fine) := Record(l.short, b.short, code != 0, latency);
        if fine then (b.(long := long, short := short), true)
        else (Mark(l, b.(long := long, short := short), now), false)
  }

  datatype Event = Ended(code: int, latency: nat, now: int) | Marked(now: int) | WasReset(now: int)

  function Next(l: Limits, b: Breaker, e: Event): Breaker {
    match e
    case Ended(code, latency, now) => EndCall(l, b, code, latency, now).0
    case Marked(now) => Mark(l, b, now)
    case WasReset(now) =>
      b.(long := ResetRecorder(l.long, b.long), short := ResetRecorder(l.short, b.short), lastReset := now, broken := false)
  }

  function After(l: Limits, b: Breaker, events: seq<Event>): Breaker {
    if events == [] then b else Next(l, After(l, b, events[..|events| - 1]), events[|events| - 1])
  }

  predicate NoReset(events: seq<Event>) { forall i :: 0 <= i < |events| ==> !events[i].WasReset? }

  /** A broken breaker is frozen until it is reset. */
  lemma {:induction false} BrokenIsFrozen(l: Limits, b: Breaker, events: seq<Event>)
    requires b.broken && NoReset(events)
    ensures After(l, b, events) == b
    decreases |events|
  {
    if events != [] { BrokenIsFrozen(l, b, events[..|events| - 1]); }
  }

  /** Once a call was answered false, a later call before the reset is answered true iff it ended with
      ELIMIT. */
  lemma {:induction false} NoRecovery(l: Limits, b: Breaker, code: int, latency: nat, now: int,
                                      events: seq<Event>, later: Event)
    requires !EndCall(l, b, code, latency, now).1 && NoReset(events) && later.Ended?
    ensures EndCall(l, After(l, EndCall(l, b, code, latency, now).0, events), later.code, later.latency, later.now).1
      <==> later.code == ELIMIT
  {
    BrokenIsFrozen(l, EndCall(l, b, code, latency, now).0, events);
  }

  /** How often a healthy breaker broke. */
  function Episodes(l: Limits, b: Breaker, events: seq<Event>): nat {
    if events == [] then 0
    else
      var init := events[..|events| - 1];
      Episodes(l, b, init) + if !After(l, b, init).broken && After(l, b, events).broken then 1 else 0
  }

  function Resets(events: seq<Event>): nat {
    if events == [] then 0
    else Resets(events[..|events| - 1]) + if events[|events| - 1].WasReset? then 1 else 0
  }

  /** isolated_times counts episodes, and there is at most one more episode than resets. */
  lemma {:induction false} IsolatedOncePerEpisode(l: Limits, b: Breaker, events: seq<Event>)
    requires !b.broken
    ensures After(l, b, events).times == b.times + Episodes(l, b, events)
    ensures Episodes(l, b, events) <= Resets(events) + if After(l, b, events).broken then 1 else 0
    decreases |events|
  {
    if events != [] {
      IsolatedOncePerEpisode(l, b, events[..|events| - 1]);
    }
  }

  /** The isolation duration never leaves its limits. */
  lemma {:induction false} DurationInLimits(l: Limits, b: Breaker, events: seq<Event>)
    requires 0 <= l.minMs <= b.duration <= l.maxMs
    ensures l.minMs <= After(l, b, events).duration <= l.maxMs
    decreases |events|
  {
    if events != [] { DurationInLimits(l, b, events[..|events| - 1]); }
  }

  // ---- the objects ----

  class EmaErrorRecorder {
    const c: Config
    var samples: nat
    var errors: nat
    var cost: nat
    var latency: nat

    constructor (c: Config)
      ensures this.c == c && Model() == FRESH
    {
      this.c := c;
      samples, errors, cost, latency := 0, 0, 0, 0;
    }

    function Model(): Recorder
      reads this
    {
      Recorder(samples, errors, cost, latency)
    }

    method UpdateLatency(l: nat) returns (ema: nat)
      modifies this`latency
      ensures ema == latency == NextLatency(c, old(latency), l)
      ensures 0.0 < c.smooth < 1.0 ==> Least(old(latency), l) <= ema <= Most(old(latency), l)
    {
      if 0.0 < c.smooth < 1.0 { Between(c, latency, l, Least(latency, l), Most(latency, l)); }
      if latency == 0 {
        ema := l;
      } else {
        ema := Max0((latency as real * c.smooth + l as real * (1.0 - c.smooth)).Floor);
      }
      latency := ema;
    }

    method UpdateErrorCost(errorCost: nat, ema: nat) returns (healthy: bool)
      modifies this`cost
      ensures (cost, healthy) == Charge(c, old(cost), errorCost, ema)
      // a success is healthy and wears the cost down
      ensures errorCost == 0 && 0.0 < c.smooth < 1.0 ==> healthy && (cost < old(cost) || cost == 0)
      // an error costs at most a multiple of the average latency
      ensures errorCost > 0 && ema > 0 && c.multiple > 0 ==> old(cost) < cost <= old(cost) + ema * c.multiple
    {
      ChargeMeans(c, cost, errorCost, ema);
      var more := errorCost;
      if ema != 0 && ema * c.multiple < errorCost { more := ema * c.multiple; }
      if more != 0 {
        cost := cost + more;
        return cost <= MaxCost(c, ema);
      }
      assert Charged(c, errorCost, ema) == 0;
      cost := WornDown();
      return true;
    }

    /** The value an ordinary response stores. */
    method WornDown() returns (next: nat)
      ensures next == Decay(c, cost)
    {
      next := cost;
      if cost != 0 {
        if cost < c.minCost {
          next := 0;
        } else {
          next := Max0((cost as real * c.smooth).Floor);
        }
      }
    }

    method OnCallEnd(code: int, l: nat) returns (ok: bool)
      modifies this
      ensures (Model(), ok) == Record(c, old(Model()), code != 0, l)
    {
      var ema, healthy := latency, false;
      if code == 0 {
        ema := UpdateLatency(l);
        healthy := UpdateErrorCost(0, ema);
      } else {
        healthy := UpdateErrorCost(l, ema);
      }
      if samples < c.window {
        samples := samples + 1;
        if code != 0 {
          errors := errors + 1;
          return errors - 1 < c.window * c.percent / 100;
        }
        return true;
      }
      return healthy;
    }

    method Reset()
      modifies this
      ensures Model() == ResetRecorder(c, old(Model()))
    {
      if samples < c.window {
        samples, errors, latency := 0, 0, 0;
      }
      cost := 0;
    }
  }

  class CircuitBreakerObject {
    const l: Limits
    const long: EmaErrorRecorder
    const short: EmaErrorRecorder
    var lastReset: int
    var duration: int
    var times: nat
    var broken: bool

    ghost predicate Valid()
      reads this
    {
      long.c == l.long && short.c == l.short && long != short
    }

    function Model(): Breaker
      reads this, long, short
    {
      Breaker(long.Model(), short.Model(), lastReset, duration, times, broken)
    }

    constructor (l: Limits)
      ensures Valid() && this.l == l && fresh(long) && fresh(short)
      ensures Model() == Breaker(FRESH, FRESH, 0, l.minMs, 0, false)
    {
      this.l := l;
      long := new EmaErrorRecorder(l.long);
      short := new EmaErrorRecorder(l.short);
      lastReset, duration, times, broken := 0, l.minMs, 0, false;
    }

    method MarkAsBroken(now: int)
      requires Valid()
      modifies this
      ensures Model() == Mark(l, old(Model()), now)
      ensures broken && times == old(times) + (if old(broken) then 0 else 1)
      ensures 0 <= l.minMs <= old(duration) <= l.maxMs ==> l.minMs <= duration <= l.maxMs
    {
      var was := broken;
      broken := true;
      if !was {
        times := times + 1;
        UpdateIsolationDuration(now);
      }
    }

    method UpdateIsolationDuration(now: int)
      modifies this`duration
      ensures duration == NextDuration(l, old(Model()), now)
      ensures 0 <= l.minMs <= old(duration) <= l.maxMs ==>
        l.minMs <= duration <= l.maxMs && (now - lastReset < l.maxMs ==> old(duration) <= duration)
    {
      if now - lastReset < l.maxMs {
        duration := if duration * 2 < l.maxMs then duration * 2 else l.maxMs;
      } else {
        duration := l.minMs;
      }
    }

    method OnCallEnd(code: int, latency: nat, now: int) returns (ok: bool)
      requires Valid()
      modifies this, long, short
      ensures Valid() && (Model(), ok) == EndCall(l, old(Model()), code, latency, now)
    {
      if code == ELIMIT { return true; }
      if broken { return false; }
      ok := long.OnCallEnd(code, latency);
      if ok {
        ok := short.OnCallEnd(code, latency);
        if ok { return; }
      }
      MarkAsBroken(now);
    }

    method Reset(now: int)
      requires Valid()
      modifies this, long, short
      ensures Valid() && Model() == Next(l, old(Model()), WasReset(now))
    {
      long.Reset();
      short.Reset();
      lastReset, broken := now, false;
    }
  }
}

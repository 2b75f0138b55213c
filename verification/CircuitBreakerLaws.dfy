/**
 * When the circuit breaker trips, what its averages remember, and what a reset restores
 * (brpc/brpc/circuit_breaker.cpp).
 */
module CircuitBreakerLaws {
  import opened CircuitBreaker

  // ---- past the first window ----

  /** The cost an error adds: its latency, up to a multiple of the average latency if there is one. */
  function AddedCost(c: Config, average: nat, latency: nat): nat {
    if average == 0 || latency <= average * c.multiple then latency else average * c.multiple
  }

  lemma {:induction false} FloorBound(n: nat, x: real)
    ensures n <= x.Floor <==> n as real <= x
  {}

  lemma {:induction false} Hundredfold(x: real, y: real, p: real, z: real)
    ensures x <= y * (p / 100.0) * z <==> 100.0 * x <= y * p * z
  {
    assert y * (p / 100.0) * z * 100.0 == y * p * z by {
      assert p / 100.0 * 100.0 == p;
      Regroup(y, p / 100.0, z);
    }
  }

  lemma {:induction false} Regroup(y: real, q: real, z: real)
    ensures y * q * z * 100.0 == y * (q * 100.0) * z
  {}

  /** In any window: a success moves the average latency and wears the error cost down, an error adds to
      the cost and leaves the latency; one without cost counts as ordinary there. */
  lemma {:induction false} CallIsKept(c: Config, r: Recorder, error: bool, latency: nat)
    ensures var t := Record(c, r, error, latency).0; var added := AddedCost(c, r.latency, latency);
      && t.latency == (if error then r.latency else NextLatency(c, r.latency, latency))
      && t.cost == (if error && added > 0 then r.cost + added else Decay(c, r.cost))
      && t.samples == (if r.samples < c.window then r.samples + 1 else r.samples)
      && t.errors == (if r.samples < c.window && error then r.errors + 1 else r.errors)
  {
    if !error { assert Charged(c, 0, NextLatency(c, r.latency, latency)) == 0; }
  }

  /**
   * Past its first window a recorder accepts every success, and accepts an error that costs anything iff
   * a hundred times the new error cost is at most average latency times window size times tolerated
   * percentage times (1 + epsilon).
   */
  lemma {:induction false} VerdictPastFirstWindow(c: Config, r: Recorder, error: bool, latency: nat)
    requires r.samples >= c.window
    ensures var added := AddedCost(c, r.latency, latency);
      Record(c, r, error, latency).1 <==>
        !error || added == 0 ||
        100.0 * (r.cost + added) as real <= (r.latency * c.window) as real * c.percent as real * (1.0 + c.epsilon)
  {
    if error {
      var cost, y := r.cost + AddedCost(c, r.latency, latency), (r.latency * c.window) as real;
      assert y == r.latency as real * c.window as real;
      FloorBound(cost, y * (c.percent as real / 100.0) * (1.0 + c.epsilon));
      Hundredfold(cost as real, y, c.percent as real, 1.0 + c.epsilon);
    } else {
      assert Charged(c, 0, NextLatency(c, r.latency, latency)) == 0;
    }
  }

  function ErrorsOf(latency: nat, n: nat): seq<Call> { seq(n, _ => Call(true, latency)) }

  lemma {:induction false} ErrorsTail(latency: nat, n: nat)
    requires n > 0
    ensures ErrorsOf(latency, n)[0] == Call(true, latency) && ErrorsOf(latency, n)[1..] == ErrorsOf(latency, n - 1)
  {}

  /** Dividing both sides by the latency. */
  lemma {:induction false} PerCall(n: nat, latency: nat, window: nat, pz: real)
    requires latency > 0
    ensures 100.0 * (n * latency) as real <= (latency * window) as real * pz <==> 100.0 * n as real <= window as real * pz
  {
    var L := latency as real;
    assert (n * latency) as real == n as real * L && (latency * window) as real == L * window as real;
    Cancels(100.0 * n as real, window as real * pz, L);
    assert 100.0 * (n as real * L) == 100.0 * n as real * L && L * window as real * pz == window as real * pz * L;
  }

  lemma {:induction false} Cancels(x: real, y: real, k: real)
    requires k > 0.0
    ensures x * k <= y * k <==> x <= y
  {
    if x <= y { ScaleDown(x, y, k); } else { assert (x - y) * k > 0.0; }
  }

  /** The m-th of several errors with the average's latency, after m - 1 were accepted. */
  lemma {:induction false} ErrorsFrom(c: Config, r: Recorder, m: nat, n: nat)
    requires r.samples >= c.window && r.latency > 0 && c.multiple >= 1 && r.cost == m * r.latency && 0.0 <= c.epsilon
    ensures AllHealthy(c, r, ErrorsOf(r.latency, n)) <==>
      n == 0 || 100.0 * (m + n) as real <= c.window as real * (c.percent as real * (1.0 + c.epsilon))
    decreases n
  {
    if n > 0 {
      var L, pz := r.latency, c.percent as real * (1.0 + c.epsilon);
      ErrorsTail(L, n);
      CallIsKept(c, r, true, L);
      VerdictPastFirstWindow(c, r, true, L);
      Multiple(L, c.multiple);
      assert AddedCost(c, L, L) == L;
      var next := r.(cost := r.cost + L);
      assert next.cost == (m + 1) * L by { assert (m + 1) * L == m * L + L; }
      PerCall(m + 1, L, c.window, pz);
      assert (L * c.window) as real * c.percent as real * (1.0 + c.epsilon) == (L * c.window) as real * pz;
      ErrorsFrom(c, next, m + 1, n - 1);
    }
  }

  lemma {:induction false} Multiple(a: nat, k: nat)
    requires k >= 1
    ensures a <= a * k
  {}

  /**
   * The counterpart of the first window: starting without error cost, n errors in a row as slow as the
   * average are all accepted iff n is at most the tolerated share of the window times (1 + epsilon).
   */
  lemma {:induction false} ErrorsInARow(c: Config, r: Recorder, n: nat)
    requires r.samples >= c.window && r.cost == 0 && r.latency > 0 && c.multiple >= 1 && 0.0 <= c.epsilon
    ensures AllHealthy(c, r, ErrorsOf(r.latency, n)) <==>
      100.0 * n as real <= c.window as real * (c.percent as real * (1.0 + c.epsilon))
  {
    ErrorsFrom(c, r, 0, n);
    if n == 0 {
      NonNeg(c.percent as real, 1.0 + c.epsilon);
      NonNeg(c.window as real, c.percent as real * (1.0 + c.epsilon));
    }
  }

  // ---- what the averages remember ----

  /** The exact average after one more sample. */
  function Blend(c: Config, average: real, x: nat): real { average * c.smooth + x as real * (1.0 - c.smooth) }

  /** The exponential average over the reals, without rounding. */
  function ExactAverage(c: Config, samples: seq<nat>): real {
    if samples == [] then 0.0
    else
      var n := |samples| - 1;
      if n == 0 then samples[0] as real
      else Blend(c, ExactAverage(c, samples[..n]), samples[n])
  }

  /** Rounded down by less than m. */
  predicate Near(exact: real, rounded: nat, m: real) { 0.0 <= exact - rounded as real < m }

  /** Scaling down a difference below m leaves it at least 1 below m. */
  lemma {:induction false} ScaledGap(e: real, a: real, s: real, m: real)
    requires 0.0 < s && m * s + 1.0 <= m && 0.0 <= e - a < m
    ensures 0.0 <= (e - a) * s <= m - 1.0
  {
    NonNeg(e - a, s);
    ScaleDown(e - a, m, s);
  }

  lemma {:induction false} Distributes(e: real, a: real, s: real)
    ensures (e - a) * s == e * s - a * s
  {}

  lemma {:induction false} BlendGap(c: Config, e: real, a: real, x: nat, m: real)
    requires 0.0 < c.smooth && m * c.smooth + 1.0 <= m && 0.0 <= e - a < m
    ensures 0.0 <= Blend(c, e, x) - Blend(c, a, x) <= m - 1.0
  {
    ScaledGap(e, a, c.smooth, m);
    Distributes(e, a, c.smooth);
  }

  lemma {:induction false} NextIsFloor(c: Config, a: nat, x: nat)
    requires 0.0 < c.smooth < 1.0 && a > 0
    ensures Blend(c, a as real, x) >= 0.0 && NextLatency(c, a, x) == Blend(c, a as real, x).Floor
  {
    NonNeg(x as real, 1.0 - c.smooth);
    NonNeg(a as real, c.smooth);
  }

  lemma {:induction false} Rounded(z: real, y: real, m: real)
    requires y >= 0.0 && 0.0 <= z - y <= m - 1.0
    ensures y.Floor >= 0 && Near(z, y.Floor, m)
  {}

  lemma {:induction false} SampleStep(c: Config, exact: real, a: nat, x: nat, m: real)
    requires 0.0 < c.smooth < 1.0 && m * c.smooth + 1.0 <= m && Near(exact, a, m) && a > 0
    ensures Near(Blend(c, exact, x), NextLatency(c, a, x), m)
  {
    NextIsFloor(c, a, x);
    BlendGap(c, exact, a as real, x, m);
    Rounded(Blend(c, exact, x), Blend(c, a as real, x), m);
  }

  lemma {:induction false} DecayRounds(c: Config, x: nat, y: real)
    requires 0.0 < c.smooth && x >= c.minCost && y == x as real * c.smooth
    ensures y >= 0.0 && Decay(c, x) == y.Floor
  {
    NonNeg(x as real, c.smooth);
  }

  /** As long as no latency is 0, the average is the exact one rounded down by less than m, for every m
      with m * smooth + 1 <= m, such as 1 / (1 - smooth). */
  lemma {:induction false} AverageIsExponential(c: Config, samples: seq<nat>, m: real)
    requires Sane(c) && m * c.smooth + 1.0 <= m && m > 0.0
    requires samples != [] && forall i :: 0 <= i < |samples| ==> samples[i] > 0
    ensures Near(ExactAverage(c, samples), Average(c, samples), m)
    decreases |samples|
  {
    var n := |samples| - 1;
    var init := samples[..n];
    if n > 0 {
      AverageIsExponential(c, init, m);
      PositiveAverage(c, init);
      SampleStep(c, ExactAverage(c, init), Average(c, init), samples[n], m);
    }
  }

  lemma {:induction false} PositiveAverage(c: Config, samples: seq<nat>)
    requires Sane(c) && samples != [] && forall i :: 0 <= i < |samples| ==> samples[i] > 0
    ensures Average(c, samples) > 0
    decreases |samples|
  {
    var n := |samples| - 1;
    if n > 0 { PositiveAverage(c, samples[..n]); }
    Between(c, Average(c, samples[..n]), samples[n], 1, samples[n] + Average(c, samples[..n]));
  }

  /** A success scales the error cost by smooth and rounds it down; below the minimum nothing is kept. */
  lemma {:induction false} CostIsScaled(c: Config, cost: nat)
    requires 0.0 < c.smooth
    ensures cost < c.minCost ==> Decay(c, cost) == 0
    ensures cost >= c.minCost ==> 0.0 <= cost as real * c.smooth - Decay(c, cost) as real < 1.0
  {
    if cost >= c.minCost { DecayRounds(c, cost, cost as real * c.smooth); }
  }

  // ---- the breaker ----

  /** Calls with codes and latencies, none of them ELIMIT. */
  predicate AllAccepted(l: Limits, b: Breaker, calls: seq<Call>, now: int)
    decreases |calls|
  {
    calls == [] ||
    (var (next, ok) := EndCall(l, b, if calls[0].error then 1 else 0, calls[0].latency, now);
     ok && AllAccepted(l, next, calls[1..], now))
  }

  lemma {:induction false} BothWindows(l: Limits, b: Breaker, calls: seq<Call>, now: int)
    requires !b.broken
    ensures AllAccepted(l, b, calls, now) <==> AllHealthy(l.long, b.long, calls) && AllHealthy(l.short, b.short, calls)
    decreases |calls|
  {
    if calls != [] {
      var code := if calls[0].error then 1 else 0;
      var (next, ok) := EndCall(l, b, code, calls[0].latency, now);
      if ok { BothWindows(l, next, calls[1..], now); }
    }
  }

  /** In the first windows the breaker stays closed iff the errors exceed neither window's share. */
  lemma {:induction false} BreakerFirstWindows(l: Limits, b: Breaker, calls: seq<Call>, now: int)
    requires !b.broken && b.long == FRESH && b.short == FRESH && |calls| <= l.long.window && |calls| <= l.short.window
    ensures AllAccepted(l, b, calls, now) <==> Errors(calls) <= Tolerated(l.long) && Errors(calls) <= Tolerated(l.short)
  {
    BothWindows(l, b, calls, now);
    FirstWindow(l.long, calls);
    FirstWindow(l.short, calls);
  }

  /** After a reset the breaker is closed and without error cost, so the next success is accepted and the
      next error is judged as if no error had come before. */
  lemma {:induction false} ResetReopens(l: Limits, b: Breaker, at: int, latency: nat, now: int)
    ensures var t := Next(l, b, WasReset(at));
      && !t.broken && t.lastReset == at && t.long.cost == 0 && t.short.cost == 0
      && t.times == b.times && t.duration == b.duration
      && (b.long.samples < l.long.window ==> t.long == FRESH) && (b.short.samples < l.short.window ==> t.short == FRESH)
      && EndCall(l, t, 0, latency, now).1
  {
    var t := Next(l, b, WasReset(at));
    assert Charged(l.long, 0, NextLatency(l.long, t.long.latency, latency)) == 0;
    assert Charged(l.short, 0, NextLatency(l.short, t.short.latency, latency)) == 0;
  }

  /** Rounds of a reset and a later break, with their times. */
  function Rounds(l: Limits, b: Breaker, times: seq<(int, int)>): Breaker
    decreases |times|
  {
    if times == [] then b
    else
      var n := |times| - 1;
      Next(l, Next(l, Rounds(l, b, times[..n]), WasReset(times[n].0)), Marked(times[n].1))
  }

  function Doubled(d: int, n: nat): int { if n == 0 then d else 2 * Doubled(d, n - 1) }

  lemma {:induction false} DoubledGrows(d: int, n: nat)
    requires d >= 0
    ensures Doubled(d, n) >= 0
  {
    if n > 0 { DoubledGrows(d, n - 1); }
  }

  /** Breaking again soon after each reset doubles the isolation every time, up to the maximum; breaking
      after a long time starts again with the minimum. */
  lemma {:induction false} IsolationDoubles(l: Limits, b: Breaker, times: seq<(int, int)>)
    requires 0 <= b.duration <= l.maxMs && forall i :: 0 <= i < |times| ==> times[i].1 - times[i].0 < l.maxMs
    ensures var d := Doubled(b.duration, |times|);
      Rounds(l, b, times).duration == if d < l.maxMs then d else l.maxMs
    decreases |times|
  {
    if times != [] {
      IsolationDoubles(l, b, times[..|times| - 1]);
      DoubledGrows(b.duration, |times| - 1);
    }
  }

  lemma {:induction false} LateBreakIsShort(l: Limits, b: Breaker, at: int, now: int)
    requires now - at >= l.maxMs
    ensures Next(l, Next(l, b, WasReset(at)), Marked(now)).duration == l.minMs
  {}
}

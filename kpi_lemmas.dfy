/**
 * Properties of the KPI snapshot across several mutator calls: reset, last
 * write wins, counters as net sums, the subscription floor, the running mean
 * and the bounds of the hit ratio.
 */
module KpiLemmas {
  import opened Wrappers
  import opened Kpi

  /** `reset` installs zero counters, no timings and an empty manual record. */
  lemma ResetState()
    ensures forall k :: k !in {StartupMs, HomeDataMs, ForecastDataMs} ==> Metric(InitialState, k) == Num(0.0)
    ensures Metric(InitialState, StartupMs) == Metric(InitialState, HomeDataMs) == Metric(InitialState, ForecastDataMs) == Absent
    ensures InitialState.manual == map[]
    ensures HitRatio(InitialState).None?
  {
  }

  /** Two `setMetric` calls on the same key: the second value wins and nothing else is touched. */
  lemma SecondWriteWins(s: KPIs, k: MetricKey, first: real, second: real)
    ensures WithMetric(WithMetric(s, k, first), k, second) == WithMetric(s, k, second)
  {
  }

  /** `setManual` affects no reading other than the `manual` record. */
  lemma ManualOnlyVisibleAsRecord(s: KPIs, id: string, v: ManualValue, key: string)
    requires key != "manual"
    ensures ValueOf(WithManual(s, id, v), key) == ValueOf(s, key)
  {
  }

  /** A manual annotation is not reachable through `getValue` by its own id. */
  lemma ManualNotSearched(s: KPIs, id: string)
    requires id in s.manual
    requires id != "cacheHitRatio" && id != "manual" && MetricNamed(id).None?
    ensures ValueOf(s, id) == Value(Absent)
  {
  }

  // ----- counter operations in sequence -----

  datatype CounterOp = IncHttpOp | IncCacheHitOp | IncCacheMissOp | IncSubOp | DecSubOp

  function ApplyOp(s: KPIs, op: CounterOp): KPIs {
    match op
    case IncHttpOp => IncrementHttp(s)
    case IncCacheHitOp => IncrementCacheHit(s)
    case IncCacheMissOp => IncrementCacheMiss(s)
    case IncSubOp => IncrementSubscriptions(s)
    case DecSubOp => DecrementSubscriptions(s)
  }

  function ApplyOps(s: KPIs, ops: seq<CounterOp>): KPIs
    decreases |ops|
  {
    if ops == [] then s else ApplyOps(ApplyOp(s, ops[0]), ops[1..])
  }

  function Count(ops: seq<CounterOp>, op: CounterOp): nat {
    if ops == [] then 0 else (if ops[0] == op then 1 else 0) + Count(ops[1..], op)
  }

  /** The three traffic counters end at their start value plus the number of matching operations. */
  lemma {:induction false} CountersAreNetSums(s: KPIs, ops: seq<CounterOp>)
    ensures ApplyOps(s, ops).httpRequests == s.httpRequests + Count(ops, IncHttpOp) as real
    ensures ApplyOps(s, ops).cacheHit == s.cacheHit + Count(ops, IncCacheHitOp) as real
    ensures ApplyOps(s, ops).cacheMiss == s.cacheMiss + Count(ops, IncCacheMissOp) as real
    ensures SameExcept(s, ApplyOps(s, ops), {HttpRequests, CacheHit, CacheMiss, ActiveSubscriptions})
    decreases |ops|
  {
    if ops != [] {
      CountersAreNetSums(ApplyOp(s, ops[0]), ops[1..]);
    }
  }

  /**
   * From a non-negative count, `activeSubscriptions` never drops below zero; it
   * is at least the net balance of `incSub` over `decSub` and at most the
   * start plus the number of `incSub`.
   */
  lemma {:induction false} SubscriptionsStayNonNegative(s: KPIs, ops: seq<CounterOp>)
    requires s.activeSubscriptions >= 0.0
    ensures ApplyOps(s, ops).activeSubscriptions >= 0.0
    ensures ApplyOps(s, ops).activeSubscriptions
         >= s.activeSubscriptions + (Count(ops, IncSubOp) - Count(ops, DecSubOp)) as real
    ensures ApplyOps(s, ops).activeSubscriptions <= s.activeSubscriptions + Count(ops, IncSubOp) as real
    decreases |ops|
  {
    if ops != [] {
      SubscriptionsStayNonNegative(ApplyOp(s, ops[0]), ops[1..]);
    }
  }

  // ----- running mean -----

  function Sum(xs: seq<real>): real {
    if xs == [] then 0.0 else xs[0] + Sum(xs[1..])
  }

  /** `addInputSample` called once per element of `xs`, in order. */
  function AddSamples(s: KPIs, xs: seq<real>): (r: KPIs)
    requires s.inputSamples >= 0.0
    ensures r.inputSamples == s.inputSamples + |xs| as real
    decreases |xs|
  {
    if xs == [] then s else AddSamples(WithInputSample(s, xs[0]), xs[1..])
  }

  /** The total of all samples folded into the average so far. */
  function WeightedSum(s: KPIs): real {
    s.avgInputHandlerMs * s.inputSamples
  }

  /** The weighted total `avg * samples` grows by exactly the sum of the samples. */
  lemma {:induction false} WeightedTotal(s: KPIs, xs: seq<real>)
    requires s.inputSamples >= 0.0
    ensures WeightedSum(AddSamples(s, xs)) == WeightedSum(s) + Sum(xs)
    ensures SameExcept(s, AddSamples(s, xs), {AvgInputHandlerMs, InputSamples})
    decreases |xs|
  {
    if xs != [] {
      WeightedTotal(WithInputSample(s, xs[0]), xs[1..]);
    }
  }

  /** After N samples from the initial state the average is the arithmetic mean of the samples. */
  lemma MeanFromInitialState(xs: seq<real>)
    requires |xs| > 0
    ensures AddSamples(InitialState, xs).inputSamples == |xs| as real
    ensures AddSamples(InitialState, xs).avgInputHandlerMs == Sum(xs) / |xs| as real
  {
    MeanFromEmpty(InitialState, xs);
  }

  lemma MeanFromEmpty(s: KPIs, xs: seq<real>)
    requires s.inputSamples == 0.0 && |xs| > 0
    ensures AddSamples(s, xs).avgInputHandlerMs == Sum(xs) / |xs| as real
  {
    var r := AddSamples(s, xs);
    WeightedTotal(s, xs);
    assert WeightedSum(s) == 0.0;
    assert r.inputSamples == |xs| as real;
    assert WeightedSum(r) == Sum(xs);
    AverageOfTotal(r, Sum(xs));
  }

  lemma AverageOfTotal(s: KPIs, total: real)
    requires s.inputSamples != 0.0 && WeightedSum(s) == total
    ensures s.avgInputHandlerMs == total / s.inputSamples
  {
  }

  lemma {:induction false} SumOfConstant(c: real, n: nat)
    ensures Sum(seq(n, _ => c)) == n as real * c
  {
    if n > 0 {
      var xs := seq(n, _ => c);
      assert xs[0] == c && xs[1..] == seq(n - 1, _ => c);
      SumOfConstant(c, n - 1);
    }
  }

  /** N equal samples average to that sample (e.g. 100 samples of 10 ms give 10 ms). */
  lemma ConstantSamples(c: real, n: nat)
    requires n > 0
    ensures AddSamples(InitialState, seq(n, _ => c)).avgInputHandlerMs == c
    ensures AddSamples(InitialState, seq(n, _ => c)).inputSamples == n as real
  {
    SumOfConstant(c, n);
    MeanFromInitialState(seq(n, _ => c));
  }

  // ----- hit ratio -----

  /** With non-negative counters and at least one lookup, the ratio is a percentage. */
  lemma RatioInRange(s: KPIs)
    requires s.cacheHit >= 0.0 && s.cacheMiss >= 0.0 && s.cacheHit + s.cacheMiss > 0.0
    ensures HitRatio(s).Some? && 0 <= HitRatio(s).value <= 100
    ensures s.cacheMiss == 0.0 ==> HitRatio(s).value == 100
    ensures s.cacheHit == 0.0 ==> HitRatio(s).value == 0
  {
    var d := s.cacheHit + s.cacheMiss;
    var p := 100.0 * s.cacheHit / d;
    assert p * d == 100.0 * s.cacheHit;
    assert 0.0 <= p <= 100.0;
    if s.cacheMiss == 0.0 {
      assert p == 100.0;
    }
  }

  /** `q = (200h + d) / (2d)` lies within half a unit of `100h / d`, scaled by `2d`. */
  lemma IntegerRounding(hit: nat, d: nat)
    requires d > 0
    ensures var q := (200 * hit + d) / (2 * d);
      (2 * q - 1) * d <= 200 * hit < (2 * q + 1) * d
  {
    var q := (200 * hit + d) / (2 * d);
    var rem := (200 * hit + d) % (2 * d);
    assert 200 * hit + d == q * (2 * d) + rem && 0 <= rem < 2 * d;
  }

  /** An integer within half a unit of `x`, with halves rounded up, is `Round(x)`. */
  lemma RoundUnique(x: real, q: int)
    requires q as real - 0.5 <= x < q as real + 0.5
    ensures Round(x) == q
  {
  }

  /** For whole counts the ratio is the integer rounding `(200 * hit + d) / (2 * d)` with `d = hit + miss`. */
  lemma RatioOfWholeCounts(s: KPIs, hit: nat, miss: nat)
    requires s.cacheHit == hit as real && s.cacheMiss == miss as real && hit + miss > 0
    ensures HitRatio(s) == Some((200 * hit + (hit + miss)) / (2 * (hit + miss)))
  {
    var d := hit + miss;
    var q := (200 * hit + d) / (2 * d);
    IntegerRounding(hit, d);
    var lo, hi := (2 * q - 1) * d, (2 * q + 1) * d;
    assert lo as real <= 200.0 * hit as real < hi as real;
    var p := 100.0 * s.cacheHit / (s.cacheHit + s.cacheMiss);
    HalfUnitBounds(p, hit as real, d as real, q as real);
    var r := HitRatio(s).value;
    assert r as real - 0.5 <= p < r as real + 0.5;
    RoundUnique(p, q);
    RoundUnique(p, r);
  }

  lemma HalfUnitBounds(p: real, hit: real, d: real, q: real)
    requires d > 0.0 && p == 100.0 * hit / d
    requires (2.0 * q - 1.0) * d <= 200.0 * hit < (2.0 * q + 1.0) * d
    ensures q - 0.5 <= p < q + 0.5
  {
    assert p * d == 100.0 * hit;
    CancelPositive(2.0 * q - 1.0, 2.0 * p, d);
    CancelPositiveStrict(2.0 * p, 2.0 * q + 1.0, d);
  }

  lemma CancelPositive(a: real, b: real, d: real)
    requires d > 0.0 && a * d <= b * d
    ensures a <= b
  {
  }

  lemma CancelPositiveStrict(a: real, b: real, d: real)
    requires d > 0.0 && a * d < b * d
    ensures a < b
  {
  }
}

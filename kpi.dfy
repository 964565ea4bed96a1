/**
 * The KPI state container: one immutable `KPIs` snapshot, the pure record
 * copies its mutators install, the two derived reads (`cacheHitRatio` and
 * `getValue`) and the `KpiService` object whose single field holds the snapshot.
 */
module Kpi {
  import opened Wrappers

  /** A KPI reading as the display layer receives it: `undefined`, `null`, a number, a string or a boolean. */
  datatype KpiValue = Absent | Null | Num(n: real) | Str(s: string) | Bool(b: bool)

  /** A manual annotation: `number | string | boolean | null`, never `undefined`. */
  type ManualValue = v: KpiValue | !v.Absent? witness Null

  /** The snapshot. Every JS `number` is an exact `real`; the three timings are optional. */
  datatype KPIs = KPIs(
    startupMs: Option<real>,
    homeDataMs: Option<real>,
    forecastDataMs: Option<real>,
    httpRequests: real,
    cacheHit: real,
    cacheMiss: real,
    activeSubscriptions: real,
    avgInputHandlerMs: real,
    inputSamples: real,
    renderItems: real,
    manual: map<string, ManualValue>)

  /** `keyof Omit<KPIs, 'manual'>`: the numeric fields of a snapshot. */
  datatype MetricKey =
    | StartupMs | HomeDataMs | ForecastDataMs
    | HttpRequests | CacheHit | CacheMiss | ActiveSubscriptions
    | AvgInputHandlerMs | InputSamples | RenderItems

  /** What `getValue` hands back: a scalar reading, or the whole `manual` record. */
  datatype Lookup = Value(v: KpiValue) | ManualRecord(record: map<string, ManualValue>)

  /** The snapshot the service starts with and `reset` restores. */
  const InitialState: KPIs := KPIs(None, None, None, 0.0, 0.0, 0.0, 0.0, 0.0, 0.0, 0.0, map[])

  function OptionalNum(o: Option<real>): KpiValue {
    if o.Some? then Num(o.value) else Absent
  }

  /** The value found at field `k` of the snapshot; an unset timing reads as `undefined`. */
  function Metric(s: KPIs, k: MetricKey): KpiValue {
    match k
    case StartupMs => OptionalNum(s.startupMs)
    case HomeDataMs => OptionalNum(s.homeDataMs)
    case ForecastDataMs => OptionalNum(s.forecastDataMs)
    case HttpRequests => Num(s.httpRequests)
    case CacheHit => Num(s.cacheHit)
    case CacheMiss => Num(s.cacheMiss)
    case ActiveSubscriptions => Num(s.activeSubscriptions)
    case AvgInputHandlerMs => Num(s.avgInputHandlerMs)
    case InputSamples => Num(s.inputSamples)
    case RenderItems => Num(s.renderItems)
  }

  /** `r` differs from `s` at most in the numeric fields named in `ks`. */
  ghost predicate SameExcept(s: KPIs, r: KPIs, ks: set<MetricKey>) {
    r.manual == s.manual && forall j :: j !in ks ==> Metric(r, j) == Metric(s, j)
  }

  /** The property name of each numeric field. */
  function Name(k: MetricKey): string {
    match k
    case StartupMs => "startupMs"
    case HomeDataMs => "homeDataMs"
    case ForecastDataMs => "forecastDataMs"
    case HttpRequests => "httpRequests"
    case CacheHit => "cacheHit"
    case CacheMiss => "cacheMiss"
    case ActiveSubscriptions => "activeSubscriptions"
    case AvgInputHandlerMs => "avgInputHandlerMs"
    case InputSamples => "inputSamples"
    case RenderItems => "renderItems"
  }

  /** The numeric field called `name`, if there is one. */
  function MetricNamed(name: string): (r: Option<MetricKey>)
    ensures r.Some? ==> Name(r.value) == name
    ensures forall k :: Name(k) == name ==> r == Some(k)
  {
    if name == "startupMs" then Some(StartupMs)
    else if name == "homeDataMs" then Some(HomeDataMs)
    else if name == "forecastDataMs" then Some(ForecastDataMs)
    else if name == "httpRequests" then Some(HttpRequests)
    else if name == "cacheHit" then Some(CacheHit)
    else if name == "cacheMiss" then Some(CacheMiss)
    else if name == "activeSubscriptions" then Some(ActiveSubscriptions)
    else if name == "avgInputHandlerMs" then Some(AvgInputHandlerMs)
    else if name == "inputSamples" then Some(InputSamples)
    else if name == "renderItems" then Some(RenderItems)
    else None
  }

  // ----- record copies installed by the mutators -----

  function IncrementHttp(s: KPIs): (r: KPIs)
    ensures r.httpRequests == s.httpRequests + 1.0
    ensures SameExcept(s, r, {HttpRequests})
  {
    s.(httpRequests := s.httpRequests + 1.0)
  }

  function IncrementCacheHit(s: KPIs): (r: KPIs)
    ensures r.cacheHit == s.cacheHit + 1.0
    ensures SameExcept(s, r, {CacheHit})
  {
    s.(cacheHit := s.cacheHit + 1.0)
  }

  function IncrementCacheMiss(s: KPIs): (r: KPIs)
    ensures r.cacheMiss == s.cacheMiss + 1.0
    ensures SameExcept(s, r, {CacheMiss})
  {
    s.(cacheMiss := s.cacheMiss + 1.0)
  }

  function IncrementSubscriptions(s: KPIs): (r: KPIs)
    ensures r.activeSubscriptions == s.activeSubscriptions + 1.0
    ensures SameExcept(s, r, {ActiveSubscriptions})
  {
    s.(activeSubscriptions := s.activeSubscriptions + 1.0)
  }

  /** `Math.max(0, activeSubscriptions - 1)`. */
  function DecrementSubscriptions(s: KPIs): (r: KPIs)
    ensures r.activeSubscriptions >= 0.0
    ensures s.activeSubscriptions >= 1.0 ==> r.activeSubscriptions == s.activeSubscriptions - 1.0
    ensures s.activeSubscriptions <= 1.0 ==> r.activeSubscriptions == 0.0
    ensures SameExcept(s, r, {ActiveSubscriptions})
  {
    var lowered := s.activeSubscriptions - 1.0;
    s.(activeSubscriptions := if lowered > 0.0 then lowered else 0.0)
  }

  /** `{ ...s, [key]: value }`: overwrite one numeric field. */
  function WithMetric(s: KPIs, k: MetricKey, v: real): (r: KPIs)
    ensures Metric(r, k) == Num(v)
    ensures SameExcept(s, r, {k})
  {
    match k
    case StartupMs => s.(startupMs := Some(v))
    case HomeDataMs => s.(homeDataMs := Some(v))
    case ForecastDataMs => s.(forecastDataMs := Some(v))
    case HttpRequests => s.(httpRequests := v)
    case CacheHit => s.(cacheHit := v)
    case CacheMiss => s.(cacheMiss := v)
    case ActiveSubscriptions => s.(activeSubscriptions := v)
    case AvgInputHandlerMs => s.(avgInputHandlerMs := v)
    case InputSamples => s.(inputSamples := v)
    case RenderItems => s.(renderItems := v)
  }

  /**
   * One step of the incremental mean. The weighted total `avg * samples` grows
   * by exactly the new sample, which is what makes the average a true mean.
   * JS would divide by zero when `inputSamples` was set to -1; that input is excluded.
   */
  function WithInputSample(s: KPIs, ms: real): (r: KPIs)
    requires s.inputSamples != -1.0
    ensures r.inputSamples == s.inputSamples + 1.0
    ensures r.avgInputHandlerMs * r.inputSamples == s.avgInputHandlerMs * s.inputSamples + ms
    ensures SameExcept(s, r, {AvgInputHandlerMs, InputSamples})
  {
    var n := s.inputSamples + 1.0;
    var avg := s.avgInputHandlerMs + (ms - s.avgInputHandlerMs) / n;
    assert avg * n == s.avgInputHandlerMs * n + (ms - s.avgInputHandlerMs);
    s.(avgInputHandlerMs := avg, inputSamples := n)
  }

  /** `{ ...s, manual: { ...s.manual, [id]: value } }`. */
  function WithManual(s: KPIs, id: string, v: ManualValue): (r: KPIs)
    ensures id in r.manual && r.manual[id] == v
    ensures forall key :: key != id ==> (key in r.manual <==> key in s.manual)
    ensures forall key :: key != id && key in s.manual ==> r.manual[key] == s.manual[key]
    ensures forall j :: Metric(r, j) == Metric(s, j)
  {
    s.(manual := s.manual[id := v])
  }

  // ----- derived reads -----

  /** `Math.round`: the nearest integer, halves rounded up. */
  function Round(x: real): (r: int)
    ensures r as real - 0.5 <= x < r as real + 0.5
  {
    (x + 0.5).Floor
  }

  /** The `cacheHitRatio` computed: `null` without lookups, else the rounded hit percentage. */
  function HitRatio(s: KPIs): (r: Option<int>)
    ensures r.None? <==> s.cacheHit + s.cacheMiss == 0.0
    ensures r.Some? ==>
      r.value as real - 0.5 <= 100.0 * s.cacheHit / (s.cacheHit + s.cacheMiss) < r.value as real + 0.5
  {
    var denom := s.cacheHit + s.cacheMiss;
    if denom == 0.0 then None
    else
      assert s.cacheHit / denom * 100.0 == 100.0 * s.cacheHit / denom;
      Some(Round(s.cacheHit / denom * 100.0))
  }

  /** The ratio as a reading: `null` stays `null`. */
  function RatioValue(o: Option<int>): KpiValue {
    if o.Some? then Num(o.value as real) else Null
  }

  /** `getValue(key)`: the ratio, a top-level field, the manual record, or `undefined` for any other key. */
  function ValueOf(s: KPIs, key: string): (r: Lookup)
    ensures key == "cacheHitRatio" ==> r == Value(RatioValue(HitRatio(s)))
    ensures forall k :: key == Name(k) ==> r == Value(Metric(s, k))
    ensures key == "manual" ==> r == ManualRecord(s.manual)
    ensures key != "cacheHitRatio" && key != "manual" && MetricNamed(key).None? ==> r == Value(Absent)
  {
    if key == "cacheHitRatio" then Value(RatioValue(HitRatio(s)))
    else if key == "manual" then ManualRecord(s.manual)
    else
      match MetricNamed(key)
      case Some(k) => Value(Metric(s, k))
      case None => Value(Absent)
  }

  /** The service: its only state is the current snapshot, replaced wholesale by every mutator. */
  class KpiService {
    var state: KPIs

    constructor ()
      ensures state == InitialState
    {
      state := InitialState;
    }

    method CacheHitRatio() returns (r: Option<int>)
      ensures r == HitRatio(state)
    {
      r := HitRatio(state);
    }

    method Reset()
      modifies this
      ensures state == InitialState
    {
      state := InitialState;
    }

    method IncHttp()
      modifies this
      ensures state == IncrementHttp(old(state))
    {
      state := IncrementHttp(state);
    }

    method IncCacheHit()
      modifies this
      ensures state == IncrementCacheHit(old(state))
    {
      state := IncrementCacheHit(state);
    }

    method IncCacheMiss()
      modifies this
      ensures state == IncrementCacheMiss(old(state))
    {
      state := IncrementCacheMiss(state);
    }

    method IncSub()
      modifies this
      ensures state == IncrementSubscriptions(old(state))
    {
      state := IncrementSubscriptions(state);
    }

    method DecSub()
      modifies this
      ensures state == DecrementSubscriptions(old(state))
    {
      state := DecrementSubscriptions(state);
    }

    method SetMetric(k: MetricKey, v: real)
      modifies this
      ensures state == WithMetric(old(state), k, v)
    {
      state := WithMetric(state, k, v);
    }

    method AddInputSample(ms: real)
      requires state.inputSamples != -1.0
      modifies this
      ensures state == WithInputSample(old(state), ms)
    {
      state := WithInputSample(state, ms);
    }

    method SetManual(id: string, v: ManualValue)
      modifies this
      ensures state == WithManual(old(state), id, v)
    {
      state := WithManual(state, id, v);
    }

    method GetValue(key: string) returns (r: Lookup)
      ensures r == ValueOf(state, key)
    {
      r := ValueOf(state, key);
    }
  }
}

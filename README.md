# KPI metrics and request cache of the good/bad-practice demo app

A Dafny model of the metrics and caching core of an Ionic/Angular demo that compares
"good" and "bad" coding practice through a set of KPIs:

- **`KpiService`** (`kpi.dfy`, `kpi_lemmas.dfy`). A single-field state container.
  The field holds an immutable `KPIs` snapshot. Every mutator replaces the snapshot
  with a transformed copy:
  - counters `incHttp`, `incCacheHit`, `incCacheMiss`, `incSub`;
  - `decSub`, clamped at zero;
  - overwrites `setMetric` and `setManual`;
  - the running mean `addInputSample`;
  - `reset`.

  The two reads are the `cacheHitRatio` computed and `getValue`. The copies are pure
  functions (`IncrementHttp`, `WithMetric`, …). The `KpiService` class has one field,
  `state`, and its methods install those copies.
- **`SocialGoodService`** (`social.dfy`, `social_lemmas.dfy`). A cache with two parts:
  - an optional posts stream, stored as soon as it is requested;
  - a map from post id to comments, written only when a comments fetch emits.

  Hits and misses are counted through the KPI snapshot. The pure step functions
  `PostsLookup`, `CommentsLookup` and `Resolve` specify the class methods. Sequences of
  calls (`Run`) carry the multi-call properties.
- **`HomePage.filtered`** (`home.dfy`). A case-insensitive substring filter over posts,
  matching on title or body.
- **`SettingsPage.displayValue` / `sourceLabel`** (`settings.dfy`). Case dispatches that
  turn a KPI reading into text.

Modelling choices:
- Every KPI number is an exact `real`. The three optional timings are `Option<real>`.
  Post and comment ids, and the post id keying the comments map, are integers. The hit
  ratio is an integer, since `Math.round` returns one.
- A KPI reading is the tagged sum `Absent | Null | Num | Str | Bool`. `Absent` stands
  for `undefined`.
- The HTTP observable is an opaque `PostsStream` handle. The caller supplies it.
- `getComments` answers `Cached(list)` or `Pending(id)`. The `tap` that writes the map
  is the separate step `ResolveComments(id, list)`. A fetch that fails or never emits
  has no such step, so the map stays as it was.
- `getValue` takes any string, because at run time any string can reach it:
  - `"cacheHitRatio"` gives the ratio;
  - a top-level field name gives that field;
  - `"manual"` gives the whole manual record;
  - every other key gives `undefined`. The manual record is never searched.
- `displayValue` works on a reading that was already fetched. The settings page calls
  `kpi.getValueById`, which `KpiService` does not define (it has only `getValue`).
  So the model takes the value as an input.

## Model

| member | source | states |
|---|---|---|
| `Kpi.MetricNamed` | src/app/core/metrics/kpi.service.ts:3-15 | the property names of the numeric fields and the field keys correspond one to one, both ways |
| `Kpi.IncrementHttp` | src/app/core/metrics/kpi.service.ts:48-50 | `httpRequests` rises by exactly 1; every other field and `manual` unchanged |
| `Kpi.IncrementCacheHit` | src/app/core/metrics/kpi.service.ts:52-54 | `cacheHit` rises by exactly 1; nothing else changes |
| `Kpi.IncrementCacheMiss` | src/app/core/metrics/kpi.service.ts:56-58 | `cacheMiss` rises by exactly 1; nothing else changes |
| `Kpi.IncrementSubscriptions` | src/app/core/metrics/kpi.service.ts:60-62 | `activeSubscriptions` rises by exactly 1; nothing else changes |
| `Kpi.DecrementSubscriptions` | src/app/core/metrics/kpi.service.ts:64-69 | result is `max(0, activeSubscriptions - 1)`: never negative, one lower from 1 upwards, 0 below that; nothing else changes |
| `Kpi.WithMetric` | src/app/core/metrics/kpi.service.ts:72-74 | field `k` reads as the given number afterwards; every other field and `manual` unchanged |
| `Kpi.WithInputSample` | src/app/core/metrics/kpi.service.ts:76-82 | `inputSamples` rises by 1 and the weighted total `avg * samples` rises by exactly the new sample; no other field changes |
| `Kpi.WithManual` | src/app/core/metrics/kpi.service.ts:84-89 | `manual[id]` is the new value, every other manual key keeps its presence and value, no numeric field changes |
| `Kpi.Round` | src/app/core/metrics/kpi.service.ts:40 | `Math.round`: the result lies within half a unit of `x`, halves rounded up |
| `Kpi.HitRatio` | src/app/core/metrics/kpi.service.ts:37-41 | `null` exactly when `cacheHit + cacheMiss == 0`; otherwise the rounded value of `100 * hit / (hit + miss)` |
| `Kpi.ValueOf` | src/app/core/metrics/kpi.service.ts:92-95 | `"cacheHitRatio"` gives the ratio (`null` stays `null`), a field name gives that field, `"manual"` gives the record, any other key gives `undefined` |
| `Kpi.KpiService.constructor` | src/app/core/metrics/kpi.service.ts:31 | the service starts with the initial snapshot |
| `Kpi.KpiService.CacheHitRatio` | src/app/core/metrics/kpi.service.ts:37-41 | the computed reads the ratio of the current snapshot and changes nothing |
| `Kpi.KpiService.Reset` | src/app/core/metrics/kpi.service.ts:43-45 | the snapshot becomes the initial state |
| `Kpi.KpiService.IncHttp` | src/app/core/metrics/kpi.service.ts:48-50 | the snapshot is replaced by its `IncrementHttp` copy |
| `Kpi.KpiService.IncCacheHit` | src/app/core/metrics/kpi.service.ts:52-54 | the snapshot is replaced by its `IncrementCacheHit` copy |
| `Kpi.KpiService.IncCacheMiss` | src/app/core/metrics/kpi.service.ts:56-58 | the snapshot is replaced by its `IncrementCacheMiss` copy |
| `Kpi.KpiService.IncSub` | src/app/core/metrics/kpi.service.ts:60-62 | the snapshot is replaced by its `IncrementSubscriptions` copy |
| `Kpi.KpiService.DecSub` | src/app/core/metrics/kpi.service.ts:64-69 | the snapshot is replaced by its clamped `DecrementSubscriptions` copy |
| `Kpi.KpiService.SetMetric` | src/app/core/metrics/kpi.service.ts:72-74 | the snapshot is replaced by its `WithMetric` copy |
| `Kpi.KpiService.AddInputSample` | src/app/core/metrics/kpi.service.ts:76-82 | the snapshot is replaced by its `WithInputSample` copy |
| `Kpi.KpiService.SetManual` | src/app/core/metrics/kpi.service.ts:84-89 | the snapshot is replaced by its `WithManual` copy |
| `Kpi.KpiService.GetValue` | src/app/core/metrics/kpi.service.ts:92-95 | returns `ValueOf` of the current snapshot and changes nothing |
| `KpiLemmas.ResetState` | src/app/core/metrics/kpi.service.ts:17-26 | after reset every counter is 0, the three timings are absent, `manual` is empty and the ratio is `null` |
| `KpiLemmas.SecondWriteWins` | src/app/core/metrics/kpi.service.ts:72-74 | two `setMetric` calls on one key equal the second call alone |
| `KpiLemmas.ManualOnlyVisibleAsRecord` | src/app/core/metrics/kpi.service.ts:84-95 | `setManual` changes no `getValue` result except the one for `"manual"` |
| `KpiLemmas.ManualNotSearched` | src/app/core/metrics/kpi.service.ts:92-95 | a manual id that is neither a field name, `"manual"` nor `"cacheHitRatio"` reads as `undefined` |
| `KpiLemmas.CountersAreNetSums` | src/app/core/metrics/kpi.service.ts:48-69 | after any sequence of counter operations, `httpRequests`, `cacheHit` and `cacheMiss` equal their start plus the number of their increments; only the counters move |
| `KpiLemmas.SubscriptionsStayNonNegative` | src/app/core/metrics/kpi.service.ts:60-69 | from a non-negative start, `activeSubscriptions` stays >= 0. It is at least the start plus `incSub` minus `decSub` counts, and at most the start plus the `incSub` count |
| `KpiLemmas.AddSamples` | src/app/core/metrics/kpi.service.ts:76-82 | N samples raise `inputSamples` by N |
| `KpiLemmas.WeightedTotal` | src/app/core/metrics/kpi.service.ts:76-82 | after any samples, `avg * samples` equals its start value plus the sum of the samples; only the two mean fields change |
| `KpiLemmas.MeanFromInitialState` | src/app/core/metrics/kpi.service.ts:17-26 | after N >= 1 samples from the initial state, `inputSamples = N` and `avgInputHandlerMs` is exactly the arithmetic mean |
| `KpiLemmas.ConstantSamples` | src/app/core/metrics/kpi.service.ts:76-82 | N equal samples `c` give the average `c` (e.g. 100 samples of 10 give 10) |
| `KpiLemmas.RatioInRange` | src/app/core/metrics/kpi.service.ts:37-41 | with non-negative counters and at least one lookup, the ratio lies in [0, 100]; it is 100 without misses and 0 without hits |
| `KpiLemmas.RatioOfWholeCounts` | src/app/core/metrics/kpi.service.ts:37-41 | for whole counts the ratio equals the integer expression `(200*hit + d) / (2*d)` with `d = hit + miss` |
| `Social.BeforeRequest` | src/app/core/services/social-bad.service.ts:52-55 | raises `httpRequests` and `cacheMiss` by one each; nothing else changes |
| `Social.PostsLookup` | src/app/core/services/social-bad.service.ts:24-36 | a stored stream is returned unchanged and counts one hit only. Without one, the new request is counted as a miss plus one request, stored before it emits, and returned. Comments are untouched |
| `Social.CommentsLookup` | src/app/core/services/social-bad.service.ts:38-49 | cached exactly when the id is in the map, returning that list with one hit; otherwise pending with one miss and one request; the caches are never written |
| `Social.Resolve` | src/app/core/services/social-bad.service.ts:47 | the emitted list is stored under its id; every other entry and the posts stream unchanged |
| `Social.SocialGoodService.constructor` | src/app/core/services/social-bad.service.ts:19-22 | both caches start empty and the service shares the given KPI service |
| `Social.SocialGoodService.GetPosts` | src/app/core/services/social-bad.service.ts:24-36 | caches, KPI snapshot and returned stream are those of `PostsLookup` on the old state |
| `Social.SocialGoodService.GetComments` | src/app/core/services/social-bad.service.ts:38-49 | changes only the KPI service; caches, snapshot and reply are those of `CommentsLookup` |
| `Social.SocialGoodService.ResolveComments` | src/app/core/services/social-bad.service.ts:46-47 | the map is updated as `Resolve` says; the KPI snapshot is unchanged |
| `Social.SocialGoodService.KpisBeforeRequest` | src/app/core/services/social-bad.service.ts:52-55 | the snapshot becomes `BeforeRequest` of the old one |
| `Social.SocialGoodService.ClearCache` | src/app/core/services/social-bad.service.ts:60-63 | both caches become empty; the KPI snapshot is unchanged |
| `SocialLemmas.TwoPostsCallsShareOneStream` | src/app/core/services/social-bad.service.ts:24-36 | two consecutive `getPosts` from an empty posts cache return the identical stream, with one request, one miss and one hit |
| `SocialLemmas.PendingCommentsAreRefetched` | src/app/core/services/social-bad.service.ts:45-48 | two `getComments(id)` calls before any emission both miss and both fetch; the map is untouched |
| `SocialLemmas.SettledCommentsAreHits` | src/app/core/services/social-bad.service.ts:40-47 | after the fetch emits, the next `getComments(id)` returns the emitted list and counts only a hit |
| `SocialLemmas.ClearedCachesMiss` | src/app/core/services/social-bad.service.ts:60-63 | after clearing, the next `getPosts` and `getComments(id)` for any id are misses |
| `SocialLemmas.EveryLookupCountedOnce` | src/app/core/services/social-bad.service.ts:26-55 | over any call sequence, `cacheHit + cacheMiss` rises by the number of lookups and `httpRequests - cacheMiss` stays fixed; no other KPI moves |
| `SocialLemmas.CommentsOnlyFromEmissions` | src/app/core/services/social-bad.service.ts:45-48 | over any call sequence, the comments keys afterwards are among the keys before and the ids whose fetch emitted |
| `SocialLemmas.PostsStreamKept` | src/app/core/services/social-bad.service.ts:24-36 | a stored posts stream survives any calls that do not clear the cache |
| `SocialLemmas.StoredStreamServesAll` | src/app/core/services/social-bad.service.ts:25-28 | with a stream stored, N `getPosts` leave the caches alone and add N hits and nothing else |
| `SocialLemmas.ManyPostsCallsOneRequest` | src/app/core/services/social-bad.service.ts:24-36 | N >= 1 `getPosts` from an empty posts cache store the first request: one request, one miss, N - 1 hits |
| `Home.Lower` | src/app/pages/home/home.page.ts:38-43 | `toLowerCase`: keeps the length and lower-cases each character on its own (ASCII letters only) |
| `Home.Matches` | src/app/pages/home/home.page.ts:42-44 | a post matches exactly when the lower-cased query occurs somewhere in its lower-cased title or in its lower-cased body |
| `Home.LowerIdempotent` | src/app/pages/home/home.page.ts:38 | lower-casing twice equals lower-casing once |
| `Home.Includes` | src/app/pages/home/home.page.ts:43 | `includes` holds exactly when the needle occurs at some position of the text |
| `Home.Select` | src/app/pages/home/home.page.ts:42-44 | the filtered list is no longer than the input. It holds only matching input posts, and each matching post as often as the input does |
| `Home.Filtered` | src/app/pages/home/home.page.ts:37-45 | the empty query returns the posts unchanged. The result holds exactly the matching posts, with their multiplicities, as an order-preserving subsequence |
| `Home.SelectIsSubsequence` | src/app/pages/home/home.page.ts:42 | the filter keeps the posts' order |
| `Home.SelectEmptyQuery` | src/app/pages/home/home.page.ts:40-44 | the filter with an empty query keeps every post, so the early return agrees with it |
| `Home.CaseInsensitive` | src/app/pages/home/home.page.ts:38 | the query and its lower-cased form give the same result |
| `Home.FilterIdempotent` | src/app/pages/home/home.page.ts:42-44 | filtering the result again with the same query changes nothing |
| `Settings.DisplayValue` | src/app/pages/settings/settings.page.ts:83-94 | see the list below the table |
| `Settings.SourceLabel` | src/app/pages/settings/settings.page.ts:96-100 | `AUTO` and `DEVTOOLS` map to themselves, everything else to `MANUAL`; the result is one of the three, and equals the input exactly when the input is one of the three |

`Settings.DisplayValue` states:
- `undefined`, `null` and `''` display as `N/A`. The number 0 is not among them and is
  formatted like any other number.
- A number with unit `ms` displays as its two-decimal text followed by ` ms`.
- A number with any other non-empty unit `u`, `%` included, displays as `v u`.
- A number with no unit or an empty unit displays as just `v`.
- `true` displays as `Sí` and `false` as `No`.
- A non-empty string displays unchanged.

## Left out

- RxJS behaviour:
  - The model does not give the multicast and replay of `shareReplay(1)`. The posts
    stream is an opaque handle, and it stays stored even if its request fails.
  - It also leaves out `debounceTime`, `distinctUntilChanged`, `takeUntilDestroyed`
    and subscription teardown. These are library behaviour and scheduling.
- Angular signals: `computed` is a pure function of the current snapshot. Dependency
  tracking and change notification are not modelled.
- The HTTP interceptor in `src/app/app.config.ts` calls `incHttp` for every real
  request. That is framework wiring outside the service. In the running app it counts
  each request the service already counted in `kpisBeforeRequest` a second time. The
  service model counts one request per miss.
- Floating point:
  - Numbers are exact reals, so the incremental mean is exactly the arithmetic mean.
  - `Kpi.HitRatio` rounds the exact quotient. JS computes `hit / d * 100` in binary64
    first. Near a tie the two can differ: 29 hits and 171 misses give 14 in JS and 15
    exactly.
- `Kpi.WithInputSample`, `Kpi.KpiService.AddInputSample`: require `inputSamples != -1`.
  Only setting `inputSamples` to a negative integer with `setMetric`, possibly followed
  by more samples, reaches -1. JS then divides by zero, which the
  model does not represent.
- `Kpi.ValueOf`: JS property lookup would also find inherited object members (e.g.
  `"toString"`). They are not modelled, and such keys read as `undefined`.
- `performance.now()`, `toFixed(2)` and the JS number-to-string conversion are runtime
  services. `Settings.DisplayValue` takes `show` and `fixed2` as function parameters.
- Lower-casing is ASCII only. `toLowerCase` also folds non-ASCII letters.
- Post and comment ids are integers. Non-integer or `NaN` ids, which a JS `number`
  allows, are not modelled.
- `Settings.DisplayValue` takes a scalar reading only. It cannot receive the whole
  `manual` record that `getValue('manual')` returns, which JS would show as
  `[object Object]`. No catalog entry asks for `manual`.
- Routing, Ionic components, the detail page, `openPost`, `goSettings`, `refreshBad`
  (two subscriptions with console logging) and the settings constructor's `setManual`
  calls are left out. The constructor's calls are plain `SetManual` calls.
- `src/app/core/metrics/metrics.catalog.ts` is not part of this model. It is a static
  table with duplicate ids, so no uniqueness is stated.

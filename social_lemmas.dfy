/**
 * Properties of the cache service over several calls: the posts stream is
 * memoised as soon as it is requested, comments only once a fetch has
 * emitted, every lookup is counted exactly once, and clearing forces misses.
 */
module SocialLemmas {
  import opened Wrappers
  import opened Kpi
  import opened Social

  /** Two `getPosts` calls with nothing in between: one request, one miss, one hit, one stream. */
  lemma TwoPostsCallsShareOneStream(c: CacheState, k: KPIs, first: PostsStream, second: PostsStream)
    requires c.posts.None?
    ensures var a := PostsLookup(c, k, first);
      var b := PostsLookup(a.caches, a.kpis, second);
      && a.reply == first && b.reply == first
      && b.kpis.httpRequests == k.httpRequests + 1.0
      && b.kpis.cacheMiss == k.cacheMiss + 1.0
      && b.kpis.cacheHit == k.cacheHit + 1.0
      && b.caches == a.caches
  {
  }

  /**
   * Two `getComments(id)` calls before the first fetch emits, or after it
   * failed: both miss, both issue a request, and the map is untouched.
   */
  lemma PendingCommentsAreRefetched(c: CacheState, k: KPIs, id: int)
    requires id !in c.comments
    ensures var a := CommentsLookup(c, k, id);
      var b := CommentsLookup(a.caches, a.kpis, id);
      && a.reply == Pending(id) && b.reply == Pending(id)
      && b.kpis.httpRequests == k.httpRequests + 2.0
      && b.kpis.cacheMiss == k.cacheMiss + 2.0
      && b.kpis.cacheHit == k.cacheHit
      && b.caches == c
  {
  }

  /** Once a fetch for `id` has emitted `v`, the next `getComments(id)` returns `v` and only counts a hit. */
  lemma SettledCommentsAreHits(c: CacheState, k: KPIs, id: int, v: seq<Comment>)
    ensures var o := CommentsLookup(Resolve(c, id, v), k, id);
      o.reply == Cached(v) && o.kpis == IncrementCacheHit(k) && o.caches == Resolve(c, id, v)
  {
  }

  /** After `clearCache`, the next `getPosts` and the next `getComments(id)` for any id are misses. */
  lemma ClearedCachesMiss(k: KPIs, request: PostsStream, id: int)
    ensures PostsLookup(EmptyCaches, k, request).reply == request
    ensures CountedAs(k, PostsLookup(EmptyCaches, k, request).kpis, false)
    ensures CommentsLookup(EmptyCaches, k, id).reply == Pending(id)
    ensures CountedAs(k, CommentsLookup(EmptyCaches, k, id).kpis, false)
  {
  }

  // ----- sequences of calls -----

  datatype Call =
    | GetPostsCall(request: PostsStream)
    | GetCommentsCall(postId: int)
    | EmitComments(postId: int, comments: seq<Comment>)
    | ClearCall

  datatype ServiceState = ServiceState(caches: CacheState, kpis: KPIs)

  function Apply(w: ServiceState, call: Call): ServiceState {
    match call
    case GetPostsCall(request) =>
      var o := PostsLookup(w.caches, w.kpis, request); ServiceState(o.caches, o.kpis)
    case GetCommentsCall(id) =>
      var o := CommentsLookup(w.caches, w.kpis, id); ServiceState(o.caches, o.kpis)
    case EmitComments(id, v) => ServiceState(Resolve(w.caches, id, v), w.kpis)
    case ClearCall => ServiceState(EmptyCaches, w.kpis)
  }

  function Run(w: ServiceState, calls: seq<Call>): ServiceState
    decreases |calls|
  {
    if calls == [] then w else Run(Apply(w, calls[0]), calls[1..])
  }

  /** The number of `getPosts` and `getComments` calls. */
  function Lookups(calls: seq<Call>): nat {
    if calls == [] then 0
    else (if calls[0].GetPostsCall? || calls[0].GetCommentsCall? then 1 else 0) + Lookups(calls[1..])
  }

  /** The post ids whose comments fetch emitted. */
  function Emitted(calls: seq<Call>): set<int> {
    if calls == [] then {}
    else (if calls[0].EmitComments? then {calls[0].postId} else {}) + Emitted(calls[1..])
  }

  /**
   * Every lookup raises exactly one of `cacheHit` and `cacheMiss`, and
   * `httpRequests` rises in step with `cacheMiss`; no other KPI moves.
   */
  lemma {:induction false} EveryLookupCountedOnce(w: ServiceState, calls: seq<Call>)
    ensures Run(w, calls).kpis.cacheHit + Run(w, calls).kpis.cacheMiss
         == w.kpis.cacheHit + w.kpis.cacheMiss + Lookups(calls) as real
    ensures Run(w, calls).kpis.httpRequests - Run(w, calls).kpis.cacheMiss
         == w.kpis.httpRequests - w.kpis.cacheMiss
    ensures SameExcept(w.kpis, Run(w, calls).kpis, {HttpRequests, CacheHit, CacheMiss})
    decreases |calls|
  {
    if calls != [] {
      EveryLookupCountedOnce(Apply(w, calls[0]), calls[1..]);
    }
  }

  /** Only an emitted fetch adds a comments entry: lookups and pending fetches never do. */
  lemma {:induction false} CommentsOnlyFromEmissions(w: ServiceState, calls: seq<Call>)
    ensures Run(w, calls).caches.comments.Keys <= w.caches.comments.Keys + Emitted(calls)
    decreases |calls|
  {
    if calls != [] {
      CommentsOnlyFromEmissions(Apply(w, calls[0]), calls[1..]);
    }
  }

  /** A stored posts stream survives every call except `clearCache`. */
  lemma {:induction false} PostsStreamKept(w: ServiceState, calls: seq<Call>)
    requires w.caches.posts.Some?
    requires forall i :: 0 <= i < |calls| ==> !calls[i].ClearCall?
    ensures Run(w, calls).caches.posts == w.caches.posts
    decreases |calls|
  {
    if calls != [] {
      PostsStreamKept(Apply(w, calls[0]), calls[1..]);
    }
  }

  function PostsCalls(requests: seq<PostsStream>): (r: seq<Call>)
    ensures |r| == |requests|
    ensures forall i :: 0 <= i < |r| ==> r[i] == GetPostsCall(requests[i])
  {
    seq(|requests|, i requires 0 <= i < |requests| => GetPostsCall(requests[i]))
  }

  /** With a stream stored, any number of `getPosts` calls are all hits and issue no request. */
  lemma {:induction false} StoredStreamServesAll(w: ServiceState, requests: seq<PostsStream>)
    requires w.caches.posts.Some?
    ensures Run(w, PostsCalls(requests)).caches == w.caches
    ensures Run(w, PostsCalls(requests)).kpis.cacheHit == w.kpis.cacheHit + |requests| as real
    ensures SameExcept(w.kpis, Run(w, PostsCalls(requests)).kpis, {CacheHit})
    decreases |requests|
  {
    if requests != [] {
      assert PostsCalls(requests)[1..] == PostsCalls(requests[1..]);
      StoredStreamServesAll(Apply(w, GetPostsCall(requests[0])), requests[1..]);
    }
  }

  /**
   * Single flight for posts: N >= 1 `getPosts` calls from an empty posts cache
   * store the first request, and count one request, one miss and N - 1 hits.
   */
  lemma ManyPostsCallsOneRequest(w: ServiceState, requests: seq<PostsStream>)
    requires w.caches.posts.None? && |requests| > 0
    ensures Run(w, PostsCalls(requests)).caches.posts == Some(requests[0])
    ensures Run(w, PostsCalls(requests)).kpis.httpRequests == w.kpis.httpRequests + 1.0
    ensures Run(w, PostsCalls(requests)).kpis.cacheMiss == w.kpis.cacheMiss + 1.0
    ensures Run(w, PostsCalls(requests)).kpis.cacheHit == w.kpis.cacheHit + (|requests| - 1) as real
  {
    var first := Apply(w, GetPostsCall(requests[0]));
    assert PostsCalls(requests)[1..] == PostsCalls(requests[1..]);
    StoredStreamServesAll(first, requests[1..]);
    var last := Run(w, PostsCalls(requests)).kpis;
    assert Metric(last, HttpRequests) == Metric(first.kpis, HttpRequests);
    assert Metric(last, CacheMiss) == Metric(first.kpis, CacheMiss);
  }
}

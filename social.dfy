/**
 * The posts/comments cache service. The HTTP observable is an opaque handle
 * supplied by the caller; a comments fetch that is issued but has not yet
 * emitted is a `Pending` reply, and its emission is the separate
 * `ResolveComments` step (the `tap` that writes the map).
 */
module Social {
  import opened Wrappers
  import opened Kpi

  datatype Post = Post(userId: int, id: int, title: string, body: string)
  datatype Comment = Comment(postId: int, id: int, name: string, email: string, body: string)

  /** An `Observable<Post[]>`, known only by identity. */
  datatype PostsStream = PostsStream(ref: nat)

  /** The two caches: at most one posts stream, and settled comment lists by post id. */
  datatype CacheState = CacheState(posts: Option<PostsStream>, comments: map<int, seq<Comment>>)

  /** What `getComments` returns: `of(cached)` at once, or a fetch still to emit. */
  datatype CommentsReply = Cached(comments: seq<Comment>) | Pending(postId: int)

  /** The caches, the KPI snapshot and the value handed back after one call. */
  datatype Outcome<T> = Outcome(caches: CacheState, kpis: KPIs, reply: T)

  const EmptyCaches: CacheState := CacheState(None, map[])

  /**
   * The KPI effect of one lookup: a hit raises `cacheHit` alone; a miss raises
   * `httpRequests` and `cacheMiss` by one each; nothing else changes.
   */
  ghost predicate CountedAs(k: KPIs, r: KPIs, hit: bool) {
    if hit then
      r.cacheHit == k.cacheHit + 1.0 && SameExcept(k, r, {CacheHit})
    else
      r.httpRequests == k.httpRequests + 1.0 && r.cacheMiss == k.cacheMiss + 1.0
      && SameExcept(k, r, {HttpRequests, CacheMiss})
  }

  /** `kpisBeforeRequest`: count one request and one miss. */
  function BeforeRequest(k: KPIs): (r: KPIs)
    ensures CountedAs(k, r, false)
  {
    IncrementCacheMiss(IncrementHttp(k))
  }

  /**
   * `getPosts`. A stored stream is a hit and is returned as is; otherwise the
   * fresh `request` is counted as a miss, stored at once (before it emits) and returned.
   */
  function PostsLookup(c: CacheState, k: KPIs, request: PostsStream): (r: Outcome<PostsStream>)
    ensures r.caches.posts == Some(r.reply)
    ensures r.caches.comments == c.comments
    ensures c.posts.Some? ==> r.reply == c.posts.value
    ensures c.posts.None? ==> r.reply == request
    ensures CountedAs(k, r.kpis, c.posts.Some?)
  {
    match c.posts
    case Some(stream) => Outcome(c, IncrementCacheHit(k), stream)
    case None => Outcome(c.(posts := Some(request)), BeforeRequest(k), request)
  }

  /**
   * `getComments(postId)`. A settled list is a hit; otherwise a miss whose fetch
   * is pending. Neither branch writes a cache.
   */
  function CommentsLookup(c: CacheState, k: KPIs, postId: int): (r: Outcome<CommentsReply>)
    ensures r.caches == c
    ensures r.reply.Cached? <==> postId in c.comments
    ensures r.reply.Cached? ==> r.reply.comments == c.comments[postId]
    ensures r.reply.Pending? ==> r.reply.postId == postId
    ensures CountedAs(k, r.kpis, postId in c.comments)
  {
    if postId in c.comments then Outcome(c, IncrementCacheHit(k), Cached(c.comments[postId]))
    else Outcome(c, BeforeRequest(k), Pending(postId))
  }

  /** The `tap` of a comments fetch that emitted `comments`: the only write to the comments map. */
  function Resolve(c: CacheState, postId: int, comments: seq<Comment>): (r: CacheState)
    ensures r.posts == c.posts
    ensures postId in r.comments && r.comments[postId] == comments
    ensures forall id :: id != postId ==> (id in r.comments <==> id in c.comments)
    ensures forall id :: id != postId && id in c.comments ==> r.comments[id] == c.comments[id]
  {
    c.(comments := c.comments[postId := comments])
  }

  class SocialGoodService {
    const kpi: KpiService
    var postsCache: Option<PostsStream>
    var commentsCache: map<int, seq<Comment>>

    constructor (kpi: KpiService)
      ensures this.kpi == kpi
      ensures Caches() == EmptyCaches
    {
      this.kpi := kpi;
      postsCache := None;
      commentsCache := map[];
    }

    function Caches(): CacheState
      reads this
    {
      CacheState(postsCache, commentsCache)
    }

    /** `request` stands for the `http.get(...).pipe(shareReplay(1))` the source builds on a miss. */
    method GetPosts(request: PostsStream) returns (r: PostsStream)
      modifies this, kpi
      ensures var o := PostsLookup(old(Caches()), old(kpi.state), request);
        Caches() == o.caches && kpi.state == o.kpis && r == o.reply
    {
      if postsCache.Some? {
        kpi.IncCacheHit();
        r := postsCache.value;
        return;
      }
      KpisBeforeRequest();
      postsCache := Some(request);
      r := request;
    }

    /** Touches only the KPI counters: the map is written later, by `ResolveComments`. */
    method GetComments(postId: int) returns (r: CommentsReply)
      modifies kpi
      ensures var o := CommentsLookup(old(Caches()), old(kpi.state), postId);
        Caches() == o.caches && kpi.state == o.kpis && r == o.reply
    {
      if postId in commentsCache {
        kpi.IncCacheHit();
        r := Cached(commentsCache[postId]);
        return;
      }
      KpisBeforeRequest();
      r := Pending(postId);
    }

    /** The fetch for `postId` emitted `comments`. A fetch that fails or never emits has no such step. */
    method ResolveComments(postId: int, comments: seq<Comment>)
      modifies this
      ensures Caches() == Resolve(old(Caches()), postId, comments)
      ensures kpi.state == old(kpi.state)
    {
      commentsCache := commentsCache[postId := comments];
    }

    method KpisBeforeRequest()
      modifies kpi
      ensures kpi.state == BeforeRequest(old(kpi.state))
    {
      kpi.IncHttp();
      kpi.IncCacheMiss();
    }

    method ClearCache()
      modifies this
      ensures Caches() == EmptyCaches
      ensures kpi.state == old(kpi.state)
    {
      postsCache := None;
      commentsCache := map[];
    }
  }
}

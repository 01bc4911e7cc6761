/** Properties of successive `resolve` calls: idempotent caching, sliding
    expiration and the fate of unresolvable URLs, first on the specification
    functions, then for a Resolver object driven through a scripted run. */
module Properties {
  import opened Wrappers
  import opened Keys
  import opened Store
  import opened Config
  import opened Engine

  /** With a positive TTL: after a call that answered `u` and left it in the
      store (a cache hit, or a live resolution whose write succeeded), any call
      within the TTL window whose read succeeds answers `u` from the cache,
      whatever the live resolver would now say. */
  lemma CachedWithinTtl(s: Settings, md5: Hasher, t: Table, now: int, url: string,
                        w1: Responses, later: int, w2: Responses)
    requires s.cacheTTL > 0
    requires now <= later < now + s.cacheTTL
    requires w2.readFault.None?
    requires ResolveStep(s, md5, t, now, url, w1).reply.resolved.Url?
    requires ResolveStep(s, md5, t, now, url, w1).reply.cached || w1.writeFault.None?
    ensures var r1 := ResolveStep(s, md5, t, now, url, w1);
      var r2 := ResolveStep(s, md5, r1.table, later, url, w2);
      r2.reply == Callback(None, r1.reply.resolved, true) && r2.request == None
  {
  }

  /** An entry expires `cacheTTL` seconds after the last call that read or
      wrote it: a call at least that much later misses and asks the live
      resolver. The first call's last access is its read, or, when the read
      failed, its successful write-back. */
  lemma ExpiredAfterTtl(s: Settings, md5: Hasher, t: Table, now: int, url: string,
                        w1: Responses, later: int, w2: Responses)
    requires w1.readFault.None? || (w1.live.Resolved? && Truthy(w1.live.url) && w1.writeFault.None?)
    requires later >= now && later >= now + s.cacheTTL
    ensures var r1 := ResolveStep(s, md5, t, now, url, w1);
      var r2 := ResolveStep(s, md5, r1.table, later, url, w2);
      !r2.reply.cached && r2.request == Some(RequestFor(s, url))
  {
  }

  /** A URL the live resolver cannot resolve, and that the store does not
      hold, leaves the store as it was and answers `(null, false, false)`; so
      a second call, at the same time or later, answers the same again. */
  lemma UnresolvableTwice(s: Settings, md5: Hasher, t: Table, now: int, url: string,
                          w1: Responses, later: int, w2: Responses)
    requires !Present(t, now, CacheKey(md5, url))
    requires now <= later
    requires !(w1.live.Resolved? && Truthy(w1.live.url))
    requires !(w2.live.Resolved? && Truthy(w2.live.url))
    ensures var r1 := ResolveStep(s, md5, t, now, url, w1);
      var r2 := ResolveStep(s, md5, r1.table, later, url, w2);
      r1.reply == Callback(None, NoUrl, false) && r1.table == t &&
      r2.reply == Callback(None, NoUrl, false) && r2.table == t
  {
  }

  /** The sliding-expiry story with a 2-second TTL: miss and fill at `t0`, a
      hit at `t0 + 1` that moves the expiry to `t0 + 3`, and a miss at
      `t0 + 4` that resolves live again. */
  lemma SlidingTtlStory(s: Settings, md5: Hasher, t: Table, t0: int, url: string, v: string)
    requires s.cacheTTL == 2
    requires !Present(t, t0, CacheKey(md5, url))
    requires Truthy(v)
    ensures var w := Responses(None, Resolved(v), None);
      var r1 := ResolveStep(s, md5, t, t0, url, w);
      var r2 := ResolveStep(s, md5, r1.table, t0 + 1, url, w);
      var r3 := ResolveStep(s, md5, r2.table, t0 + 4, url, w);
      r1.reply == Callback(None, Url(v), false) &&
      r2.reply == Callback(None, Url(v), true) &&
      r3.reply == Callback(None, Url(v), false)
  {
  }

  /** The "Exact match" scenario on a Resolver object: on an empty store, the
      first call resolves live and the second is answered from the cache
      without asking the live resolver again; the one request it gets
      carries the configured user agent. */
  method ResolveTwiceRun(md5: Hasher, redis: RedisOptions, url: string, v: string, w2: Responses)
    returns (first: Callback, second: Callback, ghost asked: seq<LiveRequest>)
    requires Truthy(v)
    requires w2.readFault.None?
    ensures first == Callback(None, Url(v), false)
    ensures second == Callback(None, Url(v), true)
    ensures asked == [LiveRequest(url, "testResolver", REMOVE_PARAMS)]
  {
    var store := new TtlStore(0);
    var created := CreateResolver(Some(Options(Some(redis), Some("testResolver"), None, None)), md5, store);
    var resolver := created.value;
    var w1 := Responses(None, Resolved(v), None);
    first := resolver.Resolve(url, w1);
    CachedWithinTtl(resolver.settings, md5, map[], 0, url, w1, 0, w2);
    second := resolver.Resolve(url, w2);
    asked := resolver.requests;
  }

  /** The "Set Expire TTL" scenario on a Resolver object with `cacheTTL: 2`. */
  method SlidingTtlRun(md5: Hasher, redis: RedisOptions, url: string, v: string)
    returns (first: Callback, second: Callback, third: Callback)
    requires Truthy(v)
    ensures first == Callback(None, Url(v), false)
    ensures second == Callback(None, Url(v), true)
    ensures third == Callback(None, Url(v), false)
  {
    var store := new TtlStore(0);
    var created := CreateResolver(Some(Options(Some(redis), Some("testResolver"), Some(2), None)), md5, store);
    var resolver := created.value;
    var w := Responses(None, Resolved(v), None);
    SlidingTtlStory(resolver.settings, md5, map[], 0, url, v);
    first := resolver.Resolve(url, w);
    store.Tick(1);
    second := resolver.Resolve(url, w);
    store.Tick(3);
    third := resolver.Resolve(url, w);
  }

  /** The "404" and "non-resolving" scenarios on a Resolver object: both calls
      answer `false`, not cached, and the store stays empty. */
  method UnresolvableRun(md5: Hasher, redis: RedisOptions, url: string, live: LiveOutcome)
    returns (first: Callback, second: Callback, stored: Table)
    requires live.NotFound? || live.Unreachable?
    ensures first == Callback(None, NoUrl, false)
    ensures second == Callback(None, NoUrl, false)
    ensures stored == map[]
  {
    var store := new TtlStore(0);
    var created := CreateResolver(Some(Options(Some(redis), Some("testResolver"), None, None)), md5, store);
    var resolver := created.value;
    var w := Responses(None, live, None);
    UnresolvableTwice(resolver.settings, md5, map[], 0, url, w, 0, w);
    first := resolver.Resolve(url, w);
    second := resolver.Resolve(url, w);
    stored := store.entries;
  }
}

/** The cache-aside resolution engine: the read path (`resolveRedis`), the live
    path with write-back (`resolveUrl`) and the orchestrator (`resolve`), first
    as functions of the store contents, then as methods of a Resolver object
    whose effects are proved to be those functions. */
module Engine {
  import opened Wrappers
  import opened Keys
  import opened Store
  import opened Config

  /** A URL string, or JavaScript's `false` for "no URL". */
  datatype Answer = NoUrl | Url(url: string)

  /** A query-parameter removal rule handed to the live resolver. */
  datatype ParamRule = Pattern(regex: string) | Name(name: string)

  /** The rule set every live resolution is given. */
  const REMOVE_PARAMS: seq<ParamRule> := [Pattern("^utm_"), Name("ref"), Name("rsscount")]

  /** One request to the live resolver: the URL and the options passed with it. */
  datatype LiveRequest = LiveRequest(url: string, userAgent: string, removeParams: seq<ParamRule>)

  datatype LiveError = LiveError(message: string)

  /** What the live resolver reports: a final URL, nothing (a terminal
      non-success response), or an error (DNS, connection, timeout). */
  datatype LiveOutcome = Resolved(url: string) | NotFound | Unreachable(error: LiveError)

  /** What the outside world answers during one `resolve` call: the read
      batch's transport failure, the live resolver's outcome (if it is asked)
      and the write batch's transport failure. */
  datatype Responses = Responses(readFault: Option<StoreError>, live: LiveOutcome, writeFault: Option<StoreError>)

  datatype Failure = CacheFailure(storeError: StoreError) | ResolverFailure(liveError: LiveError)

  /** The arguments `resolve` gives its callback: `(err, resolvedUrl, cached)`. */
  datatype Callback = Callback(err: Option<Failure>, resolved: Answer, cached: bool)

  /** An effect on the store: the value delivered and the contents left behind. */
  datatype Step<T> = Step(out: T, table: Table)

  /** One `resolve` call: its callback, the store afterwards and the request
      made of the live resolver, if one was made. */
  datatype Run = Run(reply: Callback, table: Table, request: Option<LiveRequest>)

  /** A string is truthy in JavaScript unless it is empty. */
  predicate Truthy(s: string) {
    s != ""
  }

  /** The live request the resolver makes for `url`. */
  function RequestFor(s: Settings, url: string): LiveRequest {
    LiveRequest(url, s.userAgent, REMOVE_PARAMS)
  }

  /** `replies && replies[1] || false`: the GET reply sits behind SELECT's,
      and nil or an empty string reads as `false`. */
  function DecodeReplies(replies: seq<Reply>): (a: Answer)
    ensures a.Url? <==>
      |replies| > 1 && replies[1].Bulk? && replies[1].data.Some? && Truthy(replies[1].data.value)
    ensures a.Url? ==> a.url == replies[1].data.value
  {
    if |replies| > 1 && replies[1].Bulk? && replies[1].data.Some? && Truthy(replies[1].data.value)
    then Url(replies[1].data.value)
    else NoUrl
  }

  /** What a truthy cached value under `url`'s key at `now` reads as. */
  function CachedAnswer(md5: Hasher, t: Table, now: int, url: string): Answer {
    var v := Fetch(t, now, CacheKey(md5, url));
    if v.Some? && Truthy(v.value) then Url(v.value) else NoUrl
  }

  /** `resolveRedis`: read the key and refresh its expiry in one batch. */
  function LookupStep(s: Settings, md5: Hasher, t: Table, now: int, url: string,
                      fault: Option<StoreError>): (r: Step<Result<Answer, StoreError>>)
    ensures fault.Some? ==> r == Step(Failure(fault.value), t)
    ensures fault.None? ==> r.out == Success(CachedAnswer(md5, t, now, url))
    ensures fault.None? ==> r.table == Touch(t, now, CacheKey(md5, url), s.cacheTTL)
    ensures forall k :: k != CacheKey(md5, url) ==> SameAt(t, r.table, k)
  {
    if fault.Some? then Step(Failure(fault.value), t)
    else
      var exec := GetExpire(t, now, CacheKey(md5, url), s.cacheTTL);
      Step(Success(DecodeReplies(exec.replies)), exec.table)
  }

  /** `resolveUrl` after the live resolver has answered `live`: a truthy final
      URL is written back under the key of the original URL, outcome of the
      write ignored; anything else writes nothing. */
  function WriteBackStep(s: Settings, md5: Hasher, t: Table, now: int, url: string,
                         live: LiveOutcome, fault: Option<StoreError>): (r: Step<Result<Answer, LiveError>>)
    ensures live.Unreachable? ==> r == Step(Failure(live.error), t)
    ensures !live.Unreachable? ==>
      r.out == Success(if live.Resolved? && Truthy(live.url) then Url(live.url) else NoUrl)
    ensures live.Resolved? && Truthy(live.url) && fault.None? ==>
      r.table == SetExpire(t, now, CacheKey(md5, url), live.url, s.cacheTTL).table
    ensures !(live.Resolved? && Truthy(live.url) && fault.None?) ==> r.table == t
  {
    match live
    case Unreachable(e) => Step(Failure(e), t)
    case NotFound => Step(Success(NoUrl), t)
    case Resolved(v) =>
      if !Truthy(v) then Step(Success(NoUrl), t)
      else
        var key := Hex(md5(url));
        var exec := SetExpire(t, now, NAMESPACE + key, v, s.cacheTTL);
        Step(Success(Url(v)), if fault.Some? then t else exec.table)
  }

  /** `resolve`: a truthy cached value is the answer; otherwise the live
      resolver is asked and its answer, or `false`, is returned. Errors from
      either side never reach the callback. */
  function ResolveStep(s: Settings, md5: Hasher, t: Table, now: int, url: string,
                       w: Responses): (r: Run)
    ensures r.reply.err == None
    ensures r.reply.cached <==> w.readFault.None? && CachedAnswer(md5, t, now, url).Url?
    ensures r.reply.cached ==>
      r.reply.resolved == CachedAnswer(md5, t, now, url) && r.request == None &&
      r.table == Touch(t, now, CacheKey(md5, url), s.cacheTTL)
    ensures !r.reply.cached ==>
      r.request == Some(RequestFor(s, url)) &&
      r.reply.resolved == (if w.live.Resolved? && Truthy(w.live.url) then Url(w.live.url) else NoUrl)
    ensures r.reply.resolved.Url? ==> Truthy(r.reply.resolved.url)
    ensures forall k :: k != CacheKey(md5, url) ==> SameAt(t, r.table, k)
    ensures !r.reply.cached && w.live.Resolved? && Truthy(w.live.url) && w.writeFault.None? ==>
      r.table == SetExpire(LookupStep(s, md5, t, now, url, w.readFault).table, now,
                           CacheKey(md5, url), w.live.url, s.cacheTTL).table
    ensures !r.reply.cached && !(w.live.Resolved? && Truthy(w.live.url) && w.writeFault.None?) ==>
      r.table == LookupStep(s, md5, t, now, url, w.readFault).table
  {
    var read := LookupStep(s, md5, t, now, url, w.readFault);
    var hit := if read.out.Success? then read.out.value else NoUrl;
    if hit.Url? then Run(Callback(None, hit, true), read.table, None)
    else
      var write := WriteBackStep(s, md5, read.table, now, url, w.live, w.writeFault);
      var resolved := if write.out.Success? then write.out.value else NoUrl;
      Run(Callback(None, resolved, false), write.table, Some(RequestFor(s, url)))
  }

  /** The requests a run adds to the live resolver's log. */
  function Requests(r: Run): seq<LiveRequest> {
    if r.request.Some? then [r.request.value] else []
  }

  /** A resolver instance: its settings, its hash, its store connection and,
      as a ghost log, every request it has made of the live resolver. */
  class Resolver {
    const settings: Settings
    const md5: Hasher
    const store: TtlStore
    ghost var requests: seq<LiveRequest>

    constructor (settings: Settings, md5: Hasher, store: TtlStore)
      ensures this.settings == settings && this.md5 == md5 && this.store == store
      ensures requests == []
    {
      this.settings := settings;
      this.md5 := md5;
      this.store := store;
      requests := [];
    }

    method ResolveRedis(url: string, fault: Option<StoreError>) returns (r: Result<Answer, StoreError>)
      modifies store
      ensures Step(r, store.entries) ==
        LookupStep(settings, md5, old(store.entries), old(store.clock), url, fault)
      ensures store.clock == old(store.clock)
    {
      var key := CacheKey(md5, url);
      var replies := store.MultiGetExpire(key, settings.cacheTTL, fault);
      if replies.Failure? {
        return Failure(replies.error);
      }
      return Success(DecodeReplies(replies.value));
    }

    /** `live` is what the live resolver answers to this request. */
    method ResolveUrl(url: string, live: LiveOutcome, fault: Option<StoreError>)
      returns (r: Result<Answer, LiveError>)
      modifies this, store
      ensures Step(r, store.entries) ==
        WriteBackStep(settings, md5, old(store.entries), old(store.clock), url, live, fault)
      ensures store.clock == old(store.clock)
      ensures requests == old(requests) + [RequestFor(settings, url)]
    {
      requests := requests + [RequestFor(settings, url)];
      match live
      case Unreachable(e) =>
        return Failure(e);
      case NotFound =>
        return Success(NoUrl);
      case Resolved(v) =>
        if !Truthy(v) {
          return Success(NoUrl);
        }
        var key := Hex(md5(url));
        var written := store.MultiSetExpire(NAMESPACE + key, v, settings.cacheTTL, fault);
        return Success(Url(v));
    }

    method Resolve(url: string, w: Responses) returns (reply: Callback)
      modifies this, store
      ensures var run := ResolveStep(settings, md5, old(store.entries), old(store.clock), url, w);
        reply == run.reply && store.entries == run.table &&
        requests == old(requests) + Requests(run)
      ensures store.clock == old(store.clock)
    {
      var cached := ResolveRedis(url, w.readFault);
      var hit := if cached.Success? then cached.value else NoUrl;
      if hit.Url? {
        return Callback(None, hit, true);
      }
      var resolved := ResolveUrl(url, w.live, w.writeFault);
      return Callback(None, if resolved.Success? then resolved.value else NoUrl, false);
    }
  }

  /** `createResolver`: configure, then construct; construction without store
      options fails. */
  method CreateResolver(config: Option<Options>, md5: Hasher, store: TtlStore)
    returns (r: Result<Resolver, ConfigError>)
    ensures r.Success? <==> Configure(config).Success?
    ensures r.Failure? ==> r.error == Configure(config).error
    ensures r.Success? ==>
      fresh(r.value) && r.value.settings == Configure(config).value &&
      r.value.md5 == md5 && r.value.store == store && r.value.requests == []
  {
    var settings := Configure(config);
    if settings.Failure? {
      return Failure(settings.error);
    }
    var resolver := new Resolver(settings.value, md5, store);
    return Success(resolver);
  }
}

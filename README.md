# cached-resolver, modelled in Dafny

`cached-resolver` turns a possibly shortened or redirecting URL into its final
destination and caches the answer in Redis. The cache is cache-aside:

- The key of a URL is `"l~"` followed by the lowercase hex MD5 digest of the URL.
- `resolveRedis` sends one MULTI batch: SELECT, GET the key, EXPIRE the key by `cacheTTL`. Every read therefore refreshes the lifetime (sliding expiration).
- On a miss, `resolveUrl` asks the live resolver (the npm `resolver` package). It passes the configured user agent and the parameter-removal rules `/^utm_/`, `"ref"` and `"rsscount"`. A truthy final URL is written back in one batch: SELECT, SET, EXPIRE.
- `resolve` chains the two. Its callback always gets `err = null`. Store errors and resolver errors become "miss" and "false".

The model has six modules:

- `Wrappers`: `Option` and `Result`.
- `Keys`: bytes, 16-byte digests, hex rendering with its inverse `Unhex`, and `CacheKey`. MD5 is a `Hasher`: any total function from strings to digests given to the resolver. No injectivity is assumed.
- `Store`: the Redis subset as a table `key -> Entry(value, expiresAt)` with a clock. `Fetch`, `Put` and `Touch` are GET, SET and EXPIRE. `GetExpire` and `SetExpire` are the two MULTI batches. The class `TtlStore` executes them step by step and is proved to match. The semantics follow Redis:
  - SET removes any time to live.
  - EXPIRE on a missing or expired key is a no-op that replies 0.
  - EXPIRE with a time to live that is not positive deletes the key.
  - A key is live while `now < expiresAt`.
- `Config`: the constructor's options and the settings it derives, with the `||` defaults.
- `Engine`: the three operations as functions of the store contents (`LookupStep`, `WriteBackStep`, `ResolveStep`). The class `Resolver` runs them against a `TtlStore`, and its methods are proved to have exactly those effects. A ghost log `requests` records each request made of the live resolver.
- `Properties`: lemmas about successive calls, and the repository's test scenarios replayed on `Resolver` objects.

Everything the engine cannot see is a parameter of type `Responses`:

- whether the read batch fails in transport;
- what the live resolver answers (`Resolved(url)`, `NotFound` or `Unreachable(error)`);
- whether the write batch fails in transport.

The clock is the store's `clock`. Time advances only through `TtlStore.Tick`.

Two facts about the code that the model makes explicit:

- Both paths prefix the key with `"l~"` (index.js:52, index.js:81-82). `WriteBackStep` builds the key the way line 78 does, and its contract proves the write key is `CacheKey`.
- The code does no URL normalisation of its own: the removal rules are only passed to the live resolver (index.js:67).

## Model

| member | source | states |
|---|---|---|
| `Keys.Hex` | index.js:52 | the hex rendering has exactly two characters per byte, all lowercase hex digits |
| `Keys.UnhexHex` | index.js:52 | reading the hex rendering back gives the original digest bytes, so rendering loses nothing |
| `Keys.HexUnhex` | index.js:52 | every string `Unhex` accepts is the rendering of what it decodes to, so the two functions are inverse |
| `Keys.HexInjective` | index.js:52 | two byte sequences have the same rendering if and only if they are equal |
| `Keys.CacheKey` | index.js:52 | the key is 34 characters long, starts with `"l~"`, is hex after the prefix, and that hex decodes back to the URL's digest |
| `Keys.CacheKeyInjective` | index.js:52 | two URLs share a key if and only if their digests are equal |
| `Store.Fetch` | index.js:55 | GET answers a value exactly when the key is stored and its expiry has not passed, and the value is the stored one |
| `Store.Put` | index.js:81 | SET stores the value with no expiry, readable at any time, and changes no other key |
| `Store.Touch` | index.js:56 | EXPIRE on a missing key changes nothing. On a live key it sets the expiry to `now + ttl` and keeps the value, or deletes the key when `ttl` is not positive. No other key changes |
| `Store.GetExpire` | index.js:53-57 | the read batch's second reply is the GET result from before the refresh, and it leaves the table that EXPIRE leaves |
| `Store.SetExpire` | index.js:79-83 | after the write batch the key holds the value with expiry `now + ttl`, or is gone when `ttl` is not positive. Other keys are untouched |
| `Store.TouchThenFetch` | index.js:56 | after EXPIRE, a key that existed reads back with the same value exactly until `now + ttl`, and a missing key stays missing |
| `Store.SetExpireThenFetch` | index.js:79-83 | after the write batch, the value reads back exactly until `now + ttl` |
| `Store.AbsentStaysAbsent` | index.js:56 | a key missing at one time is still missing later if nothing writes it |
| `Store.TtlStore.Tick` | test/resolver.js:218-234 | time passes and nothing stored changes |
| `Store.TtlStore.Get` | index.js:55 | the method answers what `Fetch` specifies for the current contents and clock |
| `Store.TtlStore.Set` | index.js:81 | the new contents are `Put` of the old ones |
| `Store.TtlStore.Expire` | index.js:56 | the reply is 1 if and only if the key existed, and the new contents are `Touch` of the old ones |
| `Store.TtlStore.MultiGetExpire` | index.js:53-57 | a transport failure is returned unchanged and executes nothing. Otherwise GET then EXPIRE run as one step, with the replies and new contents of `GetExpire` |
| `Store.TtlStore.MultiSetExpire` | index.js:79-83 | same failure rule. Otherwise SET then EXPIRE run as one step, with the new contents of `SetExpire` |
| `Config.Configure` | index.js:12-19 | construction fails if and only if there are no store options. `db` is taken as given. A missing or empty user agent becomes `"Resolver"`, and a missing or zero TTL becomes 2592000 (30 days). Truthy values are kept. The derived user agent is never empty and the TTL never zero |
| `Engine.DecodeReplies` | index.js:61 | the answer is a URL if and only if the reply after SELECT's is a non-empty bulk string, and then it is that string. Nil or empty reads as `false` |
| `Engine.LookupStep` | index.js:51-63 | a store error is handed back unchanged and leaves the store alone. Otherwise the answer is the truthy cached value or `false`, the key's expiry is refreshed to `now + cacheTTL` if the key exists, and no other key changes |
| `Engine.WriteBackStep` | index.js:65-87 | a resolver error is handed back with nothing written. A falsy or not-found outcome answers `false` with nothing written. A truthy URL is answered whether or not the write fails. On a successful write it is stored under the read path's `CacheKey` with expiry `now + cacheTTL` |
| `Engine.ResolveStep` | index.js:25-49 | `err` is always null. A hit happens if and only if the read succeeds and finds a truthy value. On a hit the answer is that value with `cached = true`, the live resolver is not asked, and only the expiry is refreshed. On a miss the resolver is asked once, with the original URL, the configured user agent and the rules, and the answer is its truthy URL or `false` with `cached = false`. Only a live success with a successful write changes the store beyond the refresh, and no key other than the URL's changes |
| `Engine.Resolver.constructor` | index.js:12-19 | the instance holds the given settings, hash and store, and has made no requests |
| `Engine.Resolver.ResolveRedis` | index.js:51-63 | the result and the new store contents are those of `LookupStep` on the old contents and clock |
| `Engine.Resolver.ResolveUrl` | index.js:65-87 | the result and new contents are those of `WriteBackStep`, and one request for the URL is logged |
| `Engine.Resolver.Resolve` | index.js:25-49 | the callback and new contents are those of `ResolveStep`. The request log grows by the request `ResolveStep` makes, which is none on a hit |
| `Engine.CreateResolver` | index.js:7-10 | a fresh resolver configured by `Configure` is returned exactly when configuration succeeds, and the configuration error otherwise |
| `Properties.CachedWithinTtl` | test/resolver.js:79-90 | with a positive `cacheTTL`: after a call answers a URL that is in the store (a hit, or a live success whose write succeeded), any later call before `now + cacheTTL` whose read succeeds answers the same URL from the cache, whatever the live resolver would say |
| `Properties.ExpiredAfterTtl` | test/resolver.js:223-231 | a call at least `cacheTTL` seconds after the last access misses and asks the live resolver. The last access is the first call's successful read, or its successful write-back when the read failed |
| `Properties.UnresolvableTwice` | test/resolver.js:160-171 | for a URL not in the store whose live outcome is not a truthy URL, two calls both answer `(null, false, false)` and leave the store unchanged |
| `Properties.SlidingTtlStory` | test/resolver.js:200-236 | with a 2-second TTL: a live answer at t0, a cached answer at t0+1, and a live answer again at t0+4 |
| `Properties.ResolveTwiceRun` | test/resolver.js:66-91 | on a `Resolver` object: live answer, then cached answer, with exactly one live request carrying the configured user agent |
| `Properties.SlidingTtlRun` | test/resolver.js:200-236 | on a `Resolver` object with `cacheTTL: 2` and a store clock advanced by 1s then 3s: not cached, cached, not cached |
| `Properties.UnresolvableRun` | test/resolver.js:148-198 | on a `Resolver` object, for a not-found or unreachable URL: both calls answer `(null, false, false)` and the store stays empty |

## Left out

- MD5 is not computed. It is a caller-supplied `Hasher`, and its collision resistance is not modelled. Node hashes the URL's UTF-8 encoding (Node 6 and later). The model hashes the `string` directly.
- The live resolver (the `resolver` package) is not modelled: redirect following, HTTP, the user agent header, and the query-parameter stripping behind the parameter-stripping test (test/resolver.js:237-262). Its answer is an input, and what is passed to it is recorded in the ghost log.
- The Redis connection is not modelled: `createClient` with host and port, `select(db)` (one namespace; SELECT's reply is always `"OK"`), `close()`/`end()`, and the test suite's `flushdb` (a new `TtlStore` starts empty).
- Asynchrony, callbacks and concurrent calls are not modelled. Calls run one after the other, and no time passes inside a call, so the write's expiry counts from the time of the read.
- Debug logging (index.js:28-31, index.js:40-44) is not modelled. `debug` is only carried in the settings.
- A transport failure of a batch is modelled as "nothing executed". A real failure can leave part of a batch applied.
- Redis expires keys with millisecond precision and deletes expired keys lazily. The model uses whole seconds and keeps expired entries, which no command can see.
- Engine.DecodeReplies: it does not model a null `replies` array, which comes only from an aborted WATCH and which the code never issues. Non-string values at position 1 read as `false`, while JavaScript would return them.
- Config.Configure: JavaScript allows option values of other types (a string TTL, a number as user agent, NaN), and a fractional TTL such as `1.5`. A fractional TTL is truthy, so line 17 keeps it. Redis then rejects every EXPIRE as not an integer, while the SET in the write batch still runs, so the entry is stored with no time to live and never expires. The model's TTL is an integer, so it does not capture this. It covers absent, empty or zero, and proper integer values. `debug` is treated as truthy only when it is `true`.

/** The resolver's configuration: the options a caller passes and the settings
    the constructor derives from them, with JavaScript's `||` defaults. */
module Config {
  import opened Wrappers

  /** Where the store lives; host and port only matter to the connection. */
  datatype RedisOptions = RedisOptions(host: string, port: Option<int>, db: Option<int>)

  /** The configuration object; a field that is `None` was not given. */
  datatype Options = Options(
    redis: Option<RedisOptions>,
    userAgent: Option<string>,
    cacheTTL: Option<int>,
    debug: Option<bool>)

  /** The fields a constructed resolver holds. */
  datatype Settings = Settings(db: Option<int>, userAgent: string, cacheTTL: int, debug: bool)

  /** Construction without store options fails reading `config.redis.port`. */
  datatype ConfigError = MissingRedisOptions

  const DEFAULT_USER_AGENT: string := "Resolver"
  const DEFAULT_CACHE_TTL: int := 30 * 24 * 3600

  /** The resolver constructor: a missing configuration object counts as an
      empty one; a falsy user agent (absent or empty) or cache TTL (absent or
      zero) is replaced by its default. */
  function Configure(config: Option<Options>): (r: Result<Settings, ConfigError>)
    ensures r.Success? <==> config.Some? && config.value.redis.Some?
    ensures r.Failure? ==> r.error == MissingRedisOptions
    ensures r.Success? ==> r.value.db == config.value.redis.value.db
    ensures r.Success? ==> r.value.userAgent != "" && r.value.cacheTTL != 0
    ensures r.Success? && config.value.userAgent in {None, Some("")} ==>
      r.value.userAgent == DEFAULT_USER_AGENT
    ensures r.Success? && config.value.userAgent !in {None, Some("")} ==>
      r.value.userAgent == config.value.userAgent.value
    ensures r.Success? && config.value.cacheTTL in {None, Some(0)} ==>
      r.value.cacheTTL == DEFAULT_CACHE_TTL
    ensures r.Success? && config.value.cacheTTL !in {None, Some(0)} ==>
      r.value.cacheTTL == config.value.cacheTTL.value
    ensures r.Success? ==> (r.value.debug <==> config.value.debug == Some(true))
  {
    var c := if config.Some? then config.value else Options(None, None, None, None);
    if c.redis.None? then Failure(MissingRedisOptions)
    else
      Success(Settings(
        c.redis.value.db,
        if c.userAgent.Some? && c.userAgent.value != "" then c.userAgent.value else DEFAULT_USER_AGENT,
        if c.cacheTTL.Some? && c.cacheTTL.value != 0 then c.cacheTTL.value else DEFAULT_CACHE_TTL,
        c.debug == Some(true)))
  }
}

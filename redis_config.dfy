/** The cache client's options (backend/src/config/redis.ts): reconnect backoff and TLS. */
module RedisConfig {
  import opened Wrappers
  import opened Text

  /** Largest reconnect delay, in milliseconds. */
  const MaxRetryDelay: nat := 2000
  /** Delay added per attempt, in milliseconds. */
  const RetryStep: nat := 50

  /** `retryStrategy(times) = Math.min(times * 50, 2000)`: the delay before reconnect attempt `times`. */
  function RetryStrategy(times: nat): (delay: nat)
    ensures delay <= MaxRetryDelay
    ensures times <= 40 ==> delay == RetryStep * times
    ensures times >= 40 ==> delay == MaxRetryDelay
  {
    if times * RetryStep < MaxRetryDelay then times * RetryStep else MaxRetryDelay
  }

  /** The backoff never shrinks as attempts accumulate. */
  lemma RetryStrategyMonotonic(t1: nat, t2: nat)
    requires t1 <= t2
    ensures RetryStrategy(t1) <= RetryStrategy(t2)
  {
  }

  /** How the client reaches the server. */
  datatype Connection =
    | ByUrl(url: string, tls: bool)  // REDIS_URL is set
    | ByHost                          // host, port and password from the environment

  datatype ClientOptions = ClientOptions(connection: Connection, retryStrategy: nat -> nat)

  /** The options `new Redis(...)` receives, for a given `REDIS_URL`. */
  function CreateClientOptions(redisUrl: Option<string>): (o: ClientOptions)
    ensures o.connection.ByUrl? <==> redisUrl.Some? && redisUrl.value != ""
    ensures o.connection.ByUrl? ==> o.connection.url == redisUrl.value
    ensures o.connection.ByUrl? ==> (o.connection.tls <==> StartsWith(redisUrl.value, "rediss://"))
    ensures forall t: nat :: o.retryStrategy(t) == RetryStrategy(t)
  {
    if redisUrl.Some? && redisUrl.value != "" then
      ClientOptions(ByUrl(redisUrl.value, StartsWith(redisUrl.value, "rediss://")), t => RetryStrategy(t))
    else
      ClientOptions(ByHost, t => RetryStrategy(t))
  }

  /** Both ways of connecting back off identically, capped at 2000 ms. */
  lemma SameBackoffEverywhere(url1: Option<string>, url2: Option<string>, times: nat)
    ensures CreateClientOptions(url1).retryStrategy(times) == CreateClientOptions(url2).retryStrategy(times)
    ensures CreateClientOptions(url1).retryStrategy(times) <= MaxRetryDelay
  {
  }
}

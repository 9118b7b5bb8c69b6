/**
 * internal/cache: connecting to Redis with bounded retries. Every attempt
 * builds a fresh client from the configured address, password and DB and
 * pings it; `pings[k]` is what the k-th ping observes.
 */
module Redis {
  import opened Base
  import opened Config
  import opened Retry

  datatype RedisOptions = RedisOptions(addr: string, password: string, db: int)

  /** The client built by attempt number `attempt` (counted from 0). */
  datatype RedisClient = RedisClient(options: RedisOptions, attempt: nat)

  function OptionsFor(cfg: CacheConfig): RedisOptions {
    RedisOptions(cfg.address, cfg.password, cfg.db)
  }

  /**
   * connectRedisWithRetry. Besides the result it returns the clients built,
   * one per attempt, and the sleeps taken, in order.
   */
  method ConnectRedisWithRetry(cfg: CacheConfig, pings: seq<Outcome>)
    returns (r: Result<RedisClient>, built: seq<RedisClient>, sleeps: seq<nat>)
    requires |pings| >= RetryAttempts
    ensures 1 <= |built| <= RetryAttempts
    ensures forall k :: 0 <= k < |built| ==> built[k] == RedisClient(OptionsFor(cfg), k)
    ensures forall k :: 0 <= k < |built| - 1 ==> pings[k].Down?
    ensures r.Success? <==> pings[|built| - 1].Up?
    ensures r.Success? <==> SomeAttemptSucceeds(pings)
    ensures r.Success? ==> r.value == built[|built| - 1]
    ensures r.Failure? ==> |built| == RetryAttempts && r.error == ConnectFailed(pings[RetryAttempts - 1].reason)
    ensures sleeps == Backoff(if r.Success? then |built| - 1 else |built|)
  {
    var client: Option<RedisClient> := None;
    var err: Option<string> := None;
    var retryInterval := InitialInterval;
    built, sleeps := [], [];
    var i := 0;
    while i < RetryAttempts
      invariant 0 <= i <= RetryAttempts
      invariant |built| == i
      invariant forall k :: 0 <= k < i ==> built[k] == RedisClient(OptionsFor(cfg), k)
      invariant forall k :: 0 <= k < i ==> pings[k].Down?
      invariant i > 0 ==> err == Some(pings[i - 1].reason)
      invariant retryInterval == Pow2(i) * InitialInterval
      invariant sleeps == Backoff(i)
    {
      client := Some(RedisClient(OptionsFor(cfg), i));
      built := built + [client.value];
      err := if pings[i].Up? then None else Some(pings[i].reason);
      if err == None {
        break;
      }
      sleeps := sleeps + [retryInterval];
      retryInterval := retryInterval * 2;
      i := i + 1;
    }
    if err.Some? {
      return Failure(ConnectFailed(err.value)), built, sleeps;
    }
    return Success(client.value), built, sleeps;
  }
}

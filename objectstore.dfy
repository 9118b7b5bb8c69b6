/**
 * internal/objectstore: creating the MinIO client with bounded retries.
 * Every attempt calls minio.New with the configured endpoint, static V4
 * credentials built from the access and secret key (empty session token)
 * and `Secure: false`; `attempts[k]` is what the k-th call observes.
 */
module ObjectStore {
  import opened Base
  import opened Config
  import opened Retry

  /** The client built by attempt number `attempt` (counted from 0). */
  datatype MinioClient = MinioClient(
    endpoint: string, accessKey: string, secretKey: string, sessionToken: string,
    secure: bool, attempt: nat)

  function ClientFor(cfg: MinioConfig, attempt: nat): MinioClient {
    MinioClient(cfg.endpoint, cfg.accessKey, cfg.secretKey, "", false, attempt)
  }

  /** ConnectMinio. Besides the result it returns the sleeps taken, in order. */
  method ConnectMinio(cfg: MinioConfig, attempts: seq<Outcome>)
    returns (r: Result<MinioClient>, tries: nat, sleeps: seq<nat>)
    requires |attempts| >= RetryAttempts
    ensures 1 <= tries <= RetryAttempts
    ensures forall k :: 0 <= k < tries - 1 ==> attempts[k].Down?
    ensures r.Success? <==> attempts[tries - 1].Up?
    ensures r.Success? <==> SomeAttemptSucceeds(attempts)
    ensures r.Success? ==> r.value == ClientFor(cfg, tries - 1)
    ensures r.Success? ==> !r.value.secure && r.value.endpoint == cfg.endpoint
    ensures r.Success? ==> r.value.accessKey == cfg.accessKey && r.value.secretKey == cfg.secretKey
    ensures r.Failure? ==> tries == RetryAttempts && r.error == ConnectFailed(attempts[RetryAttempts - 1].reason)
    ensures sleeps == Backoff(if r.Success? then tries - 1 else tries)
  {
    var client: Option<MinioClient> := None;
    var err: Option<string> := None;
    var retryInterval := InitialInterval;
    sleeps := [];
    var i := 0;
    while i < RetryAttempts
      invariant 0 <= i <= RetryAttempts
      invariant forall k :: 0 <= k < i ==> attempts[k].Down?
      invariant i > 0 ==> err == Some(attempts[i - 1].reason)
      invariant err == None ==> i == 0
      invariant retryInterval == Pow2(i) * InitialInterval
      invariant sleeps == Backoff(i)
    {
      if attempts[i].Up? {
        client, err := Some(ClientFor(cfg, i)), None;
        tries := i + 1;
        break;
      }
      client, err := None, Some(attempts[i].reason);
      sleeps := sleeps + [retryInterval];
      retryInterval := retryInterval * 2;
      i := i + 1;
    }
    if err.Some? {
      tries := RetryAttempts;
      return Failure(ConnectFailed(err.value)), tries, sleeps;
    }
    return Success(client.value), tries, sleeps;
  }
}

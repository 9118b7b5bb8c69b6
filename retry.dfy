/**
 * The bounded exponential backoff shared by the Redis and MinIO connection
 * loops: five attempts, and after each failed attempt a sleep that starts
 * at one second and doubles. Delays are in whole seconds.
 */
module Retry {

  const RetryAttempts: nat := 5
  const InitialInterval: nat := 1

  /** What one connection attempt observed. */
  datatype Outcome = Up | Down(reason: string)

  /** Some attempt within the bound observes a live connection. */
  predicate SomeAttemptSucceeds(outcomes: seq<Outcome>) {
    exists k :: 0 <= k < RetryAttempts && k < |outcomes| && outcomes[k].Up?
  }

  function Pow2(k: nat): (p: nat)
    ensures p >= 1
  {
    if k == 0 then 1 else 2 * Pow2(k - 1)
  }

  /** The sleeps taken after `failures` consecutive failed attempts, in order. */
  function Backoff(failures: nat): (d: seq<nat>)
    ensures |d| == failures
  {
    if failures == 0 then [] else Backoff(failures - 1) + [Pow2(failures - 1) * InitialInterval]
  }

  function Total(d: seq<nat>): nat {
    if d == [] then 0 else Total(d[..|d| - 1]) + d[|d| - 1]
  }

  /** The k-th sleep is 2^k seconds. */
  lemma {:induction false} BackoffAt(failures: nat, k: nat)
    requires k < failures
    ensures Backoff(failures)[k] == Pow2(k)
  {
    if k < failures - 1 {
      BackoffAt(failures - 1, k);
    }
  }

  /** Each sleep is twice the one before it. */
  lemma BackoffDoubles(failures: nat, k: nat)
    requires k + 1 < failures
    ensures Backoff(failures)[k + 1] == 2 * Backoff(failures)[k]
  {
    BackoffAt(failures, k);
    BackoffAt(failures, k + 1);
  }

  /** A shorter run of failures sleeps a prefix of a longer one's schedule. */
  lemma {:induction false} BackoffPrefix(m: nat, n: nat)
    requires m <= n
    ensures Backoff(m) == Backoff(n)[..m]
  {
    if m < n {
      BackoffPrefix(m, n - 1);
      assert Backoff(n)[..n - 1] == Backoff(n - 1);
    }
  }

  /** When every attempt fails: 1, 2, 4, 8 and 16 seconds, 31 seconds in all. */
  lemma FullFailureSchedule()
    ensures Backoff(RetryAttempts) == [1, 2, 4, 8, 16]
    ensures Total(Backoff(RetryAttempts)) == 31
  {
    assert Backoff(RetryAttempts) == [1, 2, 4, 8, 16];
    var d: seq<nat> := [1, 2, 4, 8, 16];
    assert d[..4] == [1, 2, 4, 8];
    assert d[..4][..3] == [1, 2, 4];
    assert d[..4][..3][..2] == [1, 2];
    assert d[..4][..3][..2][..1] == [1];
    assert Total([1]) == 1;
    assert Total([1, 2]) == 3;
    assert Total([1, 2, 4]) == 7;
    assert Total([1, 2, 4, 8]) == 15;
  }
}

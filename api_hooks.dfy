/** `src/services/api-hooks.ts`: the defaults `useAuthenticatedQuery` and
    `useAuthenticatedMutation` put in front of the caller's options, and the
    retry rule for authenticated queries. The `retry` option is modelled as
    react-query reads it: `false`/`true`, a number, or a predicate. */
module ApiHooks {
  import opened Wrappers
  import opened ApiClient
  import opened QueryCache

  datatype RetryPolicy =
    | RetryFlag(always: bool)
    | RetryLimit(limit: nat)
    | RetryWhen(decide: (nat, Failure) -> bool)

  /** react-query's reading of `retry` after the attempt that made `failureCount` earlier failures. */
  function ShouldRetry(p: RetryPolicy, failureCount: nat, err: Failure): bool {
    match p
    case RetryFlag(b) => b
    case RetryLimit(n) => failureCount < n
    case RetryWhen(f) => f(failureCount, err)
  }

  /** The retry predicate of `useAuthenticatedQuery`: never after a 401,
      otherwise while fewer than two failures have been retried. */
  function AuthenticatedRetry(failureCount: nat, err: Failure): (retry: bool)
    ensures IsUnauthorized(err) ==> !retry
    ensures !IsUnauthorized(err) ==> (retry <==> failureCount < 2)
  {
    if StatusOf(err) == Some(401) then false else failureCount < 2
  }

  /** Number of attempts the retryer makes when the successive attempts fail
      with `failures[0]`, `failures[1]`, ...: each failure is offered to the
      policy with the number of failures before it; a refusal ends the query. */
  function Attempts(p: RetryPolicy, failures: seq<Failure>, failureCount: nat): (n: nat)
    ensures n <= |failures|
    decreases |failures|
  {
    if failures == [] then 0
    else if ShouldRetry(p, failureCount, failures[0]) then 1 + Attempts(p, failures[1..], failureCount + 1)
    else 1
  }

  /** An authenticated query that keeps failing without a 401 is tried three
      times in all (the first attempt and two retries). */
  lemma {:induction false} AuthenticatedQueryAttempts(failures: seq<Failure>)
    requires |failures| >= 3
    requires forall i :: 0 <= i < |failures| ==> !IsUnauthorized(failures[i])
    ensures Attempts(RetryWhen(AuthenticatedRetry), failures, 0) == 3
  {
    var p := RetryWhen(AuthenticatedRetry);
    assert Attempts(p, failures[2..], 2) == 1;
    assert Attempts(p, failures[1..], 1) == 1 + Attempts(p, failures[1..][1..], 2);
    assert failures[1..][1..] == failures[2..];
  }

  /** A 401 ends an authenticated query at once. */
  lemma AuthenticatedQueryStopsOn401(failures: seq<Failure>, failureCount: nat)
    requires failures != [] && IsUnauthorized(failures[0])
    ensures Attempts(RetryWhen(AuthenticatedRetry), failures, failureCount) == 1
  {
  }

  datatype StaleTime = StaleAfter(ms: nat) | NeverStale

  /** The query options a caller may pass; `None` is a property left out of the object. */
  datatype QueryOptions = QueryOptions(enabled: Option<bool>, retry: Option<RetryPolicy>, staleTime: Option<StaleTime>)

  const NoQueryOptions := QueryOptions(None, None, None)

  /** The object handed to `useQuery`. */
  datatype QueryConfig = QueryConfig(queryKey: QueryKey, enabled: Option<bool>, retry: RetryPolicy, staleTime: Option<StaleTime>)

  /** `{ queryKey: key, queryFn, retry: <authenticated rule>, ...options }`:
      the caller's options are spread last and win; the key cannot be overridden. */
  function AuthenticatedQueryConfig(key: QueryKey, options: QueryOptions): (c: QueryConfig)
    ensures c.queryKey == key
    ensures options.retry.Some? ==> c.retry == options.retry.value
    ensures options.retry.None? ==> c.retry == RetryWhen(AuthenticatedRetry)
    ensures c.enabled == options.enabled && c.staleTime == options.staleTime
  {
    QueryConfig(key, options.enabled, options.retry.GetOr(RetryWhen(AuthenticatedRetry)), options.staleTime)
  }

  /** Without a caller-supplied `retry`, an authenticated query follows the
      authenticated rule for every failure. */
  lemma DefaultQueryRetry(key: QueryKey, options: QueryOptions, failureCount: nat, err: Failure)
    requires options.retry.None?
    ensures ShouldRetry(AuthenticatedQueryConfig(key, options).retry, failureCount, err)
            == (!IsUnauthorized(err) && failureCount < 2)
  {
  }

  datatype MutationOptions = MutationOptions(retry: Option<RetryPolicy>)

  datatype MutationConfig = MutationConfig(retry: RetryPolicy)

  /** `{ mutationFn, retry: false, ...options }`. */
  function AuthenticatedMutationConfig(options: MutationOptions): (c: MutationConfig)
    ensures options.retry.Some? ==> c.retry == options.retry.value
    ensures options.retry.None? ==> forall n, e :: !ShouldRetry(c.retry, n, e)
  {
    MutationConfig(options.retry.GetOr(RetryFlag(false)))
  }
}

/** `src/hooks/useTokenRefresh.ts`: the manual refresh query. */
module TokenRefresh {
  import opened Wrappers
  import opened QueryCache
  import opened ApiClient
  import opened ApiHooks
  import opened Credentials

  const RefreshKey: QueryKey := [Str("token-refresh")]

  /** The query function: on success the new token is stored and the response
      returned; a 401 clears the credential; every failure is rethrown. */
  method RefreshQueryFn(ts: TokenService, response: Result<AuthResponse, Failure>) returns (r: Result<AuthResponse, Failure>)
    modifies ts
    ensures r == response
    ensures response.Success? ==> ts.State() == AfterSet(old(ts.State()), response.value.token)
    ensures response.Failure? && IsUnauthorized(response.error) ==> ts.State() == AfterClear(old(ts.State()))
    ensures response.Failure? && !IsUnauthorized(response.error) ==> ts.State() == old(ts.State())
  {
    match response
    case Success(data) =>
      ts.SetToken(data.token);
      r := response;
    case Failure(err) =>
      if StatusOf(err) == Some(401) {
        ts.ClearToken();
      }
      r := response;
  }

  /** `{ queryKey: ["token-refresh"], enabled: false, retry: false, staleTime: Infinity }`. */
  function RefreshQueryConfig(): (c: QueryConfig)
    ensures c.queryKey == RefreshKey
    ensures c.enabled == Some(false)
    ensures forall n, e :: !ShouldRetry(c.retry, n, e)
    ensures c.staleTime == Some(NeverStale)
  {
    QueryConfig(RefreshKey, Some(false), RetryFlag(false), Some(NeverStale))
  }

  /** The refresh makes exactly one attempt, whatever it fails with. */
  lemma RefreshSingleAttempt(failures: seq<Failure>, failureCount: nat)
    requires failures != []
    ensures Attempts(RefreshQueryConfig().retry, failures, failureCount) == 1
  {
  }
}

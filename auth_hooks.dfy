/** `src/hooks/useAuth.ts`: the auth query keys, the register / login / logout
    success handlers and the current-user query. */
module Auth {
  import opened Wrappers
  import opened Text
  import opened QueryCache
  import opened ApiClient
  import opened ApiHooks
  import opened Credentials

  /** `authKeys.all`. */
  const AllKey: QueryKey := [Str("auth")]

  /** `authKeys.user()`: the "all" key extended by "user". */
  function UserKey(): (k: QueryKey)
    ensures k == [Str("auth"), Str("user")]
    ensures Matches(AllKey, k) && k != AllKey
  {
    AllKey + [Str("user")]
  }

  /** The success handler shared in shape by register and login. */
  method StoreSession<V>(ts: TokenService, cache: Cache<V>, data: AuthResponse)
    modifies ts, cache
    ensures ts.State() == AfterSet(old(ts.State()), data.token)
    ensures cache.entries == old(cache.entries)
    ensures cache.stale == old(cache.stale) + MatchingKeys(old(cache.entries), UserKey())
  {
    ts.SetToken(data.token);
    cache.InvalidateQueries(UserKey());
  }

  /** `useRegister`: on success store the token and invalidate the user query;
      a failure changes nothing and reaches the caller. */
  method Register<V>(ts: TokenService, cache: Cache<V>, response: Result<AuthResponse, Failure>)
      returns (r: Result<AuthResponse, Failure>)
    modifies ts, cache
    ensures r == response
    ensures response.Success? ==> ts.State() == AfterSet(old(ts.State()), response.value.token)
    ensures response.Success? ==> cache.stale == old(cache.stale) + MatchingKeys(old(cache.entries), UserKey())
    ensures response.Failure? ==> ts.State() == old(ts.State()) && cache.stale == old(cache.stale)
    ensures cache.entries == old(cache.entries)
  {
    if response.Success? {
      StoreSession(ts, cache, response.value);
    }
    r := response;
  }

  /** `useLogin`: the same handler as register, for the login endpoint. */
  method Login<V>(ts: TokenService, cache: Cache<V>, response: Result<AuthResponse, Failure>)
      returns (r: Result<AuthResponse, Failure>)
    modifies ts, cache
    ensures r == response
    ensures response.Success? ==> ts.State() == AfterSet(old(ts.State()), response.value.token)
    ensures response.Success? ==> cache.stale == old(cache.stale) + MatchingKeys(old(cache.entries), UserKey())
    ensures response.Failure? ==> ts.State() == old(ts.State()) && cache.stale == old(cache.stale)
    ensures cache.entries == old(cache.entries)
  {
    if response.Success? {
      StoreSession(ts, cache, response.value);
    }
    r := response;
  }

  /** `useLogout`: on success clear the credential and remove every query under
      `["auth"]`, the current user's among them. */
  method Logout<V>(ts: TokenService, cache: Cache<V>, response: Result<(), Failure>) returns (r: Result<(), Failure>)
    modifies ts, cache
    ensures r == response
    ensures response.Success? ==> ts.State() == AfterClear(old(ts.State()))
    ensures response.Success? ==> cache.entries == map k | k in old(cache.entries) && !Matches(AllKey, k) :: old(cache.entries)[k]
    ensures response.Success? ==> UserKey() !in cache.entries
    ensures response.Success? ==> cache.stale == old(cache.stale) - MatchingKeys(old(cache.entries), AllKey)
    ensures response.Failure? ==> ts.State() == old(ts.State()) && cache.entries == old(cache.entries) && cache.stale == old(cache.stale)
  {
    if response.Success? {
      ts.ClearToken();
      cache.RemoveQueries(AllKey);
    }
    r := response;
  }

  /** The current-user retry rule: never after a 401, otherwise while fewer than three failures. */
  function CurrentUserRetry(failureCount: nat, err: Failure): (retry: bool)
    ensures IsUnauthorized(err) ==> !retry
    ensures !IsUnauthorized(err) ==> (retry <==> failureCount < 3)
  {
    if StatusOf(err) == Some(401) then false else failureCount < 3
  }

  /** A current-user fetch that keeps failing without a 401 is tried four times
      in all, one more than an authenticated query. */
  lemma {:induction false} CurrentUserAttempts(failures: seq<Failure>)
    requires |failures| >= 4
    requires forall i :: 0 <= i < |failures| ==> !IsUnauthorized(failures[i])
    ensures Attempts(RetryWhen(CurrentUserRetry), failures, 0) == 4
  {
    var p := RetryWhen(CurrentUserRetry);
    assert Attempts(p, failures[3..], 3) == 1;
    assert failures[2..][1..] == failures[3..];
    assert Attempts(p, failures[2..], 2) == 2;
    assert failures[1..][1..] == failures[2..];
    assert Attempts(p, failures[1..], 1) == 3;
  }

  /** `5 * 60 * 1000`. */
  const CurrentUserStaleTimeMs: nat := 5 * 60 * 1000

  /** `useCurrentUser`'s options: enabled iff `getToken()` yields a non-empty
      token (a read that may load the token from storage), the retry rule
      above and a five-minute stale time. */
  method CurrentUserQueryConfig(ts: TokenService) returns (c: QueryConfig)
    modifies ts
    ensures Read(ts.State(), AfterGet(old(ts.State())).token) == AfterGet(old(ts.State()))
    ensures c.enabled == Some(Truthy(AfterGet(old(ts.State())).token))
    ensures c.queryKey == UserKey()
    ensures c.retry == RetryWhen(CurrentUserRetry)
    ensures c.staleTime == Some(StaleAfter(300000))
  {
    var tk := ts.GetToken();
    c := QueryConfig(UserKey(), Some(Truthy(tk)), RetryWhen(CurrentUserRetry), Some(StaleAfter(CurrentUserStaleTimeMs)));
  }
}

/** `src/services/token-service.ts`: the process-wide credential. Three pieces
    of state move together: the cached `token` field, the client's default
    `Authorization` header, and the copy persisted in local storage under
    "token". */
module Credentials {
  import opened Wrappers
  import opened Text

  const TokenKey: string := "token"
  const AuthorizationHeader: string := "Authorization"

  function Bearer(tk: string): string {
    "Bearer " + tk
  }

  /** The response body of login, register and refresh, as far as the client reads it. */
  datatype AuthResponse = AuthResponse(token: string)

  /** A snapshot of the three pieces of credential state. */
  datatype CredentialState = CredentialState(token: Option<string>, headers: map<string, string>, storage: map<string, string>)

  function StoredToken(storage: map<string, string>): Option<string> {
    if TokenKey in storage then Some(storage[TokenKey]) else None
  }

  /** The state after `setToken(tk)`. */
  function AfterSet(s: CredentialState, tk: string): (t: CredentialState)
    ensures t.token == Some(tk)
    ensures t.headers == s.headers[AuthorizationHeader := Bearer(tk)]
    ensures t.storage == s.storage[TokenKey := tk]
  {
    CredentialState(Some(tk), s.headers[AuthorizationHeader := Bearer(tk)], s.storage[TokenKey := tk])
  }

  /** The state after `clearToken()`. */
  function AfterClear(s: CredentialState): (t: CredentialState)
    ensures t.token == None
    ensures AuthorizationHeader !in t.headers && TokenKey !in t.storage
    ensures forall h :: h in s.headers && h != AuthorizationHeader ==> h in t.headers && t.headers[h] == s.headers[h]
    ensures forall k :: k in s.storage && k != TokenKey ==> k in t.storage && t.storage[k] == s.storage[k]
    ensures forall h :: h in t.headers ==> h in s.headers
    ensures forall k :: k in t.storage ==> k in s.storage
  {
    CredentialState(None, s.headers - {AuthorizationHeader}, s.storage - {TokenKey})
  }

  /** What `getToken()` returns and the state it leaves. */
  datatype Read = Read(state: CredentialState, token: Option<string>)

  /** `getToken()`: a truthy cached token is returned untouched; otherwise the
      stored value (possibly absent or empty) is loaded into the cache, the
      header is set only when it is non-empty, and the loaded value returned. */
  function AfterGet(s: CredentialState): (r: Read)
    ensures Truthy(s.token) ==> r == Read(s, s.token)
    ensures !Truthy(s.token) ==> r.token == StoredToken(s.storage) && r.state.token == r.token
    ensures !Truthy(s.token) && Truthy(r.token) ==> r.state.headers == s.headers[AuthorizationHeader := Bearer(r.token.value)]
    ensures !Truthy(s.token) && !Truthy(r.token) ==> r.state.headers == s.headers
    ensures r.state.storage == s.storage
  {
    if Truthy(s.token) then Read(s, s.token)
    else
      var loaded := StoredToken(s.storage);
      var headers := if Truthy(loaded) then s.headers[AuthorizationHeader := Bearer(loaded.value)] else s.headers;
      Read(CredentialState(loaded, headers, s.storage), loaded)
  }

  /** After `setToken(tk)` with a non-empty `tk`, `getToken()` returns `tk` and changes nothing. */
  lemma GetAfterSet(s: CredentialState, tk: string)
    requires tk != ""
    ensures AfterGet(AfterSet(s, tk)) == Read(AfterSet(s, tk), Some(tk))
  {
  }

  /** After `clearToken()`, `getToken()` returns null. */
  lemma GetAfterClear(s: CredentialState)
    ensures AfterGet(AfterClear(s)).token == None
    ensures AfterGet(AfterClear(s)).state == AfterClear(s)
  {
  }

  /** Two consecutive `getToken()` calls return the same value; the second changes nothing. */
  lemma GetTwice(s: CredentialState)
    ensures AfterGet(AfterGet(s).state) == AfterGet(s)
  {
  }

  /** The persisted copy survives a reload: a fresh service (no cached token,
      any headers) over the storage left by `setToken(tk)` reads `tk` back. */
  lemma ReloadAfterSet(s: CredentialState, tk: string, freshHeaders: map<string, string>)
    requires tk != ""
    ensures AfterGet(CredentialState(None, freshHeaders, AfterSet(s, tk).storage)).token == Some(tk)
    ensures AfterGet(CredentialState(None, freshHeaders, AfterSet(s, tk).storage)).state.headers[AuthorizationHeader] == Bearer(tk)
  {
  }

  /** `TokenService`, with its static field and the two pieces of outside
      state it writes (the client's common headers and local storage). */
  class TokenService {
    var token: Option<string>
    var headers: map<string, string>
    var storage: map<string, string>

    function State(): CredentialState
      reads this
    {
      CredentialState(token, headers, storage)
    }

    /** Module load: the static field starts as null. */
    constructor (headers: map<string, string>, storage: map<string, string>)
      ensures State() == CredentialState(None, headers, storage)
    {
      this.token := None;
      this.headers := headers;
      this.storage := storage;
    }

    method SetToken(tk: string)
      modifies this
      ensures State() == AfterSet(old(State()), tk)
    {
      token := Some(tk);
      headers := headers[AuthorizationHeader := Bearer(tk)];
      storage := storage[TokenKey := tk];
    }

    method GetToken() returns (r: Option<string>)
      modifies this
      ensures Read(State(), r) == AfterGet(old(State()))
    {
      if Truthy(token) {
        return token;
      }
      token := if TokenKey in storage then Some(storage[TokenKey]) else None;
      if Truthy(token) {
        headers := headers[AuthorizationHeader := Bearer(token.value)];
      }
      r := token;
    }

    method ClearToken()
      modifies this
      ensures State() == AfterClear(old(State()))
    {
      token := None;
      headers := headers - {AuthorizationHeader};
      storage := storage - {TokenKey};
    }
  }
}

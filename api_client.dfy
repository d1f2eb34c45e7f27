/** `src/services/api-client.ts`: the base URL, the anti-forgery request
    interceptor and the response interceptor that broadcasts
    "auth:unauthorized" on a 401 and always rejects. */
module ApiClient {
  import opened Wrappers
  import opened Text
  import Seqs

  /** The `data` of an error response, as far as the client reads it. */
  datatype ErrorBody = ErrorBody(code: Option<string>, message: Option<string>)

  /** An HTTP response attached to an error; `data == None` is a `null` body. */
  datatype HttpResponse = HttpResponse(status: Option<int>, data: Option<ErrorBody>)

  /** What a request can reject with: a thrown non-`Error` value, an ordinary
      `Error`, or an `AxiosError` with or without a response (no response: a
      network failure or the 10 s timeout). */
  datatype Failure = NonError | PlainError | AxiosError(response: Option<HttpResponse>)

  /** `err?.response?.status`. */
  function StatusOf(e: Failure): (s: Option<int>)
    ensures s.Some? ==> e.AxiosError? && e.response.Some? && e.response.value.status == s
  {
    if e.AxiosError? && e.response.Some? then e.response.value.status else None
  }

  predicate IsUnauthorized(e: Failure) {
    StatusOf(e) == Some(401)
  }

  const UnauthorizedEvent: string := "auth:unauthorized"
  const RequestTimeoutMs: nat := 10000

  /** `API_V1`, built from `VITE_API_URL || ""`. */
  function ApiV1(apiUrl: Option<string>): (r: string)
    ensures Truthy(apiUrl) ==> r == apiUrl.value + "/api/v1"
    ensures !Truthy(apiUrl) ==> r == "/api/v1"
    ensures r[|r| - 7..] == "/api/v1"
  {
    (if Truthy(apiUrl) then apiUrl.value else "") + "/api/v1"
  }

  /** The outgoing request configuration the interceptor receives and mutates. */
  class RequestConfig {
    var headers: map<string, string>

    constructor (headers: map<string, string>)
      ensures this.headers == headers
    {
      this.headers := headers;
    }
  }

  const XsrfHeader: string := "x-xsrf-token"

  /** The request interceptor: with a non-empty `XSRF-TOKEN` cookie the config
      gains `x-xsrf-token`; the same config object is handed on. */
  method InterceptRequest(config: RequestConfig, cookie: Option<string>) returns (r: RequestConfig)
    modifies config
    ensures r == config
    ensures Truthy(cookie) ==> config.headers == old(config.headers)[XsrfHeader := cookie.value]
    ensures !Truthy(cookie) ==> config.headers == old(config.headers)
  {
    if Truthy(cookie) {
      config.headers := config.headers[XsrfHeader := cookie.value];
    }
    r := config;
  }

  /** What the response interceptor hands back to the caller, and the window
      events it dispatched on the way. */
  datatype Intercepted<T> = Intercepted(result: Result<T, Failure>, dispatched: seq<string>)

  /** Both response handlers: a success passes through; an error is rejected
      unchanged, after one "auth:unauthorized" event when its status is 401. */
  function InterceptResponse<T>(outcome: Result<T, Failure>): (r: Intercepted<T>)
    ensures r.result == outcome
    ensures r.dispatched == [] || r.dispatched == [UnauthorizedEvent]
    ensures r.dispatched == [UnauthorizedEvent] <==> outcome.Failure? && IsUnauthorized(outcome.error)
  {
    match outcome
    case Success(_) => Intercepted(outcome, [])
    case Failure(e) => Intercepted(outcome, if StatusOf(e) == Some(401) then [UnauthorizedEvent] else [])
  }

  /** The events dispatched while a batch of responses passes the interceptor. */
  function Broadcasts<T>(outcomes: seq<Result<T, Failure>>): seq<string>
  {
    if outcomes == [] then [] else InterceptResponse(outcomes[0]).dispatched + Broadcasts(outcomes[1..])
  }

  predicate FailedUnauthorized<T>(o: Result<T, Failure>) {
    o.Failure? && IsUnauthorized(o.error)
  }

  /** There is no single-flight guard: every 401 among concurrently failing
      requests dispatches its own "auth:unauthorized" event. */
  lemma {:induction false} BroadcastPerUnauthorized<T(!new)>(outcomes: seq<Result<T, Failure>>)
    ensures |Broadcasts(outcomes)| == |Seqs.Filter(outcomes, FailedUnauthorized)|
    ensures forall i :: 0 <= i < |Broadcasts(outcomes)| ==> Broadcasts(outcomes)[i] == UnauthorizedEvent
  {
    if outcomes != [] {
      var head := InterceptResponse(outcomes[0]).dispatched;
      var tail := Broadcasts(outcomes[1..]);
      BroadcastPerUnauthorized(outcomes[1..]);
      assert Broadcasts(outcomes) == head + tail;
      assert |head| == if FailedUnauthorized(outcomes[0]) then 1 else 0;
      assert outcomes == [outcomes[0]] + outcomes[1..];
      Seqs.FilterCons(outcomes[0], outcomes[1..], FailedUnauthorized);
    }
  }
}

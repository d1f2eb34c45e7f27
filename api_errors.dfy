/** `src/services/utils.ts`: `handleApiErr`, which turns anything a request
    rejected with into `{ error: true, status, code, message }`. */
module ApiErrors {
  import opened Wrappers
  import opened Text
  import opened ApiClient

  /** `ErrResType`. */
  datatype ErrRes = ErrRes(error: bool, status: int, code: string, message: string)

  const DefaultStatus: int := 500
  const DefaultMessage: string := "Something went wrong"

  /** The response attached to an Axios error, if any. */
  function ResponseOf(e: Failure): Option<HttpResponse> {
    if e.AxiosError? then e.response else None
  }

  /** The response exists but its body is `null`. */
  predicate NullBody(e: Failure) {
    ResponseOf(e).Some? && ResponseOf(e).value.data.None?
  }

  /** `error.response?.data?.code`. */
  function BodyCode(e: Failure): Option<string> {
    if ResponseOf(e).Some? && ResponseOf(e).value.data.Some? then ResponseOf(e).value.data.value.code else None
  }

  /** `error.response?.data?.message`. */
  function BodyMessage(e: Failure): Option<string> {
    if ResponseOf(e).Some? && ResponseOf(e).value.data.Some? then ResponseOf(e).value.data.value.message else None
  }

  /** A `TypeError` raised inside `handleApiErr`. */
  datatype Thrown = TypeErrorThrown

  /** utils.ts as written: line 33 reads `error.response?.data.code`, which
      guards `response` but not `data`, so an Axios error whose response has a
      `null` body makes `handleApiErr` throw instead of returning. */
  function ApiErrAsWritten(e: Failure): (r: Result<ErrRes, Thrown>)
    ensures r.Failure? <==> NullBody(e)
  {
    match e
    case AxiosError(Some(HttpResponse(status, None))) => Failure(TypeErrorThrown)
    case AxiosError(Some(HttpResponse(status, Some(body)))) =>
      Success(ErrRes(true,
                     if status.Some? && status.value != 0 then status.value else 500,
                     if Truthy(body.code) then body.code.value else "",
                     if Truthy(body.message) then body.message.value else "Something went wrong"))
    case _ => Success(ErrRes(true, 500, "", "Something went wrong"))
  }

  /** A 500 response with a `null` body: the as-written function throws. */
  lemma NullBodyThrows()
    ensures ApiErrAsWritten(AxiosError(Some(HttpResponse(Some(500), None)))).Failure?
  {
  }

  /** `handleApiErr` with the body read as `error.response?.data?.code`: status,
      code and message are copied from an Axios error when truthy, and each
      falls back to its default (500, "", "Something went wrong") otherwise.
      Wherever the code as written returns, it returns the same value. */
  method HandleApiErr(e: Failure) returns (r: ErrRes)
    ensures r.error
    ensures r.status == if StatusOf(e).Some? && StatusOf(e).value != 0 then StatusOf(e).value else DefaultStatus
    ensures r.code == if Truthy(BodyCode(e)) then BodyCode(e).value else ""
    ensures r.message == if Truthy(BodyMessage(e)) then BodyMessage(e).value else DefaultMessage
    ensures !e.AxiosError? ==> r == ErrRes(true, DefaultStatus, "", DefaultMessage)
    ensures ApiErrAsWritten(e).Success? ==> r == ApiErrAsWritten(e).value
  {
    var status: Option<int> := None;
    var code: Option<string> := None;
    var message: Option<string> := None;

    if e.AxiosError? {
      if e.response.Some? {
        status := e.response.value.status;
        var data := e.response.value.data;
        if data.Some? && Truthy(data.value.code) {
          code := data.value.code;
        }
        if data.Some? && Truthy(data.value.message) {
          message := data.value.message;
        }
      }
    }

    r := ErrRes(true,
                if status.Some? && status.value != 0 then status.value else DefaultStatus,
                if Truthy(code) then code.value else "",
                if Truthy(message) then message.value else DefaultMessage);
  }
}

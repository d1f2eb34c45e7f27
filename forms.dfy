/** The pieces of Yup and Formik the four forms use. A Yup string rule is
    a predicate on the field's text. Before Yup runs, Formik turns every
    empty field into `undefined`; every field of the four schemas carries
    `required()`, which rejects both, so an absent value is modelled as the
    empty string with the same verdicts. `min`/`max` compare JavaScript's `length`,
    which counts UTF-16 code units. Formik validates first and calls the
    submit handler only when every rule holds. */
module Forms {
  import opened Wrappers
  import opened Text
  import opened ApiClient

  /** `required()` on a string: not empty. */
  predicate Required(s: string) {
    s != ""
  }

  predicate MinLength(s: string, n: nat) {
    Utf16Length(s) >= n
  }

  predicate MaxLength(s: string, n: nat) {
    Utf16Length(s) <= n
  }

  /** `oneOf([...])`: one of the listed values. */
  predicate OneOf(s: string, allowed: seq<string>) {
    s in allowed
  }

  const FeedRoute: string := "/feed"

  /** What one press of the submit button leads to: the request sent (if
      any), the navigation made (if any), and the failure the submit
      handler rejects with (if any). */
  datatype Submission<V> = Submission(request: Option<V>, navigation: Option<string>, rejection: Option<Failure>)

  /** `await request(values); navigate({ to: "/feed" })` behind Formik's
      validation: a failed request skips the navigation and rejects. */
  function AwaitThenNavigate<V>(valid: bool, values: V, response: Result<(), Failure>): (s: Submission<V>)
    ensures s.request.Some? <==> valid
    ensures s.request.Some? ==> s.request.value == values
    ensures s.navigation.Some? <==> valid && response.Success?
    ensures s.navigation.Some? ==> s.navigation.value == FeedRoute
    ensures s.rejection.Some? <==> valid && response.Failure?
    ensures s.rejection.Some? ==> s.rejection.value == response.error
  {
    if !valid then Submission(None, None, None)
    else if response.Success? then Submission(Some(values), Some(FeedRoute), None)
    else Submission(Some(values), None, Some(response.error))
  }

  /** The same inside `try { ... } catch { console.error(...) }`: a failure
      neither navigates nor rejects. */
  function TryThenNavigate<V>(valid: bool, values: V, response: Result<(), Failure>): (s: Submission<V>)
    ensures s.request.Some? <==> valid
    ensures s.request.Some? ==> s.request.value == values
    ensures s.navigation.Some? <==> valid && response.Success?
    ensures s.navigation.Some? ==> s.navigation.value == FeedRoute
    ensures s.rejection.None?
  {
    if valid && response.Success? then Submission(Some(values), Some(FeedRoute), None)
    else if valid then Submission(Some(values), None, None)
    else Submission(None, None, None)
  }

  /** Catching a failure only drops the rejection. */
  lemma CatchingDropsRejection<V>(valid: bool, values: V, response: Result<(), Failure>)
    ensures TryThenNavigate(valid, values, response) == AwaitThenNavigate(valid, values, response).(rejection := None)
  {
  }
}

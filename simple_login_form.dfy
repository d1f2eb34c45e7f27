/** `src/components/LoginForm.tsx`: the older log-in form, with required
    fields only and a submit handler that catches a failed log-in. */
module SimpleLoginForm {
  import opened Wrappers
  import opened ApiClient
  import opened Forms

  datatype LoginValues = LoginValues(username: string, password: string)

  predicate Valid(v: LoginValues) {
    Required(v.username) && Required(v.password)
  }

  /** `onSubmit`: a failed log-in is logged and swallowed. */
  function Submit(v: LoginValues, response: Result<(), Failure>): (s: Submission<LoginValues>)
    ensures s.request.Some? <==> v.username != "" && v.password != ""
    ensures s.navigation.Some? <==> Valid(v) && response.Success?
    ensures s.rejection.None?
  {
    TryThenNavigate(Valid(v), v, response)
  }

  /** A failed log-in leaves the user on the form, and nothing is thrown. */
  lemma FailedLoginStays(v: LoginValues, err: Failure)
    requires Valid(v)
    ensures Submit(v, Failure(err)) == Submission(Some(v), None, None)
  {
  }
}

/** `src/components/auth/LoginForm.tsx`: the log-in schema and submit. */
module AuthLoginForm {
  import opened Wrappers
  import opened Text
  import opened ApiClient
  import opened Forms

  datatype LoginValues = LoginValues(username: string, password: string)

  predicate Valid(v: LoginValues) {
    Required(v.username) && MinLength(v.password, 6) && Required(v.password)
  }

  /** The username only has to be non-empty and the password at least six
      UTF-16 code units long; nothing else is checked. */
  lemma ValidIff(v: LoginValues)
    ensures Valid(v) <==> v.username != "" && Utf16Length(v.password) >= 6
  {
    if Utf16Length(v.password) >= 6 {
      assert v.password != "";
    }
  }

  /** Five characters are too few, six are enough. */
  lemma PasswordBoundary()
    ensures !Valid(LoginValues("u", "12345")) && Valid(LoginValues("u", "123456"))
  {
    Utf16LengthBmp("12345");
    Utf16LengthBmp("123456");
  }

  /** `handleSubmit`: log in, then go to the feed. */
  function Submit(v: LoginValues, response: Result<(), Failure>): (s: Submission<LoginValues>)
    ensures s.request.Some? <==> v.username != "" && Utf16Length(v.password) >= 6
    ensures s.navigation.Some? <==> Valid(v) && response.Success?
    ensures s.rejection.Some? <==> Valid(v) && response.Failure?
  {
    AwaitThenNavigate(Valid(v), v, response)
  }
}

/** `src/components/SignupForm.tsx`: the older sign-up form, with required
    fields and a matching confirmation only. */
module SimpleSignupForm {
  import opened Wrappers
  import opened Text
  import opened ApiClient
  import opened Forms
  import AuthSignupForm

  datatype SignupValues = SignupValues(username: string, password: string, confirmPassword: string)

  /** `required()` and `oneOf([Yup.ref("password"), ""])`. */
  predicate ValidConfirm(c: string, password: string) {
    Required(c) && OneOf(c, [password, ""])
  }

  predicate Valid(v: SignupValues) {
    Required(v.username) && Required(v.password) && ValidConfirm(v.confirmPassword, v.password)
  }

  /** Allowing "" in the list changes nothing once the field is required:
      the confirmation must repeat a non-empty password. */
  lemma ValidConfirmIff(c: string, password: string)
    ensures ValidConfirm(c, password) <==> c == password && c != ""
    ensures ValidConfirm(c, password) <==> AuthSignupForm.ValidConfirm(c, password)
  {
  }

  /** Any password is accepted as long as it is not empty. */
  lemma ValidIff(v: SignupValues)
    ensures Valid(v) <==> v.username != "" && v.password != "" && v.confirmPassword == v.password
  {
  }

  /** Whatever the newer form accepts, this one accepts too. */
  lemma WeakerThanAuthForm(u: string, p: string, c: string)
    ensures AuthSignupForm.Valid(AuthSignupForm.SignupValues(u, p, c)) ==> Valid(SignupValues(u, p, c))
  {
  }

  /** `onSubmit`: register, then go to the feed. */
  function Submit(v: SignupValues, response: Result<(), Failure>): (s: Submission<SignupValues>)
    ensures s.request.Some? <==> v.username != "" && v.password != "" && v.confirmPassword == v.password
    ensures s.navigation.Some? <==> Valid(v) && response.Success?
    ensures s.rejection.Some? <==> Valid(v) && response.Failure?
  {
    AwaitThenNavigate(Valid(v), v, response)
  }
}

/** `src/components/auth/SignupForm.tsx`: the sign-up schema and submit. */
module AuthSignupForm {
  import opened Wrappers
  import opened Text
  import opened ApiClient
  import opened Forms

  datatype SignupValues = SignupValues(username: string, password: string, confirmPassword: string)

  /** `/^[a-zA-Z0-9_]+$/`: `$` without the `m` flag anchors at the very end. */
  predicate UsernamePattern(u: string) {
    |u| > 0 && forall i :: 0 <= i < |u| ==> IsWordChar(u[i])
  }

  /** The text before the first line terminator: how far `.*` reaches from
      the start. */
  function FirstLine(s: string): (r: string)
    ensures |r| <= |s| && r == s[..|r|]
    ensures forall i :: 0 <= i < |r| ==> !IsLineTerminator(r[i])
    ensures |r| < |s| ==> IsLineTerminator(s[|r|])
    decreases |s|
  {
    if s == [] || IsLineTerminator(s[0]) then []
    else
      assert s == [s[0]] + s[1..];
      [s[0]] + FirstLine(s[1..])
  }

  predicate HasLower(s: string) { exists i :: 0 <= i < |s| && IsAsciiLower(s[i]) }
  predicate HasUpper(s: string) { exists i :: 0 <= i < |s| && IsAsciiUpper(s[i]) }
  predicate HasDigit(s: string) { exists i :: 0 <= i < |s| && IsAsciiDigit(s[i]) }

  /** `/^(?=.*[a-z])(?=.*[A-Z])(?=.*\d)/`: all three lookaheads start at the
      beginning, and `.` stops at a line terminator. */
  predicate StrengthPattern(p: string) {
    var line := FirstLine(p);
    HasLower(line) && HasUpper(line) && HasDigit(line)
  }

  predicate ValidUsername(u: string) {
    MinLength(u, 3) && MaxLength(u, 20) && UsernamePattern(u) && Required(u)
  }

  predicate ValidPassword(p: string) {
    MinLength(p, 6) && StrengthPattern(p) && Required(p)
  }

  /** `oneOf([Yup.ref("password")])` and `required()`. */
  predicate ValidConfirm(c: string, password: string) {
    OneOf(c, [password]) && Required(c)
  }

  predicate Valid(v: SignupValues) {
    ValidUsername(v.username) && ValidPassword(v.password) && ValidConfirm(v.confirmPassword, v.password)
  }

  lemma {:induction false} WordCharsAreBmp(u: string)
    requires UsernamePattern(u)
    ensures Utf16Length(u) == |u|
  {
    Utf16LengthBmp(u);
  }

  /** A username is accepted exactly when it has 3 to 20 characters (20
      included), each a letter, digit or underscore. */
  lemma ValidUsernameIff(u: string)
    ensures ValidUsername(u) <==> 3 <= |u| <= 20 && forall i :: 0 <= i < |u| ==> IsWordChar(u[i])
  {
    if forall i :: 0 <= i < |u| ==> IsWordChar(u[i]) {
      if |u| > 0 {
        WordCharsAreBmp(u);
      }
    }
  }

  /** On a one-line password the pattern asks for a lowercase letter, an
      uppercase letter and a digit anywhere. */
  lemma StrengthSingleLine(p: string)
    requires forall i :: 0 <= i < |p| ==> !IsLineTerminator(p[i])
    ensures StrengthPattern(p) <==> HasLower(p) && HasUpper(p) && HasDigit(p)
  {
    var r := FirstLine(p);
    assert |r| == |p|;
    assert r == p;
  }

  /** A digit after a line break does not count. */
  lemma DigitAfterLineBreak()
    ensures !ValidPassword("Password\n1")
  {
    var p := "Password\n1";
    assert IsLineTerminator(p[8]);
    assert FirstLine(p) == "Password" by {
      assert p[..8] == "Password";
    }
    assert !HasDigit("Password");
  }

  lemma ExampleUsername()
    ensures ValidUsername("jane_doe")
  {
    var u := "jane_doe";
    assert UsernamePattern(u) by {
      forall i | 0 <= i < |u| ensures IsWordChar(u[i]) {
      }
    }
    WordCharsAreBmp(u);
  }

  lemma ExamplePassword()
    ensures ValidPassword("Secret1")
  {
    var p := "Secret1";
    Utf16LengthBmp(p);
    StrengthSingleLine(p);
    assert IsAsciiLower(p[1]) && IsAsciiUpper(p[0]) && IsAsciiDigit(p[6]);
  }

  lemma ExampleAccepted()
    ensures Valid(SignupValues("jane_doe", "Secret1", "Secret1"))
  {
    ExampleUsername();
    ExamplePassword();
  }

  /** The confirmation is accepted exactly when it repeats a non-empty
      password. */
  lemma ValidConfirmIff(c: string, password: string)
    ensures ValidConfirm(c, password) <==> c == password && c != ""
  {
  }

  /** `handleSubmit`: register with the form values, then go to the feed. */
  function Submit(v: SignupValues, response: Result<(), Failure>): (s: Submission<SignupValues>)
    ensures s.request.Some? <==> Valid(v)
    ensures s.request.Some? ==> ValidUsername(v.username) && ValidPassword(v.password)
    ensures s.navigation.Some? <==> Valid(v) && response.Success?
    ensures s.rejection.Some? <==> Valid(v) && response.Failure?
  {
    AwaitThenNavigate(Valid(v), v, response)
  }
}

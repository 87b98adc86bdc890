/**
 * The sign-in and sign-up form rules. Each rule that fails contributes one issue, reported at the
 * field it is about, in the schema's field order. Email syntax is zod's own check and is a parameter.
 */
module AuthValidation {

  /** A validation issue: the field it is reported at and its message. */
  datatype Issue = Issue(path: string, message: string)

  datatype SignInForm = SignInForm(email: string, password: string)

  datatype SignUpForm = SignUpForm(fullName: string, name: string, email: string, confirmEmail: string, password: string)

  const EmailMessage := "Please enter a valid email address"
  const PasswordMessage := "Password must be at least 6 characters"

  /** One rule: no issue when it holds, one issue at `path` when it does not. */
  function Rule(holds: bool, path: string, message: string): (r: seq<Issue>)
    ensures holds <==> r == []
    ensures !holds ==> r == [Issue(path, message)]
  {
    if holds then [] else [Issue(path, message)]
  }

  function SignInIssues(f: SignInForm, isEmail: string -> bool): (r: seq<Issue>)
    ensures r == [] <==> isEmail(f.email) && |f.password| >= 6
    ensures |r| <= 2
  {
    Rule(isEmail(f.email), "email", EmailMessage) +
    Rule(|f.password| >= 6, "password", PasswordMessage)
  }

  /**
   * The sign-up issues: each field's rule in field order, then the emails' equality check, which
   * is reported at `confirmEmail`.
   */
  function SignUpIssues(f: SignUpForm, isEmail: string -> bool): (r: seq<Issue>)
    ensures r == [] <==>
      |f.fullName| >= 2 && |f.name| >= 2 && isEmail(f.email) && isEmail(f.confirmEmail) &&
      |f.password| >= 6 && f.email == f.confirmEmail
    ensures (f.email != f.confirmEmail) <==> |r| > 0 && r[|r| - 1] == Issue("confirmEmail", "Emails don't match")
    ensures |r| <= 6
  {
    var fields :=
      Rule(|f.fullName| >= 2, "fullName", "Full name must be at least 2 characters") +
      Rule(|f.name| >= 2, "name", "Name must be at least 2 characters") +
      Rule(isEmail(f.email), "email", EmailMessage) +
      Rule(isEmail(f.confirmEmail), "confirmEmail", EmailMessage) +
      Rule(|f.password| >= 6, "password", PasswordMessage);
    assert forall i :: 0 <= i < |fields| ==> fields[i].message != "Emails don't match";
    fields + Rule(f.email == f.confirmEmail, "confirmEmail", "Emails don't match")
  }

  /** Two emails that differ are reported as a mismatch even when each is well formed. */
  lemma MismatchReported(f: SignUpForm, isEmail: string -> bool)
    requires f.email != f.confirmEmail
    ensures Issue("confirmEmail", "Emails don't match") in SignUpIssues(f, isEmail)
  {
    var r := SignUpIssues(f, isEmail);
    assert r[|r| - 1] in r;
  }

  /** A sign-up form that passes also passes sign-in with the same email and password. */
  lemma SignUpImpliesSignIn(f: SignUpForm, isEmail: string -> bool)
    requires SignUpIssues(f, isEmail) == []
    ensures SignInIssues(SignInForm(f.email, f.password), isEmail) == []
  {
  }
}

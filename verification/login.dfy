/** The sign-in form: its change handler, the submit-time checks, the
    enabled state of the submit button, the mapping of service errors to
    user-facing text and the redirect of a user who is already signed in. */
module Login {
  import opened Wrappers
  import opened Text
  import Signup
  import Routes

  datatype LoginForm = LoginForm(email: string, password: string, error: Option<string>)

  const InitialForm := LoginForm("", "", None)

  datatype LoginField = EmailInput | PasswordInput

  /** `handleChange`: stores the value under the input's name and clears the
      form's error. */
  function HandleChange(f: LoginForm, field: LoginField, value: string): (r: LoginForm)
    ensures r.error.None?
    ensures field == EmailInput ==> r.email == value && r.password == f.password
    ensures field == PasswordInput ==> r.password == value && r.email == f.email
  {
    match field
    case EmailInput => LoginForm(value, f.password, None)
    case PasswordInput => LoginForm(f.email, value, None)
  }

  /** `validateForm()`: the first failing check's message, or `None` when the
      form may be sent. */
  function ValidateForm(f: LoginForm): (r: Option<string>)
    ensures r.None? <==> !Blank(f.email) && Contains(f.email, "@") && f.password != ""
    ensures Blank(f.email) ==> r == Some("Email is required")
    ensures !Blank(f.email) && !Contains(f.email, "@") ==> r == Some("Please enter a valid email address")
    ensures !Blank(f.email) && Contains(f.email, "@") && f.password == "" ==> r == Some("Password is required")
  {
    if Trim(f.email) == "" then Some("Email is required")
    else if !Contains(f.email, "@") then Some("Please enter a valid email address")
    else if f.password == "" then Some("Password is required")
    else None
  }

  /** `isFormValid`: a non-blank email and a non-empty password enable the
      submit button. */
  predicate IsFormValid(f: LoginForm) {
    Trim(f.email) != "" && f.password != ""
  }

  /** Every form that validates has its button enabled; the converse fails
      for an address without '@', which is rejected only on submit. */
  lemma ValidatedFormIsEnabled(f: LoginForm)
    ensures ValidateForm(f).None? ==> IsFormValid(f)
    ensures f.email == "jo" && f.password == "secret" ==> IsFormValid(f) && ValidateForm(f).Some?
  {
    if ValidateForm(f).None? {
    }
    if f.email == "jo" && f.password == "secret" {
      assert !IsSpace(f.email[0]);
      MissingCharNotContains(f.email, "@", '@');
    }
  }

  /** The sign-in check on the address is weaker than the sign-up pattern:
      every address the sign-up form accepts passes it, and "@" passes it
      although sign-up rejects it. */
  lemma LoginEmailCheckWeakerThanSignup(e: string)
    ensures Signup.EmailPattern(e) ==> !Blank(e) && Contains(e, "@")
    ensures !Signup.EmailPattern("@") && !Blank("@") && Contains("@", "@")
  {
    if Signup.EmailPattern(e) {
      Signup.EmailPatternNotBlank(e);
      var i, j :| 0 < i && i + 1 < j < |e| - 1 && e[i] == '@' && e[j] == '.'
        && Signup.AllEmailChars(e[..i]) && Signup.AllEmailChars(e[i + 1..j]) && Signup.AllEmailChars(e[j + 1..]);
      assert OccursAt(e, "@", i);
    }
    assert OccursAt("@", "@", 0);
    assert !IsSpace("@"[0]);
  }

  /** The text shown for an error thrown by the sign-in call, from its
      message (`None` when it has none): known service messages by substring,
      first match in the source's order; otherwise the message itself. */
  function SignInErrorText(message: Option<string>): (r: string)
    ensures r != ""
    ensures message.Some? && Contains(message.value, "Invalid login credentials") ==>
      r == "Invalid email or password. Please check your credentials and try again."
    ensures message.Some? && !Contains(message.value, "Invalid login credentials")
            && Contains(message.value, "Email not confirmed") ==>
      r == "Please check your email and click the confirmation link before signing in."
    ensures message.Some? && !Contains(message.value, "Invalid login credentials")
            && !Contains(message.value, "Email not confirmed")
            && Contains(message.value, "Too many requests") ==>
      r == "Too many login attempts. Please wait a moment before trying again."
    ensures (message.None? || !(Contains(message.value, "Invalid login credentials")
            || Contains(message.value, "Email not confirmed")
            || Contains(message.value, "Too many requests"))) ==>
      r == OptOr(message, "An error occurred during sign in. Please try again.")
  {
    if message.Some? && Contains(message.value, "Invalid login credentials") then
      "Invalid email or password. Please check your credentials and try again."
    else if message.Some? && Contains(message.value, "Email not confirmed") then
      "Please check your email and click the confirmation link before signing in."
    else if message.Some? && Contains(message.value, "Too many requests") then
      "Too many login attempts. Please wait a moment before trying again."
    else OptOr(message, "An error occurred during sign in. Please try again.")
  }

  /** A service message that mentions a rate limit after invalid credentials
      is reported as invalid credentials. */
  lemma CredentialsMessageWins(rest: string)
    ensures SignInErrorText(Some("Invalid login credentials" + rest)) ==
      "Invalid email or password. Please check your credentials and try again."
  {
    var m := "Invalid login credentials" + rest;
    assert m[0..|"Invalid login credentials"|] == "Invalid login credentials";
    assert OccursAt(m, "Invalid login credentials", 0);
  }

  /** The screen's own redirect: a signed-in user, once loading is over, goes
      to the dashboard with a complete profile and to onboarding without
      one. */
  function Redirect(s: Routes.Session): (r: Option<string>)
    ensures r.Some? <==> s.signedIn && !s.loading
    ensures r.Some? ==> r.value == (if s.complete then "/dashboard" else "/onboarding")
  {
    if s.signedIn && !s.loading then
      if s.complete then Some("/dashboard") else Some("/onboarding")
    else None
  }

  /** The screen's redirect is the one the route guard around /login already
      makes, so whenever the guard renders the screen, the screen renders
      its form. */
  lemma RedirectAgreesWithGuard(s: Routes.Session)
    ensures Redirect(s).Some? <==> Routes.AuthRoute(s, "/login").Redirect?
    ensures Redirect(s).Some? ==> Routes.AuthRoute(s, "/login") == Routes.Redirect(Redirect(s).value)
    ensures Routes.AuthRoute(s, "/login") == Routes.Render ==> Redirect(s).None?
  {
  }
}

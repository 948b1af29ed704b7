/**
 * The login and registration forms: the rules each field must meet, the
 * password confirmation, and the request body each form sends once valid.
 * A form with an issue is not submitted.
 */
module AuthForms {
  import opened Wrappers
  import opened Schema

  datatype Field = Username | Password | ConfirmPassword | FullName

  datatype Rule = TooShort | TooLong | BadCharacters | Mismatch

  type Issue = (Field, Rule)

  /** `[a-zA-Z0-9_]`. */
  predicate IsUsernameChar(c: char) {
    ('a' <= c <= 'z') || ('A' <= c <= 'Z') || ('0' <= c <= '9') || c == '_'
  }

  /** `/^[a-zA-Z0-9_]+$/`: at least one character, and only those. */
  predicate MatchesUsernamePattern(s: string): (b: bool)
    ensures b ==> s != "" && ' ' !in s && '-' !in s && '.' !in s && '@' !in s
    ensures b <==> s != "" && forall c :: c in s ==> IsUsernameChar(c)
  {
    |s| >= 1 && forall i :: 0 <= i < |s| ==> IsUsernameChar(s[i])
  }

  /** `z.string().min(min).max(max)` on one field: every failed check is reported. */
  function LengthIssues(field: Field, s: string, min: nat, max: nat): (issues: set<Issue>)
    ensures (field, TooShort) in issues <==> |s| < min
    ensures (field, TooLong) in issues <==> |s| > max
    ensures issues <= {(field, TooShort), (field, TooLong)}
  {
    (if |s| < min then {(field, TooShort)} else {}) + (if |s| > max then {(field, TooLong)} else {})
  }

  /** The user name: 3 to 20 characters, letters, digits and underscores only. */
  function UsernameIssues(username: string): (issues: set<Issue>)
    ensures issues == {} <==> 3 <= |username| <= 20 && MatchesUsernamePattern(username)
    ensures (Username, BadCharacters) in issues <==> !MatchesUsernamePattern(username)
    ensures forall i :: i in issues ==> i.0 == Username
  {
    LengthIssues(Username, username, 3, 20)
      + (if MatchesUsernamePattern(username) then {} else {(Username, BadCharacters)})
  }

  /** The password: 6 to 50 characters. */
  function PasswordIssues(password: string): (issues: set<Issue>)
    ensures issues == {} <==> 6 <= |password| <= 50
    ensures forall i :: i in issues ==> i.0 == Password
  {
    LengthIssues(Password, password, 6, 50)
  }

  /** The values of the login form. */
  datatype LoginForm = LoginForm(username: string, password: string, rememberMe: Option<bool>)

  /** `extendedLoginSchema`: the user name and password rules; "remember me" is free. */
  function LoginFormIssues(form: LoginForm): (issues: set<Issue>)
    ensures issues == {} <==>
      3 <= |form.username| <= 20 && MatchesUsernamePattern(form.username) && 6 <= |form.password| <= 50
  {
    UsernameIssues(form.username) + PasswordIssues(form.password)
  }

  /** The login request body. */
  datatype LoginData = LoginData(username: string, password: string)

  /** `onLoginSubmit`: `rememberMe` is dropped from the body. */
  function LoginPayload(form: LoginForm): (body: LoginData)
    ensures body.username == form.username && body.password == form.password
  {
    LoginData(form.username, form.password)
  }

  /** What the login form sends: nothing while an issue remains, else the login body. */
  function SubmitLogin(form: LoginForm): (r: Option<LoginData>)
    ensures r.Some? <==> LoginFormIssues(form) == {}
    ensures r.Some? ==> r.value == LoginPayload(form)
  {
    if LoginFormIssues(form) == {} then Some(LoginPayload(form)) else None
  }

  /** The "remember me" box changes neither whether the form is sent nor what is sent. */
  lemma RememberMeNotSent(form: LoginForm, rememberMe: Option<bool>)
    ensures SubmitLogin(form.(rememberMe := rememberMe)) == SubmitLogin(form)
  {
  }

  /** Whatever the login form sends also passes the server's login schema (both fields non-empty). */
  lemma LoginFormStricterThanServer(form: LoginForm)
    requires SubmitLogin(form).Some?
    ensures Schema.LoginIssues(SubmitLogin(form).value.username, SubmitLogin(form).value.password) == {}
  {
  }

  /** The values of the registration form. */
  datatype RegisterForm = RegisterForm(username: string, password: string, confirmPassword: string, fullName: string)

  /**
   * `extendedRegisterSchema`: user name and password as on the login form,
   * the confirmation 6 to 50 characters, the full name 1 to 50, and the
   * confirmation equal to the password (reported on the confirmation field,
   * also when another check fails).
   */
  function RegisterFormIssues(form: RegisterForm): (issues: set<Issue>)
    ensures (ConfirmPassword, Mismatch) in issues <==> form.password != form.confirmPassword
    ensures issues == {} <==>
      && 3 <= |form.username| <= 20 && MatchesUsernamePattern(form.username)
      && 6 <= |form.password| <= 50 && form.confirmPassword == form.password
      && 1 <= |form.fullName| <= 50
  {
    UsernameIssues(form.username) + PasswordIssues(form.password)
      + LengthIssues(ConfirmPassword, form.confirmPassword, 6, 50)
      + LengthIssues(FullName, form.fullName, 1, 50)
      + (if form.password == form.confirmPassword then {} else {(ConfirmPassword, Mismatch)})
  }

  /** `onRegisterSubmit`: `confirmPassword` is dropped; the rest is the new user. */
  function RegisterPayload(form: RegisterForm): (body: InsertUser)
    ensures body.username == form.username && body.password == form.password
    ensures body.fullName == Some(form.fullName)
  {
    InsertUser(form.username, form.password, Some(form.fullName))
  }

  function SubmitRegister(form: RegisterForm): (r: Option<InsertUser>)
    ensures r.Some? <==> RegisterFormIssues(form) == {}
    ensures r.Some? ==> r.value == RegisterPayload(form)
  {
    if RegisterFormIssues(form) == {} then Some(RegisterPayload(form)) else None
  }

  /** A registration that is sent has a matching confirmation, so dropping it loses nothing. */
  lemma ConfirmationNotSent(form: RegisterForm)
    requires SubmitRegister(form).Some?
    ensures form.confirmPassword == SubmitRegister(form).value.password
  {
  }
}

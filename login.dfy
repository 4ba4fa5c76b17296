/**
 * The login page (js/login.js): the checks `handleLogin` and `handleSignup`
 * make before calling the provider, what they show afterwards, and the
 * switch between the two forms. The provider's answers are inputs; what a
 * handler writes to its error element is the message of its outcome.
 */
module Login {
  import opened Common
  import Auth

  /** What a submission leaves on the page. */
  datatype Effect =
    | NoInputs                       // an input element is missing: nothing happens
    | ShowError(message: string)     // written to the form's error element
    | ShowConfirmation(message: string)  // written in green: the account awaits confirmation
    | Redirect(url: string)          // `window.location.href = url`

  /** The effect, and whether the provider was called. */
  datatype Submission = Submission(effect: Effect, providerCalled: bool)

  /** The values of the login form's inputs. */
  datatype LoginFields = LoginFields(email: string, password: string)

  /** The values of the sign-up form's inputs. */
  datatype SignupFields = SignupFields(name: string, email: string, password: string)

  const LOGIN_MISSING := "Please enter email and password"
  const SIGNUP_MISSING := "Please fill in all fields"
  const PASSWORD_TOO_SHORT := "Password must be at least 6 characters"
  const CHECK_EMAIL := "Please check your email to confirm your account"

  /** The shortest password the sign-up form accepts, in UTF-16 code units. */
  const MIN_PASSWORD := 6

  /** `redirectUrl || '/'`. */
  function Target(redirectUrl: string): (url: string)
    ensures url != ""
    ensures redirectUrl != "" ==> url == redirectUrl
    ensures redirectUrl == "" ==> url == "/"
  {
    if redirectUrl != "" then redirectUrl else "/"
  }

  /**
   * `handleLogin(redirectUrl)`: `fields` is None when an input is missing,
   * `signInError` the provider's error message when sign-in fails.
   */
  function HandleLogin(fields: Option<LoginFields>, redirectUrl: string, signInError: Option<string>): (s: Submission)
    ensures fields.None? ==> s == Submission(NoInputs, false)
    ensures s.providerCalled <==> fields.Some? && fields.value.email != "" && fields.value.password != ""
    ensures fields.Some? && !s.providerCalled ==> s.effect == ShowError(LOGIN_MISSING)
    ensures s.providerCalled && signInError.Some? ==> s.effect == ShowError(signInError.value)
    ensures s.effect.Redirect? <==> s.providerCalled && signInError.None?
    ensures s.effect.Redirect? ==> s.effect.url == Target(redirectUrl)
  {
    match fields
    case None => Submission(NoInputs, false)
    case Some(f) =>
      if f.email == "" || f.password == "" then Submission(ShowError(LOGIN_MISSING), false)
      else if signInError.Some? then Submission(ShowError(signInError.value), true)
      else Submission(Redirect(Target(redirectUrl)), true)
  }

  /** The page's redirect target comes from `getRedirectUrl`, so a successful sign-in goes exactly there. */
  lemma LoginGoesToRedirectParameter(f: LoginFields, query: seq<(string, string)>)
    requires f.email != "" && f.password != ""
    ensures HandleLogin(Some(f), Auth.GetRedirectUrl(query), None).effect == Redirect(Auth.GetRedirectUrl(query))
  {
  }

  /** `s.length` of JavaScript: UTF-16 code units, two for a character outside the Basic Multilingual Plane. */
  function JsLength(s: string): (n: nat)
    ensures |s| <= n <= 2 * |s|
    decreases |s|
  {
    if s == [] then 0
    else (if s[0] as int >= 0x1_0000 then 2 else 1) + JsLength(s[1..])
  }

  /** A string of Basic Multilingual Plane characters has one code unit per character. */
  lemma {:induction false} JsLengthBmp(s: string)
    requires forall i :: 0 <= i < |s| ==> s[i] as int < 0x1_0000
    ensures JsLength(s) == |s|
    decreases |s|
  {
    if s != [] {
      assert forall i :: 0 <= i < |s| - 1 ==> s[1..][i] == s[i + 1];
      JsLengthBmp(s[1..]);
    }
  }

  /**
   * `handleSignup(redirectUrl)`: `provider` is the identity provider's
   * answer and `recordError` the outcome of creating the user record, both
   * passed through `signUp` of js/auth.js.
   */
  function HandleSignup(fields: Option<SignupFields>, redirectUrl: string,
                        provider: Result<Auth.SignUpData>, recordError: Option<string>): (s: Submission)
    ensures fields.None? ==> s == Submission(NoInputs, false)
    ensures (fields.Some? && (fields.value.name == "" || fields.value.email == "" || fields.value.password == ""))
            ==> s == Submission(ShowError(SIGNUP_MISSING), false)
    ensures (fields.Some? && fields.value.name != "" && fields.value.email != "" && fields.value.password != "" &&
             JsLength(fields.value.password) < MIN_PASSWORD) ==> s == Submission(ShowError(PASSWORD_TOO_SHORT), false)
    ensures s.providerCalled <==>
              fields.Some? && fields.value.name != "" && fields.value.email != "" &&
              fields.value.password != "" && JsLength(fields.value.password) >= MIN_PASSWORD
    ensures s.providerCalled && provider.Err? ==> s.effect == ShowError(provider.message)
    ensures s.effect.ShowConfirmation? <==>
              s.providerCalled && provider.Ok? && provider.value.user.Some? && !provider.value.hasSession
    ensures s.effect.ShowConfirmation? ==> s.effect.message == CHECK_EMAIL
    ensures s.effect.Redirect? <==>
              s.providerCalled && provider.Ok? && (provider.value.user.None? || provider.value.hasSession)
    ensures s.effect.Redirect? ==> s.effect.url == Target(redirectUrl)
  {
    match fields
    case None => Submission(NoInputs, false)
    case Some(f) =>
      if f.name == "" || f.email == "" || f.password == "" then Submission(ShowError(SIGNUP_MISSING), false)
      else if JsLength(f.password) < MIN_PASSWORD then Submission(ShowError(PASSWORD_TOO_SHORT), false)
      else
        var r := Auth.SignUp(provider, recordError);
        if r.error.Some? then Submission(ShowError(r.error.value), true)
        else if r.data.value.user.Some? && !r.data.value.hasSession then Submission(ShowConfirmation(CHECK_EMAIL), true)
        else Submission(Redirect(Target(redirectUrl)), true)
  }

  /** A six-character password of ordinary characters passes the length check; five do not. */
  lemma PasswordBoundary(name: string, email: string, p: string, provider: Result<Auth.SignUpData>, e: Option<string>)
    requires name != "" && email != ""
    requires forall i :: 0 <= i < |p| ==> p[i] as int < 0x1_0000
    ensures |p| == 6 ==> HandleSignup(Some(SignupFields(name, email, p)), "/", provider, e).providerCalled
    ensures 0 < |p| < 6 ==>
              HandleSignup(Some(SignupFields(name, email, p)), "/", provider, e).effect == ShowError(PASSWORD_TOO_SHORT)
  {
    JsLengthBmp(p);
  }

  /** Three characters outside the Basic Multilingual Plane count as six and pass the check. */
  lemma ThreeAstralCharactersPass(name: string, email: string, provider: Result<Auth.SignUpData>, e: Option<string>)
    requires name != "" && email != ""
    ensures HandleSignup(Some(SignupFields(name, email, "\U{1F512}\U{1F512}\U{1F512}")), "/", provider, e).providerCalled
  {
    var p := "\U{1F512}\U{1F512}\U{1F512}";
    assert p[1..][1..][1..] == [];
    assert JsLength(p) == 6;
  }

  /** The error of the user-record insert never changes what the sign-up form does. */
  lemma SignupIgnoresRecordError(f: Option<SignupFields>, url: string, provider: Result<Auth.SignUpData>,
                                 e1: Option<string>, e2: Option<string>)
    ensures HandleSignup(f, url, provider, e1) == HandleSignup(f, url, provider, e2)
  {
    Auth.SignUpIgnoresRecordError(provider, e1, e2);
  }

  /** The displays that `toggleLoginSignup` sets, from the two forms' current displays. */
  function ToggledDisplays(login: string, signup: string): (r: (string, string))
    ensures (r.0 == "none") != (r.1 == "none")
    ensures r.0 == "none" <==> login != "none"
  {
    if login != "none" then ("none", "block") else ("block", "none")
  }

  /** Toggling twice restores the page exactly when one form was shown as a block and the other hidden. */
  lemma ToggleTwice(login: string, signup: string)
    ensures ToggledDisplays(ToggledDisplays(login, signup).0, ToggledDisplays(login, signup).1) == (login, signup)
            <==> (login, signup) == ("none", "block") || (login, signup) == ("block", "none")
  {
  }

  /** The two forms of the page, as far as the toggle sees them. */
  class LoginPage {
    /** Whether both `login-form` and `signup-form` exist. */
    const formsPresent: bool
    /** `loginForm.style.display`. */
    var loginDisplay: string
    /** `signupForm.style.display`. */
    var signupDisplay: string

    constructor(formsPresent: bool, loginDisplay: string, signupDisplay: string)
      ensures this.formsPresent == formsPresent
      ensures this.loginDisplay == loginDisplay && this.signupDisplay == signupDisplay
    {
      this.formsPresent := formsPresent;
      this.loginDisplay := loginDisplay;
      this.signupDisplay := signupDisplay;
    }

    /** `toggleLoginSignup()`: swap which form is shown; nothing when a form is missing. */
    method Toggle()
      modifies this
      ensures formsPresent ==> (loginDisplay, signupDisplay) == ToggledDisplays(old(loginDisplay), old(signupDisplay))
      ensures !formsPresent ==> loginDisplay == old(loginDisplay) && signupDisplay == old(signupDisplay)
    {
      if !formsPresent {
        return;
      }
      var isLoginVisible := loginDisplay != "none";
      loginDisplay := if isLoginVisible then "none" else "block";
      signupDisplay := if isLoginVisible then "block" else "none";
    }
  }
}

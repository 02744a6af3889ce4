/**
 * The server side of the sign-up and login pages
 * (src/routes/signup/+page.server.ts, src/routes/login/+page.server.ts):
 * the session redirect of `load` and the form actions, as decision chains.
 * The Supabase auth calls are oracles: each action records the calls it
 * makes and continues with what the oracle answers.
 */
module PageActions {
  import opened Wrappers

  /** What a `load` or an action ends in: `fail(status, { message })`, `redirect(status, location)`, or plain data. */
  datatype Outcome = Fail(status: int, message: string) | Redirect(status: int, location: string) | PageData

  /** A form field or query parameter is truthy: present and non-empty. */
  predicate Given(field: Option<string>) {
    field.Some? && field.value != ""
  }

  /** `load` of both pages: a visitor who already has a session is sent home with a 303. */
  function Load(hasSession: bool): (r: Outcome)
    ensures r == Redirect(303, "/") <==> hasSession
    ensures !hasSession ==> r == PageData
  {
    if hasSession then Redirect(303, "/") else PageData
  }

  /** What `signInWithOAuth` answers: a provider url and an error, either possibly absent. */
  datatype OAuthAnswer = OAuthAnswer(url: Option<string>, error: Option<string>)

  /** The end of both `google` actions: an error fails, a url redirects, otherwise nothing is returned. */
  function OAuthOutcome(answer: OAuthAnswer, failure: string): (r: Outcome)
    ensures answer.error.Some? <==> r == Fail(400, failure)
    ensures answer.error.None? && Given(answer.url) <==> r.Redirect?
    ensures r.Redirect? ==> r == Redirect(303, answer.url.value)
  {
    if answer.error.Some? then Fail(400, failure)
    else if Given(answer.url) then Redirect(303, answer.url.value)
    else PageData
  }
}

module SignupPage {
  import opened Wrappers
  import opened PageActions

  datatype SignupForm = SignupForm(email: Option<string>, password: Option<string>, confirmPassword: Option<string>)

  /** The arguments of `supabase.auth.signUp`. */
  datatype SignUpCall = SignUpCall(email: string, password: string, emailRedirectTo: string)

  /** The action's outcome and the `signUp` calls it made. */
  datatype SignupResult = SignupResult(outcome: Outcome, calls: seq<SignUpCall>)

  const AllRequired := "Todos os campos são obrigatórios"
  const Mismatch := "As senhas não coincidem"
  const TooShort := "A senha deve ter no mínimo 6 caracteres"
  const AlreadyRegistered := "Este email já está cadastrado"
  const SignupFailed := "Erro ao criar conta. Tente novamente."

  /** The three checks before the call, in order: all fields, matching passwords, at least 6 characters. */
  function Rejection(form: SignupForm): (r: Option<string>)
    ensures r.None? <==> (Given(form.email) && Given(form.password) && Given(form.confirmPassword)
                          && form.password == form.confirmPassword && |form.password.value| >= 6)
  {
    if !Given(form.email) || !Given(form.password) || !Given(form.confirmPassword) then Some(AllRequired)
    else if form.password.value != form.confirmPassword.value then Some(Mismatch)
    else if |form.password.value| < 6 then Some(TooShort)
    else None
  }

  /** The message shown for an error of `signUp`. */
  function SignUpErrorMessage(error: string): (r: string)
    ensures r == AlreadyRegistered <==> error == "User already registered"
  {
    if error == "User already registered" then AlreadyRegistered else SignupFailed
  }

  /** The `signup` action; `signUp` answers the call with an error message or none. */
  function Signup(form: SignupForm, origin: string, signUp: SignUpCall -> Option<string>): SignupResult {
    match Rejection(form)
    case Some(message) => SignupResult(Fail(400, message), [])
    case None =>
      var call := SignUpCall(form.email.value, form.password.value, origin + "/auth/callback");
      match signUp(call)
      case Some(error) => SignupResult(Fail(400, SignUpErrorMessage(error)), [call])
      case None => SignupResult(Redirect(303, "/"), [call])
  }

  /**
   * A missing or empty field fails with "all fields required"; then a
   * mismatch, then a short password, each before any call; `signUp` is
   * called exactly once, with the form's email and password, only when
   * all three checks pass.
   */
  lemma SignupChecks(form: SignupForm, origin: string, signUp: SignUpCall -> Option<string>)
    ensures var r := Signup(form, origin, signUp);
      && (!Given(form.email) || !Given(form.password) || !Given(form.confirmPassword) ==>
            r == SignupResult(Fail(400, AllRequired), []))
      && (Given(form.email) && Given(form.password) && Given(form.confirmPassword) && form.password != form.confirmPassword ==>
            r == SignupResult(Fail(400, Mismatch), []))
      && (Given(form.email) && Given(form.password) && form.password == form.confirmPassword && |form.password.value| < 6 ==>
            r == SignupResult(Fail(400, TooShort), []))
      && (r.calls != [] <==> Rejection(form).None?)
      && (Rejection(form).None? ==> r.calls == [SignUpCall(form.email.value, form.password.value, origin + "/auth/callback")])
  {
  }

  /** After the call: an error fails with its mapped message, success redirects home. */
  lemma SignupAnswer(form: SignupForm, origin: string, signUp: SignUpCall -> Option<string>)
    requires Rejection(form).None?
    ensures var call := SignUpCall(form.email.value, form.password.value, origin + "/auth/callback");
      var r := Signup(form, origin, signUp).outcome;
      && (signUp(call).None? <==> r == Redirect(303, "/"))
      && (signUp(call).Some? ==>
            r == Fail(400, if signUp(call).value == "User already registered" then AlreadyRegistered else SignupFailed))
  {
  }

  /** A short password that also differs from its confirmation is reported as a mismatch. */
  lemma ShortMismatchReportsMismatch(origin: string, signUp: SignUpCall -> Option<string>)
    ensures Signup(SignupForm(Some("a@b.co"), Some("abc"), Some("abd")), origin, signUp).outcome == Fail(400, Mismatch)
  {
  }

  const GoogleFailed := "Erro ao cadastrar com Google"

  /** The sign-up `google` action; `signInWithOAuth` answers for the `redirectTo` it is given. */
  function SignupWithGoogle(origin: string, signInWithOAuth: string -> OAuthAnswer): Outcome {
    OAuthOutcome(signInWithOAuth(origin + "/auth/callback"), GoogleFailed)
  }

  /**
   * The provider is asked to come back to the callback of this origin; an
   * error fails with 400, a provider url is followed with a 303, and with
   * neither the action returns nothing.
   */
  lemma SignupWithGoogleSpec(origin: string, signInWithOAuth: string -> OAuthAnswer)
    ensures var a := signInWithOAuth(origin + "/auth/callback"); var r := SignupWithGoogle(origin, signInWithOAuth);
      && (a.error.Some? <==> r == Fail(400, GoogleFailed))
      && (a.error.None? && Given(a.url) ==> r == Redirect(303, a.url.value))
      && (a.error.None? && !Given(a.url) ==> r == PageData)
  {
  }
}

module LoginPage {
  import opened Wrappers
  import opened PageActions

  datatype LoginForm = LoginForm(email: Option<string>, password: Option<string>)

  /** The arguments of `supabase.auth.signInWithPassword`. */
  datatype SignInCall = SignInCall(email: string, password: string)

  datatype LoginResult = LoginResult(outcome: Outcome, calls: seq<SignInCall>)

  const Required := "Email e senha são obrigatórios"
  const InvalidCredentials := "Email ou senha inválidos"
  const LoginFailed := "Erro ao fazer login. Tente novamente."

  /** `url.searchParams.get('redirect') || '/'` */
  function RedirectTarget(param: Option<string>): (r: string)
    ensures r != ""
    ensures Given(param) ==> r == param.value
    ensures !Given(param) ==> r == "/"
  {
    if Given(param) then param.value else "/"
  }

  /** The message shown for an error of `signInWithPassword`. */
  function SignInErrorMessage(error: string): (r: string)
    ensures r == InvalidCredentials <==> error == "Invalid login credentials"
  {
    if error == "Invalid login credentials" then InvalidCredentials else LoginFailed
  }

  /** The `login` action; `redirectParam` is the `redirect` query parameter. */
  function Login(form: LoginForm, redirectParam: Option<string>, signIn: SignInCall -> Option<string>): LoginResult {
    if !Given(form.email) || !Given(form.password) then LoginResult(Fail(400, Required), [])
    else
      var call := SignInCall(form.email.value, form.password.value);
      match signIn(call)
      case Some(error) => LoginResult(Fail(400, SignInErrorMessage(error)), [call])
      case None => LoginResult(Redirect(303, RedirectTarget(redirectParam)), [call])
  }

  /**
   * A missing or empty email or password fails with 400 and no call;
   * otherwise one call with the form's credentials, then the mapped error
   * or a 303 to the `redirect` parameter (home when it is empty).
   */
  lemma LoginFlow(form: LoginForm, redirectParam: Option<string>, signIn: SignInCall -> Option<string>)
    ensures var r := Login(form, redirectParam, signIn);
      && (!Given(form.email) || !Given(form.password) <==> r == LoginResult(Fail(400, Required), []))
      && (Given(form.email) && Given(form.password) ==>
            var call := SignInCall(form.email.value, form.password.value);
            && r.calls == [call]
            && (signIn(call).None? ==>
                  r.outcome == Redirect(303, if Given(redirectParam) then redirectParam.value else "/"))
            && (signIn(call).Some? ==>
                  r.outcome == Fail(400, if signIn(call).value == "Invalid login credentials" then InvalidCredentials else LoginFailed)))
  {
  }

  /** The `redirectTo` the login `google` action hands to the provider; `encode` is `encodeURIComponent`. */
  function GoogleRedirectTo(origin: string, redirectParam: Option<string>, encode: string -> string): string {
    origin + "/auth/callback?redirect=" + encode(RedirectTarget(redirectParam))
  }

  const GoogleFailed := "Erro ao fazer login com Google"

  /** The login `google` action; `signInWithOAuth` answers for the `redirectTo` it is given. */
  function LoginWithGoogle(origin: string, redirectParam: Option<string>, encode: string -> string,
                           signInWithOAuth: string -> OAuthAnswer): Outcome {
    OAuthOutcome(signInWithOAuth(GoogleRedirectTo(origin, redirectParam, encode)), GoogleFailed)
  }

  /**
   * The provider is asked to come back to the callback of this origin with
   * the encoded `redirect` parameter (home when it is empty) passed on; an
   * error fails with 400, a provider url is followed with a 303, and with
   * neither the action returns nothing.
   */
  lemma LoginWithGoogleSpec(origin: string, redirectParam: Option<string>, encode: string -> string,
                            signInWithOAuth: string -> OAuthAnswer)
    ensures GoogleRedirectTo(origin, redirectParam, encode) ==
      origin + "/auth/callback?redirect=" + encode(if Given(redirectParam) then redirectParam.value else "/")
    ensures var a := signInWithOAuth(GoogleRedirectTo(origin, redirectParam, encode));
      var r := LoginWithGoogle(origin, redirectParam, encode, signInWithOAuth);
      && (a.error.Some? <==> r == Fail(400, GoogleFailed))
      && (a.error.None? && Given(a.url) ==> r == Redirect(303, a.url.value))
      && (a.error.None? && !Given(a.url) ==> r == PageData)
  {
  }
}

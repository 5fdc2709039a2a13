/** The login page: its two field rules and what a submission writes, in order. */
module LoginPage {

  import opened Wrappers
  import opened FieldChecks
  import opened Patterns
  import opened Host

  datatype Credentials = Credentials(email: string, password: string)

  datatype LoginErrors = LoginErrors(email: Check, password: Check)

  const PASSWORD_REQUIRED: string := "Password is required"
  const PASSWORD_SHORT: string := "Password must be at least 6 characters"

  /** Email: required and an address; password: required and at least 6 characters. */
  function ValidateLogin(c: Credentials): (e: LoginErrors)
    ensures e.email.Valid? <==> InEmailLanguage(c.email)
    ensures e.email == Invalid(EMAIL_REQUIRED) <==> c.email == ""
    ensures e.email == Invalid(EMAIL_INVALID) <==> c.email != "" && !InEmailLanguage(c.email)
    ensures e.password.Valid? <==> |c.password| >= 6
    ensures e.password == Invalid(PASSWORD_REQUIRED) <==> c.password == ""
    ensures e.password == Invalid(PASSWORD_SHORT) <==> c.password != "" && |c.password| < 6
  {
    LoginErrors(ValidateEmail(c.email), RequiredMinLength(c.password, 6, PASSWORD_REQUIRED, PASSWORD_SHORT))
  }

  predicate LoginAccepted(c: Credentials) {
    var e := ValidateLogin(c);
    e.email.Valid? && e.password.Valid?
  }

  /** A successful login answer: the token and the user, already serialised as JSON text. */
  datatype LoginResponse = LoginResponse(token: string, userJson: string)

  /** The slice's error is shown only when it is a non-empty message. */
  function ErrorNotice(error: Option<string>): (m: Option<string>)
    ensures m.Some? <==> error.Some? && error.value != ""
    ensures m.Some? ==> m == error
  {
    if error.Some? && error.value != "" then error else None
  }

  const WELCOME: string := "Welcome back!"
  const LOGIN_FAILED: string := "Login failed"

  /** The effects of a submission whose fields pass, given the server's answer. */
  function LoginEffects(c: Credentials, response: Option<LoginResponse>): (t: seq<Effect>)
    ensures |t| >= 1 && t[0] == Call(LoginUser(c.email, c.password))
    ensures response.None? ==> |t| == 1
    ensures response.Some? ==>
      (|t| == 4 && t[3] == Navigate("/dashboard")
       && t[1] == SetItem("token", response.value.token)
       && t[2] == SetItem("user", response.value.userJson))
  {
    [Call(LoginUser(c.email, c.password))]
      + match response
        case None => []
        case Some(r) => [SetItem("token", r.token), SetItem("user", r.userJson), Navigate("/dashboard")]
  }

  /** A failed login never navigates and never writes to storage. */
  lemma FailedLoginStays(c: Credentials)
    ensures forall e | e in LoginEffects(c, None) :: !e.Navigate? && !e.SetItem?
  {
  }

  class LoginView {
    var showPassword: bool

    constructor ()
      ensures !showPassword
    {
      showPassword := false;
    }

    /** On mount the slice's previous error is cleared. */
    method Mount(b: Browser)
      modifies b
      ensures b.trace == old(b.trace) + [ClearAuthError]
      ensures b.storage == old(b.storage) && b.darkClass == old(b.darkClass) && b.pathname == old(b.pathname)
    {
      b.Emit(ClearAuthError);
    }

    method ToggleShowPassword()
      modifies this
      ensures showPassword == !old(showPassword)
    {
      showPassword := !showPassword;
    }

    /**
     * Submitting: fields that pass send the login request; on success the
     * token and the user are stored before the move to the dashboard.
     */
    method OnSubmit(b: Browser, c: Credentials, response: Option<LoginResponse>) returns (notice: Option<string>)
      modifies b
      ensures LoginAccepted(c) ==> b.trace == old(b.trace) + LoginEffects(c, response)
      ensures !LoginAccepted(c) ==> b.trace == old(b.trace) && b.storage == old(b.storage) && b.pathname == old(b.pathname)
                                    && notice == None
      ensures LoginAccepted(c) && response.Some? ==>
        b.storage == old(b.storage)["token" := response.value.token]["user" := response.value.userJson]
        && b.pathname == "/dashboard" && notice == Some(WELCOME)
      ensures response.None? ==> b.storage == old(b.storage) && b.pathname == old(b.pathname)
      ensures LoginAccepted(c) && response.None? ==> notice == Some(LOGIN_FAILED)
      ensures b.darkClass == old(b.darkClass)
    {
      if !LoginAccepted(c) {
        return None;
      }
      b.Emit(Call(LoginUser(c.email, c.password)));
      match response {
        case None =>
          notice := Some(LOGIN_FAILED);
        case Some(r) =>
          b.SetItem("token", r.token);
          b.SetItem("user", r.userJson);
          notice := Some(WELCOME);
          b.NavigateTo("/dashboard");
      }
    }
  }
}

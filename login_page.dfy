/**
  The login page (frontend/app/login/page.tsx): a credentials stage and a
  second stage asking for a one-time code, one submit handler whose request
  carries the code only in the second stage, and the redirect of a visitor
  who is already signed in.
*/
module LoginPage {
  import opened Wrappers
  import opened Http
  import opened AuthContext

  datatype LoginStage = Credentials | TwoFactor

  /** The body posted to the login endpoint; `twoFactorCode` is absent from the credentials payload. */
  datatype Payload = Payload(email: string, password: string, twoFactorCode: Option<string>)

  /** The fields of the login response the page reads. */
  datatype Reply = Reply(twoFactorRequired: bool, accessToken: Option<string>)

  datatype Form = Form(email: string, password: string, twoFactorCode: string, stage: LoginStage,
                       error: string, isLoading: bool, redirects: seq<string>)

  const LoginFallback := "Failed to login. Please check your credentials."

  const InitialForm := Form("", "", "", Credentials, "", false, [])

  function PayloadOf(f: Form): (p: Payload)
    ensures p.email == f.email && p.password == f.password
    ensures p.twoFactorCode.Some? <==> f.stage == TwoFactor
    ensures p.twoFactorCode.Some? ==> p.twoFactorCode.value == f.twoFactorCode
  {
    if f.stage == TwoFactor then Payload(f.email, f.password, Some(f.twoFactorCode))
    else Payload(f.email, f.password, None)
  }

  /** The synchronous start of handleSubmit. */
  function BeginSubmit(f: Form): Form {
    f.(error := "", isLoading := true)
  }

  /** The token handed to `login`: only from a success that does not ask for a code and carries a token. */
  function TokenOf(outcome: Outcome<Reply>): (t: Option<string>)
    ensures t.Some? <==> outcome.Success? && !outcome.data.twoFactorRequired && Present(outcome.data.accessToken)
    ensures t.Some? ==> t == outcome.data.accessToken
  {
    match outcome
    case Success(reply) =>
      if !reply.twoFactorRequired && Present(reply.accessToken) then reply.accessToken else None
    case Failure(_) => None
  }

  /** The end of handleSubmit: the stage and error the outcome gives, then `finally`. */
  function Settle(f: Form, outcome: Outcome<Reply>): Form {
    match outcome
    case Success(reply) =>
      if reply.twoFactorRequired then f.(stage := TwoFactor, isLoading := false) else f.(isLoading := false)
    case Failure(detail) => f.(error := DetailOr(detail, LoginFallback), isLoading := false)
  }

  /**
    A submit always ends with loading off and the typed inputs kept. A
    request for a code moves to the code stage; a failure shows the server's
    detail or the fallback and keeps the stage; the error is empty otherwise.
  */
  lemma SubmitOutcome(f: Form, outcome: Outcome<Reply>)
    ensures var r := Settle(BeginSubmit(f), outcome);
      && !r.isLoading
      && r.email == f.email && r.password == f.password && r.twoFactorCode == f.twoFactorCode
      && r.redirects == f.redirects
      && (outcome.Success? && outcome.data.twoFactorRequired ==> r.stage == TwoFactor && r.error == "")
      && (outcome.Success? && !outcome.data.twoFactorRequired ==> r.stage == f.stage && r.error == "")
      && (outcome.Failure? ==> r.stage == f.stage && r.error == DetailOr(outcome.detail, LoginFallback) && r.error != "")
  {
  }

  /** Once in the code stage the page never returns to the credentials stage. */
  lemma CodeStageIsFinal(f: Form, outcome: Outcome<Reply>)
    requires f.stage == TwoFactor
    ensures Settle(BeginSubmit(f), outcome).stage == TwoFactor
  {
  }

  /** The effect on [user, authIsLoading]: a loaded, signed-in visitor is sent home. */
  function AuthChanged(f: Form, s: Session): Form {
    if !s.isLoading && s.user.Some? then f.(redirects := f.redirects + [HomePath]) else f
  }

  /** The form is drawn only once auth has loaded and nobody is signed in. */
  predicate FormShown(s: Session) {
    !(s.isLoading || s.user.Some?)
  }

  /** A loaded, signed-in visitor is sent home and never sees the form; a signed-out one sees it and stays. */
  lemma SignedInVisitorRedirected(f: Form, s: Session)
    requires !s.isLoading
    ensures s.user.Some? ==> !FormShown(s) && AuthChanged(f, s).redirects == f.redirects + [HomePath]
    ensures s.user.None? ==> FormShown(s) && AuthChanged(f, s) == f
  {
  }

  class LoginView {
    const auth: AuthProvider
    var email: string
    var password: string
    var twoFactorCode: string
    var loginStage: LoginStage
    var error: string
    var isLoading: bool
    /** The paths `router.replace` was called with. */
    var redirects: seq<string>

    function Snapshot(): Form
      reads this
    {
      Form(email, password, twoFactorCode, loginStage, error, isLoading, redirects)
    }

    constructor (auth: AuthProvider)
      ensures this.auth == auth && Snapshot() == InitialForm
    {
      this.auth := auth;
      email, password, twoFactorCode, loginStage := "", "", "", Credentials;
      error, isLoading, redirects := "", false, [];
    }

    method SetEmail(value: string)
      modifies this`email
      ensures email == value
    {
      email := value;
    }

    method SetPassword(value: string)
      modifies this`password
      ensures password == value
    {
      password := value;
    }

    method SetTwoFactorCode(value: string)
      modifies this`twoFactorCode
      ensures twoFactorCode == value
    {
      twoFactorCode := value;
    }

    method OnAuthChange()
      modifies this`redirects
      ensures Snapshot() == AuthChanged(old(Snapshot()), auth.Snapshot())
    {
      if !auth.isLoading && auth.user.Some? {
        redirects := redirects + [HomePath];
      }
    }

    /** handleSubmit up to the request; the button is disabled while a request is out. */
    method HandleSubmit() returns (payload: Payload)
      requires !isLoading
      modifies this
      ensures payload == PayloadOf(old(Snapshot()))
      ensures Snapshot() == BeginSubmit(old(Snapshot()))
    {
      error := "";
      isLoading := true;
      if loginStage == TwoFactor {
        payload := Payload(email, password, Some(twoFactorCode));
      } else {
        payload := Payload(email, password, None);
      }
    }

    /** The request settles; a token is passed to the session's `login`. */
    method OnLoginSettled(outcome: Outcome<Reply>)
      modifies this, auth
      ensures Snapshot() == Settle(old(Snapshot()), outcome)
      ensures auth.Snapshot() == (if TokenOf(outcome).Some?
                                  then AfterLogin(old(auth.Snapshot()), TokenOf(outcome).value, auth.decode)
                                  else old(auth.Snapshot()))
    {
      match outcome {
        case Success(reply) =>
          if reply.twoFactorRequired {
            loginStage := TwoFactor;
          } else if Present(reply.accessToken) {
            auth.Login(reply.accessToken.value);
          }
        case Failure(detail) =>
          error := DetailOr(detail, LoginFallback);
      }
      isLoading := false;
    }
  }
}

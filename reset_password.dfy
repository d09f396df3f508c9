/**
  The reset-password page (frontend/app/reset-password/page.tsx): the reset
  token comes from the link's query string, the page checks it on load,
  checks the two entries before the token on submit, and replaces the form
  with a link to the login page once the server reports success.
*/
module ResetPassword {
  import opened Wrappers
  import opened Http
  import AuthContext

  datatype ResetForm = ResetForm(token: Option<string>, password: string, confirmPassword: string,
                                 error: string, successMessage: string, isLoading: bool)

  /** The body posted to the reset endpoint. */
  datatype Request = ResetRequest(token: string, password: string)

  const InvalidLinkText := "Invalid or missing reset token. Please request a new link."
  const MismatchText := "Passwords do not match."
  const MissingTokenText := "Reset token is missing."
  const ResetFallback := "Failed to reset password. The link may have expired."

  function Initial(token: Option<string>): ResetForm {
    ResetForm(token, "", "", "", "", false)
  }

  /** The effect on [token]: a link without a token is reported at once. */
  function Loaded(f: ResetForm): (r: ResetForm)
    ensures !AuthContext.Present(f.token) ==> r == f.(error := InvalidLinkText)
    ensures AuthContext.Present(f.token) ==> r == f
  {
    if !AuthContext.Present(f.token) then f.(error := InvalidLinkText) else f
  }

  /** The checks of handleSubmit, in order: the entries must agree, then a token must be present. */
  function Rejection(f: ResetForm): Option<string> {
    if f.password != f.confirmPassword then Some(MismatchText)
    else if !AuthContext.Present(f.token) then Some(MissingTokenText)
    else None
  }

  /** handleSubmit up to the request: reject with only the error set, or clear both notices and start loading. */
  function BeginSubmit(f: ResetForm): ResetForm {
    match Rejection(f)
    case Some(e) => f.(error := e)
    case None => f.(error := "", successMessage := "", isLoading := true)
  }

  function RequestOf(f: ResetForm): (r: Option<Request>)
    ensures r.Some? <==> Rejection(f).None?
    ensures r.Some? ==> r.value == ResetRequest(f.token.value, f.password)
  {
    if Rejection(f).None? then Some(ResetRequest(f.token.value, f.password)) else None
  }

  function Settle(f: ResetForm, outcome: Outcome<string>): ResetForm {
    match outcome
    case Success(msg) => f.(successMessage := msg, isLoading := false)
    case Failure(detail) => f.(error := DetailOr(detail, ResetFallback), isLoading := false)
  }

  /** `successMessage ? link : form`. */
  predicate FormShown(f: ResetForm) {
    f.successMessage == ""
  }

  /** Mismatched entries are reported even when the token is missing, and nothing is sent. */
  lemma MismatchBeforeToken(f: ResetForm)
    requires f.password != f.confirmPassword
    ensures BeginSubmit(f) == f.(error := MismatchText) && RequestOf(f).None?
  {
  }

  /** Agreeing entries without a token are reported as a missing token, and nothing is sent. */
  lemma MissingTokenRejected(f: ResetForm)
    requires f.password == f.confirmPassword && !AuthContext.Present(f.token)
    ensures BeginSubmit(f) == f.(error := MissingTokenText) && RequestOf(f).None?
  {
  }

  /**
    An accepted submit sends the token and the new password. Afterwards
    loading is off; success shows the server's message, and a non-empty one
    replaces the form; failure shows the detail or the fallback and keeps
    the form.
  */
  lemma SubmitOutcome(f: ResetForm, outcome: Outcome<string>)
    requires Rejection(f).None?
    ensures RequestOf(f) == Some(ResetRequest(f.token.value, f.password))
    ensures var r := Settle(BeginSubmit(f), outcome);
      && !r.isLoading
      && (outcome.Success? ==> r.successMessage == outcome.data && r.error == ""
                               && (FormShown(r) <==> outcome.data == ""))
      && (outcome.Failure? ==> r.error == DetailOr(outcome.detail, ResetFallback) && FormShown(r))
  {
  }

  class ResetPasswordPage {
    /** `searchParams.get('token')`. */
    const token: Option<string>
    var password: string
    var confirmPassword: string
    var error: string
    var successMessage: string
    var isLoading: bool

    function Snapshot(): ResetForm
      reads this
    {
      ResetForm(token, password, confirmPassword, error, successMessage, isLoading)
    }

    constructor (token: Option<string>)
      ensures Snapshot() == Initial(token)
    {
      this.token := token;
      password, confirmPassword, error, successMessage, isLoading := "", "", "", "", false;
    }

    method OnTokenEffect()
      modifies this`error
      ensures Snapshot() == Loaded(old(Snapshot()))
    {
      if !AuthContext.Present(token) {
        error := InvalidLinkText;
      }
    }

    method SetEntries(typedPassword: string, typedConfirm: string)
      modifies this`password, this`confirmPassword
      ensures password == typedPassword && confirmPassword == typedConfirm
    {
      password, confirmPassword := typedPassword, typedConfirm;
    }

    /** handleSubmit up to the request; the button is disabled while loading. */
    method HandleSubmit() returns (sent: Option<Request>)
      requires !isLoading
      modifies this
      ensures sent == RequestOf(old(Snapshot()))
      ensures Snapshot() == BeginSubmit(old(Snapshot()))
    {
      if password != confirmPassword {
        error := MismatchText;
        return None;
      }
      if token.None? || token.value == "" {
        error := MissingTokenText;
        return None;
      }
      error := "";
      successMessage := "";
      isLoading := true;
      sent := Some(ResetRequest(token.value, password));
    }

    method OnResetSettled(outcome: Outcome<string>)
      modifies this
      ensures Snapshot() == Settle(old(Snapshot()), outcome)
    {
      match outcome {
        case Success(msg) => successMessage := msg;
        case Failure(detail) => error := DetailOr(detail, ResetFallback);
      }
      isLoading := false;
    }
  }
}

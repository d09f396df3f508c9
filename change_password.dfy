/**
  The change-password card (frontend/components/ChangePasswordCard.tsx): a
  form stage that checks the new password locally and asks the server for a
  verification code, and a confirming stage that sends the code with the new
  password. Both requests settle through the same `finally`.
*/
module ChangePassword {
  import opened Wrappers
  import opened Text
  import opened Http

  datatype CardStage = FormStage | Confirming

  datatype Card = Card(stage: CardStage, oldPassword: string, newPassword: string, confirmPassword: string,
                       verificationCode: string, error: string, message: string, isLoading: bool)

  /** The two request bodies. */
  datatype Request =
    | RequestCode(oldPassword: string, newPassword: string)
    | ConfirmChange(code: string, newPassword: string)

  const MismatchText := "New passwords do not match."
  const TooShortText := "New password must be at least 6 characters long."
  const RequestFallback := "An error occurred."
  const ConfirmFallback := "Confirmation failed. Please try again."
  const MinLength := 6

  const InitialCard := Card(FormStage, "", "", "", "", "", "", false)

  /** The local checks of handleRequestCode, in order: the two entries must agree, then be long enough. */
  function Validate(c: Card): Option<string> {
    if c.newPassword != c.confirmPassword then Some(MismatchText)
    else if Utf16Length(c.newPassword) < MinLength then Some(TooShortText)
    else None
  }

  /** handleRequestCode up to the request: clear both notices, then either reject locally or start loading. */
  function BeginRequest(c: Card): Card {
    var cleared := c.(error := "", message := "");
    match Validate(c)
    case Some(e) => cleared.(error := e)
    case None => cleared.(isLoading := true)
  }

  /** The request sent, if the local checks pass. */
  function RequestOf(c: Card): (r: Option<Request>)
    ensures r.Some? <==> Validate(c).None?
    ensures r.Some? ==> r.value == RequestCode(c.oldPassword, c.newPassword)
  {
    if Validate(c).None? then Some(RequestCode(c.oldPassword, c.newPassword)) else None
  }

  function RequestSettled(c: Card, outcome: Outcome<string>): Card {
    match outcome
    case Success(msg) => c.(message := msg, stage := Confirming, isLoading := false)
    case Failure(detail) => c.(error := DetailOr(detail, RequestFallback), isLoading := false)
  }

  /** resetForm: back to the form stage with every input empty; the message and the loading flag are kept. */
  function Reset(c: Card): (r: Card)
    ensures r.stage == FormStage && r.error == "" && r.message == c.message && r.isLoading == c.isLoading
    ensures r.oldPassword == "" && r.newPassword == "" && r.confirmPassword == "" && r.verificationCode == ""
  {
    c.(stage := FormStage, oldPassword := "", newPassword := "", confirmPassword := "", verificationCode := "", error := "")
  }

  function BeginConfirm(c: Card): Card {
    c.(isLoading := true, error := "", message := "")
  }

  function ConfirmOf(c: Card): Request {
    ConfirmChange(c.verificationCode, c.newPassword)
  }

  function ConfirmSettled(c: Card, outcome: Outcome<string>): Card {
    match outcome
    case Success(msg) => Reset(c.(message := msg)).(isLoading := false)
    case Failure(detail) => c.(error := DetailOr(detail, ConfirmFallback), isLoading := false)
  }

  /** Mismatched entries are reported whatever their length, and nothing is sent. */
  lemma MismatchCheckedFirst(c: Card)
    requires c.newPassword != c.confirmPassword
    ensures BeginRequest(c) == c.(error := MismatchText, message := "")
    ensures RequestOf(c).None?
  {
  }

  /** Agreeing entries shorter than six code units are rejected without a request. */
  lemma ShortPasswordRejected(c: Card)
    requires c.newPassword == c.confirmPassword && Utf16Length(c.newPassword) < MinLength
    ensures BeginRequest(c) == c.(error := TooShortText, message := "")
    ensures RequestOf(c).None?
  {
  }

  /** Entries that pass the checks send the old and new password, with both notices cleared and loading on. */
  lemma ValidEntriesSent(c: Card)
    requires c.newPassword == c.confirmPassword && Utf16Length(c.newPassword) >= MinLength
    ensures BeginRequest(c) == c.(error := "", message := "", isLoading := true)
    ensures RequestOf(c) == Some(RequestCode(c.oldPassword, c.newPassword))
  {
  }

  /** A code request that succeeds shows the server's message and moves on; one that fails stays in the form with an error. */
  lemma RequestOutcome(c: Card, outcome: Outcome<string>)
    requires c.stage == FormStage && Validate(c).None?
    ensures var r := RequestSettled(BeginRequest(c), outcome);
      && !r.isLoading
      && (outcome.Success? ==> r.stage == Confirming && r.message == outcome.data && r.error == "")
      && (outcome.Failure? ==> r.stage == FormStage && r.message == "" && r.error != "")
      && r.newPassword == c.newPassword && r.oldPassword == c.oldPassword
  {
  }

  /**
    A confirmation that succeeds keeps the server's message and empties the
    four inputs in the form stage; one that fails stays in the confirming
    stage with every input kept.
  */
  lemma ConfirmOutcome(c: Card, outcome: Outcome<string>)
    requires c.stage == Confirming
    ensures var r := ConfirmSettled(BeginConfirm(c), outcome);
      && !r.isLoading
      && (outcome.Success? ==>
            r == Reset(c).(message := outcome.data, isLoading := false))
      && (outcome.Failure? ==>
            && r.stage == Confirming && r.message == "" && r.error != ""
            && r.(error := "", message := "", isLoading := false) == c.(error := "", message := "", isLoading := false))
  {
  }

  /** The card shows `message` only in the confirming stage. */
  predicate MessageShown(c: Card) {
    c.stage == Confirming && c.message != ""
  }

  /**
    A confirmation that succeeds returns to the form stage, so its message,
    and the Done button drawn for it, are never on screen.
  */
  lemma ConfirmedMessageHidden(c: Card, msg: string)
    ensures !MessageShown(ConfirmSettled(BeginConfirm(c), Success(msg)))
  {
  }

  class ChangePasswordCard {
    var stage: CardStage
    var oldPassword: string
    var newPassword: string
    var confirmPassword: string
    var verificationCode: string
    var error: string
    var message: string
    var isLoading: bool

    function Snapshot(): Card
      reads this
    {
      Card(stage, oldPassword, newPassword, confirmPassword, verificationCode, error, message, isLoading)
    }

    constructor ()
      ensures Snapshot() == InitialCard
    {
      stage, oldPassword, newPassword, confirmPassword := FormStage, "", "", "";
      verificationCode, error, message, isLoading := "", "", "", false;
    }

    method SetInputs(typedOld: string, typedNew: string, typedConfirm: string, typedCode: string)
      modifies this`oldPassword, this`newPassword, this`confirmPassword, this`verificationCode
      ensures oldPassword == typedOld && newPassword == typedNew && confirmPassword == typedConfirm && verificationCode == typedCode
    {
      oldPassword, newPassword, confirmPassword, verificationCode := typedOld, typedNew, typedConfirm, typedCode;
    }

    /** handleRequestCode up to the request; the submit button is disabled while loading. */
    method HandleRequestCode() returns (sent: Option<Request>)
      requires !isLoading
      modifies this
      ensures sent == RequestOf(old(Snapshot()))
      ensures Snapshot() == BeginRequest(old(Snapshot()))
    {
      error := "";
      message := "";
      if newPassword != confirmPassword {
        error := MismatchText;
        return None;
      }
      if Utf16Length(newPassword) < MinLength {
        error := TooShortText;
        return None;
      }
      isLoading := true;
      sent := Some(RequestCode(oldPassword, newPassword));
    }

    method OnRequestSettled(outcome: Outcome<string>)
      modifies this
      ensures Snapshot() == RequestSettled(old(Snapshot()), outcome)
    {
      match outcome {
        case Success(msg) =>
          message := msg;
          stage := Confirming;
        case Failure(detail) =>
          error := DetailOr(detail, RequestFallback);
      }
      isLoading := false;
    }

    method ResetForm()
      modifies this
      ensures Snapshot() == Reset(old(Snapshot()))
    {
      stage := FormStage;
      oldPassword, newPassword, confirmPassword, verificationCode := "", "", "", "";
      error := "";
    }

    method HandleCancel()
      modifies this
      ensures Snapshot() == Reset(old(Snapshot()))
    {
      ResetForm();
    }

    method HandleFinalSubmit() returns (sent: Request)
      requires !isLoading
      modifies this
      ensures sent == ConfirmOf(old(Snapshot()))
      ensures Snapshot() == BeginConfirm(old(Snapshot()))
    {
      isLoading := true;
      error := "";
      message := "";
      sent := ConfirmChange(verificationCode, newPassword);
    }

    method OnConfirmSettled(outcome: Outcome<string>)
      modifies this
      ensures Snapshot() == ConfirmSettled(old(Snapshot()), outcome)
    {
      match outcome {
        case Success(msg) =>
          message := msg;
          ResetForm();
        case Failure(detail) =>
          error := DetailOr(detail, ConfirmFallback);
      }
      isLoading := false;
    }
  }
}

/**
  The profile page (frontend/app/profile/page.tsx): the avatar initials, an
  edit form filled from the signed-in user, a picture chosen for upload, and
  the save handler that uploads the picture when one is chosen, writes the
  form, refreshes the user and reports the outcome.

  The page asks the auth context for `fetchUserProfile`, which the context
  (frontend/context/AuthContext.tsx) does not provide, so as written the
  refresh call throws on every save. `SaveCompletesAsWritten` and
  `SaveAsWrittenAlwaysFails` record that; the page model itself takes the
  refresh outcome as an input, as the handler evidently intends.
*/
module Profile {
  import opened Wrappers
  import opened Text

  /** The user as the page reads it: the names and bio may be absent. */
  datatype ProfileUser = ProfileUser(email: string, firstName: Option<string>, lastName: Option<string>,
                                     bio: Option<string>, pictureUrl: Option<string>)

  // -----------------------------------------------------------------------
  // Avatar initials
  // -----------------------------------------------------------------------

  /** `name?.[0] || ''`: the first character of a present, non-empty name, else nothing. */
  function FirstLetter(name: Option<string>): (r: string)
    ensures |r| <= 1
    ensures r != "" <==> name.Some? && name.value != ""
    ensures r != "" ==> r[0] == name.value[0]
  {
    if name.Some? && |name.value| > 0 then [name.value[0]] else ""
  }

  /**
    getInitials: the upper-cased first letters of the names that have one,
    else the upper-cased first character of the e-mail. `None` stands for the
    TypeError the handler throws when all three are empty.
  */
  function Initials(u: ProfileUser): (r: Option<string>)
    ensures r.None? <==> FirstLetter(u.firstName) == "" && FirstLetter(u.lastName) == "" && u.email == ""
    ensures r.Some? ==> 1 <= |r.value| <= 2 && forall i :: 0 <= i < |r.value| ==> !('a' <= r.value[i] <= 'z')
    ensures r.Some? && FirstLetter(u.firstName) != "" ==> r.value[0] == UpperChar(u.firstName.value[0])
    ensures r.Some? && FirstLetter(u.lastName) != "" ==> r.value[|r.value| - 1] == UpperChar(u.lastName.value[0])
    ensures FirstLetter(u.firstName) == "" && FirstLetter(u.lastName) == "" && u.email != "" ==>
              r == Some([UpperChar(u.email[0])])
  {
    var first := FirstLetter(u.firstName);
    var last := FirstLetter(u.lastName);
    if first != "" || last != "" then Some(Upper(first + last))
    else if |u.email| > 0 then
      assert Upper([u.email[0]]) == [UpperChar(u.email[0])];
      Some(Upper([u.email[0]]))
    else None
  }

  /** Both names give two letters, the first name's first; the e-mail is then not consulted. */
  lemma InitialsOfFullName(u: ProfileUser, e: string)
    requires FirstLetter(u.firstName) != "" && FirstLetter(u.lastName) != ""
    ensures Initials(u) == Some([UpperChar(u.firstName.value[0]), UpperChar(u.lastName.value[0])])
    ensures Initials(u) == Initials(u.(email := e))
  {
    var letters := FirstLetter(u.firstName) + FirstLetter(u.lastName);
    assert Upper(letters) == [UpperChar(u.firstName.value[0]), UpperChar(u.lastName.value[0])];
  }

  /** The picture shown: `preview || user.profile_picture_url || ''`. */
  function AvatarSource(preview: Option<string>, u: ProfileUser): (r: string)
    ensures preview.Some? && preview.value != "" ==> r == preview.value
    ensures (preview.None? || preview.value == "") && u.pictureUrl.Some? ==> r == u.pictureUrl.value
  {
    if preview.Some? && preview.value != "" then preview.value else u.pictureUrl.GetOr("")
  }

  // -----------------------------------------------------------------------
  // The edit form
  // -----------------------------------------------------------------------

  datatype Form = Form(firstName: string, lastName: string, bio: string)

  /** The three inputs, by their `name` attribute. */
  datatype Field = FirstName | LastName | Bio

  const EmptyForm := Form("", "", "")

  function Get(f: Form, field: Field): string {
    match field
    case FirstName => f.firstName
    case LastName => f.lastName
    case Bio => f.bio
  }

  /** `{ ...formData, [name]: value }`: the named field gets the value, the other two are kept. */
  function WithField(f: Form, field: Field, value: string): (r: Form)
    ensures Get(r, field) == value
    ensures forall g :: g != field ==> Get(r, g) == Get(f, g)
  {
    match field
    case FirstName => f.(firstName := value)
    case LastName => f.(lastName := value)
    case Bio => f.(bio := value)
  }

  /** Two forms that agree on every field are the same form. */
  lemma FormExtensional(a: Form, b: Form)
    requires forall g :: Get(a, g) == Get(b, g)
    ensures a == b
  {
    assert Get(a, FirstName) == Get(b, FirstName);
    assert Get(a, LastName) == Get(b, LastName);
    assert Get(a, Bio) == Get(b, Bio);
  }

  /** Edits of different inputs commute, and a later edit of the same input wins. */
  lemma {:induction false} EditsCommute(f: Form, a: Field, x: string, b: Field, y: string)
    ensures a != b ==> WithField(WithField(f, a, x), b, y) == WithField(WithField(f, b, y), a, x)
    ensures a == b ==> WithField(WithField(f, a, x), b, y) == WithField(f, b, y)
  {
    var l := WithField(WithField(f, a, x), b, y);
    if a != b {
      FormExtensional(l, WithField(WithField(f, b, y), a, x));
    } else {
      FormExtensional(l, WithField(f, b, y));
    }
  }

  /** Filling from the user: each field is the user's value, or '' when it is absent. */
  function FormOf(u: ProfileUser): (r: Form)
    ensures Get(r, FirstName) == u.firstName.GetOr("")
    ensures Get(r, LastName) == u.lastName.GetOr("")
    ensures Get(r, Bio) == u.bio.GetOr("")
  {
    Form(u.firstName.GetOr(""), u.lastName.GetOr(""), u.bio.GetOr(""))
  }

  /** A user with no names and no bio, such as the one the auth context builds from a token, gives the empty form. */
  lemma FormOfEmailOnly(email: string)
    ensures FormOf(ProfileUser(email, None, None, None, None)) == EmptyForm
  {
  }

  // -----------------------------------------------------------------------
  // The page state and its handlers
  // -----------------------------------------------------------------------

  const SavedText := "Profile updated successfully!"
  const SaveErrorText := "An error occurred while saving. Please try again."
  const LoginPath := "/login"

  /** A chosen file, by identity, and the requests the save handler sends. */
  datatype Request =
    | UploadPicture(file: nat, token: string)
    | UpdateProfile(form: Form, token: string)
    | RefreshProfile

  /** What handleSaveAll's closure captured at submit time: the form, the chosen file and the token. */
  datatype Submission = Submission(form: Form, file: Option<nat>, token: string)

  /** `submitted` is the closure of the save that is out, if any; the inputs stay editable meanwhile. */
  datatype Page = Page(form: Form, selectedFile: Option<nat>, preview: Option<string>, isSubmitting: bool,
                       message: string, error: string, redirect: Option<string>, submitted: Option<Submission>)

  const InitialPage := Page(EmptyForm, None, None, false, "", "", None, None)

  /** The effect on [user, authIsLoading]: send a signed-out visitor to the login page; fill the form from a user. */
  function AuthChanged(p: Page, authIsLoading: bool, user: Option<ProfileUser>): (r: Page)
    ensures r.redirect == (if !authIsLoading && user.None? then Some(LoginPath) else p.redirect)
    ensures r.form == (if user.Some? then FormOf(user.value) else p.form)
    ensures r.(form := p.form, redirect := p.redirect) == p
  {
    var q := if !authIsLoading && user.None? then p.(redirect := Some(LoginPath)) else p;
    if user.Some? then q.(form := FormOf(user.value)) else q
  }

  /** handleFileChange: the first chosen file and its object URL; choosing nothing keeps the earlier choice. */
  function FileChanged(p: Page, files: seq<nat>, objectUrl: nat -> string): (r: Page)
    ensures |files| > 0 ==> r == p.(selectedFile := Some(files[0]), preview := Some(objectUrl(files[0])))
    ensures |files| == 0 ==> r == p
  {
    if |files| > 0 then p.(selectedFile := Some(files[0]), preview := Some(objectUrl(files[0]))) else p
  }

  /** The synchronous start of handleSaveAll; the awaited chain works on the values captured here. */
  function BeginSave(p: Page, token: string): Page {
    p.(isSubmitting := true, message := "", error := "", submitted := Some(Submission(p.form, p.selectedFile, token)))
  }

  /** The try block finishes when every awaited call resolves: the upload (only sent with a file), the update and the refresh. */
  predicate SaveCompletes(hasFile: bool, uploadOk: bool, updateOk: bool, refreshOk: bool) {
    (hasFile ==> uploadOk) && updateOk && refreshOk
  }

  /** The requests the awaited chain sends from the captured values, stopping at the first one that fails. */
  function SaveRequests(s: Submission, uploadOk: bool, updateOk: bool): (rs: seq<Request>)
    ensures (exists k :: 0 <= k < |rs| && rs[k].UploadPicture?) <==> s.file.Some?
    ensures s.file.Some? ==> rs[0] == UploadPicture(s.file.value, s.token)
    ensures UpdateProfile(s.form, s.token) in rs <==> s.file.None? || uploadOk
    ensures RefreshProfile in rs <==> (s.file.None? || uploadOk) && updateOk
  {
    var upload := if s.file.Some? then [UploadPicture(s.file.value, s.token)] else [];
    var rest := if s.file.Some? && !uploadOk then []
                else if !updateOk then [UpdateProfile(s.form, s.token)]
                else [UpdateProfile(s.form, s.token), RefreshProfile];
    assert s.file.Some? ==> (upload + rest)[0].UploadPicture?;
    upload + rest
  }

  /**
    The end of handleSaveAll: the success lines or the catch, then `finally`.
    The setters act on the page as it is then, so a file chosen during the
    save is cleared by a success.
  */
  function SettleSave(p: Page, completed: bool): (r: Page)
    ensures !r.isSubmitting && r.submitted.None? && r.form == p.form && r.redirect == p.redirect
    ensures completed ==> r.message == SavedText && r.error == p.error && r.selectedFile.None? && r.preview.None?
    ensures !completed ==> r.error == SaveErrorText && r.message == p.message
                           && r.selectedFile == p.selectedFile && r.preview == p.preview
  {
    if completed then p.(message := SavedText, selectedFile := None, preview := None, isSubmitting := false, submitted := None)
    else p.(error := SaveErrorText, isSubmitting := false, submitted := None)
  }

  /** A whole save from a page at rest: exactly one of the two notices shows afterwards. */
  lemma SaveOutcome(p: Page, token: string, hasFile: bool, uploadOk: bool, updateOk: bool, refreshOk: bool)
    ensures var r := SettleSave(BeginSave(p, token), SaveCompletes(hasFile, uploadOk, updateOk, refreshOk));
      && !r.isSubmitting
      && (r.message == SavedText <==> SaveCompletes(hasFile, uploadOk, updateOk, refreshOk))
      && (r.error == SaveErrorText <==> !SaveCompletes(hasFile, uploadOk, updateOk, refreshOk))
      && (r.message == "" <==> r.error != "")
  {
  }

  /**
    As written, the refresh is `fetchUserProfile()` with `fetchUserProfile`
    undefined: the call throws a TypeError, which is the same as a refresh
    that fails.
  */
  function SaveCompletesAsWritten(hasFile: bool, uploadOk: bool, updateOk: bool): (r: bool)
    ensures r == SaveCompletes(hasFile, uploadOk, updateOk, false)
  {
    (hasFile ==> uploadOk) && updateOk && false
  }

  /**
    As written, every save ends with the error notice and keeps the chosen
    picture, even when the server has accepted the upload and the update.
  */
  lemma SaveAsWrittenAlwaysFails(p: Page, token: string)
    requires p.selectedFile.Some?
    ensures var r := SettleSave(BeginSave(p, token), SaveCompletesAsWritten(true, true, true));
      && r.error == SaveErrorText && r.message == ""
      && r.selectedFile == p.selectedFile
    ensures var rs := SaveRequests(BeginSave(p, token).submitted.value, true, true);
      && UploadPicture(p.selectedFile.value, token) in rs
      && UpdateProfile(p.form, token) in rs
  {
  }

  /** With a refresh that resolves, a save whose requests all succeed reports success and clears the chosen picture. */
  lemma SaveSucceedsWithRefresh(p: Page, token: string)
    ensures var r := SettleSave(BeginSave(p, token), SaveCompletes(p.selectedFile.Some?, true, true, true));
      && r.message == SavedText && r.error == "" && r.selectedFile.None? && r.preview.None?
  {
  }

  /**
    Typing and choosing a file while a save is out change the page but not
    the captured values: the requests are those of the form, file and token
    at submit time.
  */
  lemma EditsDuringSaveNotSent(p: Page, token: string, field: Field, value: string, files: seq<nat>,
                               objectUrl: nat -> string, uploadOk: bool, updateOk: bool)
    ensures var q := BeginSave(p, token);
      var edited := FileChanged(q.(form := WithField(q.form, field, value)), files, objectUrl);
      && edited.submitted == q.submitted
      && SaveRequests(edited.submitted.value, uploadOk, updateOk) == SaveRequests(Submission(p.form, p.selectedFile, token), uploadOk, updateOk)
  {
  }

  /** A save with no file at submit time sends no upload, even when a file was chosen while it ran. */
  lemma FileChosenDuringSaveNotUploaded(p: Page, token: string, file: nat, objectUrl: nat -> string, uploadOk: bool, updateOk: bool)
    requires p.selectedFile.None?
    ensures var edited := FileChanged(BeginSave(p, token), [file], objectUrl);
      && edited.selectedFile == Some(file)
      && SaveRequests(edited.submitted.value, uploadOk, updateOk) == (if updateOk then [UpdateProfile(p.form, token), RefreshProfile] else [UpdateProfile(p.form, token)])
  {
  }

  class ProfilePage {
    var form: Form
    var selectedFile: Option<nat>
    var preview: Option<string>
    var isSubmitting: bool
    var message: string
    var error: string
    /** Where `router.replace` sent the visitor, if it was called. */
    var redirect: Option<string>
    /** The values the running save captured. */
    var submitted: Option<Submission>

    function Snapshot(): Page
      reads this
    {
      Page(form, selectedFile, preview, isSubmitting, message, error, redirect, submitted)
    }

    constructor ()
      ensures Snapshot() == InitialPage
    {
      form, selectedFile, preview, isSubmitting := EmptyForm, None, None, false;
      message, error, redirect, submitted := "", "", None, None;
    }

    method OnAuthChange(authIsLoading: bool, user: Option<ProfileUser>)
      modifies this
      ensures Snapshot() == AuthChanged(old(Snapshot()), authIsLoading, user)
    {
      if !authIsLoading && user.None? {
        redirect := Some(LoginPath);
      }
      if user.Some? {
        form := FormOf(user.value);
      }
    }

    method HandleInputChange(field: Field, value: string)
      modifies this`form
      ensures Snapshot() == old(Snapshot()).(form := WithField(old(form), field, value))
    {
      form := WithField(form, field, value);
    }

    method HandleFileChange(files: seq<nat>, objectUrl: nat -> string)
      modifies this
      ensures Snapshot() == FileChanged(old(Snapshot()), files, objectUrl)
    {
      if |files| > 0 {
        var file := files[0];
        selectedFile := Some(file);
        preview := Some(objectUrl(file));
      }
    }

    /** The submit button is disabled while a save is running, so a save starts from a page at rest. */
    method HandleSaveAll(token: string)
      requires !isSubmitting
      modifies this
      ensures Snapshot() == BeginSave(old(Snapshot()), token)
    {
      isSubmitting := true;
      message := "";
      error := "";
      submitted := Some(Submission(form, selectedFile, token));
    }

    /**
      The awaited chain of the running save settles: the outcome of each
      request it sends, and of the refresh.
    */
    method OnSaveSettled(uploadOk: bool, updateOk: bool, refreshOk: bool) returns (sent: seq<Request>)
      requires submitted.Some?
      modifies this
      ensures sent == SaveRequests(old(submitted).value, uploadOk, updateOk)
      ensures Snapshot() == SettleSave(old(Snapshot()), SaveCompletes(old(submitted).value.file.Some?, uploadOk, updateOk, refreshOk))
    {
      var s := submitted.value;
      var completed := false;
      sent := [];
      if s.file.Some? {
        sent := sent + [UploadPicture(s.file.value, s.token)];
      }
      if s.file.None? || uploadOk {
        sent := sent + [UpdateProfile(s.form, s.token)];
        if updateOk {
          sent := sent + [RefreshProfile];
          completed := refreshOk;
        }
      }
      if completed {
        message := SavedText;
        selectedFile := None;
        preview := None;
      } else {
        error := SaveErrorText;
      }
      isSubmitting := false;
      submitted := None;
    }
  }
}

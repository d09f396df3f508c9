/**
  The signed-in user's own account (backend/users/routes.py): resolving the
  caller from the Authorization header, the profile update, the two-step
  password change by e-mailed code, and turning two-factor authentication
  on and off.

  Decoding a JWT (its signature and expiry checks included) is the
  parameter `decode`, `None` where jose raises. A TOTP check is the
  parameter `totpValid(secret, code)`. The random code and secret are
  inputs. Every handler is a function from the caller's row to the new row
  and the answer; the `...Route` methods apply it to the table in place,
  as the commit of the session does.
*/
module UsersRoutes {
  import opened Wrappers
  import opened Text
  import opened AuthRoutes

  const NotAuthenticatedText := "Not authenticated"
  const InvalidTokenText := "Invalid token"
  const UserNotFoundText := "User not found"
  const BearerPrefix := "Bearer "

  // -----------------------------------------------------------------------
  // get_current_user
  // -----------------------------------------------------------------------

  /** `token.replace("Bearer ", "")`: every occurrence is removed, not just a leading one. */
  function StripBearer(header: string): string {
    ReplaceAll(header, BearerPrefix, "")
  }

  /** A header of the usual form gives back the token it was built from. */
  lemma StripBearerOfHeader(token: string)
    requires !Contains(token, BearerPrefix)
    ensures StripBearer(BearerPrefix + token) == token
  {
    assert (BearerPrefix + token)[|BearerPrefix|..] == token;
    ReplaceAllAbsent(token, BearerPrefix, "");
  }

  function CurrentUser(t: Table, header: Option<string>, decode: string -> Option<map<string, Claim>>)
    : Result<Account, HttpError>
  {
    if header.None? || header.value == "" then Err(HttpError(401, NotAuthenticatedText))
    else
      var claims := decode(StripBearer(header.value));
      if claims.None? || "sub" !in claims.value then Err(HttpError(401, InvalidTokenText))
      else match claims.value["sub"]
        case TextClaim(email) =>
          if email in t.accounts then Ok(t.accounts[email]) else Err(HttpError(404, UserNotFoundText))
        case TimeClaim(_) => Err(HttpError(404, UserNotFoundText))
  }

  /** The claims of the token a non-empty header carries. */
  function ClaimsOf(header: string, decode: string -> Option<map<string, Claim>>): Option<map<string, Claim>> {
    decode(StripBearer(header))
  }

  /**
    The caller's row is found exactly when the header holds a token that
    decodes to claims naming a registered e-mail as subject. A missing
    header, a token that does not decode and a token without subject are
    401s; a subject with no row is a 404.
  */
  lemma CurrentUserOutcomes(t: Table, header: Option<string>, decode: string -> Option<map<string, Claim>>)
    ensures header.None? || header.value == "" ==>
              CurrentUser(t, header, decode) == Err(HttpError(401, NotAuthenticatedText))
    ensures header.Some? && header.value != "" && ClaimsOf(header.value, decode).None? ==>
              CurrentUser(t, header, decode) == Err(HttpError(401, InvalidTokenText))
    ensures header.Some? && header.value != "" && ClaimsOf(header.value, decode).Some?
            && "sub" !in ClaimsOf(header.value, decode).value ==>
              CurrentUser(t, header, decode) == Err(HttpError(401, InvalidTokenText))
    ensures CurrentUser(t, header, decode).Ok? <==>
              && header.Some? && header.value != "" && ClaimsOf(header.value, decode).Some?
              && "sub" in ClaimsOf(header.value, decode).value
              && ClaimsOf(header.value, decode).value["sub"].TextClaim?
              && ClaimsOf(header.value, decode).value["sub"].text in t.accounts
    ensures CurrentUser(t, header, decode).Ok? ==>
              CurrentUser(t, header, decode).value == t.accounts[ClaimsOf(header.value, decode).value["sub"].text]
    ensures CurrentUser(t, header, decode).Err? ==>
              CurrentUser(t, header, decode).error.status == 401 || CurrentUser(t, header, decode).error == HttpError(404, UserNotFoundText)
  {
  }

  /**
    A token handed out at sign-in, sent back as "Bearer <token>", resolves
    to the signed-in row, as long as the decoder accepts what the encoder
    produced.
  */
  lemma SignedInTokenResolves(t: Table, email: string, password: string, now: int,
                              encode: map<string, Claim> -> string, decode: string -> Option<map<string, Claim>>)
    requires email in t.accounts && Verify(password, t.accounts[email].hashedPassword)
    requires var c := AccessClaims(map["sub" := TextClaim(email)], now);
      decode(encode(c)) == Some(c) && !Contains(encode(c), BearerPrefix)
    ensures var token := Login(t, email, password, None, now, encode).value.accessToken;
      CurrentUser(t, Some(BearerPrefix + token), decode) == Ok(t.accounts[email])
  {
    var c := AccessClaims(map["sub" := TextClaim(email)], now);
    StripBearerOfHeader(encode(c));
  }

  // -----------------------------------------------------------------------
  // Handlers on the caller's row
  // -----------------------------------------------------------------------

  /** The reply body and the caller's row after a handler. */
  datatype Handled = Handled(result: Result<string, HttpError>, account: Account)

  /** One field of a partial update: absent from the request, or given (possibly as null). */
  datatype Patch = Unset | Given(value: Option<string>)

  function Patched(current: Option<string>, p: Patch): Option<string> {
    if p.Given? then p.value else current
  }

  /** `user_update.dict(exclude_unset=True)`: only the fields the request sent. */
  datatype ProfileUpdate = ProfileUpdate(firstName: Patch, lastName: Patch, bio: Patch)

  /** update_users_me: every field the request sent is written, every other column is kept. */
  function UpdateMe(a: Account, u: ProfileUpdate): (r: Account)
    ensures u.firstName.Given? ==> r.firstName == u.firstName.value
    ensures u.lastName.Given? ==> r.lastName == u.lastName.value
    ensures u.bio.Given? ==> r.bio == u.bio.value
    ensures r.(firstName := a.firstName, lastName := a.lastName, bio := a.bio) == a
    ensures u.firstName.Unset? ==> r.firstName == a.firstName
    ensures u.lastName.Unset? ==> r.lastName == a.lastName
    ensures u.bio.Unset? ==> r.bio == a.bio
  {
    a.(firstName := Patched(a.firstName, u.firstName), lastName := Patched(a.lastName, u.lastName),
       bio := Patched(a.bio, u.bio))
  }

  /** An empty update changes nothing, and sending the same update twice is the same as once. */
  lemma UpdateMeIdempotent(a: Account, u: ProfileUpdate)
    ensures UpdateMe(a, ProfileUpdate(Unset, Unset, Unset)) == a
    ensures UpdateMe(UpdateMe(a, u), u) == UpdateMe(a, u)
  {
  }

  const WrongOldPasswordText := "Incorrect old password."
  const CodeSentText := "A verification code has been sent to your email."
  const CodeInvalidText := "Verification code is invalid or has expired."
  const WrongCodeText := "Incorrect verification code."
  const NewTooLongText := "New password is too long."
  const PasswordUpdatedText := "Password updated successfully."
  const CodeLifetimeMinutes := 10

  /** `random.randint(100000, 999999)`. */
  predicate SixDigits(code: int) {
    100000 <= code <= 999999
  }

  /**
    request_password_change: with the right old password, keep the hash of
    a fresh six-digit code and its expiry ten minutes on. The requested new
    password is not used.
  */
  function RequestChange(a: Account, oldPassword: string, newPassword: string, code: int, now: int): Handled
    requires SixDigits(code)
  {
    if !Verify(oldPassword, a.hashedPassword) then Handled(Err(HttpError(400, WrongOldPasswordText)), a)
    else Handled(Ok(CodeSentText),
                 a.(resetCode := Some(HashOf(NatToString(code))),
                    resetExpires := Some(DateTime(now + CodeLifetimeMinutes * 60, true))))
  }

  /** `expires_at.replace(tzinfo=timezone.utc)` for a stored time without zone: the clock reading is taken as UTC. */
  function AsUtc(d: DateTime): (r: DateTime)
    ensures r.aware && r.seconds == d.seconds
  {
    if d.aware then d else d.(aware := true)
  }

  /** The first check: a code hash and an expiry are stored, and the expiry is not before `now`. */
  predicate CodeLive(a: Account, now: int) {
    a.resetCode.Some? && a.resetExpires.Some? && !(AsUtc(a.resetExpires.value).seconds < now)
  }

  /** confirm_password_change: three checks in order, then the new hash and the code cleared. */
  function ConfirmChange(a: Account, code: string, newPassword: string, now: int): Handled {
    if !CodeLive(a, now) then Handled(Err(HttpError(400, CodeInvalidText)), a)
    else if !Verify(code, a.resetCode.value) then Handled(Err(HttpError(400, WrongCodeText)), a)
    else if Utf8Length(newPassword) > MaxPasswordBytes then Handled(Err(HttpError(422, NewTooLongText)), a)
    else Handled(Ok(PasswordUpdatedText),
                 a.(hashedPassword := HashOf(newPassword), resetCode := None, resetExpires := None))
  }

  /** A wrong old password is refused and the row is unchanged; the right one stores a live code for ten minutes. */
  lemma RequestChangeOutcome(a: Account, oldPassword: string, newPassword: string, code: int, now: int)
    requires SixDigits(code)
    ensures var h := RequestChange(a, oldPassword, newPassword, code, now);
      && (!Verify(oldPassword, a.hashedPassword) ==> h == Handled(Err(HttpError(400, WrongOldPasswordText)), a))
      && (Verify(oldPassword, a.hashedPassword) ==>
            && h.result == Ok(CodeSentText)
            && Verify(NatToString(code), h.account.resetCode.value)
            && h.account.resetExpires == Some(DateTime(now + 600, true))
            && h.account.hashedPassword == a.hashedPassword
            && (forall later :: now <= later <= now + 600 ==> CodeLive(h.account, later))
            && !CodeLive(h.account, now + 601))
  {
  }

  /** A missing, expired or never-requested code is refused before the code itself is looked at, and nothing changes. */
  lemma DeadCodeFirst(a: Account, code: string, newPassword: string, now: int)
    requires !CodeLive(a, now)
    ensures ConfirmChange(a, code, newPassword, now) == Handled(Err(HttpError(400, CodeInvalidText)), a)
  {
  }

  /** A live but wrong code is refused before the new password's length is looked at. */
  lemma WrongCodeSecond(a: Account, code: string, newPassword: string, now: int)
    requires CodeLive(a, now) && !Verify(code, a.resetCode.value)
    ensures ConfirmChange(a, code, newPassword, now) == Handled(Err(HttpError(400, WrongCodeText)), a)
  {
  }

  /** The right live code with an over-long new password is a 422, and nothing changes. */
  lemma LongNewPasswordThird(a: Account, code: string, newPassword: string, now: int)
    requires CodeLive(a, now) && Verify(code, a.resetCode.value) && Utf8Length(newPassword) > MaxPasswordBytes
    ensures ConfirmChange(a, code, newPassword, now) == Handled(Err(HttpError(422, NewTooLongText)), a)
  {
  }

  /** A stored expiry without a zone is read as UTC: it gives the same answer as the same reading with a zone. */
  lemma NaiveExpiryIsUtc(a: Account, seconds: int, code: string, newPassword: string, now: int)
    ensures ConfirmChange(a.(resetExpires := Some(DateTime(seconds, false))), code, newPassword, now).result
            == ConfirmChange(a.(resetExpires := Some(DateTime(seconds, true))), code, newPassword, now).result
  {
  }

  /**
    The change round trip: the code of a request, sent back within ten
    minutes with a new password of at most 72 bytes, installs that password
    and clears the code, so the old password and the same code no longer
    work.
  */
  lemma {:induction false} ChangeRoundTrip(a: Account, oldPassword: string, newPassword: string, code: int,
                                           now: int, later: int)
    requires SixDigits(code) && Verify(oldPassword, a.hashedPassword)
    requires now <= later <= now + CodeLifetimeMinutes * 60 && Utf8Length(newPassword) <= MaxPasswordBytes
    ensures var issued := RequestChange(a, oldPassword, newPassword, code, now).account;
      var done := ConfirmChange(issued, NatToString(code), newPassword, later);
      && done.result == Ok(PasswordUpdatedText)
      && Verify(newPassword, done.account.hashedPassword)
      && (oldPassword != newPassword ==> !Verify(oldPassword, done.account.hashedPassword))
      && done.account.resetCode.None? && done.account.resetExpires.None?
      && ConfirmChange(done.account, NatToString(code), newPassword, later).result == Err(HttpError(400, CodeInvalidText))
  {
    var issued := RequestChange(a, oldPassword, newPassword, code, now).account;
    assert CodeLive(issued, later);
    assert Verify(NatToString(code), issued.resetCode.value);
  }

  const AlreadyEnabledText := "2FA is already enabled."
  const InvalidTotpText := "Invalid 2FA code."
  const EnabledText := "2FA has been successfully enabled."
  const NotEnabledText := "2FA is not enabled."
  const WrongPasswordText := "Incorrect password."
  const DisabledText := "2FA has been successfully disabled."

  /** The secret and its provisioning URI offered for scanning. */
  datatype Setup = Setup(secretKey: string, otpUri: string, qrCodeImage: string)

  /**
    generate_two_factor_secret: refused once 2FA is on; otherwise a fresh
    secret, stored nowhere. `provisioningUri(secret, email)` and
    `qrPngBase64(uri)` stand for pyotp and the QR encoder.
  */
  function Generate(a: Account, secret: string, provisioningUri: (string, string) -> string,
                    qrPngBase64: string -> string): (r: Result<Setup, HttpError>)
    ensures a.twoFactorEnabled <==> r.Err?
    ensures r.Err? ==> r.error == HttpError(400, AlreadyEnabledText)
    ensures r.Ok? ==> r.value.secretKey == secret && r.value.otpUri == provisioningUri(secret, a.email)
  {
    if a.twoFactorEnabled then Err(HttpError(400, AlreadyEnabledText))
    else
      var uri := provisioningUri(secret, a.email);
      Ok(Setup(secret, uri, "data:image/png;base64," + qrPngBase64(uri)))
  }

  /** verify_two_factor_setup: a code valid for the offered secret stores it and turns 2FA on. */
  function VerifySetup(a: Account, secretKey: string, code: string, totpValid: (string, string) -> bool): Handled {
    if !totpValid(secretKey, code) then Handled(Err(HttpError(400, InvalidTotpText)), a)
    else Handled(Ok(EnabledText), a.(twoFactorSecret := Some(secretKey), twoFactorEnabled := true))
  }

  /** disable_two_factor: needs 2FA on, then the account password; clears the secret and the flag. */
  function Disable(a: Account, password: string): Handled {
    if !a.twoFactorEnabled then Handled(Err(HttpError(400, NotEnabledText)), a)
    else if !Verify(password, a.hashedPassword) then Handled(Err(HttpError(401, WrongPasswordText)), a)
    else Handled(Ok(DisabledText), a.(twoFactorSecret := None, twoFactorEnabled := false))
  }

  /** Only a valid code changes the row, and then exactly the secret and the flag. */
  lemma VerifySetupOutcome(a: Account, secretKey: string, code: string, totpValid: (string, string) -> bool)
    ensures var h := VerifySetup(a, secretKey, code, totpValid);
      && (h.result.Ok? <==> totpValid(secretKey, code))
      && (h.result.Err? ==> h.account == a)
      && (h.result.Ok? ==> h.account.twoFactorEnabled && h.account.twoFactorSecret == Some(secretKey)
                           && h.account.(twoFactorEnabled := a.twoFactorEnabled, twoFactorSecret := a.twoFactorSecret) == a)
  {
  }

  /** Disabling, in order: off already is a 400, a wrong password a 401; either way nothing changes. */
  lemma DisableOutcome(a: Account, password: string)
    ensures var h := Disable(a, password);
      && (!a.twoFactorEnabled ==> h == Handled(Err(HttpError(400, NotEnabledText)), a))
      && (a.twoFactorEnabled && !Verify(password, a.hashedPassword) ==> h == Handled(Err(HttpError(401, WrongPasswordText)), a))
      && (h.result.Ok? <==> a.twoFactorEnabled && Verify(password, a.hashedPassword))
      && (h.result.Ok? ==> !h.account.twoFactorEnabled && h.account.twoFactorSecret.None?)
  {
  }

  /** Turning 2FA on and off again with the password restores a row that never had it. */
  lemma EnableThenDisable(a: Account, secretKey: string, code: string, password: string,
                          totpValid: (string, string) -> bool)
    requires !a.twoFactorEnabled && a.twoFactorSecret.None?
    requires totpValid(secretKey, code) && Verify(password, a.hashedPassword)
    ensures Generate(a, secretKey, (s, e) => s + e, u => u).Ok?
    ensures Disable(VerifySetup(a, secretKey, code, totpValid).account, password) == Handled(Ok(DisabledText), a)
  {
  }

  // -----------------------------------------------------------------------
  // The routes on the table, for the caller `email` that get_current_user resolved
  // -----------------------------------------------------------------------

  method UpdateMeRoute(table: UserTable, email: string, u: ProfileUpdate) returns (r: Account)
    requires email in table.accounts && table.Valid()
    modifies table
    ensures table.Valid()
    ensures table.accounts == old(table.accounts)[email := UpdateMe(old(table.accounts[email]), u)]
    ensures table.nextId == old(table.nextId) && r == table.accounts[email]
  {
    var a := table.accounts[email];
    var firstName := if u.firstName.Given? then u.firstName.value else a.firstName;
    var lastName := if u.lastName.Given? then u.lastName.value else a.lastName;
    var bio := if u.bio.Given? then u.bio.value else a.bio;
    r := a.(firstName := firstName, lastName := lastName, bio := bio);
    table.accounts := table.accounts[email := r];
  }

  method RequestChangeRoute(table: UserTable, email: string, oldPassword: string, newPassword: string,
                            code: int, now: int) returns (r: Result<string, HttpError>)
    requires email in table.accounts && SixDigits(code) && table.Valid()
    modifies table
    ensures table.Valid()
    ensures var h := RequestChange(old(table.accounts[email]), oldPassword, newPassword, code, now);
      r == h.result && table.accounts == old(table.accounts)[email := h.account] && table.nextId == old(table.nextId)
  {
    var a := table.accounts[email];
    if !Verify(oldPassword, a.hashedPassword) {
      return Err(HttpError(400, WrongOldPasswordText));
    }
    var codeText := NatToString(code);
    table.accounts := table.accounts[email := a.(resetCode := Some(HashOf(codeText)),
                                                 resetExpires := Some(DateTime(now + CodeLifetimeMinutes * 60, true)))];
    r := Ok(CodeSentText);
  }

  method ConfirmChangeRoute(table: UserTable, email: string, code: string, newPassword: string, now: int)
    returns (r: Result<string, HttpError>)
    requires email in table.accounts && table.Valid()
    modifies table
    ensures table.Valid()
    ensures var h := ConfirmChange(old(table.accounts[email]), code, newPassword, now);
      r == h.result && table.accounts == old(table.accounts)[email := h.account] && table.nextId == old(table.nextId)
  {
    var a := table.accounts[email];
    var expiresAt := a.resetExpires;
    if expiresAt.Some? && !expiresAt.value.aware {
      expiresAt := Some(expiresAt.value.(aware := true));
    }
    if a.resetCode.None? || expiresAt.None? || expiresAt.value.seconds < now {
      return Err(HttpError(400, CodeInvalidText));
    }
    if !Verify(code, a.resetCode.value) {
      return Err(HttpError(400, WrongCodeText));
    }
    if Utf8Length(newPassword) > MaxPasswordBytes {
      return Err(HttpError(422, NewTooLongText));
    }
    table.accounts := table.accounts[email := a.(hashedPassword := HashOf(newPassword), resetCode := None,
                                                 resetExpires := None)];
    r := Ok(PasswordUpdatedText);
  }

  method GenerateRoute(table: UserTable, email: string, secret: string, provisioningUri: (string, string) -> string,
                       qrPngBase64: string -> string) returns (r: Result<Setup, HttpError>)
    requires email in table.accounts
    ensures r == Generate(table.accounts[email], secret, provisioningUri, qrPngBase64)
  {
    var a := table.accounts[email];
    if a.twoFactorEnabled {
      return Err(HttpError(400, AlreadyEnabledText));
    }
    var uri := provisioningUri(secret, a.email);
    r := Ok(Setup(secret, uri, "data:image/png;base64," + qrPngBase64(uri)));
  }

  method VerifySetupRoute(table: UserTable, email: string, secretKey: string, code: string,
                          totpValid: (string, string) -> bool) returns (r: Result<string, HttpError>)
    requires email in table.accounts && table.Valid()
    modifies table
    ensures table.Valid()
    ensures var h := VerifySetup(old(table.accounts[email]), secretKey, code, totpValid);
      r == h.result && table.accounts == old(table.accounts)[email := h.account] && table.nextId == old(table.nextId)
  {
    if !totpValid(secretKey, code) {
      return Err(HttpError(400, InvalidTotpText));
    }
    var a := table.accounts[email];
    table.accounts := table.accounts[email := a.(twoFactorSecret := Some(secretKey), twoFactorEnabled := true)];
    r := Ok(EnabledText);
  }

  method DisableRoute(table: UserTable, email: string, password: string) returns (r: Result<string, HttpError>)
    requires email in table.accounts && table.Valid()
    modifies table
    ensures table.Valid()
    ensures var h := Disable(old(table.accounts[email]), password);
      r == h.result && table.accounts == old(table.accounts)[email := h.account] && table.nextId == old(table.nextId)
  {
    var a := table.accounts[email];
    if !a.twoFactorEnabled {
      return Err(HttpError(400, NotEnabledText));
    }
    if !Verify(password, a.hashedPassword) {
      return Err(HttpError(401, WrongPasswordText));
    }
    table.accounts := table.accounts[email := a.(twoFactorSecret := None, twoFactorEnabled := false)];
    r := Ok(DisabledText);
  }
}

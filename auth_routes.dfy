/**
  Account registration and sign-in (backend/auth/routes.py) over the user
  table, and the access tokens both hand out.

  Password hashing is modelled by `Digest`: a password verifies against a
  hash exactly when the hash was made from it. That is the one property of
  bcrypt that the routes rely on; salting is not modelled. Encoding a JWT
  is the parameter `encode`; the claims it is given are modelled exactly.
  Times are whole seconds since the epoch, in UTC.
*/
module AuthRoutes {
  import opened Wrappers
  import opened Text

  datatype Hash = Digest(secret: string)

  /** `verify_password(plain, hashed)`. */
  predicate Verify(plain: string, hashed: Hash) {
    hashed == Digest(plain)
  }

  /** `get_password_hash(p)`. */
  function HashOf(p: string): (h: Hash)
    ensures Verify(p, h)
    ensures forall q :: Verify(q, h) ==> q == p
  {
    Digest(p)
  }

  /** A datetime: its clock reading in seconds, and whether it carries a time zone. */
  datatype DateTime = DateTime(seconds: int, aware: bool)

  /** A row of the users table, with the columns the routes read and write. */
  datatype Account = Account(
    id: nat,
    email: string,
    hashedPassword: Hash,
    firstName: Option<string>,
    lastName: Option<string>,
    bio: Option<string>,
    pictureUrl: Option<string>,
    resetCode: Option<Hash>,
    resetExpires: Option<DateTime>,
    twoFactorEnabled: bool,
    twoFactorSecret: Option<string>)

  /** A new row holds only the e-mail and the password hash. */
  function NewAccount(id: nat, email: string, password: string): Account {
    Account(id, email, HashOf(password), None, None, None, None, None, None, false, None)
  }

  /** The table, keyed by the unique e-mail column, with the next value of the id sequence. */
  datatype Table = Table(accounts: map<string, Account>, nextId: nat)

  /** Each row sits under its own e-mail, and ids are below the sequence and distinct. */
  predicate TableValid(t: Table) {
    && (forall e :: e in t.accounts ==> t.accounts[e].email == e && t.accounts[e].id < t.nextId)
    && (forall e1, e2 :: e1 in t.accounts && e2 in t.accounts && e1 != e2 ==> t.accounts[e1].id != t.accounts[e2].id)
  }

  datatype HttpError = HttpError(status: nat, detail: string)

  /** A claim value: a text, or a time (encoded as seconds). */
  datatype Claim = TextClaim(text: string) | TimeClaim(seconds: int)

  datatype TokenResponse = TokenResponse(accessToken: string, tokenType: string)

  const AccessTokenExpireMinutes := 30
  const MaxPasswordBytes := 72
  const TooLongText := "Password is too long. Please use a password with 72 characters or fewer."
  const TakenText := "Email already registered"
  const BadLoginText := "Incorrect email or password"

  /** create_access_token: the given claims, with `exp` set thirty minutes after `now`. */
  function AccessClaims(data: map<string, Claim>, now: int): (r: map<string, Claim>)
    ensures r.Keys == data.Keys + {"exp"}
    ensures r["exp"] == TimeClaim(now + AccessTokenExpireMinutes * 60)
    ensures forall k :: k in data && k != "exp" ==> r[k] == data[k]
  {
    data["exp" := TimeClaim(now + AccessTokenExpireMinutes * 60)]
  }

  /** The bearer token issued for an account. */
  function TokenFor(email: string, now: int, encode: map<string, Claim> -> string): TokenResponse {
    TokenResponse(encode(AccessClaims(map["sub" := TextClaim(email)], now)), "bearer")
  }

  /** The table after register_user, and what it answers. */
  datatype Registered = Registered(table: Table, result: Result<TokenResponse, HttpError>)

  function Register(t: Table, email: string, password: string, now: int,
                    encode: map<string, Claim> -> string): Registered {
    if Utf8Length(password) > MaxPasswordBytes then Registered(t, Err(HttpError(422, TooLongText)))
    else if email in t.accounts then Registered(t, Err(HttpError(400, TakenText)))
    else Registered(Table(t.accounts[email := NewAccount(t.nextId, email, password)], t.nextId + 1),
                    Ok(TokenFor(email, now, encode)))
  }

  /** login_user: the two-factor code of the request is not read. */
  function Login(t: Table, email: string, password: string, twoFactorCode: Option<string>, now: int,
                 encode: map<string, Claim> -> string): Result<TokenResponse, HttpError> {
    if email !in t.accounts || !Verify(password, t.accounts[email].hashedPassword) then Err(HttpError(401, BadLoginText))
    else Ok(TokenFor(email, now, encode))
  }

  /** The length limit is checked first: an over-long password is refused even for a taken e-mail. */
  lemma LongPasswordFirst(t: Table, email: string, password: string, now: int, encode: map<string, Claim> -> string)
    requires Utf8Length(password) > MaxPasswordBytes
    ensures Register(t, email, password, now, encode) == Registered(t, Err(HttpError(422, TooLongText)))
  {
  }

  /** A taken e-mail is refused with the table unchanged. */
  lemma TakenEmailRefused(t: Table, email: string, password: string, now: int, encode: map<string, Claim> -> string)
    requires Utf8Length(password) <= MaxPasswordBytes && email in t.accounts
    ensures Register(t, email, password, now, encode) == Registered(t, Err(HttpError(400, TakenText)))
  {
  }

  /**
    A successful register adds exactly one row, for that e-mail and the
    hash of that password, keeps the table valid, and returns a bearer
    token for that e-mail. The new password then signs in.
  */
  lemma RegisterAdds(t: Table, email: string, password: string, now: int, encode: map<string, Claim> -> string)
    requires TableValid(t)
    requires Utf8Length(password) <= MaxPasswordBytes && email !in t.accounts
    ensures var r := Register(t, email, password, now, encode);
      && r.result == Ok(TokenFor(email, now, encode))
      && r.result.value.tokenType == "bearer"
      && r.table.accounts.Keys == t.accounts.Keys + {email}
      && (forall e :: e in t.accounts ==> r.table.accounts[e] == t.accounts[e])
      && r.table.accounts[email].email == email && Verify(password, r.table.accounts[email].hashedPassword)
      && TableValid(r.table)
      && Login(r.table, email, password, None, now, encode) == Ok(TokenFor(email, now, encode))
  {
  }

  /** Every register keeps the table valid. */
  lemma RegisterValid(t: Table, email: string, password: string, now: int, encode: map<string, Claim> -> string)
    requires TableValid(t)
    ensures TableValid(Register(t, email, password, now, encode).table)
  {
  }

  /** An unknown e-mail and a wrong password give the same answer. */
  lemma LoginFailuresAlike(t: Table, email: string, password: string, code: Option<string>, now: int,
                           encode: map<string, Claim> -> string)
    requires email !in t.accounts || !Verify(password, t.accounts[email].hashedPassword)
    ensures Login(t, email, password, code, now, encode) == Err(HttpError(401, BadLoginText))
  {
  }

  /** The right password signs in; the token carries the e-mail as subject and expires thirty minutes later. */
  lemma LoginSucceeds(t: Table, email: string, password: string, code: Option<string>, now: int,
                      encode: map<string, Claim> -> string)
    requires email in t.accounts && Verify(password, t.accounts[email].hashedPassword)
    ensures Login(t, email, password, code, now, encode)
            == Ok(TokenResponse(encode(map["sub" := TextClaim(email), "exp" := TimeClaim(now + 1800)]), "bearer"))
  {
    assert AccessClaims(map["sub" := TextClaim(email)], now) == map["sub" := TextClaim(email), "exp" := TimeClaim(now + 1800)];
  }

  /**
    Sign-in does not depend on the two-factor code nor on whether the
    account has two-factor authentication enabled: the password alone
    decides.
  */
  lemma LoginIgnoresSecondFactor(t: Table, email: string, password: string, c1: Option<string>, c2: Option<string>,
                                 now: int, encode: map<string, Claim> -> string)
    requires email in t.accounts
    ensures Login(t, email, password, c1, now, encode) == Login(t, email, password, c2, now, encode)
    ensures Login(t, email, password, c1, now, encode)
            == Login(Table(t.accounts[email := t.accounts[email].(twoFactorEnabled := !t.accounts[email].twoFactorEnabled)], t.nextId),
                     email, password, c1, now, encode)
  {
  }

  class UserTable {
    var accounts: map<string, Account>
    var nextId: nat

    function Snapshot(): Table
      reads this
    {
      Table(accounts, nextId)
    }

    predicate Valid()
      reads this
    {
      TableValid(Snapshot())
    }

    constructor ()
      ensures Valid() && accounts == map[] && nextId == 0
    {
      accounts, nextId := map[], 0;
    }

    method RegisterUser(email: string, password: string, now: int, encode: map<string, Claim> -> string)
      returns (r: Result<TokenResponse, HttpError>)
      requires Valid()
      modifies this
      ensures Valid()
      ensures Registered(Snapshot(), r) == Register(old(Snapshot()), email, password, now, encode)
    {
      if Utf8Length(password) > MaxPasswordBytes {
        return Err(HttpError(422, TooLongText));
      }
      if email in accounts {
        return Err(HttpError(400, TakenText));
      }
      RegisterValid(Snapshot(), email, password, now, encode);
      accounts := accounts[email := NewAccount(nextId, email, password)];
      nextId := nextId + 1;
      r := Ok(TokenFor(email, now, encode));
    }

    method LoginUser(email: string, password: string, twoFactorCode: Option<string>, now: int,
                     encode: map<string, Claim> -> string)
      returns (r: Result<TokenResponse, HttpError>)
      ensures r == Login(Snapshot(), email, password, twoFactorCode, now, encode)
    {
      if email !in accounts || !Verify(password, accounts[email].hashedPassword) {
        return Err(HttpError(401, BadLoginText));
      }
      r := Ok(TokenFor(email, now, encode));
    }
  }
}

/**
  The client session (frontend/context/AuthContext.tsx): the signed-in user
  and token, restored at start-up from the token kept in local storage,
  replaced by `login` and cleared by `logout`.

  Decoding a JWT is a parameter: `decode(t)` gives the token's claims, or
  `None` where `jwtDecode` throws. The clock is the input `nowMs`
  (`Date.now()`). Navigations are recorded in the order `router.push` is
  called.
*/
module AuthContext {
  import opened Wrappers

  /** The claims the code reads; `exp` is in seconds since the epoch. */
  datatype Claims = Claims(sub: Option<string>, exp: Option<int>)

  /** `{ email: decoded.sub }`: the e-mail is whatever the subject claim held, possibly nothing. */
  datatype AuthUser = AuthUser(email: Option<string>)

  datatype Session = Session(stored: Option<string>, user: Option<AuthUser>, token: Option<string>,
                             isLoading: bool, navigations: seq<string>)

  const HomePath := "/"
  const LoginPath := "/login"
  const UseAuthError := "useAuth must be used within an AuthProvider"

  /** The state before the start-up effect, with whatever local storage holds. */
  function Fresh(stored: Option<string>): Session {
    Session(stored, None, None, true, [])
  }

  /** The JavaScript truthiness of the optional text and number fields. */
  predicate Present(s: Option<string>) {
    s.Some? && s.value != ""
  }

  predicate HasExpiry(exp: Option<int>) {
    exp.Some? && exp.value != 0
  }

  /** `decoded.exp && Date.now() >= decoded.exp * 1000`; a token without expiry never expires. */
  predicate Expired(c: Claims, nowMs: int) {
    HasExpiry(c.exp) && nowMs >= c.exp.value * 1000
  }

  /** A stored token the start-up check accepts: it decodes, names a subject and has not expired. */
  predicate Accepted(t: string, decode: string -> Option<Claims>, nowMs: int) {
    t != "" && decode(t).Some? && Present(decode(t).value.sub) && !Expired(decode(t).value, nowMs)
  }

  function AfterLogout(s: Session): (r: Session)
    ensures r.stored.None? && r.user.None? && r.token.None?
    ensures r.isLoading == s.isLoading && r.navigations == s.navigations + [LoginPath]
  {
    s.(stored := None, user := None, token := None, navigations := s.navigations + [LoginPath])
  }

  /** `login(newToken)`: with claims, keep the token and sign in as its subject, then go home; else nothing. */
  function AfterLogin(s: Session, t: string, decode: string -> Option<Claims>): (r: Session)
    ensures decode(t).None? ==> r == s
    ensures decode(t).Some? ==>
              && r.stored == Some(t) && r.token == Some(t)
              && r.user == Some(AuthUser(decode(t).value.sub))
              && r.isLoading == s.isLoading && r.navigations == s.navigations + [HomePath]
  {
    match decode(t)
    case None => s
    case Some(c) => s.(stored := Some(t), user := Some(AuthUser(c.sub)), token := Some(t),
                       navigations := s.navigations + [HomePath])
  }

  /** The start-up effect: check a stored token, then stop loading. */
  function AfterStartup(s: Session, decode: string -> Option<Claims>, nowMs: int): Session {
    var checked :=
      if s.stored.None? || s.stored.value == "" then s
      else
        var t := s.stored.value;
        match decode(t)
        case None => AfterLogout(s)
        case Some(c) =>
          if !Present(c.sub) then AfterLogout(s)
          else if Expired(c, nowMs) then AfterLogout(s)
          else s.(user := Some(AuthUser(c.sub)), token := Some(t));
    checked.(isLoading := false)
  }

  /** `useAuth`: the provider's session, or the error thrown outside a provider. */
  function UseAuth(context: Option<Session>): (r: Result<Session, string>)
    ensures r.Err? <==> context.None?
    ensures r.Err? ==> r.error == UseAuthError
    ensures r.Ok? ==> r.value == context.value
  {
    if context.None? then Err(UseAuthError) else Ok(context.value)
  }

  /**
    Start-up on every branch stops loading. An accepted token signs its
    subject in with that token; any other non-empty token is discarded with
    a logout; with nothing stored nothing else changes.
  */
  lemma StartupOutcomes(s: Session, decode: string -> Option<Claims>, nowMs: int)
    ensures var r := AfterStartup(s, decode, nowMs);
      && !r.isLoading
      && (s.stored.Some? && Accepted(s.stored.value, decode, nowMs) ==>
            r == s.(user := Some(AuthUser(decode(s.stored.value).value.sub)), token := s.stored, isLoading := false))
      && (s.stored.Some? && s.stored.value != "" && !Accepted(s.stored.value, decode, nowMs) ==>
            r == AfterLogout(s).(isLoading := false))
      && (s.stored.None? || s.stored.value == "" ==> r == s.(isLoading := false))
  {
  }

  /** Whether a stored token is restored does not depend on the clock when it has no expiry. */
  lemma NoExpiryNeverExpires(t: string, decode: string -> Option<Claims>, now1: int, now2: int)
    requires decode(t).Some? && !HasExpiry(decode(t).value.exp)
    ensures Accepted(t, decode, now1) <==> Accepted(t, decode, now2)
  {
  }

  /** A token rejected as expired stays rejected later on. */
  lemma ExpiryIsFinal(c: Claims, now1: int, now2: int)
    requires now1 <= now2 && Expired(c, now1)
    ensures Expired(c, now2)
  {
  }

  /**
    A session survives a reload: after `login` with a token the start-up
    check accepts, a new provider restores the same user and token from
    storage.
  */
  lemma LoginSurvivesReload(s: Session, t: string, decode: string -> Option<Claims>, nowMs: int)
    requires Accepted(t, decode, nowMs)
    ensures var r := AfterStartup(Fresh(AfterLogin(s, t, decode).stored), decode, nowMs);
      && r.user == AfterLogin(s, t, decode).user && r.token == Some(t) && !r.isLoading
  {
  }

  /** After `logout` a new provider starts signed out, and does not navigate. */
  lemma LogoutSurvivesReload(s: Session, decode: string -> Option<Claims>, nowMs: int)
    ensures var r := AfterStartup(Fresh(AfterLogout(s).stored), decode, nowMs);
      && r.user.None? && r.token.None? && !r.isLoading && r.navigations == []
  {
  }

  /** A token that does not decode leaves the session exactly as it was, so an earlier sign-in stays. */
  lemma LoginWithBadToken(s: Session, t: string, u: string, decode: string -> Option<Claims>)
    requires decode(t).None?
    ensures AfterLogin(AfterLogin(s, u, decode), t, decode) == AfterLogin(s, u, decode)
  {
  }

  class AuthProvider {
    const decode: string -> Option<Claims>
    /** localStorage['authToken']. */
    var stored: Option<string>
    var user: Option<AuthUser>
    var token: Option<string>
    var isLoading: bool
    var navigations: seq<string>

    function Snapshot(): Session
      reads this
    {
      Session(stored, user, token, isLoading, navigations)
    }

    constructor (decode: string -> Option<Claims>, stored: Option<string>)
      ensures this.decode == decode && Snapshot() == Fresh(stored)
    {
      this.decode := decode;
      this.stored := stored;
      user, token, isLoading, navigations := None, None, true, [];
    }

    method Logout()
      modifies this
      ensures Snapshot() == AfterLogout(old(Snapshot()))
    {
      stored := None;
      user := None;
      token := None;
      navigations := navigations + [LoginPath];
    }

    method Login(newToken: string)
      modifies this
      ensures Snapshot() == AfterLogin(old(Snapshot()), newToken, decode)
    {
      var decoded := decode(newToken);
      if decoded.None? {
        return;
      }
      stored := Some(newToken);
      user := Some(AuthUser(decoded.value.sub));
      token := Some(newToken);
      navigations := navigations + [HomePath];
    }

    /** The mount effect, run once at `nowMs`. */
    method Startup(nowMs: int)
      modifies this
      ensures Snapshot() == AfterStartup(old(Snapshot()), decode, nowMs)
    {
      if stored.Some? && stored.value != "" {
        var storedToken := stored.value;
        var decoded := decode(storedToken);
        if decoded.None? || !Present(decoded.value.sub) {
          Logout();
        } else if Expired(decoded.value, nowMs) {
          Logout();
        } else {
          user := Some(AuthUser(decoded.value.sub));
          token := Some(storedToken);
        }
      }
      isLoading := false;
    }
  }
}

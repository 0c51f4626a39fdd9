/**
 * The request extension (src/request_ext.rs): the session is a key/value map
 * read and written through typed accessors. Three keys matter: "tide.uid"
 * holds the `Claims`, "tide.totp-redirect" is the one-time redirect marker and
 * "tmp" holds a TOTP secret awaiting confirmation.
 *
 * Each operation that changes the session is given twice: as a function from
 * the old session to the new one, about which the properties are stated, and
 * as a method of `Request` that performs it in place, proved to agree.
 */
module Session {
  import opened Wrappers
  import opened Crate
  import opened UserRepo

  /** What a session entry holds once deserialised. */
  datatype Value = ClaimsValue(claims: Claims) | IntValue(n: int) | StringValue(s: string)

  type SessionMap = map<string, Value>

  const UidKey: string := "tide.uid"
  const RedirectKey: string := "tide.totp-redirect"
  const PendingSecretKey: string := "tmp"

  /** The session after `destroy()`. */
  const Destroyed: SessionMap := map[]

  /** `s` and `s'` hold the same entries outside `keys`. */
  ghost predicate AgreeOutside(s: SessionMap, s': SessionMap, keys: set<string>)
  {
    forall k :: k !in keys ==> (k in s <==> k in s') && (k in s ==> s[k] == s'[k])
  }

  /**
   * `claims()`: `get::<Claims>("tide.uid")`; an entry of any other type fails
   * to deserialise and reads as absent.
   */
  function ClaimsOf(s: SessionMap): (r: Option<Claims>)
    ensures r.Some? <==> UidKey in s && s[UidKey].ClaimsValue?
    ensures r.Some? ==> s[UidKey] == ClaimsValue(r.value)
  {
    if UidKey in s && s[UidKey].ClaimsValue? then Some(s[UidKey].claims) else None
  }

  /**
   * `get::<i32>("tide.totp-redirect")` succeeds: the entry is an integer in
   * the i32 range. The value `1` that the marker is written with reads back.
   */
  function MarkerSet(s: SessionMap): (r: bool)
    ensures r ==> RedirectKey in s && s[RedirectKey].IntValue?
    ensures RedirectKey in s && s[RedirectKey] == IntValue(1) ==> r
    ensures RedirectKey in s && s[RedirectKey].IntValue? && !(-0x8000_0000 <= s[RedirectKey].n < 0x8000_0000) ==> !r
  {
    RedirectKey in s && s[RedirectKey].IntValue? && -0x8000_0000 <= s[RedirectKey].n < 0x8000_0000
  }

  /** `get::<String>("tmp")`. */
  function PendingSecret(s: SessionMap): (r: Option<string>)
    ensures r.Some? <==> PendingSecretKey in s && s[PendingSecretKey].StringValue?
    ensures r.Some? ==> s[PendingSecretKey] == StringValue(r.value)
  {
    if PendingSecretKey in s && s[PendingSecretKey].StringValue? then Some(s[PendingSecretKey].s) else None
  }

  /**
   * `requires_totp`: there are claims, they have the second factor enabled and
   * it has not been satisfied yet. Without claims it is false.
   */
  function RequiresTotp(s: SessionMap): (r: bool)
    ensures ClaimsOf(s).None? ==> !r
    ensures ClaimsOf(s).Some? ==> (r <==> ClaimsOf(s).value.totpEnabled && ClaimsOf(s).value.totp.None?)
  {
    match ClaimsOf(s)
    case None => false
    case Some(c) => c.totpEnabled && c.totp.None?
  }

  /** `clear_totp_redirect`: drops the marker and nothing else. */
  function RedirectCleared(s: SessionMap): (r: SessionMap)
    ensures RedirectKey !in r && !MarkerSet(r)
    ensures AgreeOutside(s, r, {RedirectKey})
    ensures ClaimsOf(r) == ClaimsOf(s) && PendingSecret(r) == PendingSecret(s)
  {
    s - {RedirectKey}
  }

  /**
   * `prevent_totp_redirect`: answers whether this is a repeated visit while the
   * second factor is pending. It is true exactly when the second factor is
   * pending and the marker is already there; otherwise the marker is set if the
   * second factor is pending and the session is left alone if not.
   */
  function PreventOutcome(s: SessionMap): (r: (bool, SessionMap))
    ensures r.0 <==> RequiresTotp(s) && MarkerSet(s)
    ensures !RequiresTotp(s) ==> r.1 == s
    ensures RequiresTotp(s) ==> MarkerSet(r.1)
    ensures MarkerSet(s) ==> r.1 == s
    ensures AgreeOutside(s, r.1, {RedirectKey})
    ensures ClaimsOf(r.1) == ClaimsOf(s) && RequiresTotp(r.1) == RequiresTotp(s)
  {
    if !RequiresTotp(s) then (false, s)
    else if MarkerSet(s) then (true, s)
    else (false, s[RedirectKey := IntValue(1)])
  }

  /**
   * With the second factor pending and no marker yet, two calls in a row
   * answer false and then true; with no login or logout in between, every
   * later call answers true as well.
   */
  lemma PreventTwice(s: SessionMap)
    requires RequiresTotp(s) && !MarkerSet(s)
    ensures var first := PreventOutcome(s);
            var second := PreventOutcome(first.1);
            !first.0 && second.0 && second.1 == first.1
  {
  }

  /**
   * `login(c)`: clears the marker, then stores `c`; every other entry, "tmp"
   * included, is kept.
   */
  function LoggedIn(s: SessionMap, c: Claims): (r: SessionMap)
    ensures ClaimsOf(r) == Some(c)
    ensures RedirectKey !in r && !MarkerSet(r)
    ensures RequiresTotp(r) <==> c.totpEnabled && c.totp.None?
    ensures AgreeOutside(s, r, {UidKey, RedirectKey})
    ensures PendingSecret(r) == PendingSecret(s)
  {
    RedirectCleared(s)[UidKey := ClaimsValue(c)]
  }

  /** `logout` leaves nothing behind: no claims, no marker, no pending secret. */
  lemma LogoutEmpties()
    ensures ClaimsOf(Destroyed).None? && !RequiresTotp(Destroyed)
    ensures !MarkerSet(Destroyed) && PendingSecret(Destroyed).None?
    ensures forall k :: k !in Destroyed
  {
  }

  /**
   * Outcome of `is_authenticated`: the answer, the session afterwards and the
   * user stored as the request extension (`None` when none was stored).
   */
  datatype AuthCheck = AuthCheck(authenticated: bool, session: SessionMap, user: Option<User>)

  /**
   * `is_authenticated`, with the thread-local user table as `users`, keyed by
   * uid. No claims: false, session untouched. Claims whose uid has no user:
   * logout and false. Otherwise: true, session untouched, user attached.
   */
  function CheckAuthenticated(s: SessionMap, users: map<nat, User>): (r: AuthCheck)
    ensures r.authenticated <==> ClaimsOf(s).Some? && ClaimsOf(s).value.uid in users
    ensures r.authenticated ==> r.session == s && r.user == Some(users[ClaimsOf(s).value.uid])
    ensures !r.authenticated ==> r.user.None?
    ensures ClaimsOf(s).None? ==> r.session == s
    ensures ClaimsOf(s).Some? && !r.authenticated ==> r.session == Destroyed
  {
    match ClaimsOf(s)
    case None => AuthCheck(false, s, None)
    case Some(c) =>
      if c.uid in users then AuthCheck(true, s, Some(users[c.uid]))
      else AuthCheck(false, Destroyed, None)
  }

  /** A request as the core sees it: its session and its `User` extension. */
  class Request {
    var session: SessionMap
    var user: Option<User>

    constructor (session: SessionMap)
      ensures this.session == session && user == None
    {
      this.session := session;
      user := None;
    }

    method ClearTotpRedirect()
      modifies this`session
      ensures session == RedirectCleared(old(session))
    {
      session := session - {RedirectKey};
    }

    method PreventTotpRedirect() returns (prevented: bool)
      modifies this`session
      ensures (prevented, session) == PreventOutcome(old(session))
    {
      if !RequiresTotp(session) {
        return false;
      }
      if MarkerSet(session) {
        return true;
      }
      session := session[RedirectKey := IntValue(1)];
      return false;
    }

    method Login(c: Claims)
      modifies this`session
      ensures session == LoggedIn(old(session), c)
    {
      ClearTotpRedirect();
      session := session[UidKey := ClaimsValue(c)];
    }

    method Logout()
      modifies this`session
      ensures session == Destroyed
    {
      session := map[];
    }

    method IsAuthenticated(users: map<nat, User>) returns (authenticated: bool)
      modifies this
      ensures authenticated == CheckAuthenticated(old(session), users).authenticated
      ensures session == CheckAuthenticated(old(session), users).session
      ensures user == if authenticated then CheckAuthenticated(old(session), users).user else old(user)
    {
      var claims := ClaimsOf(session);
      if claims.Some? {
        if claims.value.uid in users {
          user := Some(users[claims.value.uid]);
          return true;
        } else {
          Logout();
          return false;
        }
      } else {
        return false;
      }
    }
  }
}

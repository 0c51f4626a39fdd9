/**
 * Requests in sequence. `Serve` answers one request with the routes that
 * `configure` declares in src/routes/auth.rs and src/routes/account.rs, the
 * latter behind the guard of src/route_ext.rs. `Run` threads the session and
 * the user table through many. The lemmas here are the properties of the authentication state
 * machine that only show across requests.
 */
module Flows {
  import opened Wrappers
  import opened Http
  import opened Crate
  import opened UserRepo
  import opened Session
  import opened Forms
  import opened Guard
  import opened AuthRoutes
  import opened AccountRoutes

  /** The requests served under `/account`. */
  datatype AccountRequest =
    | ShowSettings
    | StartEnrollment(freshSecret: string)
    | ConfirmEnrollment(form: Form<ValidateForm>)
    | LogoutRequest

  datatype AppRequest =
    | PostLogin(login: Form<UserForm>)
    | PostOtp(otp: Form<ValidateForm>)
    | Account(request: AccountRequest)

  /** The state requests act on: the session and the user table. */
  datatype World = World(session: SessionMap, users: map<nat, User>)

  /** An account handler, run once the guard has let the request through. */
  function AccountHandler(s: SessionMap, user: Option<User>, users: map<nat, User>,
                          request: AccountRequest, isValid: TotpCheck): (r: (Reply, World))
    requires ClaimsOf(s).Some? && user.Some?
    ensures request != LogoutRequest ==> ClaimsOf(r.1.session) == ClaimsOf(s)
    ensures request != LogoutRequest ==> AgreeOutside(s, r.1.session, {PendingSecretKey})
    ensures request == LogoutRequest ==> r.1.session == Destroyed
  {
    match request
    case ShowSettings => (SettingsPage, World(s, users))
    case StartEnrollment(secret) => (EnrollPage, World(PendingStored(s, secret), users))
    case ConfirmEnrollment(form) =>
      var e := EnrollOutcome(s, user, users, form, isValid);
      (e.reply, World(e.session, e.users))
    case LogoutRequest => (Home, World(Destroyed, users))
  }

  /** One request, from the world before it to its reply and the world after. */
  function Serve(w: World, request: AppRequest, isValid: TotpCheck): (r: (Reply, World))
    ensures !request.Account? ==> r.1.users == w.users
  {
    match request
    case PostLogin(form) =>
      var o := LoginOutcome(w.session, form);
      (o.0, World(o.1, w.users))
    case PostOtp(form) =>
      var o := OtpOutcome(w.session, w.users, form, isValid);
      (o.0, World(o.1, w.users))
    case Account(ar) =>
      var g := GuardOutcome(w.session, w.users);
      match g.0
      case Respond(reply) => (reply, World(g.1, w.users))
      case RunHandler => AccountHandler(g.1, GuardUser(w.session, w.users), w.users, ar, isValid)
  }

  /** The world after serving `requests` in order. */
  function Run(w: World, requests: seq<AppRequest>, isValid: TotpCheck): World
    decreases |requests|
  {
    if |requests| == 0 then w
    else Run(Serve(w, requests[0], isValid).1, requests[1..], isValid)
  }

  /** An anonymous request to an account route goes home and changes nothing. */
  lemma AnonymousIsTurnedAway(w: World, ar: AccountRequest, isValid: TotpCheck)
    requires ClaimsOf(w.session).None?
    ensures Serve(w, Account(ar), isValid) == (Home, w)
  {
  }

  /**
   * Claims are only ever created by a successful password login: from a
   * session without claims, any claims present after a run were preceded by a
   * request with the good credentials.
   */
  lemma {:induction false} ClaimsOnlyAfterLogin(w: World, requests: seq<AppRequest>, isValid: TotpCheck)
    requires ClaimsOf(w.session).None?
    requires ClaimsOf(Run(w, requests, isValid).session).Some?
    ensures exists i :: 0 <= i < |requests| && requests[i] == PostLogin(Parsed(GoodCredentials))
    decreases |requests|
  {
    if requests[0] != PostLogin(Parsed(GoodCredentials)) {
      var next := Serve(w, requests[0], isValid).1;
      assert ClaimsOf(next.session).None?;
      ClaimsOnlyAfterLogin(next, requests[1..], isValid);
      var i :| 0 <= i < |requests[1..]| && requests[1..][i] == PostLogin(Parsed(GoodCredentials));
      assert requests[i + 1] == PostLogin(Parsed(GoodCredentials));
    }
  }

  /**
   * Apart from a new password login, serving a request never changes who the
   * claims belong to and never lowers their attempt counter.
   */
  lemma ServeKeepsIdentity(w: World, request: AppRequest, isValid: TotpCheck)
    requires !request.PostLogin?
    requires ClaimsOf(Serve(w, request, isValid).1.session).Some?
    ensures ClaimsOf(w.session).Some?
    ensures var before, after := ClaimsOf(w.session).value, ClaimsOf(Serve(w, request, isValid).1.session).value;
            && after.sub == before.sub && after.username == before.username && after.uid == before.uid
            && after.exp == before.exp && after.totpEnabled == before.totpEnabled
            && after.totpAttempt >= before.totpAttempt
  {
  }

  /**
   * A secret reaches the user table only through a code that confirms the
   * pending secret, and then it is that secret.
   */
  lemma SecretStoredOnlyWhenConfirmed(w: World, request: AppRequest, isValid: TotpCheck)
    requires Serve(w, request, isValid).1.users != w.users
    ensures request.Account? && request.request.ConfirmEnrollment?
    ensures Confirms(w.session, request.request.form, isValid)
    ensures var uid := ClaimsOf(w.session).value.uid;
            var users' := Serve(w, request, isValid).1.users;
            uid in users' && users'[uid].totpEnabled && users'[uid].totpSecret == PendingSecret(w.session)
  {
  }

  /**
   * After the password login the second factor is pending.
   * The first account request still runs its handler and sets the marker; the
   * next one, whatever it is, is logged out and sent home.
   */
  lemma PendingSecondFactorTwice(w: World, ar: AccountRequest, isValid: TotpCheck)
    requires FreshClaims.uid in w.users
    ensures var w1 := Serve(w, PostLogin(Parsed(GoodCredentials)), isValid).1;
            var (reply2, w2) := Serve(w1, Account(ShowSettings), isValid);
            && RequiresTotp(w1.session)
            && reply2 == SettingsPage && MarkerSet(w2.session)
            && Serve(w2, Account(ar), isValid) == (Home, World(Destroyed, w.users))
  {
  }

  /**
   * Password login, then a valid code. The second factor is
   * satisfied after one attempt, and account requests reach their handler
   * again and again without a forced logout.
   */
  lemma SecondFactorSatisfied(w: World, code: string, isValid: TotpCheck)
    requires FreshClaims.uid in w.users
    requires isValid(OtpKey, code)
    ensures var w1 := Serve(w, PostLogin(Parsed(GoodCredentials)), isValid).1;
            var w2 := Serve(w1, PostOtp(Parsed(ValidateForm(code))), isValid).1;
            var w3 := Serve(w2, Account(ShowSettings), isValid).1;
            && ClaimsOf(w2.session).Some? && ClaimsOf(w2.session).value.totpAttempt == 1
            && !RequiresTotp(w2.session)
            && Serve(w2, Account(ShowSettings), isValid).0 == SettingsPage && w3 == w2
            && GuardOutcome(w3.session, w3.users) == (RunHandler, w3.session)
  {
  }

  /**
   * With the second factor pending, `n` invalid codes in a row raise the
   * attempt counter by exactly `n` and leave the second factor pending; there
   * is no lockout.
   */
  lemma {:induction false} FailedCodesAreCounted(w: World, code: string, n: nat, isValid: TotpCheck)
    requires ClaimsOf(w.session).Some? && ClaimsOf(w.session).value.uid in w.users
    requires RequiresTotp(w.session)
    requires !isValid(OtpKey, code)
    ensures var requests := seq(n, i => PostOtp(Parsed(ValidateForm(code))));
            var after := Run(w, requests, isValid);
            && ClaimsOf(after.session).Some? && RequiresTotp(after.session)
            && ClaimsOf(after.session).value == ClaimsOf(w.session).value.(totpAttempt := ClaimsOf(w.session).value.totpAttempt + n)
            && after.users == w.users
    decreases n
  {
    var requests := seq(n, i => PostOtp(Parsed(ValidateForm(code))));
    if n > 0 {
      var c := ClaimsOf(w.session).value;
      var w1 := Serve(w, requests[0], isValid).1;
      assert OtpApplies(w.session, w.users);
      assert w1.session == LoggedIn(w.session, Attempted(c, false));
      FailedCodesAreCounted(w1, code, n - 1, isValid);
      assert requests[1..] == seq(n - 1, i => PostOtp(Parsed(ValidateForm(code))));
    }
  }

  /** Three invalid codes right after the password login. */
  lemma ThreeFailuresNoLockout(w: World, code: string, isValid: TotpCheck)
    requires FreshClaims.uid in w.users
    requires !isValid(OtpKey, code)
    ensures var otp := PostOtp(Parsed(ValidateForm(code)));
            var after := Run(w, [PostLogin(Parsed(GoodCredentials)), otp, otp, otp], isValid);
            && ClaimsOf(after.session).Some? && ClaimsOf(after.session).value.totpAttempt == 3
            && RequiresTotp(after.session)
  {
    var otp := PostOtp(Parsed(ValidateForm(code)));
    var w1 := Serve(w, PostLogin(Parsed(GoodCredentials)), isValid).1;
    assert ClaimsOf(w1.session) == Some(FreshClaims);
    FailedCodesAreCounted(w1, code, 3, isValid);
    assert [otp, otp, otp] == seq(3, i => PostOtp(Parsed(ValidateForm(code))));
    assert [PostLogin(Parsed(GoodCredentials)), otp, otp, otp][1..] == [otp, otp, otp];
  }
}

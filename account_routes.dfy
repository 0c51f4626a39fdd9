/**
 * The account handlers (src/routes/account.rs), all mounted under `/account`
 * behind the authentication guard: logging out, starting TOTP enrollment by
 * keeping a fresh secret in the session under "tmp", and confirming it with a
 * code, which is the only place a secret reaches the user record.
 */
module AccountRoutes {
  import opened Wrappers
  import opened Http
  import opened Crate
  import opened UserRepo
  import opened Session
  import opened Forms
  import opened Guard

  /** The routes nested under `/account`. */
  const AccountPaths: seq<string> := ["/settings", "/update-2fa", "/validate-otp", "/logout"]

  const SettingsPage: Reply := Page("settings.html")
  const EnrollPage: Reply := Page("2fa.html")
  const SettingsSaved: string := "settings saved!"
  const InvalidCode: string := "invalid code"

  /** `configure`: every account route sits under one guarded route. */
  method Configure() returns (account: Route)
    ensures fresh(account)
    ensures account.path == "/account" && account.Guarded()
    ensures account.middleware == [AuthenticatedGuard] && account.nested == AccountPaths
  {
    account := new Route("/account");
    var guarded := account.Authenticated();
    guarded.Nest(AccountPaths);
  }

  /** `logout`: destroys the session and redirects home. */
  method Logout(req: Request) returns (reply: Reply)
    modifies req`session
    ensures req.session == Destroyed && reply == Home
  {
    req.Logout();
    reply := Home;
  }

  /** The session after `update_otp` stored `secret` as the pending secret. */
  function PendingStored(s: SessionMap, secret: string): (r: SessionMap)
    ensures PendingSecret(r) == Some(secret)
    ensures AgreeOutside(s, r, {PendingSecretKey})
    ensures ClaimsOf(r) == ClaimsOf(s) && MarkerSet(r) == MarkerSet(s)
  {
    s[PendingSecretKey := StringValue(secret)]
  }

  /**
   * `update_otp`, with `freshSecret` the newly generated UUID text. The claims
   * are unwrapped for the key URI, which the guard in front guarantees. The
   * QR code shown on the page is not modelled.
   */
  method UpdateOtp(req: Request, freshSecret: string) returns (reply: Reply)
    requires ClaimsOf(req.session).Some?
    modifies req`session
    ensures req.session == PendingStored(old(req.session), freshSecret)
    ensures reply == EnrollPage
  {
    req.session := req.session[PendingSecretKey := StringValue(freshSecret)];
    reply := EnrollPage;
  }

  /** The submitted code confirms the pending secret. */
  predicate Confirms(s: SessionMap, form: Form<ValidateForm>, isValid: TotpCheck)
  {
    form.Parsed? && PendingSecret(s).Some? && isValid(PendingSecret(s).value, form.form.code)
  }

  /** What `validate_otp` answers and leaves behind, in the session and the user table. */
  datatype Enrollment = Enrollment(reply: Reply, session: SessionMap, users: map<nat, User>)

  /**
   * `validate_otp`, with `user` the request's `User` extension and `users` the
   * user table. Only a code that confirms the pending secret changes anything:
   * the user at the claims' uid gets the second factor enabled with that
   * secret, and "tmp" is dropped. Without a pending secret the handler panics.
   */
  function EnrollOutcome(s: SessionMap, user: Option<User>, users: map<nat, User>,
                         form: Form<ValidateForm>, isValid: TotpCheck): (r: Enrollment)
    requires Confirms(s, form, isValid) ==> ClaimsOf(s).Some? && user.Some?
    ensures Confirms(s, form, isValid) ==>
              var uid, secret := ClaimsOf(s).value.uid, PendingSecret(s).value;
              && r.reply == Redirect("/account/settings", FlashInfo(SettingsSaved))
              && r.users.Keys == users.Keys + {uid}
              && r.users[uid] == user.value.(totpEnabled := true, totpSecret := Some(secret))
              && (forall id :: id in users && id != uid ==> r.users[id] == users[id])
              && PendingSecretKey !in r.session && AgreeOutside(s, r.session, {PendingSecretKey})
    ensures !Confirms(s, form, isValid) ==> r.session == s && r.users == users
    ensures form.Malformed? ==> r.reply == Redirect("/account/update-2fa", FlashError(form.message))
    ensures form.Parsed? && PendingSecret(s).None? ==> r.reply == Aborted
    ensures form.Parsed? && PendingSecret(s).Some? && !Confirms(s, form, isValid) ==>
              r.reply == Redirect("/account/update-2fa", FlashError(InvalidCode))
  {
    match form
    case Malformed(message) =>
      Enrollment(Redirect("/account/update-2fa", FlashError(message)), s, users)
    case Parsed(f) =>
      match PendingSecret(s)
      case None => Enrollment(Aborted, s, users)
      case Some(secret) =>
        if isValid(secret, f.code) then
          var enrolled := user.value.(totpEnabled := true, totpSecret := Some(secret));
          Enrollment(Redirect("/account/settings", FlashInfo(SettingsSaved)),
                     s - {PendingSecretKey},
                     users[ClaimsOf(s).value.uid := enrolled])
        else
          Enrollment(Redirect("/account/update-2fa", FlashError(InvalidCode)), s, users)
  }

  /**
   * `validate_otp`, changing the session in place and answering the updated
   * user table (`db.update`).
   */
  method ValidateOtp(req: Request, users: map<nat, User>, form: Form<ValidateForm>, isValid: TotpCheck)
    returns (reply: Reply, users': map<nat, User>)
    requires Confirms(req.session, form, isValid) ==> ClaimsOf(req.session).Some? && req.user.Some?
    modifies req`session
    ensures Enrollment(reply, req.session, users') ==
              EnrollOutcome(old(req.session), req.user, users, form, isValid)
  {
    users' := users;
    match form {
      case Parsed(f) =>
        var pending := PendingSecret(req.session);
        if pending.None? {
          return Aborted, users;
        }
        var secret := pending.value;
        var valid := isValid(secret, f.code);
        if valid {
          var uid := ClaimsOf(req.session).value.uid;
          var user := req.user.value;
          user := user.(totpEnabled := true);
          user := user.(totpSecret := Some(secret));
          users' := users[uid := user];
          req.session := req.session - {PendingSecretKey};
          reply := Redirect("/account/settings", FlashInfo(SettingsSaved));
        } else {
          reply := Redirect("/account/update-2fa", FlashError(InvalidCode));
        }
      case Malformed(message) =>
        reply := Redirect("/account/update-2fa", FlashError(message));
    }
  }
}

/**
 * The login handlers (src/routes/auth.rs): `POST /login` checks the password
 * and stores fresh claims; `POST /otp` checks a second-factor code and records
 * the attempt in the claims.
 */
module AuthRoutes {
  import opened Wrappers
  import opened Http
  import opened Crate
  import opened UserRepo
  import opened Session
  import opened Forms

  /** The only credentials `authenticate` accepts. */
  const GoodCredentials: UserForm := UserForm("foo", "bar")

  /** The claims `authenticate` stores on success. */
  const FreshClaims: Claims := Claims("asdf", "foo", 1, 10000000000, true, 0, None)

  /** The `totp` instant stored once the second factor is satisfied. */
  const SatisfiedUntil: nat := 10000000000

  /** The fixed key `authenticate_otp` checks codes against. */
  const OtpKey: string := "12345678901234567890"

  const InvalidCredentials: string := "invalid credentials"
  const InvalidOtp: string := "invalid otp"

  /**
   * `authenticate`: always redirects home. Exactly the credentials foo/bar log
   * in with `FreshClaims`; anything else leaves the session as it was and
   * queues an error.
   */
  function LoginOutcome(s: SessionMap, form: Form<UserForm>): (r: (Reply, SessionMap))
    ensures r.0.Redirect? && r.0.location == "/"
    ensures form == Parsed(GoodCredentials) ==>
              r.0.flash == NoFlash && ClaimsOf(r.1) == Some(FreshClaims) && r.1 == LoggedIn(s, FreshClaims)
    ensures form != Parsed(GoodCredentials) ==> r.0.flash.FlashError? && r.1 == s
    ensures form.Parsed? && form != Parsed(GoodCredentials) ==> r.0.flash == FlashError(InvalidCredentials)
    ensures form.Malformed? ==> r.0.flash == FlashError(form.message)
  {
    match form
    case Parsed(f) =>
      if f.username == "foo" && f.password == "bar" then
        (Redirect("/", NoFlash), LoggedIn(s, FreshClaims))
      else
        (Redirect("/", FlashError(InvalidCredentials)), s)
    case Malformed(message) =>
      (Redirect("/", FlashError(message)), s)
  }

  /** The handler goes past its opening check: authenticated and second factor pending. */
  predicate OtpApplies(s: SessionMap, users: map<nat, User>)
  {
    CheckAuthenticated(s, users).authenticated && RequiresTotp(s)
  }

  /** The claims after one attempt: counted, and satisfied or not. */
  function Attempted(c: Claims, valid: bool): (r: Claims)
    ensures r.totpAttempt == c.totpAttempt + 1
    ensures r.totp == if valid then Some(SatisfiedUntil) else None
    ensures r.sub == c.sub && r.username == c.username && r.uid == c.uid
    ensures r.exp == c.exp && r.totpEnabled == c.totpEnabled
  {
    c.(totpAttempt := c.totpAttempt + 1, totp := if valid then Some(SatisfiedUntil) else None)
  }

  /**
   * `authenticate_otp`. Without an applicable request (not authenticated, or
   * no second factor pending) it redirects home with the session as
   * `is_authenticated` left it. A parsed code counts as one more attempt and
   * satisfies the second factor exactly when it is valid; both outcomes log
   * in again, which clears the redirect marker.
   */
  function OtpOutcome(s: SessionMap, users: map<nat, User>, form: Form<ValidateForm>, isValid: TotpCheck)
    : (r: (Reply, SessionMap))
    ensures r.0.Redirect? && r.0.location == "/"
    ensures !OtpApplies(s, users) ==> r.0.flash == NoFlash && r.1 == CheckAuthenticated(s, users).session
    ensures OtpApplies(s, users) && form.Malformed? ==> r.0.flash == FlashError(form.message) && r.1 == s
    ensures OtpApplies(s, users) && form.Parsed? ==>
              var c := ClaimsOf(s).value;
              var valid := isValid(OtpKey, form.form.code);
              && r.1 == LoggedIn(s, Attempted(c, valid))
              && !MarkerSet(r.1)
              && (RequiresTotp(r.1) <==> !valid)
              && r.0.flash == if valid then NoFlash else FlashError(InvalidOtp)
  {
    var auth := CheckAuthenticated(s, users);
    if !auth.authenticated || !RequiresTotp(auth.session) then (Redirect("/", NoFlash), auth.session)
    else match form
      case Malformed(message) => (Redirect("/", FlashError(message)), auth.session)
      case Parsed(f) =>
        var c := ClaimsOf(auth.session).value;
        if isValid(OtpKey, f.code) then
          (Redirect("/", NoFlash), LoggedIn(auth.session, Attempted(c, true)))
        else
          (Redirect("/", FlashError(InvalidOtp)), LoggedIn(auth.session, Attempted(c, false)))
  }

  /**
   * Whatever `authenticate_otp` does, claims it leaves behind belong to the
   * same identity as before and their attempt counter has not gone down.
   */
  lemma OtpKeepsIdentity(s: SessionMap, users: map<nat, User>, form: Form<ValidateForm>, isValid: TotpCheck)
    requires ClaimsOf(OtpOutcome(s, users, form, isValid).1).Some?
    ensures ClaimsOf(s).Some?
    ensures var before, after := ClaimsOf(s).value, ClaimsOf(OtpOutcome(s, users, form, isValid).1).value;
            && after.sub == before.sub && after.username == before.username && after.uid == before.uid
            && after.exp == before.exp && after.totpEnabled == before.totpEnabled
            && after.totpAttempt >= before.totpAttempt
  {
  }

  /** `authenticate`, changing the request's session in place. */
  method Authenticate(req: Request, form: Form<UserForm>) returns (reply: Reply)
    modifies req`session
    ensures (reply, req.session) == LoginOutcome(old(req.session), form)
  {
    match form {
      case Parsed(f) =>
        if f.username == "foo" && f.password == "bar" {
          var claims := Claims("asdf", "foo", 1, 10000000000, true, 0, None);
          req.Login(claims);
          reply := Redirect("/", NoFlash);
        } else {
          reply := Redirect("/", FlashError(InvalidCredentials));
        }
      case Malformed(message) =>
        reply := Redirect("/", FlashError(message));
    }
  }

  /** `authenticate_otp`, changing the request in place. */
  method AuthenticateOtp(req: Request, users: map<nat, User>, form: Form<ValidateForm>, isValid: TotpCheck)
    returns (reply: Reply)
    modifies req
    ensures (reply, req.session) == OtpOutcome(old(req.session), users, form, isValid)
    ensures req.user == if CheckAuthenticated(old(req.session), users).authenticated
                        then CheckAuthenticated(old(req.session), users).user else old(req.user)
  {
    var authenticated := req.IsAuthenticated(users);
    if !authenticated || !RequiresTotp(req.session) {
      return Redirect("/", NoFlash);
    }
    match form {
      case Parsed(f) =>
        var valid := isValid(OtpKey, f.code);
        var claims := ClaimsOf(req.session).value;
        if valid {
          claims := claims.(totpAttempt := claims.totpAttempt + 1);
          claims := claims.(totp := Some(10000000000));
          req.Login(claims);
          reply := Redirect("/", NoFlash);
        } else {
          claims := claims.(totpAttempt := claims.totpAttempt + 1);
          claims := claims.(totp := None);
          req.Login(claims);
          reply := Redirect("/", FlashError(InvalidOtp));
        }
      case Malformed(message) =>
        reply := Redirect("/", FlashError(message));
    }
  }
}

/**
 * The route guard (src/route_ext.rs): `AuthenticatedMiddleware` decides, before
 * a protected handler runs, whether to send the visitor home, to force a
 * logout, or to pass the request on; `authenticated()` attaches it to a route.
 */
module Guard {
  import opened Wrappers
  import opened Http
  import opened Crate
  import opened UserRepo
  import opened Session

  /**
   * What the middleware does with the request: answer it itself, or run the
   * wrapped handler (`next.run(request)`), whose response is passed back as is.
   */
  datatype Decision = Respond(reply: Reply) | RunHandler

  const Home: Reply := Redirect("/", NoFlash)

  /**
   * `AuthenticatedMiddleware::handle` on the session. An unauthenticated
   * request goes home; a repeated visit while the second factor is pending is
   * logged out and goes home; anything else reaches the handler, with the
   * marker set when the second factor is pending.
   */
  function GuardOutcome(s: SessionMap, users: map<nat, User>): (r: (Decision, SessionMap))
    ensures r.0.Respond? ==> r.0.reply == Home
    ensures r.0 == RunHandler <==>
              ClaimsOf(s).Some? && ClaimsOf(s).value.uid in users && !(RequiresTotp(s) && MarkerSet(s))
    ensures ClaimsOf(s).None? ==> r.1 == s
    ensures ClaimsOf(s).Some? && r.0.Respond? ==> r.1 == Destroyed
    ensures r.0 == RunHandler ==> ClaimsOf(r.1) == ClaimsOf(s) && AgreeOutside(s, r.1, {RedirectKey})
    ensures r.0 == RunHandler ==> (RequiresTotp(s) <==> MarkerSet(r.1) && RequiresTotp(r.1))
    ensures r.0 == RunHandler && !RequiresTotp(s) ==> r.1 == s
  {
    var auth := CheckAuthenticated(s, users);
    if !auth.authenticated then (Respond(Home), auth.session)
    else
      var prevent := PreventOutcome(auth.session);
      if prevent.0 then (Respond(Home), Destroyed)
      else (RunHandler, prevent.1)
  }

  /**
   * The user the handler finds as the request extension when the guard lets
   * the request through.
   */
  function GuardUser(s: SessionMap, users: map<nat, User>): (r: Option<User>)
    ensures GuardOutcome(s, users).0 == RunHandler ==>
              r.Some? && r.value == users[ClaimsOf(s).value.uid]
  {
    CheckAuthenticated(s, users).user
  }

  class AuthenticatedMiddleware {
    constructor ()
    {
    }

    method Handle(request: Request, users: map<nat, User>) returns (d: Decision)
      modifies request
      ensures (d, request.session) == GuardOutcome(old(request.session), users)
      ensures d == RunHandler ==> request.user == GuardUser(old(request.session), users)
      ensures request.user == if CheckAuthenticated(old(request.session), users).authenticated
                              then CheckAuthenticated(old(request.session), users).user else old(request.user)
    {
      var authenticated := request.IsAuthenticated(users);
      if !authenticated {
        return Respond(Home);
      }
      var prevented := request.PreventTotpRedirect();
      if prevented {
        request.Logout();
        return Respond(Home);
      }
      return RunHandler;
    }
  }

  /** A middleware on a route: the guard, or any other by name. */
  datatype Middleware = AuthenticatedGuard | Named(name: string)

  /** A tide route: its path, its middleware in order, the routes nested under it. */
  class Route {
    const path: string
    var middleware: seq<Middleware>
    var nested: seq<string>

    constructor (path: string)
      ensures this.path == path && middleware == [] && nested == []
    {
      this.path := path;
      middleware := [];
      nested := [];
    }

    /** Every request to this route or a route nested under it passes the guard. */
    predicate Guarded()
      reads this
    {
      AuthenticatedGuard in middleware
    }

    /** `Route::with`. */
    method With(m: Middleware)
      modifies this`middleware
      ensures middleware == old(middleware) + [m]
    {
      middleware := middleware + [m];
    }

    /** `RouteExt::authenticated`: attaches the guard and hands back the same route. */
    method Authenticated() returns (r: Route)
      modifies this`middleware
      ensures r == this
      ensures middleware == old(middleware) + [AuthenticatedGuard]
      ensures Guarded()
    {
      With(AuthenticatedGuard);
      r := this;
    }

    /** `Route::nest`: serves the given sub-paths under this route. */
    method Nest(paths: seq<string>)
      modifies this`nested
      ensures nested == old(nested) + paths
    {
      nested := nested + paths;
    }
  }
}

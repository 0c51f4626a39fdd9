/**
 * The crate root (src/main.rs): the `Claims` record kept in the session and
 * the `no_store` middleware, which adds a Cache-Control header to responses
 * that do not carry one.
 */
module Crate {
  import opened Wrappers
  import Http

  /**
   * The authentication record stored under the session key "tide.uid".
   * `uid` is a u64 and `exp`, `totp_attempt` and the `totp` payload are usize
   * in the source; all four are unsigned, so they are naturals here.
   * `totp` is the instant until which the second factor counts as satisfied.
   */
  datatype Claims = Claims(
    sub: string,
    username: string,
    uid: nat,
    exp: nat,
    totpEnabled: bool,
    totpAttempt: nat,
    totp: Option<nat>)

  const CacheControlHeader: string := "Cache-Control"

  /** The value of a CacheControl holding the directives NoStore and MaxAge(0). */
  const NoStoreDirectives: string := "no-store, max-age=0"

  /** The header map after `no_store`: an existing Cache-Control wins. */
  function WithNoStore(headers: map<string, string>): (r: map<string, string>)
    ensures CacheControlHeader in r
    ensures CacheControlHeader in headers ==> r == headers
    ensures CacheControlHeader !in headers ==>
              r[CacheControlHeader] == NoStoreDirectives && r.Keys == headers.Keys + {CacheControlHeader}
    ensures forall h :: h in headers ==> h in r && r[h] == headers[h]
  {
    if CacheControlHeader in headers then headers
    else headers[CacheControlHeader := NoStoreDirectives]
  }

  /** Running `no_store` twice adds nothing over running it once. */
  lemma NoStoreIdempotent(headers: map<string, string>)
    ensures WithNoStore(WithNoStore(headers)) == WithNoStore(headers)
  {
  }

  /**
   * `no_store`: `res` is the response the rest of the chain produced; only its
   * header map may change.
   */
  method NoStore(res: Http.Response)
    modifies res`headers
    ensures res.headers == WithNoStore(old(res.headers))
    ensures res.reply == old(res.reply)
  {
    if CacheControlHeader !in res.headers {
      res.headers := res.headers[CacheControlHeader := NoStoreDirectives];
    }
  }
}

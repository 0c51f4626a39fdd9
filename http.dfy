/**
 * The parts of tide's HTTP layer the core produces or inspects: the reply a
 * handler or middleware settles on (a redirect with an optional flash message,
 * a rendered page, or a request aborted by a panic) and a response object
 * whose header map the `no_store` middleware edits in place.
 */
module Http {
  /** A flash message queued for the next page (tide_flash). */
  datatype Flash = NoFlash | FlashInfo(message: string) | FlashError(message: string)

  /**
   * What a handler answers. `Aborted` stands for a handler that panics on an
   * `unwrap()` of a missing value; no response is produced.
   */
  datatype Reply =
    | Redirect(location: string, flash: Flash)
    | Page(template: string)
    | Aborted

  /** A response on its way out through the middleware chain. */
  class Response {
    var reply: Reply
    var headers: map<string, string>

    constructor (reply: Reply, headers: map<string, string>)
      ensures this.reply == reply && this.headers == headers
    {
      this.reply := reply;
      this.headers := headers;
    }
  }
}

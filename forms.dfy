/**
 * The form records the handlers parse from request bodies (src/routes.rs),
 * the outcome of parsing one, and the TOTP check the handlers call.
 */
module Forms {
  datatype UserForm = UserForm(username: string, password: string)

  datatype ValidateForm = ValidateForm(code: string)

  /** `body_form::<F>()`: a parsed form, or the parse error's message. */
  datatype Form<F> = Parsed(form: F) | Malformed(message: string)

  /**
   * `TOTP::is_valid` for a key built from an ASCII secret: whether `code` is a
   * currently valid code for `secret`. Computed by a foreign library, so it is
   * a parameter of every handler that uses it.
   */
  type TotpCheck = (string, string) -> bool
}

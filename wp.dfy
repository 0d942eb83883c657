/** Small pieces of the PHP and WordPress runtime that the API layer relies on. */
module Wp {

  /** A value that may be missing (PHP `null`). */
  datatype Option<+T> = None | Some(value: T)

  /** A `WP_Error`: machine-readable code, human-readable message and HTTP status. */
  datatype WpError = WpError(code: string, message: string, status: int)

  /** PHP truthiness of a string: exactly `""` and `"0"` are falsy. */
  predicate Truthy(s: string) {
    s != "" && s != "0"
  }
}

/** Option and Result, used for the source's `null` returns and thrown errors. */
module Wrappers {

  datatype Option<+T> = None | Some(value: T) {
    function GetOr(default: T): T {
      match this
      case Some(v) => v
      case None => default
    }
  }

  datatype Result<+R, +E> = Ok(value: R) | Err(error: E)

  /** A JavaScript value that reached a `catch`: an `Error` object with its
      message, or any other thrown value. */
  datatype Thrown = ErrorObject(message: string) | OtherValue

  /** JavaScript's `text || fallback` on a string that may be missing: a
      missing or empty text gives the fallback. */
  function TextOr(text: Option<string>, fallback: string): (r: string)
    ensures text.Some? && text.value != [] ==> r == text.value
    ensures text.None? || text.value == [] ==> r == fallback
    ensures fallback != [] ==> r != []
  {
    if text.Some? && text.value != [] then text.value else fallback
  }
}

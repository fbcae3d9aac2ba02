/** Optional values, results and the Python exceptions that escape the modelled code. */
module Wrappers {

  datatype Option<+T> = None | Some(value: T) {
    function GetOr(default: T): T {
      match this
      case Some(v) => v
      case None => default
    }
  }

  /** The kinds of uncaught Python exception the modelled code can raise. */
  datatype Exc =
    | KeyError        // d[k] with k absent
    | IndexError      // words[1] on a one-word line, colour[2] on a short colour
    | TypeError       // str + non-str, `in` on a number, iterating a number
    | ValueError      // float("abc"), int(""), tuple unpacking of the wrong length
    | AttributeError  // None.getTexture(), self.logLine on a class without it
    | OSError         // open() of a file that is missing or unreadable

  /** The result of Python code that either returns a value or raises. */
  datatype Outcome<+T> = Returned(value: T) | Raised(exc: Exc)
}

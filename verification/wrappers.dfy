/** Failure-carrying wrappers and the dictionary lookup with a default
    (Python's `dict.get(key, default)`) that the rest of the model uses. */
module Wrappers {

  /** A value that may be missing. */
  datatype Option<+T> = None | Some(value: T) {

    /** The encapsulated value, or `default` when there is none. */
    function GetOr(default: T): T {
      match this
      case Some(v) => v
      case None => default
    }
  }

  /** Either a computed value or the error that stopped the computation
      (the model's stand-in for a raised exception). */
  datatype Result<+R, +E> = Success(value: R) | Failure(error: E)

  /** The process environment, as `os.getenv` reads it. */
  type Env = map<string, string>

  /** `m.get(key, default)` on a string-to-string dictionary. */
  function Get(m: map<string, string>, key: string, default: string): (r: string)
    ensures key in m ==> r == m[key]
    ensures key !in m ==> r == default
  {
    if key in m then m[key] else default
  }
}

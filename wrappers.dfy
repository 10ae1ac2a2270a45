/** Result and Option values standing for Python's "return a value or raise". */
module Wrappers {

  datatype Option<+T> = None | Some(value: T)

  datatype Result<+T, +E> = Ok(value: T) | Err(error: E)

  /** Prefixes `s` to a successful text result; an error passes through unchanged. */
  function Prefixed<E>(s: string, r: Result<string, E>): Result<string, E>
  {
    match r
    case Ok(t) => Ok(s + t)
    case Err(e) => Err(e)
  }
}

/** Python-level values and failure types shared by every module of the model. */
module Base {

  datatype Option<+T> = None | Some(value: T)

  /** The exception classes the core raises. */
  datatype Error =
    | ValueError
    | AssertionError
    | ConnectionError
    | KeyError
    | AttributeError
    | NotImplementedError
    | TypeError

  /** A return value or a raised exception. */
  datatype Result<+T> = Ok(value: T) | Err(error: Error)

  /** A procedure that returns None or raises. */
  datatype Outcome = Pass | Fail(error: Error)

  /** A dynamically typed argument, as far as the validators tell values apart. */
  datatype PyValue = PyNone | PyStr(s: string) | PyOther

  /** Python's str.startswith. */
  predicate StartsWith(s: string, prefix: string) {
    |prefix| <= |s| && s[..|prefix|] == prefix
  }
}

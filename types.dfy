/** Value types shared by the whole model: machine integers, the optional
    attribute of a Python object, and the exceptions the wrapper raises. */
module Types {

  /** A C `uint32_t`, the type of every status the native driver returns. */
  type uint32 = x: int | 0 <= x < 0x1_0000_0000

  /** A C `uint8_t`, one byte of a driver-filled buffer. */
  type byte = bv8

  /** An attribute of the session object: `None` while `hasattr` is false. */
  datatype Option<+T> = None | Some(value: T)

  /** A two-element integer list such as `[sizeX, sizeY]`. */
  datatype Pair = Pair(x: nat, y: nat)

  /** The exceptions that leave the wrapper.  A `RuntimeError` or `KeyError`
      raised by the wrapper itself carries the error description it was built
      from.  A dictionary lookup of a name or a status code that the tables
      do not list is Python's `KeyError(key)`, kept apart here as
      `UnknownName` and `UnknownStatus`; reading a missing attribute is
      `AttributeError(name)`.  The session object's methods record what
      `check_status` raised by the status that caused it, `StatusError`;
      which exception that is (a `RuntimeError` with the description on the
      status's row, or the `KeyError` of an unlisted status) is what
      `Errors.CheckStatus` computes. */
  datatype Exception =
    | RuntimeError(message: string)
    | KeyError(message: string)
    | UnknownName(name: string)
    | UnknownStatus(code: uint32)
    | AttributeError(name: string)
    | StatusError(status: uint32)

  /** The outcome of a call that returns a value or raises. */
  datatype Result<+T> = Success(value: T) | Failure(error: Exception)

  /** The outcome of a call that returns `self` (or nothing) or raises. */
  datatype Outcome = Pass | Fail(error: Exception)
}

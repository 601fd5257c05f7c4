/**
 * Value types shared by the whole model: an optional value, the outcome of
 * an operation that may raise, and the exceptions the clock engine raises.
 */
module Wrappers {

  datatype Option<+T> = None | Some(value: T)

  /** The exceptions raised by the clock engine, one constructor per cause.
      The comment on each names the Python exception the cause raises. */
  datatype Error =
    | EmptyQueue                  // IndexError: pop from an empty list / `self[-1]` of one
    | UnknownDeltaType(name: string) // TypeError: `timedelta()` got an unexpected keyword
    | ComponentOutOfRange         // ValueError (OverflowError beyond a C int): `datetime(...)` rejects a component
    | TzInfoMismatch              // ValueError: an aware instant in another zone
    | UtcOffsetIsNone             // TypeError: the configured zone has no UTC offset

  /** The value a Python call returns, or the exception it raises. */
  datatype Result<+T> = Ok(value: T) | Err(error: Error)

  /** The outcome of a Python call that returns None or raises. */
  datatype Outcome = Pass | Fail(error: Error)
}

/** Shared vocabulary: optional values, Go's `(value, error)` returns and
    wrapped error messages, and the instants the program stamps on records. */
module Common {

  datatype Option<+T> = None | Some(value: T)

  /** A Go `(T, error)` pair: exactly one of the two is meaningful. */
  datatype Result<+T> = Ok(value: T) | Err(error: string)

  /** A Go function that returns only an `error`: nil is `Pass`. */
  datatype Outcome = Pass | Fail(error: string)

  /** The message of `fmt.Errorf("<context>: %w", cause)`. */
  function Wrap(context: string, cause: string): (msg: string)
    ensures context + ": " <= msg
    ensures msg[|context| + 2..] == cause
  {
    context + ": " + cause
  }

  /** Instants, in nanoseconds since January 1, year 1, 00:00:00 UTC, so that
      Go's zero `time.Time` is the instant 0. */
  type Time = int

  const ZeroTime: Time := 0
}

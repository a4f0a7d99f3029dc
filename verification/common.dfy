/** Shared wrappers: optional values, the values a JavaScript `throw` can carry,
    and the outcome of a call that may throw. */
module Common {

  /** A value that may be missing: an optional-chaining lookup (`a?.b`) that
      reached `undefined` or `null`. */
  datatype Option<+T> = None | Some(value: T) {

    /** The value, or `d` when it is missing (JavaScript's `x || d` when the
        only falsy value `x` can take is the missing one). */
    function GetOr(d: T): T {
      match this
      case Some(v) => v
      case None => d
    }
  }

  /** What a `throw` carried: an `Error` instance (with its `name` and
      `message`), or some other value. */
  datatype Thrown = ErrorObj(name: string, message: string) | NonError

  /** The outcome of an awaited call into code outside the model: the value
      it returned, or what it threw. */
  datatype Attempt<+T> = Done(value: T) | Threw(error: Thrown)

  /** The `details` text a handler reports for a caught value:
      `error instanceof Error ? error.message : "Unknown error"`. */
  function Details(e: Thrown): string {
    match e
    case ErrorObj(_, m) => m
    case NonError => "Unknown error"
  }
}

/** Failure-carrying values used throughout the model: a JavaScript value that
    may be `null`/`undefined` becomes an `Option`, and a handler that either
    answers or rejects becomes a `Result`. */
module Options {

  datatype Option<+T> = None | Some(value: T) {

    /** The value, or `default` when there is none. This is JavaScript's
        `x || default` wherever every falsy present `x` equals `default`,
        as `"" || ""` does. */
    function GetOr(default: T): T {
      match this
      case Some(v) => v
      case None => default
    }
  }

  datatype Result<+T, +E> = Ok(value: T) | Fail(error: E)
}

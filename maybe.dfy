/** The repository's `Maybe<T>`: zero or one value, used as the result of every read. */
module Maybes {

  /** `Nothing` is the empty Maybe (`new Maybe<T>()`), `Just(v)` the one holding `v`
      (`new Maybe<T>(v)`). Also used where a C# argument may be a null reference. */
  datatype Maybe<+T> = Nothing | Just(value: T) {

    /** LINQ's `Any()` on a Maybe: true when a value is present. */
    predicate Any() {
      Just?
    }
  }
}

/** The exceptions thrown by the modelled constructors. */
module Errors {

  datatype Error =
    | ArgumentNull(paramName: string)                 // ArgumentNullException(paramName)
    | Argument(message: string, paramName: string)    // ArgumentException(message, paramName)

  /** Either a constructed object or the exception its constructor threw. */
  datatype Result<+T> = Ok(value: T) | Err(error: Error)
}

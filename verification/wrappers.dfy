/** Failure-carrying values shared by every module of the model.
    Go's `(T, error)` pairs become `Result<T>`; a nilable pointer, function
    value or optional setting becomes `Maybe<T>` (nil is `Nothing`). */
module Wrappers {

  datatype Maybe<+T> = Nothing | Just(value: T)

  /** An error is modelled by the message Go's error value prints. */
  datatype Result<+T> = Ok(value: T) | Err(error: string)

  /** The identity of a Go pointer or function value that the model never
      looks into (a logger, a transport, a callback, a compression hook). */
  type Handle = nat

  /** Keep `a` when it is set, otherwise `b`: how every merge of option
      records treats an optional field. */
  function Prefer<T>(a: Maybe<T>, b: Maybe<T>): Maybe<T> {
    if a.Just? then a else b
  }
}

/** The exceptions the core raises, and the shape of a call that may raise one. */
module Raising {

  datatype Option<T> = None | Some(value: T)

  datatype Error =
    | FrozenError               // a write to a frozen object
    | NoMethodError(name: string) // a name neither the result nor its data responds to
    | FailureError              // `call!` on an operation that failed

  /** What a Ruby call that may raise gives back: its value, or the exception it raised. */
  datatype Attempt<T> = Ok(value: T) | Raised(error: Error)
}

/** Failure-carrying results shared by the CPU model and the debug console. */
module Common {

  datatype Option<T> = None | Some(value: T)

  /** Why an operation stopped: an `Error` the source throws with a fixed
      message, or an expression that the unseen expression evaluator
      refused (its own message is not part of this model). */
  datatype Failure =
    | Thrown(message: string)
    | Unevaluable(text: string)

  datatype Result<T> = Ok(value: T) | Err(failure: Failure)
}

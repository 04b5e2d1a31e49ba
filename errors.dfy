/** The Python exceptions the trainer and its autoencoders can raise, and the wrappers that carry them. */
module Errors {

  /** The exception classes raised by the modelled code and by the library calls it makes. */
  datatype Error =
    | RuntimeError(message: string)   // raised by the topology builder itself
    | IndexError                      // list index out of range, or a label outside the class range
    | ValueError                      // set_weights given weights of the wrong count or shape
    | AttributeError(name: string)    // a session field read before any stage assigned it

  datatype Option<+T> = None | Some(value: T)

  datatype Result<+T> = Success(value: T) | Failure(error: Error)

  /** The outcome of a call that returns nothing on success. */
  datatype Outcome = Pass | Fail(error: Error)
}

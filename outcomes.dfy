/** Values shared by the container proxy and the task: Ruby's nil as `Option`,
    the exceptions the core raises or rescues as `Error`, and a promise that
    either delivers a value or fails as `Result`. */
module Outcomes {

  datatype Option<+T> = None | Some(value: T) {
    /** Ruby's `x || default`: the value when present, else the default. */
    function GetOr(default: T): T {
      match this
      case Some(v) => v
      case None => default
    }
  }

  /** Faults raised by the runtime client: `EM::Warden::Client::ConnectionError`
      (the channel broke) and every other `EM::Warden::Client::Error`
      (the runtime rejected the request). */
  datatype Fault = ConnectionError | ClientError(message: string)

  /** Every exception of the core.  `Client(f)` is what
      `rescue ::EM::Warden::Client::Error` catches. */
  datatype Error =
    | Client(fault: Fault)
    | ArgumentError(message: string)   // precondition violated by the caller
    | RuntimeError(message: string)    // well-formed but incomplete response
    | WardenError(exitStatus: nat)     // "Script exited with status <exitStatus>"

  /** A promise after resolution: delivered with a value, or failed. */
  datatype Result<+T> = Ok(value: T) | Err(error: Error) {
    predicate IsFailure() {
      Err?
    }

    function PropagateFailure<U>(): Result<U>
      requires Err?
    {
      Err(error)
    }

    function Extract(): T
      requires Ok?
    {
      value
    }
  }
}

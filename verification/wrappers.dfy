/** Failure-compatible wrappers used throughout the model: `Option` stands for a
    .NET reference that may be null, `Result` for a call that either returns a
    value or throws. */
module Wrappers {

  datatype Option<+T> = None | Some(value: T) {
    predicate IsFailure() {
      None?
    }

    function PropagateFailure<U>(): Option<U>
      requires None?
    {
      None
    }

    function Extract(): T
      requires Some?
    {
      value
    }
  }

  datatype Result<+R, +E> = Success(value: R) | Failure(error: E) {
    predicate IsFailure() {
      Failure?
    }

    function PropagateFailure<U>(): Result<U, E>
      requires Failure?
    {
      Failure(error)
    }

    function Extract(): R
      requires Success?
    {
      value
    }
  }
}

/** The .NET exceptions the modelled code throws, by kind and message. */
module Exceptions {

  datatype Exception =
    | InvalidOperation(message: string)
    | Argument(message: string)
    | ArgumentOutOfRange(paramName: string, message: string)
    | PlatformNotSupported(message: string)
    | DllNotFound(libraryPath: seq<string>)
    | FileNotFound(message: string)
    | NullReference
      /** What `Task.Wait` throws when the awaited task faulted. */
    | Aggregate(inner: Exception)
      /** An exception raised by code outside the model (file system, network). */
    | External(description: string)
}

/** Failure-compatible result types shared by every module of the model.
    A Go `(T, error)` pair is a `Result<T>`: `Err` carries the error and stands
    for the Go zero value that accompanies a non-nil error. */
module Wrappers {

  datatype Option<+T> = None | Some(value: T)

  /** A Go error value: either a leaf error with its text, or an error made by
      `fmt.Errorf(prefix + ": %w", cause)`, which keeps its cause for `errors.Unwrap`. */
  datatype Error = Fail(text: string) | Wrap(context: string, cause: Error)

  /** What `err.Error()` prints. */
  function ErrorString(e: Error): string
  {
    match e
    case Fail(t) => t
    case Wrap(c, cause) => c + ": " + ErrorString(cause)
  }

  /** `errors.Unwrap`. */
  function Unwrap(e: Error): Option<Error>
  {
    match e
    case Fail(_) => None
    case Wrap(_, cause) => Some(cause)
  }

  /** The run-time panic of a method call on a nil pointer, which the model
      returns as an error where Go would abort. */
  const NilDereference: Error := Fail("runtime error: invalid memory address or nil pointer dereference")

  datatype Result<+T> = Ok(value: T) | Err(error: Error) {
    predicate IsFailure() { Err? }

    function PropagateFailure<U>(): Result<U>
      requires Err?
    {
      Err(error)
    }

    function Extract(): T
      requires Ok?
    {
      value
    }
  }
}

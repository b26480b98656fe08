/** How an operation of the browser pool ends. A Go function returns a
    non-nil `error`, or it panics and unwinds its callers; both are
    abnormal completions that stop a provisioning sequence. */
module Failure {

  /** An abnormal completion: an error value returned to the caller, or a panic. */
  datatype Failure = Error(message: string) | Panic(message: string)

  /** The result of a Go call whose only result is an `error`. */
  datatype Outcome = Pass | Fail(failure: Failure)

  /** The result of a Go call that returns a value and an `error`. */
  datatype Result<+T> = Ok(value: T) | Err(failure: Failure)

  datatype Option<+T> = None | Some(value: T)

  /** The `error` half of a Go `(value, error)` pair. */
  function Status<T>(r: Result<T>): (o: Outcome)
    ensures o.Pass? <==> r.Ok?
    ensures r.Err? ==> o.failure == r.failure
  {
    match r
    case Ok(_) => Pass
    case Err(f) => Fail(f)
  }
}

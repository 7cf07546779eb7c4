/** Failure-carrying values shared by every module: `Option` for a value that may
    be absent (a `null` record, a missing key) and `Result` for an operation that
    either produces a value or fails with the message the source throws. */
module Wrappers {

  datatype Option<+T> = None | Some(value: T)

  datatype Result<+T> = Ok(value: T) | Err(error: string)

  /** The services' `catch` blocks: any failure is replaced by one fixed message,
      a success is passed through unchanged. */
  function Rewrap<T>(r: Result<T>, message: string): (w: Result<T>)
    ensures w.Ok? <==> r.Ok?
    ensures w.Ok? ==> w.value == r.value
    ensures w.Err? ==> w.error == message
  {
    if r.Ok? then r else Err(message)
  }
}

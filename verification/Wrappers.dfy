/** Failure-compatible result types. */
module Wrappers {

  datatype Option<+T> = None | Some(value: T)

  /** An engine abort is a `Failure`; every caller passes it on. */
  datatype Result<+T> = Success(value: T) | Failure(error: string) {
    function Message(): string {
      if Failure? then error else ""
    }
  }
}

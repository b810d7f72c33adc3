/** Absent values and the errors an admission request can end in. */
module Wrappers {

  datatype Option<+T> = None | Some(value: T) {
    predicate IsFailure() {
      None?
    }

    function PropagateFailure<U>(): Option<U>
      requires None?
    {
      None
    }

    function Extract(): T
      requires Some?
    {
      value
    }
  }

  datatype Error =
    | ParsingFailed
    | ApiFailure
    | NotFound
    | PspRemoval
    | InvalidConfig
    | ClusterAppVersionNotFound
    | AppNotAllowed(app: string, catalog: string)
    | ReferenceNotAllowed(namespace: string)
    | AppInvalid

  datatype Result<+T> = Ok(value: T) | Err(error: Error) {
    predicate IsFailure() {
      Err?
    }

    function PropagateFailure<U>(): Result<U>
      requires Err?
    {
      Err(error)
    }

    function Extract(): T
      requires Ok?
    {
      value
    }
  }
}

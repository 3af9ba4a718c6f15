/** Optional values and the error results shared by the models. */
module Wrappers {

  datatype Option<+T> = None | Some(value: T)

  /** The sentinel errors of pkg/domain, pkg/store and manager/internal/app; the last two wrap a cause. */
  datatype Error = NotFound
                 | Conflict
                 | InvalidTransition
                 | Invalid
                 | ConcurrentModification
                 | SequenceGap
                 | ProtocolConflict(cause: Error)
                 | ProjectionFailed(cause: Error)

  datatype Result<+T> = Ok(value: T) | Err(error: Error) {
    predicate IsFailure() {
      Err?
    }

    function PropagateFailure<U>(): Result<U>
      requires Err?
    {
      Err(error)
    }

    function Extract(): T
      requires Ok?
    {
      value
    }
  }

  /** a2aProtocolError and a2aProjectionError: wrap once. */
  function AsProtocol<T>(r: Result<T>): Result<T> {
    if r.Ok? || r.error.ProtocolConflict? || r.error.ProjectionFailed? then r else Err(ProtocolConflict(r.error))
  }

  function AsProjection<T>(r: Result<T>): Result<T> {
    if r.Ok? || r.error.ProjectionFailed? then r else Err(ProjectionFailed(r.error))
  }

  function Require(condition: bool, error: Error): Result<()> {
    if condition then Ok(()) else Err(error)
  }
}

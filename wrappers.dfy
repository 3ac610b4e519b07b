/** Failure-compatible result types shared by every module of the model. */
module Wrappers {

  /** A value that may be absent: a nullable entity field or a failed parse. */
  datatype Option<+T> = None | Some(value: T) {
    predicate IsFailure() { None? }

    function PropagateFailure<U>(): Option<U>
      requires None?
    {
      None
    }

    function Extract(): T
      requires Some?
    {
      value
    }
  }

  /**
   * The outcome of a handler. `Fatal` stands for the indexer's critical log:
   * the event is abandoned and nothing it wrote is kept.
   */
  datatype Result<+T> = Ok(value: T) | Fatal(message: string) {
    predicate IsFailure() { Fatal? }

    function PropagateFailure<U>(): Result<U>
      requires Fatal?
    {
      Fatal(message)
    }

    function Extract(): T
      requires Ok?
    {
      value
    }
  }
}

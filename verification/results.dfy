/** Failure-carrying wrappers used where the dashboard would raise or have no value. */
module Results {

  /** A value that may be absent (a missing dictionary key, an undecodable column). */
  datatype Option<+T> = None | Some(value: T) {

    predicate IsFailure() {
      None?
    }

    function PropagateFailure<U>(): Option<U>
      requires None?
    {
      None
    }

    function Extract(): T
      requires Some?
    {
      value
    }
  }

  /** Either a computed value or the error the dashboard would raise instead. */
  datatype Result<+T, +E> = Ok(value: T) | Err(error: E)
}

/** Failure-compatible wrappers shared by the renderer and the builder.
    `Result` stands for a Python call that either returns a value or raises
    (a `KeyError` on a missing theme role or configuration key, a `TypeError`
    on a value of the wrong shape). */
module Results {

  /** Presence of an optional dictionary entry. */
  datatype Option<+T> = None | Some(value: T) {

    /** `d.get(key, default)`: the stored value, or the default when absent. */
    function GetOr(default: T): T {
      match this
      case Some(v) => v
      case None => default
    }
  }

  datatype Result<+T, +E> = Ok(value: T) | Err(error: E) {

    predicate IsFailure() {
      Err?
    }

    function PropagateFailure<U>(): Result<U, E>
      requires Err?
    {
      Err(error)
    }

    function Extract(): T
      requires Ok?
    {
      value
    }
  }
}

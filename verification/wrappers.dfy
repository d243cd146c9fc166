/** Option and Result, as in Rust, shared by every module of the model. */
module Wrappers {

  /** An optional value: `None` when absent. */
  datatype Option<+T> = None | Some(value: T)

  /** The outcome of a fallible operation, as Rust's `Result<T, E>`. */
  datatype Result<+T, +E> = Success(value: T) | Failure(error: E) {

    /** Rewraps the error with `f`, keeping a success as it is (Rust's `map_err`). */
    function MapFailure<E2>(f: E -> E2): (r: Result<T, E2>)
      ensures r.Success? <==> this.Success?
      ensures r.Success? ==> r.value == this.value
      ensures r.Failure? ==> r.error == f(this.error)
    {
      match this
      case Success(v) => Success(v)
      case Failure(e) => Failure(f(e))
    }
  }
}

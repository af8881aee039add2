/** Rust's `Option<T>`, and the outcome of an expression that may panic. */
module Wrappers {

  datatype Option<+T> = None | Some(value: T)

  /** What evaluating a Rust expression that may panic yields. */
  datatype Outcome<+T> = Returned(value: T) | Panicked

  /**
   * `Option::unwrap`: the wrapped value, or a panic on `None`.
   * A panic is never turned into a default value.
   */
  function Unwrap<T>(o: Option<T>): (r: Outcome<T>)
    ensures r.Panicked? <==> o.None?
    ensures r.Returned? ==> o == Some(r.value)
  {
    match o
    case Some(v) => Returned(v)
    case None => Panicked
  }
}

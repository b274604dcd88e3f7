/** Optional values, the outcome of a computation that may raise, and sequences without repetitions. */
module Wrappers {

  datatype Option<+T> = None | Some(value: T)

  /**
   * The outcome of a step of the Python program: either it returns a value,
   * or it raises an exception that nothing in the modelled code catches
   * (a TypeError, KeyError or AttributeError on a value of an unexpected shape).
   */
  datatype Outcome<+T> = Ok(value: T) | Fault

  /** No element occurs twice. */
  predicate Distinct<T(==)>(xs: seq<T>) {
    forall i, j :: 0 <= i < j < |xs| ==> xs[i] != xs[j]
  }
}

/** Small helpers shared by every module of the model. */
module Common {

  /** A value that may be absent (JavaScript's undefined or null). */
  datatype Option<T> = None | Some(value: T)

  /** No element occurs twice: a JavaScript Set kept in insertion order. */
  predicate Distinct<T(==)>(s: seq<T>)
  {
    forall i, j :: 0 <= i < j < |s| ==> s[i] != s[j]
  }

  /** Math.max on two numbers (NaN is not modelled). */
  function Max(a: real, b: real): real
  {
    if a >= b then a else b
  }
}

/** A value that may be absent, an outcome that may be an error, and sizes of sets. */
module Wrappers {

  datatype Option<T> = None | Some(value: T)

  datatype Result<T, E> = Good(value: T) | Bad(error: E)

  lemma SubsetIsSmaller<T>(a: set<T>, b: set<T>)
    requires a <= b
    ensures |a| <= |b|
  {
    assert b == a + (b - a);
  }
}

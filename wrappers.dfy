/** Option and Result values used for Python's `None` and for raised errors, and the first
    element of a sequence as an Option. */
module Wrappers {

  datatype Option<+T> = None | Some(value: T)

  datatype Result<+R, +E> = Success(value: R) | Failure(error: E)

  /** The first element of `s`, or None when `s` is empty. */
  function First<T>(s: seq<T>): Option<T>
  {
    if s == [] then None else Some(s[0])
  }

  /** The first element of a concatenation comes from the left part unless it is empty. */
  lemma FirstConcat<T>(a: seq<T>, b: seq<T>)
    ensures First(a + b) == if a != [] then First(a) else First(b)
  {
    if a == [] {
      assert a + b == b;
    }
  }
}

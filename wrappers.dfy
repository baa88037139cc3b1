/** Failure-compatible wrappers shared by the whole model. */
module Wrappers {

  /** A value that may be absent (Python's `None`). */
  datatype Option<+T> = None | Some(value: T)

  /** The result of a computation that may raise. */
  datatype Result<+R, +E> = Success(value: R) | Failure(error: E)

  /** The result of a step that only has effects: it passed, or it raised `error`. */
  datatype Outcome<+E> = Pass | Fail(error: E)

  /** `s` is obtained from `t` by deleting zero or more elements, keeping the order of the rest. */
  ghost predicate IsSubsequence<T>(s: seq<T>, t: seq<T>)
    decreases |t|
  {
    s == [] || (t != [] && ((s[0] == t[0] && IsSubsequence(s[1..], t[1..])) || IsSubsequence(s, t[1..])))
  }
}

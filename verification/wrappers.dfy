/** Optional values and results shared by the modules of the typing-test model. */
module Wrappers {

  /** A value that may be missing: JavaScript's `null`/`undefined` in the source. */
  datatype Option<+T> = None | Some(value: T)

  /** The outcome of an operation that can throw in the source. */
  datatype Result<+T, +E> = Success(value: T) | Failure(error: E)

  /** `s[i]` in JavaScript: the element at `i`, or `undefined` past the end. */
  function CharAt(s: string, i: nat): (c: Option<char>)
    ensures c.Some? <==> i < |s|
    ensures c.Some? ==> c.value == s[i]
  {
    if i < |s| then Some(s[i]) else None
  }
}

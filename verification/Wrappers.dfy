/** Types and predicates that several components share. */
module Wrappers {

  type Byte = x: int | 0 <= x < 256

  datatype Option<T> = None | Some(value: T)

  ghost predicate Distinct<T>(s: seq<T>) {
    forall i, j :: 0 <= i < j < |s| ==> s[i] != s[j]
  }
}

/** What several modules share. */
module Basics {
  datatype Option<+T> = None | Some(value: T)

  type Byte = b: int | 0 <= b < 256

  ghost predicate NoDup<X>(s: seq<X>) { forall i, j :: 0 <= i < j < |s| ==> s[i] != s[j] }
}

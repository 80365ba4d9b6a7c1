/** The optional value used where the firmware may or may not have
    something, and the regrouping of concatenations the proofs use. */
module Wrappers {
  datatype Option<+T> = None | Some(value: T)

  /** Concatenation regroups. */
  lemma AppendAssoc<T>(a: seq<T>, b: seq<T>, c: seq<T>)
    ensures a + (b + c) == (a + b) + c
  {
  }
}

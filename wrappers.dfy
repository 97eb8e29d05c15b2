/** The optional value of a query that may find nothing. */
module Wrappers {
  datatype Option<+T> = None | Some(value: T)
}

/** Facts about sequences that the proofs use by name. */
module Sequences {
  lemma AppendAssoc<T>(a: seq<T>, b: seq<T>, c: seq<T>)
    ensures (a + b) + c == a + (b + c)
  {
  }
}

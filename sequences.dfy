/** Facts about sequences that the loops building token and statement lists rely on. */
module Sequences {

  /** Concatenation regroups freely: the list loops use it to move a new element from the done part to the rest. */
  lemma Associative<T>(a: seq<T>, b: seq<T>, c: seq<T>)
    ensures (a + b) + c == a + (b + c)
  {
  }
}

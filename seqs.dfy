/** Facts about sequences of any element type. Stated once here, they let proofs
    about sequences of records and JSON trees avoid comparing those element by element. */
module Seqs {

  /** Cutting off the last element of s + [x]. */
  lemma TakeAppend<T>(s: seq<T>, x: T)
    ensures (s + [x])[..|s|] == s && (s + [x])[|s|] == x
  {
  }

  /** A non-empty sequence is its front followed by its last element. */
  lemma FrontLast<T>(s: seq<T>)
    requires s != []
    ensures s[..|s| - 1] + [s[|s| - 1]] == s
  {
  }

  /** Three elements appended one at a time. */
  lemma AppendThree<T>(s: seq<T>, a: T, b: T, c: T)
    ensures s + [a] + [b] + [c] == s + [a, b, c]
  {
  }

  /** The first k + m elements are the first k followed by the first m after them. */
  lemma TakeSplit<T>(s: seq<T>, k: nat, m: nat)
    requires k + m <= |s|
    ensures s[..k + m] == s[..k] + s[k..][..m]
  {
  }
}

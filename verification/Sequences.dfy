/** Facts about slices, each on its own so that proofs needn't find them. */
module Sequences {
  lemma WholeSuffix<T>(s: seq<T>, i: nat)
    requires i <= |s|
    ensures s[i..|s|] == s[i..]
  {
  }

  lemma WholeSlice<T>(s: seq<T>)
    ensures s[..|s|] == s && s[0..] == s
  {
  }

  lemma EmptyTail<T>(s: seq<T>)
    ensures s + [] == s && [] + s == s
  {
  }
}

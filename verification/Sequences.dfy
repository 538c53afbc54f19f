/** Concatenation of sequences, where the verifier needs to be told. */
module Sequences {

  lemma {:induction false} Glue<T>(xs: seq<T>, ys: seq<T>, zs: seq<T>)
    ensures xs + (ys + zs) == xs + ys + zs
  {
  }
}

/** Mapping each element of a sequence to a sequence. */
module Seqs {
  function FlatMap<A, B>(f: A -> seq<B>, xs: seq<A>): seq<B> {
    if xs == [] then [] else FlatMap(f, xs[..|xs| - 1]) + f(xs[|xs| - 1])
  }

  lemma {:induction false} FlatMapConcat<A, B>(f: A -> seq<B>, xs: seq<A>, ys: seq<A>)
    ensures FlatMap(f, xs + ys) == FlatMap(f, xs) + FlatMap(f, ys)
  {
    if ys == [] {
      assert xs + ys == xs;
    } else {
      FlatMapConcat(f, xs, ys[..|ys| - 1]);
      assert (xs + ys)[..|xs + ys| - 1] == xs + ys[..|ys| - 1];
    }
  }

  lemma FlatMapSmall<A, B>(f: A -> seq<B>, xs: seq<A>)
    requires |xs| <= 2
    ensures FlatMap(f, xs) == if xs == [] then [] else if |xs| == 1 then f(xs[0]) else f(xs[0]) + f(xs[1])
  {
    if |xs| > 0 {
      assert xs[..1][..0] == [];
      assert FlatMap(f, xs[..1]) == [] + f(xs[0]);
    }
    if |xs| == 1 {
      assert xs[..1] == xs;
    }
  }
}

/**
 Mapping each element of a list to a list and concatenating the results in order,
 which is what a sequential loop that appends to a buffer computes.
 */
module Flatten {

  /** The outputs of `f` on the elements of `xs`, one after another. */
  function FlatMap<A, B>(xs: seq<A>, f: A -> seq<B>): seq<B>
  {
    if |xs| == 0 then []
    else FlatMap(xs[..|xs| - 1], f) + f(xs[|xs| - 1])
  }

  /** One more element appends its output. */
  lemma FlatMapSnoc<A, B>(xs: seq<A>, x: A, f: A -> seq<B>)
    ensures FlatMap(xs + [x], f) == FlatMap(xs, f) + f(x)
  {
    assert (xs + [x])[..|xs|] == xs;
  }

  /** A single element gives just its output. */
  lemma FlatMapOne<A, B>(x: A, f: A -> seq<B>)
    ensures FlatMap([x], f) == f(x)
  {
    assert [x][..0] == [];
  }

  /** The output of a concatenation is the concatenation of the outputs. */
  lemma {:induction false} FlatMapAppend<A, B>(xs: seq<A>, ys: seq<A>, f: A -> seq<B>)
    ensures FlatMap(xs + ys, f) == FlatMap(xs, f) + FlatMap(ys, f)
    decreases |ys|
  {
    if |ys| == 0 {
      assert xs + ys == xs;
    } else {
      var init, last := ys[..|ys| - 1], ys[|ys| - 1];
      assert xs + ys == (xs + init) + [last];
      assert ys == init + [last];
      FlatMapSnoc(xs + init, last, f);
      FlatMapSnoc(init, last, f);
      FlatMapAppend(xs, init, f);
    }
  }

  /** The output for a prefix of the list is a prefix of the output for the list. */
  lemma FlatMapPrefix<A, B>(xs: seq<A>, j: nat, k: nat, f: A -> seq<B>)
    requires j <= k <= |xs|
    ensures FlatMap(xs[..j], f) <= FlatMap(xs[..k], f)
  {
    assert xs[..k] == xs[..j] + xs[j..k];
    FlatMapAppend(xs[..j], xs[j..k], f);
  }
}

/** Lists of results, one element at a time. */
module Sequences {

  /** The results of every element, in order. */
  function Flatten<A, B>(f: A -> seq<B>, xs: seq<A>): seq<B> {
    if xs == [] then [] else f(xs[0]) + Flatten(f, xs[1..])
  }

  lemma {:induction false} FlattenConcat<A, B>(f: A -> seq<B>, xs: seq<A>, ys: seq<A>)
    ensures Flatten(f, xs + ys) == Flatten(f, xs) + Flatten(f, ys)
  {
    if xs == [] {
      assert xs + ys == ys;
    } else {
      FlattenConcat(f, xs[1..], ys);
      assert (xs + ys)[1..] == xs[1..] + ys;
      assert f(xs[0]) + (Flatten(f, xs[1..]) + Flatten(f, ys)) == (f(xs[0]) + Flatten(f, xs[1..])) + Flatten(f, ys);
    }
  }

  lemma FlattenOne<A, B>(f: A -> seq<B>, x: A)
    ensures Flatten(f, [x]) == f(x)
  {
    var xs := [x];
    assert xs[1..] == [];
    assert f(x) + [] == f(x);
  }
}

/** Concatenating the images of a sequence, and taking elements out of it. */
module Seqs {

  function Gather<S, T>(f: S -> seq<T>, xs: seq<S>): seq<T> {
    if xs == [] then [] else f(xs[0]) + Gather(f, xs[1..])
  }

  lemma {:induction false} GatherConcat<S, T>(f: S -> seq<T>, x: seq<S>, y: seq<S>)
    ensures Gather(f, x + y) == Gather(f, x) + Gather(f, y)
  {
    if x == [] {
      assert x + y == y;
    } else {
      GatherConcat(f, x[1..], y);
      assert (x + y)[1..] == x[1..] + y;
      Associates(f(x[0]), Gather(f, x[1..]), Gather(f, y));
    }
  }

  lemma Associates<T>(x: seq<T>, y: seq<T>, z: seq<T>)
    ensures x + (y + z) == (x + y) + z
  {
  }

  lemma GatherSnoc<S, T>(f: S -> seq<T>, x: seq<S>, e: S)
    ensures Gather(f, x + [e]) == Gather(f, x) + f(e)
  {
    GatherConcat(f, x, [e]);
    assert [e][1..] == [];
    assert Gather(f, [e]) == f(e);
  }

  function Without<S>(xs: seq<S>, k: nat): seq<S>
    requires k < |xs|
  {
    xs[..k] + xs[k + 1..]
  }

  lemma GatherParts<S, T>(f: S -> seq<T>, x: seq<S>, e: S, y: seq<S>)
    ensures Gather(f, x + [e] + y) == Gather(f, x) + f(e) + Gather(f, y)
  {
    hide Gather;
    GatherConcat(f, x + [e], y);
    GatherSnoc(f, x, e);
  }

  lemma SplitAt<S>(xs: seq<S>, k: nat)
    requires k < |xs|
    ensures xs[..k] + [xs[k]] + xs[k + 1..] == xs
  {
  }

  /** Taking element `k` out removes its image and nothing else. */
  lemma GatherWithout<S, T>(f: S -> seq<T>, xs: seq<S>, k: nat)
    requires k < |xs|
    ensures Gather(f, xs) == Gather(f, xs[..k]) + f(xs[k]) + Gather(f, xs[k + 1..])
    ensures Gather(f, Without(xs, k)) == Gather(f, xs[..k]) + Gather(f, xs[k + 1..])
  {
    hide Gather;
    GatherParts(f, xs[..k], xs[k], xs[k + 1..]);
    SplitAt(xs, k);
    GatherConcat(f, xs[..k], xs[k + 1..]);
  }

  lemma {:induction false} GatherNothing<S, T>(f: S -> seq<T>, xs: seq<S>)
    requires forall i :: 0 <= i < |xs| ==> f(xs[i]) == []
    ensures Gather(f, xs) == []
  {
    if xs != [] {
      GatherNothing(f, xs[1..]);
    }
  }

  lemma {:induction false} GatherHas<S, T>(f: S -> seq<T>, xs: seq<S>, i: nat, e: T)
    requires i < |xs| && e in f(xs[i])
    ensures e in Gather(f, xs)
  {
    hide Gather;
    GatherWithout(f, xs, i);
  }

  /** Elements with the same images may be exchanged. */
  lemma {:induction false} SameGather<S, T>(f: S -> seq<T>, xs: seq<S>, ys: seq<S>)
    requires |xs| == |ys| && forall i :: 0 <= i < |xs| ==> f(xs[i]) == f(ys[i])
    ensures Gather(f, xs) == Gather(f, ys)
  {
    if xs != [] {
      SameGather(f, xs[1..], ys[1..]);
    }
  }
}

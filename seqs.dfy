/** `Array.prototype.flatMap` and `filter` over sequences. */
module Seqs {

  function FlatMap<A, B>(xs: seq<A>, f: A -> seq<B>): seq<B> {
    if xs == [] then [] else f(xs[0]) + FlatMap(xs[1..], f)
  }

  /** An element of a flat-mapped sequence comes from the image of some element, and every such element is there. */
  lemma {:induction false} FlatMapMember<A, B>(xs: seq<A>, f: A -> seq<B>, y: B)
    ensures y in FlatMap(xs, f) <==> exists k :: 0 <= k < |xs| && y in f(xs[k])
  {
    if xs != [] {
      FlatMapMember(xs[1..], f, y);
      if exists k :: 0 <= k < |xs| && y in f(xs[k]) {
        var k :| 0 <= k < |xs| && y in f(xs[k]);
        if k > 0 {
          assert xs[1..][k - 1] == xs[k];
        }
      }
      if exists k :: 0 <= k < |xs[1..]| && y in f(xs[1..][k]) {
        var k :| 0 <= k < |xs[1..]| && y in f(xs[1..][k]);
        assert xs[k + 1] == xs[1..][k];
      }
    }
  }

  /** The sum of the lengths of the images. */
  function SumLengths<A, B>(xs: seq<A>, f: A -> seq<B>): nat {
    if xs == [] then 0 else |f(xs[0])| + SumLengths(xs[1..], f)
  }

  lemma {:induction false} FlatMapLength<A, B>(xs: seq<A>, f: A -> seq<B>)
    ensures |FlatMap(xs, f)| == SumLengths(xs, f)
  {
    if xs != [] {
      FlatMapLength(xs[1..], f);
    }
  }

  function Filter<T(!new)>(xs: seq<T>, keep: T -> bool): (r: seq<T>)
    ensures |r| <= |xs|
    ensures forall x :: x in r <==> x in xs && keep(x)
  {
    if xs == [] then []
    else if keep(xs[0]) then [xs[0]] + Filter(xs[1..], keep)
    else Filter(xs[1..], keep)
  }
}

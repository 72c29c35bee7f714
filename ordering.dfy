/**
 * Newest-first ordering by a numeric key (a timestamp), as produced by
 * `array.sort((a, b) => key(b) - key(a))` and by a descending `order` clause
 * of a store query.
 */
module Ordering {

  ghost predicate NewestFirst<T>(s: seq<T>, key: T -> int) {
    forall i, j :: 0 <= i < j < |s| ==> key(s[i]) >= key(s[j])
  }

  /**
   * Puts `x` into a newest-first sequence, in front of the first element
   * that is not newer than it.
   */
  function Insert<T>(x: T, s: seq<T>, key: T -> int): (r: seq<T>)
    requires NewestFirst(s, key)
    ensures multiset(r) == multiset(s) + multiset{x}
    ensures NewestFirst(r, key)
  {
    if s == [] then
      [x]
    else if key(s[0]) <= key(x) then
      [x] + s
    else
      var rest := Insert(x, s[1..], key);
      assert s == [s[0]] + s[1..];
      HeadNewest(s, key);
      forall y | y in rest
        ensures key(y) <= key(s[0])
      {
        assert y in multiset(rest);
        if y != x {
          assert y in multiset(s[1..]);
        }
      }
      PrependNewest(s[0], rest, key);
      [s[0]] + rest
  }

  /** The head of a newest-first sequence is at least as new as everything after it. */
  lemma HeadNewest<T>(s: seq<T>, key: T -> int)
    requires s != [] && NewestFirst(s, key)
    ensures NewestFirst(s[1..], key)
    ensures forall y :: y in s[1..] ==> key(y) <= key(s[0])
  {
    forall y | y in s[1..]
      ensures key(y) <= key(s[0])
    {
      var k :| 0 <= k < |s[1..]| && s[1..][k] == y;
      assert s[k + 1] == y;
    }
  }

  /** Putting an element in front of a newest-first sequence of no newer elements keeps the order. */
  lemma PrependNewest<T>(y: T, t: seq<T>, key: T -> int)
    requires NewestFirst(t, key)
    requires forall z :: z in t ==> key(z) <= key(y)
    ensures NewestFirst([y] + t, key)
  {
    var r := [y] + t;
    forall i, j | 0 <= i < j < |r|
      ensures key(r[i]) >= key(r[j])
    {
      assert r[j] == t[j - 1];
      if i > 0 {
        assert r[i] == t[i - 1];
      } else {
        assert r[j] in t;
      }
    }
  }

  /**
   * A stable sort, newest first. It is how the modelled code's sort calls
   * behave; elements with equal keys keep their relative order.
   */
  function SortNewestFirst<T>(s: seq<T>, key: T -> int): (r: seq<T>)
    ensures multiset(r) == multiset(s)
    ensures |r| == |s|
    ensures NewestFirst(r, key)
  {
    if s == [] then
      []
    else
      assert s == [s[0]] + s[1..];
      var r := Insert(s[0], SortNewestFirst(s[1..], key), key);
      assert |r| == |multiset(r)| == |multiset(s)| == |s|;
      r
  }
}

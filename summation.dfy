/**
 * `Array.prototype.reduce((sum, x) => sum + x.amount, 0)`: a left fold that
 * adds one amount per element, with exact real arithmetic.
 */
module Summation {

  /** The fold, element by element from the left: the last element is added last. */
  function SumBy<T>(s: seq<T>, amount: T -> real): real
  {
    if s == [] then 0.0 else SumBy(s[..|s| - 1], amount) + amount(s[|s| - 1])
  }

  lemma SumBySingleton<T>(x: T, amount: T -> real)
    ensures SumBy([x], amount) == amount(x)
  {
    assert [x][..0] == [];
  }

  lemma SumByAppend<T>(s: seq<T>, x: T, amount: T -> real)
    ensures SumBy(s + [x], amount) == SumBy(s, amount) + amount(x)
  {
    assert (s + [x])[..|s|] == s;
  }

  /** Folding a concatenation is adding the two folds. */
  lemma {:induction false} SumByConcat<T>(s: seq<T>, t: seq<T>, amount: T -> real)
    ensures SumBy(s + t, amount) == SumBy(s, amount) + SumBy(t, amount)
    decreases |t|
  {
    if t == [] {
      assert s + t == s;
    } else {
      var u := t[..|t| - 1];
      var x := t[|t| - 1];
      assert t == u + [x];
      assert s + t == (s + u) + [x];
      SumByAppend(s + u, x, amount);
      SumByConcat(s, u, amount);
      SumByAppend(u, x, amount);
    }
  }

  /** Folding from the front gives the same total as the left fold. */
  lemma {:induction false} SumByCons<T>(x: T, s: seq<T>, amount: T -> real)
    ensures SumBy([x] + s, amount) == amount(x) + SumBy(s, amount)
  {
    SumByConcat([x], s, amount);
    SumBySingleton(x, amount);
  }

  /** Taking out the element at position i leaves the total less that element's amount. */
  lemma SumByRemove<T>(s: seq<T>, i: nat, amount: T -> real)
    requires i < |s|
    ensures SumBy(s, amount) == amount(s[i]) + SumBy(s[..i] + s[i + 1..], amount)
  {
    var front, back := s[..i], s[i + 1..];
    assert s[..i + 1] == front + [s[i]];
    assert s == s[..i + 1] + back;
    SumByAppend(front, s[i], amount);
    SumByConcat(s[..i + 1], back, amount);
    SumByConcat(front, back, amount);
  }

  /** Dropping the first element takes one copy of it out of the multiset. */
  lemma MultisetTail<T>(s: seq<T>)
    requires s != []
    ensures multiset(s[1..]) == multiset(s) - multiset{s[0]}
  {
    assert s == [s[0]] + s[1..];
  }

  /** Dropping the element at position i takes one copy of it out of the multiset. */
  lemma MultisetRemoveAt<T>(t: seq<T>, i: nat)
    requires i < |t|
    ensures multiset(t[..i] + t[i + 1..]) == multiset(t) - multiset{t[i]}
  {
    assert t == t[..i] + [t[i]] + t[i + 1..];
  }

  /** The fold does not depend on the order of the elements. */
  lemma {:induction false} SumByPermutation<T>(s: seq<T>, t: seq<T>, amount: T -> real)
    requires multiset(s) == multiset(t)
    ensures SumBy(s, amount) == SumBy(t, amount)
    decreases |s|
  {
    if s == [] {
      assert |t| == |multiset(t)| == 0;
    } else {
      var x := s[0];
      assert x in multiset(t);
      var i :| 0 <= i < |t| && t[i] == x;
      MultisetTail(s);
      MultisetRemoveAt(t, i);
      SumByPermutation(s[1..], t[..i] + t[i + 1..], amount);
      SumByCons(x, s[1..], amount);
      assert s == [x] + s[1..];
      SumByRemove(t, i, amount);
    }
  }

  /** Folding over a position-by-position image of s is folding the composed amount over s. */
  lemma {:induction false} SumByImage<S, T>(s: seq<S>, image: seq<T>, amount: T -> real, composed: S -> real)
    requires |image| == |s|
    requires forall i :: 0 <= i < |s| ==> amount(image[i]) == composed(s[i])
    ensures SumBy(image, amount) == SumBy(s, composed)
    decreases |s|
  {
    if s != [] {
      SumByImage(s[..|s| - 1], image[..|s| - 1], amount, composed);
    }
  }
}

// Array.prototype.filter / map / reduce(+) over finite sequences, defined by
// recursion on the last element so that a loop which appends one element per
// iteration matches the definition step for step.

module Seqs {

  /** The elements of s that satisfy p, in their original order. */
  function Filter<T(==,!new)>(s: seq<T>, p: T -> bool): (r: seq<T>)
    ensures |r| <= |s|
    ensures forall x :: x in r <==> x in s && p(x)
  {
    if s == [] then []
    else
      var init := s[..|s| - 1];
      assert s == init + [s[|s| - 1]];
      Filter(init, p) + (if p(s[|s| - 1]) then [s[|s| - 1]] else [])
  }

  /** f applied to each element of s. */
  function Map<A, B>(s: seq<A>, f: A -> B): (r: seq<B>)
    ensures |r| == |s|
    ensures forall k :: 0 <= k < |s| ==> r[k] == f(s[k])
  {
    if s == [] then [] else Map(s[..|s| - 1], f) + [f(s[|s| - 1])]
  }

  /** `s.reduce((sum, x) => sum + f(x), 0)`. */
  function Sum<T>(s: seq<T>, f: T -> real): real
  {
    if s == [] then 0.0 else Sum(s[..|s| - 1], f) + f(s[|s| - 1])
  }

  lemma FilterSnoc<T(!new)>(s: seq<T>, x: T, p: T -> bool)
    ensures Filter(s + [x], p) == Filter(s, p) + (if p(x) then [x] else [])
  {
    assert (s + [x])[..|s|] == s;
  }

  lemma MapSnoc<A, B>(s: seq<A>, x: A, f: A -> B)
    ensures Map(s + [x], f) == Map(s, f) + [f(x)]
  {
    assert (s + [x])[..|s|] == s;
  }

  lemma SumSnoc<T>(s: seq<T>, x: T, f: T -> real)
    ensures Sum(s + [x], f) == Sum(s, f) + f(x)
  {
    assert (s + [x])[..|s|] == s;
  }

  /** An element other than the last one is in the list without its last element. */
  lemma MemberOfInit<T>(s: seq<T>, x: T)
    requires x in s && s[|s| - 1] != x
    ensures x in s[..|s| - 1]
  {
    var k :| 0 <= k < |s| && s[k] == x;
    assert s[..|s| - 1][k] == x;
  }

  /** Sums distribute over concatenation. */
  lemma {:induction false} SumAppend<T>(a: seq<T>, b: seq<T>, f: T -> real)
    ensures Sum(a + b, f) == Sum(a, f) + Sum(b, f)
  {
    if b == [] {
      assert a + b == a;
    } else {
      var init := b[..|b| - 1];
      assert a + b == (a + init) + [b[|b| - 1]];
      SumSnoc(a + init, b[|b| - 1], f);
      SumAppend(a, init, f);
    }
  }

  /** Summing the images of a mapping is summing the composed terms. */
  lemma {:induction false} SumMap<A, B>(s: seq<A>, g: A -> B, f: B -> real, h: A -> real)
    requires forall x :: x in s ==> h(x) == f(g(x))
    ensures Sum(Map(s, g), f) == Sum(s, h)
  {
    if s != [] {
      var init := s[..|s| - 1];
      var x := s[|s| - 1];
      assert s == init + [x];
      SumMap(init, g, f, h);
      MapSnoc(init, x, g);
      SumSnoc(Map(init, g), g(x), f);
    }
  }

  /** A sum of non-negative terms is non-negative. */
  lemma {:induction false} SumNonNegative<T>(s: seq<T>, f: T -> real)
    requires forall x :: x in s ==> f(x) >= 0.0
    ensures Sum(s, f) >= 0.0
  {
    if s != [] {
      assert s == s[..|s| - 1] + [s[|s| - 1]];
      SumNonNegative(s[..|s| - 1], f);
    }
  }

  /** Filtering by p keeps exactly the terms f(x) with p(x) of a sum. */
  lemma {:induction false} SumFilterZero<T(!new)>(s: seq<T>, p: T -> bool, f: T -> real)
    requires forall x :: x in s && !p(x) ==> f(x) == 0.0
    ensures Sum(Filter(s, p), f) == Sum(s, f)
  {
    if s != [] {
      var init := s[..|s| - 1];
      var x := s[|s| - 1];
      assert s == init + [x];
      assert Sum(s, f) == Sum(init, f) + f(x);
      assert forall y :: y in init ==> y in s;
      SumFilterZero(init, p, f);
      FilterSnoc(init, x, p);
      if p(x) {
        SumSnoc(Filter(init, p), x, f);
      } else {
        assert Filter(s, p) == Filter(init, p) + [] == Filter(init, p);
      }
    }
  }

  /** Filtering by a predicate every element satisfies changes nothing. */
  lemma {:induction false} FilterKeepsAll<T(!new)>(s: seq<T>, p: T -> bool)
    requires forall x :: x in s ==> p(x)
    ensures Filter(s, p) == s
  {
    if s != [] {
      var init := s[..|s| - 1];
      assert s == init + [s[|s| - 1]];
      FilterKeepsAll(init, p);
    }
  }
}

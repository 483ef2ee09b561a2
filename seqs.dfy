/** Sequence operations that the JavaScript code gets from `Array.prototype`
    and `String.prototype`: `reduce` with `+`, `reverse`, `filter` by index
    and `indexOf`. */
module Seqs {

  /** `s.reduce((acc, x) => acc + w(x), 0)`: a left fold from 0. */
  function Sum<T>(s: seq<T>, w: T -> real): real
  {
    if s == [] then 0.0 else Sum(s[..|s| - 1], w) + w(s[|s| - 1])
  }

  /** The fold can equally be read from the front. */
  lemma {:induction false} SumCons<T>(x: T, s: seq<T>, w: T -> real)
    ensures Sum([x] + s, w) == w(x) + Sum(s, w)
  {
    if s != [] {
      var t := [x] + s;
      assert t[..|t| - 1] == [x] + s[..|s| - 1];
      SumCons(x, s[..|s| - 1], w);
    }
  }

  lemma {:induction false} SumAppend<T>(a: seq<T>, b: seq<T>, w: T -> real)
    ensures Sum(a + b, w) == Sum(a, w) + Sum(b, w)
  {
    if b == [] {
      assert a + b == a;
    } else {
      var t := a + b;
      assert t[..|t| - 1] == a + b[..|b| - 1];
      SumAppend(a, b[..|b| - 1], w);
    }
  }

  /** A sum of non-negative terms is non-negative. */
  lemma {:induction false} SumNonNegative<T>(s: seq<T>, w: T -> real)
    requires forall i :: 0 <= i < |s| ==> w(s[i]) >= 0.0
    ensures Sum(s, w) >= 0.0
  {
    if s != [] {
      SumNonNegative(s[..|s| - 1], w);
    }
  }

  /** `[...s].reverse()`. */
  function Reverse<T>(s: seq<T>): (r: seq<T>)
    ensures |r| == |s|
  {
    if s == [] then [] else Reverse(s[1..]) + [s[0]]
  }

  lemma {:induction false} ReverseAt<T>(s: seq<T>, i: nat)
    requires i < |s|
    ensures Reverse(s)[i] == s[|s| - 1 - i]
  {
    if i < |s| - 1 {
      ReverseAt(s[1..], i);
    }
  }

  lemma ReverseAppend<T>(a: seq<T>, b: seq<T>)
    ensures Reverse(a + b) == Reverse(b) + Reverse(a)
  {
    assert |Reverse(a + b)| == |Reverse(b) + Reverse(a)|;
    forall i | 0 <= i < |a| + |b|
      ensures Reverse(a + b)[i] == (Reverse(b) + Reverse(a))[i]
    {
      ReverseAt(a + b, i);
      if i < |b| {
        ReverseAt(b, i);
      } else {
        ReverseAt(a, i - |b|);
      }
    }
  }

  /** `s.filter(x => x !== c)`: every occurrence of `c` taken out. */
  function Without<T(==)>(s: seq<T>, c: T): (r: seq<T>)
    ensures c !in r
  {
    if s == [] then []
    else if s[0] == c then Without(s[1..], c)
    else [s[0]] + Without(s[1..], c)
  }

  lemma {:induction false} WithoutAppend<T>(a: seq<T>, b: seq<T>, c: T)
    ensures Without(a + b, c) == Without(a, c) + Without(b, c)
  {
    if a == [] {
      assert a + b == b;
    } else {
      assert (a + b)[1..] == a[1..] + b;
      WithoutAppend(a[1..], b, c);
    }
  }

  /** Nothing new appears. */
  lemma {:induction false} WithoutKeepsAbsent<T>(s: seq<T>, c: T, x: T)
    requires x !in s
    ensures x !in Without(s, c)
  {
    if s != [] {
      WithoutKeepsAbsent(s[1..], c, x);
    }
  }

  /** Taking out an element that does not occur changes nothing. */
  lemma {:induction false} WithoutAbsent<T>(s: seq<T>, c: T)
    requires c !in s
    ensures Without(s, c) == s
  {
    if s != [] {
      WithoutAbsent(s[1..], c);
    }
  }

  /** `s.filter((_, i) => i !== index)`, written as the filter walks: the
      element at position 0 is dropped when `index` is 0, and the rest is
      filtered with the index shifted by one. */
  function RemoveAt<T>(s: seq<T>, index: int): (r: seq<T>)
    ensures 0 <= index < |s| ==> r == s[..index] + s[index + 1..]
    ensures !(0 <= index < |s|) ==> r == s
  {
    if s == [] then []
    else (if index == 0 then [] else [s[0]]) + RemoveAt(s[1..], index - 1)
  }

  /** Taking one element out of a sequence takes it out of its multiset. */
  lemma MultisetTakeOut<T>(s: seq<T>, index: int)
    requires 0 <= index < |s|
    ensures multiset(s[..index] + s[index + 1..]) + multiset{s[index]} == multiset(s)
  {
    var before, after := s[..index], s[index + 1..];
    assert s == before + [s[index]] + after;
    assert multiset(s) == multiset(before) + multiset{s[index]} + multiset(after);
  }

  /** `refs.indexOf(x)`: the first position holding `x`, or -1. */
  function IndexOf<T(==)>(s: seq<T>, x: T): (i: int)
    ensures -1 <= i < |s|
    ensures i == -1 <==> x !in s
    ensures 0 <= i ==> s[i] == x && x !in s[..i]
  {
    if s == [] then -1
    else if s[0] == x then 0
    else var j := IndexOf(s[1..], x); if j == -1 then -1 else j + 1
  }
}

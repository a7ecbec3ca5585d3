/** Sums over sequences. */
module Sums {

  function SumBy<T>(f: T -> int, s: seq<T>): int {
    if s == [] then 0 else SumBy(f, s[..|s| - 1]) + f(s[|s| - 1])
  }

  lemma SumAppend<T>(f: T -> int, s: seq<T>, x: T)
    ensures SumBy(f, s + [x]) == SumBy(f, s) + f(x)
  {
    assert (s + [x])[..|s|] == s;
  }

  lemma {:induction false} SumConcat<T>(f: T -> int, s: seq<T>, t: seq<T>)
    ensures SumBy(f, s + t) == SumBy(f, s) + SumBy(f, t)
  {
    if t == [] {
      assert s + t == s;
    } else {
      assert (s + t)[..|s + t| - 1] == s + t[..|t| - 1];
      SumConcat(f, s, t[..|t| - 1]);
    }
  }

  lemma SumFirst<T>(f: T -> int, s: seq<T>)
    requires s != []
    ensures SumBy(f, s) == f(s[0]) + SumBy(f, s[1..])
  {
    assert s == [s[0]] + s[1..] && [s[0]] == [] + [s[0]];
    SumConcat(f, [s[0]], s[1..]);
    SumAppend(f, [], s[0]);
  }

  /** A sum does not depend on the order of its terms. */
  lemma {:induction false} SumPermutation<T>(f: T -> int, s: seq<T>, t: seq<T>)
    requires multiset(s) == multiset(t)
    ensures SumBy(f, s) == SumBy(f, t)
    decreases |s|
  {
    assert |s| == |multiset(s)| == |multiset(t)| == |t|;
    if s != [] {
      var x := s[|s| - 1];
      assert x in multiset(t);
      var i :| 0 <= i < |t| && t[i] == x;
      var rest := t[..i] + t[i + 1..];
      assert t == t[..i] + [x] + t[i + 1..];
      assert s == s[..|s| - 1] + [x];
      assert multiset(s[..|s| - 1]) == multiset(s) - multiset{x};
      assert multiset(rest) == multiset(t) - multiset{x};
      SumPermutation(f, s[..|s| - 1], rest);
      SumConcat(f, t[..i], t[i + 1..]);
      SumConcat(f, t[..i] + [x], t[i + 1..]);
      SumAppend(f, t[..i], x);
    }
  }

  lemma {:induction false} SumNonNegative<T>(f: T -> int, s: seq<T>)
    requires forall x :: x in s ==> f(x) >= 0
    ensures SumBy(f, s) >= 0
    ensures forall x :: x in s ==> f(x) <= SumBy(f, s)
  {
    if s != [] {
      assert s == s[..|s| - 1] + [s[|s| - 1]];
      SumNonNegative(f, s[..|s| - 1]);
    }
  }

  lemma {:induction false} SumEqual<T>(f: T -> int, g: T -> int, s: seq<T>)
    requires forall x :: x in s ==> f(x) == g(x)
    ensures SumBy(f, s) == SumBy(g, s)
  {
    if s != [] {
      assert s == s[..|s| - 1] + [s[|s| - 1]];
      SumEqual(f, g, s[..|s| - 1]);
    }
  }

  lemma {:induction false} SumZero<T>(f: T -> int, s: seq<T>)
    requires forall x :: x in s ==> f(x) == 0
    ensures SumBy(f, s) == 0
  {
    if s != [] {
      assert s == s[..|s| - 1] + [s[|s| - 1]];
      SumZero(f, s[..|s| - 1]);
    }
  }
}

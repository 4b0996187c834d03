/** Sums over sequences, and how changing one element changes a sum. */
module Sums {

  function Sum<T>(s: seq<T>, f: T -> int): int {
    if s == [] then 0 else Sum(s[..|s| - 1], f) + f(s[|s| - 1])
  }

  lemma {:induction false} SumUpdate<T>(s: seq<T>, i: nat, v: T, f: T -> int)
    requires i < |s|
    ensures Sum(s[i := v], f) == Sum(s, f) - f(s[i]) + f(v)
  {
    var n := |s| - 1;
    if i == n {
      assert s[i := v][..n] == s[..n];
    } else {
      SumUpdate(s[..n], i, v, f);
      assert s[i := v][..n] == s[..n][i := v];
    }
  }

  lemma {:induction false} SumBounds<T>(s: seq<T>, f: T -> int, hi: nat)
    requires forall x :: x in s ==> 0 <= f(x) <= hi
    ensures 0 <= Sum(s, f) <= hi * |s|
  {
    if s == [] {
    } else {
      var init := s[..|s| - 1];
      SumBounds(init, f, hi);
      assert hi * |s| == hi * |init| + hi;
    }
  }

  lemma {:induction false} SumSplit<T>(s: seq<T>, f: T -> int, i: nat)
    requires forall x :: x in s ==> 0 <= f(x)
    requires i < |s|
    ensures f(s[i]) <= Sum(s, f)
  {
    var init := s[..|s| - 1];
    if i == |s| - 1 {
      SumNonNegative(init, f);
    } else {
      SumSplit(init, f, i);
      assert init[i] == s[i];
    }
  }

  lemma {:induction false} SumNonNegative<T>(s: seq<T>, f: T -> int)
    requires forall x :: x in s ==> 0 <= f(x)
    ensures 0 <= Sum(s, f)
  {
    if s != [] {
      SumNonNegative(s[..|s| - 1], f);
    }
  }

  lemma {:induction false} SumZero<T>(s: seq<T>, f: T -> int)
    requires forall x :: x in s ==> f(x) == 0
    ensures Sum(s, f) == 0
  {
    if s != [] {
      SumZero(s[..|s| - 1], f);
    }
  }

  lemma SumSnoc<T>(s: seq<T>, x: T, f: T -> int)
    ensures Sum(s + [x], f) == Sum(s, f) + f(x)
  {
    assert (s + [x])[..|s|] == s;
  }
}

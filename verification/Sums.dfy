/** Sums over a list and occurrences in it, and why the order of the list does not matter. */
module Sums {

  function Sum<T>(s: seq<T>, f: T -> nat): nat {
    if s == [] then 0 else Sum(s[..|s| - 1], f) + f(s[|s| - 1])
  }

  lemma {:induction false} SumAppend<T>(a: seq<T>, b: seq<T>, f: T -> nat)
    ensures Sum(a + b, f) == Sum(a, f) + Sum(b, f)
    decreases |b|
  {
    if b == [] {
      assert a + b == a;
    } else {
      SumAppend(a, b[..|b| - 1], f);
      assert (a + b)[..|a + b| - 1] == a + b[..|b| - 1];
    }
  }

  lemma SumSingle<T>(x: T, f: T -> nat)
    ensures Sum([x], f) == f(x)
  {
    assert [x][..0] == [];
  }

  lemma SumMiddle<T>(front: seq<T>, x: T, back: seq<T>, f: T -> nat)
    ensures Sum(front + [x] + back, f) == Sum(front + back, f) + f(x)
  {
    hide Sum;
    SumAppend(front + [x], back, f);
    SumAppend(front, [x], f);
    SumAppend(front, back, f);
    SumSingle(x, f);
  }

  lemma SplitAt<T>(s: seq<T>, x: T) returns (front: seq<T>, back: seq<T>)
    requires x in multiset(s)
    ensures s == front + [x] + back && multiset(front + back) == multiset(s) - multiset{x}
  {
    var i :| 0 <= i < |s| && s[i] == x;
    front, back := s[..i], s[i + 1..];
    assert s == front + [x] + back;
  }

  /** Lists with the same elements, in any order, have the same sum. */
  lemma {:induction false} SumPermuted<T>(a: seq<T>, b: seq<T>, f: T -> nat)
    requires multiset(a) == multiset(b)
    ensures Sum(a, f) == Sum(b, f)
    decreases |a|
  {
    if a == [] {
      assert |multiset(a)| == |multiset(b)|;
    } else {
      var init, last := a[..|a| - 1], a[|a| - 1];
      assert a == init + [last];
      var front, back := SplitAt(b, last);
      assert multiset(init) == multiset(a) - multiset{last};
      SumPermuted(init, front + back, f);
      SumMiddle(front, last, back, f);
    }
  }

  // ---------------------------------------------------------------------------
  // Sums of reals
  // ---------------------------------------------------------------------------

  function RealSum<T>(s: seq<T>, f: T -> real): real {
    if s == [] then 0.0 else RealSum(s[..|s| - 1], f) + f(s[|s| - 1])
  }

  lemma {:induction false} RealSumAppend<T>(a: seq<T>, b: seq<T>, f: T -> real)
    ensures RealSum(a + b, f) == RealSum(a, f) + RealSum(b, f)
    decreases |b|
  {
    if b == [] {
      assert a + b == a;
    } else {
      RealSumAppend(a, b[..|b| - 1], f);
      assert (a + b)[..|a + b| - 1] == a + b[..|b| - 1];
    }
  }

  lemma RealSumMiddle<T>(front: seq<T>, x: T, back: seq<T>, f: T -> real)
    ensures RealSum(front + [x] + back, f) == RealSum(front + back, f) + f(x)
  {
    RealSumAppend(front + [x], back, f);
    RealSumAppend(front, back, f);
    assert (front + [x])[..|front|] == front;
  }

  lemma {:induction false} RealSumPermuted<T>(a: seq<T>, b: seq<T>, f: T -> real)
    requires multiset(a) == multiset(b)
    ensures RealSum(a, f) == RealSum(b, f)
    decreases |a|
  {
    if a == [] {
      assert |multiset(a)| == |multiset(b)|;
    } else {
      var init, last := a[..|a| - 1], a[|a| - 1];
      assert a == init + [last];
      var front, back := SplitAt(b, last);
      assert multiset(init) == multiset(a) - multiset{last};
      RealSumPermuted(init, front + back, f);
      RealSumMiddle(front, last, back, f);
    }
  }

  // ---------------------------------------------------------------------------
  // Occurrences
  // ---------------------------------------------------------------------------

  lemma TwiceInMultiset<T>(s: seq<T>, i: nat, j: nat)
    requires i < j < |s| && s[i] == s[j]
    ensures multiset(s)[s[i]] >= 2
  {
    assert s == s[..j] + s[j..];
    assert s[..j][i] == s[i] && s[j..][0] == s[i];
    assert s[i] in multiset(s[..j]) && s[i] in multiset(s[j..]);
  }

  lemma {:induction false} OnceInMultiset<T>(s: seq<T>, x: T)
    requires forall i, j :: 0 <= i < j < |s| ==> s[i] != s[j]
    ensures multiset(s)[x] <= 1
  {
    if s != [] {
      var init, last := s[..|s| - 1], s[|s| - 1];
      OnceInMultiset(init, x);
      assert s == init + [last];
      assert forall i :: 0 <= i < |init| ==> init[i] == s[i];
      assert last !in init;
    }
  }
}

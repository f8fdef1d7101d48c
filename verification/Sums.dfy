/** Sums over sequences, and their independence of order. */
module Sums {

  function Sum<T>(f: T -> nat, xs: seq<T>): nat {
    if xs == [] then 0 else Sum(f, xs[..|xs| - 1]) + f(xs[|xs| - 1])
  }

  /** Prefixes sum to less, by at least the first element left out. */
  lemma {:induction false} Monotone<T>(f: T -> nat, xs: seq<T>, j: nat, k: nat)
    requires j <= k <= |xs|
    ensures Sum(f, xs[..j]) <= Sum(f, xs[..k])
    ensures j < k ==> Sum(f, xs[..j]) + f(xs[j]) <= Sum(f, xs[..k])
  {
    if j < k {
      assert xs[..k][..k - 1] == xs[..k - 1];
      if j + 1 < k {
        Monotone(f, xs, j, k - 1);
      }
    }
  }

  lemma {:induction false} Without<T>(f: T -> nat, xs: seq<T>, k: nat)
    requires k < |xs|
    ensures Sum(f, xs) == Sum(f, xs[..k] + xs[k + 1..]) + f(xs[k])
  {
    var last := |xs| - 1;
    if k == last {
      assert xs[..k] + xs[k + 1..] == xs[..last];
    } else {
      var rest := xs[..k] + xs[k + 1..];
      assert rest[..|rest| - 1] == xs[..last][..k] + xs[..last][k + 1..];
      Without(f, xs[..last], k);
    }
  }

  lemma MultisetWithout<T>(s: seq<T>, k: nat)
    requires k < |s|
    ensures multiset(s[..k] + s[k + 1..]) == multiset(s) - multiset{s[k]}
  {
    assert s == s[..k] + [s[k]] + s[k + 1..];
  }

  /** Sequences with the same elements sum to the same. */
  lemma {:induction false} Reordered<T>(f: T -> nat, xs: seq<T>, ys: seq<T>)
    requires multiset(xs) == multiset(ys)
    ensures Sum(f, xs) == Sum(f, ys)
    decreases |xs|
  {
    if xs == [] {
      assert |ys| == |multiset(ys)| == |multiset(xs)| == 0;
    } else {
      var last := xs[|xs| - 1];
      assert last in multiset(xs);
      assert last in ys;
      var k :| 0 <= k < |ys| && ys[k] == last;
      var rest := ys[..k] + ys[k + 1..];
      MultisetWithout(ys, k);
      MultisetWithout(xs, |xs| - 1);
      assert xs[..|xs| - 1] + xs[|xs|..] == xs[..|xs| - 1];
      Reordered(f, xs[..|xs| - 1], rest);
      Without(f, ys, k);
    }
  }
}

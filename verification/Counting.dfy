// Sizes of finite sets.
module Counting {
  ghost function Image<A, B(!new)>(xs: set<A>, f: A -> B): set<B> {
    set x | x in xs :: f(x)
  }

  lemma {:induction false} ImageCount<A, B(!new)>(xs: set<A>, f: A -> B)
    requires forall x, y :: x in xs && y in xs && f(x) == f(y) ==> x == y
    ensures |Image(xs, f)| == |xs|
  {
    if xs == {} {
      assert Image(xs, f) == {};
    } else {
      var x :| x in xs;
      var rest := xs - {x};
      ImageCount(rest, f);
      assert Image(xs, f) == Image(rest, f) + {f(x)};
    }
  }

  lemma {:induction false} BoundedCount(xs: set<nat>, n: nat)
    requires forall x :: x in xs ==> x < n
    ensures |xs| <= n
  {
    if n == 0 {
      assert xs == {};
    } else {
      BoundedCount(xs - {n - 1}, n - 1);
      assert xs <= (xs - {n - 1}) + {n - 1};
    }
  }

  predicate IsBelow(s: nat, n: nat) {
    s < n
  }

  ghost function Below(n: nat): set<nat> {
    set s | 0 <= s < n && IsBelow(s, n)
  }

  lemma {:induction false} BelowCount(n: nat)
    ensures |Below(n)| == n
  {
    if n == 0 {
      assert Below(0) == {};
    } else {
      BelowCount(n - 1);
      assert forall s :: 0 <= s < n - 1 ==> IsBelow(s, n - 1) && IsBelow(s, n);
      assert Below(n) == Below(n - 1) + {n - 1} by {
        assert IsBelow(n - 1, n);
      }
    }
  }

  lemma SubsetCount<A>(a: set<A>, b: set<A>)
    requires a <= b
    ensures |a| <= |b|
  {
    assert b == a + (b - a);
  }

  ghost function Elements(xs: seq<nat>): set<nat> {
    set x | x in xs
  }

  lemma {:induction false} DistinctCount(xs: seq<nat>)
    requires forall i, j :: 0 <= i < j < |xs| ==> xs[i] != xs[j]
    ensures |Elements(xs)| == |xs|
  {
    if xs != [] {
      var n := |xs| - 1;
      DistinctCount(xs[..n]);
      assert xs == xs[..n] + [xs[n]];
      assert Elements(xs) == Elements(xs[..n]) + {xs[n]};
    }
  }
}

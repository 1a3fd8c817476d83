/** Any two majorities of one configuration meet. */
module Quorums {

  ghost function Nodes(n: nat): (all: set<nat>)
    ensures |all| == n
    ensures forall i :: i in all <==> 0 <= i < n
  {
    if n == 0 then {} else Nodes(n - 1) + {n - 1}
  }

  lemma MajoritiesMeet<T>(a: set<T>, b: set<T>, all: set<T>)
    requires a <= all && b <= all && 2 * |a| > |all| && 2 * |b| > |all|
    ensures a * b != {}
  {
    assert |a + b| == |a| + |b| - |a * b|;
    Subset(a + b, all);
  }

  lemma Subset<T>(a: set<T>, b: set<T>)
    requires a <= b
    ensures |a| <= |b|
  {
    assert b == a + (b - a);
  }

  /** A subset of each smaller size. */
  lemma {:induction false} Choose<T>(all: set<T>, n: nat) returns (some: set<T>)
    requires n <= |all|
    ensures some <= all && |some| == n
  {
    some := all;
    while |some| > n
      invariant some <= all && n <= |some|
      decreases |some|
    {
      var x :| x in some;
      some := some - {x};
    }
  }

  /** Sets of two given sizes always meet exactly if they do not fit side by side. */
  lemma {:induction false} MeetIff<T(!new)>(all: set<T>, a: nat, b: nat)
    requires a <= |all| && b <= |all|
    ensures (forall x: set<T>, y: set<T> :: x <= all && y <= all && |x| == a && |y| == b ==> x * y != {}) <==> a + b > |all|
  {
    if a + b > |all| {
      forall x: set<T>, y: set<T> | x <= all && y <= all && |x| == a && |y| == b
        ensures x * y != {}
      {
        assert |x + y| == |x| + |y| - |x * y|;
        Subset(x + y, all);
      }
    } else {
      var x := Choose(all, a);
      assert |all - x| == |all| - a;
      var y := Choose(all - x, b);
      assert x * y == {};
    }
  }
}

/** Picking elements of a sequence by position. */
module Sequences {

  /** The positions below n that are flagged, in order. */
  ghost function Positions(flags: seq<bool>, n: nat): seq<nat>
    requires n <= |flags|
  {
    if n == 0 then []
    else Positions(flags, n - 1) + if flags[n - 1] then [n - 1] else []
  }

  ghost predicate Increasing(p: seq<nat>) {
    forall i, j :: 0 <= i < j < |p| ==> p[i] < p[j]
  }

  /** p lists exactly the flagged positions, in increasing order. */
  ghost predicate Picks(p: seq<nat>, flags: seq<bool>) {
    Increasing(p) && forall i :: i in p <==> 0 <= i < |flags| && flags[i]
  }

  /** The positions are strictly increasing, and are exactly the flagged ones. */
  lemma {:induction false} PositionsMean(flags: seq<bool>, n: nat)
    requires n <= |flags|
    ensures Increasing(Positions(flags, n))
    ensures forall i :: i in Positions(flags, n) <==> 0 <= i < n && flags[i]
  {
    if n > 0 {
      PositionsMean(flags, n - 1);
      var before := Positions(flags, n - 1);
      assert forall k :: 0 <= k < |before| ==> before[k] in before;
    }
  }

  lemma PositionsPrefix(a: seq<bool>, b: seq<bool>, n: nat)
    requires n <= |a| && n <= |b| && a[..n] == b[..n]
    ensures Positions(a, n) == Positions(b, n)
  {
    if n > 0 {
      assert a[..n - 1] == a[..n][..n - 1] == b[..n][..n - 1] == b[..n - 1];
      assert a[n - 1] == a[..n][n - 1] == b[..n][n - 1] == b[n - 1];
      PositionsPrefix(a, b, n - 1);
    }
  }

  lemma PositionsSkip(flags: seq<bool>)
    ensures Positions(flags + [false], |flags| + 1) == Positions(flags, |flags|)
  {
    PositionsPrefix(flags, flags + [false], |flags|);
  }

  /** One more element extends the picked positions by its own, if it is flagged. */
  lemma PicksMore(p: seq<nat>, flags: seq<bool>, flag: bool)
    requires Picks(p, flags)
    ensures Picks(if flag then p + [|flags|] else p, flags + [flag])
  {
    assert forall k :: 0 <= k < |p| ==> p[k] in p;
    var n := |flags|;
    var all := flags + [flag];
    assert forall i :: 0 <= i < n ==> all[i] == flags[i];
    if flag {
      assert (p + [n])[|p|] == n;
    }
  }

  /** ys are the elements of xs at the positions p. */
  ghost predicate Selects<T>(ys: seq<T>, xs: seq<T>, p: seq<nat>) {
    |ys| == |p| && forall k :: 0 <= k < |p| ==> p[k] < |xs| && ys[k] == xs[p[k]]
  }

  lemma SelectsMore<T>(ys: seq<T>, xs: seq<T>, p: seq<nat>, x: T)
    requires Selects(ys, xs, p)
    ensures Selects(ys, xs + [x], p) && Selects(ys + [x], xs + [x], p + [|xs|])
  {
  }

  /** ys are exactly the flagged elements of xs, in order; p tells from where. */
  ghost predicate Extracts<T>(ys: seq<T>, xs: seq<T>, flags: seq<bool>, p: seq<nat>) {
    |flags| == |xs| && Picks(p, flags) && Selects(ys, xs, p)
  }

  /** One more element x, giving ys', xs' and flags'. */
  lemma ExtractsMore<T>(
      ys: seq<T>, xs: seq<T>, flags: seq<bool>, p: seq<nat>, x: T, flag: bool, ys': seq<T>, xs': seq<T>, flags': seq<bool>)
    returns (q: seq<nat>)
    requires Extracts(ys, xs, flags, p)
    requires ys' == (if flag then ys + [x] else ys) && xs' == xs + [x] && flags' == flags + [flag]
    ensures Extracts(ys', xs', flags', q)
  {
    q := if flag then p + [|xs|] else p;
    PicksMore(p, flags, flag);
    SelectsMore(ys, xs, p, x);
  }

  lemma ExtractsNothing<T>() returns (p: seq<nat>)
    ensures Extracts<T>([], [], [], p)
  {
    p := [];
  }
}

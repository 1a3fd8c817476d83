/**
 * Push iterators over replies (IgnoreErrors and Filter of responses.go, MapResponse and the
 * interceptor chain of client_interceptor.go). An iterator calls a yield function for each reply
 * and returns as soon as it answers false; wrapping an iterator wraps the yield function.
 */
module Iterators {
  import opened Requests
  import opened Responses
  import opened Sequences

  /** Replies as they arrive, or an iterator wrapped in a stage that passes on, changes or drops each reply. */
  datatype Iter<!T> =
    | Source(xs: seq<NodeResponse<T>>)
    | Stage(of: Iter<T>, emit: NodeResponse<T> -> Option<NodeResponse<T>>)

  function IgnoreErrors<T>(it: Iter<T>): Iter<T> {
    Stage(it, (r: NodeResponse<T>) => if r.err.NoError? then Some(r) else None)
  }

  function Filter<T>(it: Iter<T>, keep: NodeResponse<T> -> bool): Iter<T> {
    Stage(it, (r: NodeResponse<T>) => if keep(r) then Some(r) else None)
  }

  /** Errors, and replies of nodes outside the configuration, pass unchanged. */
  function MapResponse<T>(it: Iter<T>, config: set<nat>, fn: (T, nat) -> T): Iter<T> {
    Stage(it, (r: NodeResponse<T>) => Some(if r.err.NoError? && r.nodeID in config then r.(value := fn(r.value, r.nodeID)) else r))
  }

  // ---- what the code does ----------------------------------------------------------------

  /** The consumer: from its state and a reply to its new state and whether it wants more. */
  type Consumer<!S, !T> = (S, NodeResponse<T>) -> (S, bool)

  datatype Pushed<S> = Pushed(state: S, pulled: nat, stopped: bool)

  function Feed<S, T>(xs: seq<NodeResponse<T>>, consume: Consumer<S, T>, s: S): Pushed<S> {
    if xs == [] then Pushed(s, 0, false)
    else
      var (t, more) := consume(s, xs[0]);
      if !more then Pushed(t, 1, true)
      else
        var rest := Feed(xs[1..], consume, t);
        rest.(pulled := rest.pulled + 1)
  }

  function Through<S, T>(emit: NodeResponse<T> -> Option<NodeResponse<T>>, consume: Consumer<S, T>): Consumer<S, T> {
    (s, r) => match emit(r) case None => (s, true) case Some(q) => consume(s, q)
  }

  /** Ranging over an iterator: each stage hands its own yield function to the iterator it wraps. */
  function Push<S, T>(it: Iter<T>, consume: Consumer<S, T>, s: S): Pushed<S> {
    match it
    case Source(xs) => Feed(xs, consume, s)
    case Stage(of, emit) => Push(of, Through(emit, consume), s)
  }

  // ---- what it means ---------------------------------------------------------------------

  ghost function FilterMap<T>(xs: seq<NodeResponse<T>>, emit: NodeResponse<T> -> Option<NodeResponse<T>>): seq<NodeResponse<T>> {
    if xs == [] then []
    else (match emit(xs[0]) case None => [] case Some(q) => [q]) + FilterMap(xs[1..], emit)
  }

  ghost function List<T>(it: Iter<T>): seq<NodeResponse<T>> {
    match it
    case Source(xs) => xs
    case Stage(of, emit) => FilterMap(List(of), emit)
  }

  ghost function Length<T>(it: Iter<T>): nat {
    match it
    case Source(xs) => |xs|
    case Stage(of, _) => Length(of)
  }

  /** The same stages over the first n replies only. */
  ghost function Truncate<T>(it: Iter<T>, n: nat): Iter<T>
    requires n <= Length(it)
  {
    match it
    case Source(xs) => Source(xs[..n])
    case Stage(of, emit) => Stage(Truncate(of, n), emit)
  }

  /** p pulls just enough of the replies for the consumer to take what q takes of the list. */
  ghost predicate Exact<S, T>(xs: seq<NodeResponse<T>>, ys: seq<NodeResponse<T>>,
                              emit: NodeResponse<T> -> Option<NodeResponse<T>>, p: Pushed<S>, q: Pushed<S>) {
    && p.state == q.state && p.stopped == q.stopped
    && p.pulled <= |xs| && q.pulled <= |ys|
    && FilterMap(xs[..p.pulled], emit) == ys[..q.pulled]
    && (p.stopped ==> p.pulled > 0 && q.pulled > 0 && FilterMap(xs[..p.pulled - 1], emit) == ys[..q.pulled - 1])
    && (!p.stopped ==> p.pulled == |xs| && q.pulled == |ys|)
  }

  lemma {:induction false} Fusion<S, T>(
      xs: seq<NodeResponse<T>>, emit: NodeResponse<T> -> Option<NodeResponse<T>>, consume: Consumer<S, T>, s: S)
    ensures Exact(xs, FilterMap(xs, emit), emit, Feed(xs, Through(emit, consume), s), Feed(FilterMap(xs, emit), consume, s))
    decreases |xs|
  {
    if xs != [] {
      var rest, ys := xs[1..], FilterMap(xs, emit);
      var (t, more) := Through(emit, consume)(s, xs[0]);
      Fusion(rest, emit, consume, t);
      var p := Feed(xs, Through(emit, consume), s);
      PrefixOfRest(xs, p.pulled);
      match emit(xs[0])
      case None => assert ys == FilterMap(rest, emit);
      case Some(q) =>
        assert ys[0] == q && ys[1..] == FilterMap(rest, emit);
        assert consume(s, q) == (t, more);
    }
  }

  lemma PrefixOfRest<T>(xs: seq<T>, n: nat)
    requires 0 < n <= |xs|
    ensures xs[..n][0] == xs[0] && xs[..n][1..] == xs[1..][..n - 1]
    ensures n > 1 ==> xs[..n - 1][0] == xs[0] && xs[..n - 1][1..] == xs[1..][..n - 2]
  {
  }

  /**
   * Any nesting of stages feeding any consumer behaves like the consumer on the list-level result:
   * same final state, the consumer sees exactly a prefix of the list, and when it stops, the
   * reply pulled last is the one that made it stop.
   */
  lemma {:induction false} PushRefinesList<S, T>(it: Iter<T>, consume: Consumer<S, T>, s: S)
    ensures var p, q := Push(it, consume, s), Feed(List(it), consume, s);
            && p.state == q.state && p.stopped == q.stopped
            && p.pulled <= Length(it) && q.pulled <= |List(it)|
            && List(Truncate(it, p.pulled)) == List(it)[..q.pulled]
            && (p.stopped ==> p.pulled > 0 && q.pulled > 0
                              && List(Truncate(it, p.pulled - 1)) == List(it)[..q.pulled - 1])
            && (!p.stopped ==> p.pulled == Length(it) && q.pulled == |List(it)|)
    decreases it
  {
    match it
    case Source(xs) => FeedBounds(xs, consume, s);
    case Stage(of, emit) =>
      PushRefinesList(of, Through(emit, consume), s);
      Fusion(List(of), emit, consume, s);
  }

  lemma {:induction false} FeedBounds<S, T>(xs: seq<NodeResponse<T>>, consume: Consumer<S, T>, s: S)
    ensures var q := Feed(xs, consume, s);
            q.pulled <= |xs| && (q.stopped ==> q.pulled > 0) && (!q.stopped ==> q.pulled == |xs|)
    decreases |xs|
  {
    if xs != [] {
      FeedBounds(xs[1..], consume, consume(s, xs[0]).0);
    }
  }

  /** A consumer that keeps what it sees and stops after n replies. */
  function Recorder<T>(n: nat): Consumer<seq<NodeResponse<T>>, T> {
    (s: seq<NodeResponse<T>>, r: NodeResponse<T>) => (s + [r], |s| + 1 < n)
  }

  lemma {:induction false} FeedRecords<T>(xs: seq<NodeResponse<T>>, n: nat, s: seq<NodeResponse<T>>)
    requires |s| < n
    ensures Feed(xs, Recorder(n), s).state == s + xs[..if |xs| < n - |s| then |xs| else n - |s|]
    decreases |xs|
  {
    if xs != [] {
      var t := s + [xs[0]];
      if |t| < n {
        FeedRecords(xs[1..], n, t);
        var k := if |xs[1..]| < n - |t| then |xs[1..]| else n - |t|;
        assert t + xs[1..][..k] == s + xs[..k + 1];
      } else {
        assert xs[..1] == [xs[0]];
      }
    }
  }

  /** What a consumer that stops after n replies has seen: the first n of the list-level result, in order. */
  lemma {:induction false} SeesPrefix<T>(it: Iter<T>, n: nat)
    requires n > 0
    ensures Push(it, Recorder(n), []).state == List(it)[..if |List(it)| < n then |List(it)| else n]
  {
    PushRefinesList(it, Recorder(n), []);
    FeedRecords(List(it), n, []);
  }

  // ---- what the stages mean --------------------------------------------------------------

  lemma {:induction false} FilterMapLast<T>(xs: seq<NodeResponse<T>>, emit: NodeResponse<T> -> Option<NodeResponse<T>>, r: NodeResponse<T>)
    ensures FilterMap(xs + [r], emit) == FilterMap(xs, emit) + match emit(r) case None => [] case Some(q) => [q]
    decreases |xs|
  {
    if xs == [] {
      assert [] + [r] == [r];
    } else {
      assert (xs + [r])[1..] == xs[1..] + [r];
      FilterMapLast(xs[1..], emit, r);
    }
  }

  /** Which replies pass. */
  ghost function Passing<T>(xs: seq<NodeResponse<T>>, keep: NodeResponse<T> -> bool): seq<bool> {
    seq(|xs|, i requires 0 <= i < |xs| => keep(xs[i]))
  }

  lemma PassingMore<T>(xs: seq<NodeResponse<T>>, keep: NodeResponse<T> -> bool, r: NodeResponse<T>)
    ensures Passing(xs + [r], keep) == Passing(xs, keep) + [keep(r)]
  {
  }

  /** A stage that only drops replies passes on exactly those that are to be kept, in their order. */
  lemma {:induction false} KeptInOrder<T>(
      xs: seq<NodeResponse<T>>, emit: NodeResponse<T> -> Option<NodeResponse<T>>, keep: NodeResponse<T> -> bool)
    returns (p: seq<nat>)
    requires forall x :: emit(x) == if keep(x) then Some(x) else None
    ensures Extracts(FilterMap(xs, emit), xs, Passing(xs, keep), p)
    decreases |xs|
  {
    if xs == [] {
      p := ExtractsNothing<NodeResponse<T>>();
    } else {
      var n := |xs| - 1;
      var before, last := xs[..n], xs[n];
      var q := KeptInOrder(before, emit, keep);
      assert before + [last] == xs;
      PassingMore(before, keep, last);
      FilterMapLast(before, emit, last);
      p := ExtractsMore(FilterMap(before, emit), before, Passing(before, keep), q, last, keep(last),
                        FilterMap(xs, emit), xs, Passing(xs, keep));
    }
  }

  /** A stage that drops nothing changes each reply in its place. */
  lemma {:induction false} Mapped<T>(xs: seq<NodeResponse<T>>, emit: NodeResponse<T> -> Option<NodeResponse<T>>)
    requires forall x :: emit(x).Some?
    ensures |FilterMap(xs, emit)| == |xs|
    ensures forall i :: 0 <= i < |xs| ==> Some(FilterMap(xs, emit)[i]) == emit(xs[i])
    decreases |xs|
  {
    if xs != [] {
      Mapped(xs[1..], emit);
    }
  }

  /** IgnoreErrors passes exactly the successful replies, in their order. */
  lemma {:induction false} IgnoreErrorsMeans<T>(it: Iter<T>) returns (p: seq<nat>)
    ensures Extracts(List(IgnoreErrors(it)), List(it), Passing(List(it), (r: NodeResponse<T>) => r.err.NoError?), p)
  {
    p := KeptInOrder(List(it), IgnoreErrors(it).emit, (r: NodeResponse<T>) => r.err.NoError?);
  }

  /** Filter passes exactly the replies that are to be kept, in their order. */
  lemma {:induction false} FilterMeans<T>(it: Iter<T>, keep: NodeResponse<T> -> bool) returns (p: seq<nat>)
    ensures Extracts(List(Filter(it, keep)), List(it), Passing(List(it), keep), p)
  {
    p := KeptInOrder(List(it), Filter(it, keep).emit, keep);
  }

  /** MapResponse changes the values of successful replies of the configuration's nodes, and nothing else. */
  lemma {:induction false} MapMeans<T>(it: Iter<T>, config: set<nat>, fn: (T, nat) -> T, i: nat)
    requires i < |List(it)|
    ensures |List(MapResponse(it, config, fn))| == |List(it)|
    ensures var r, q := List(it)[i], List(MapResponse(it, config, fn))[i];
            && q.nodeID == r.nodeID && q.err == r.err
            && q.value == if r.err.NoError? && r.nodeID in config then fn(r.value, r.nodeID) else r.value
  {
    Mapped(List(it), MapResponse(it, config, fn).emit);
  }
}

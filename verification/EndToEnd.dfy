/** Order from the client's Enqueue to the server's handlers, over one stream instance. */
module EndToEnd {
  import opened Channel
  import opened ChannelOrder
  import opened Dispatch

  /** The messages a stream instance carries: its successful sends, in order. */
  ghost function Arrivals(wire: seq<WireEvent>, stream: nat): seq<WireEvent> {
    if wire == [] then []
    else
      var last := wire[|wire| - 1];
      Arrivals(wire[..|wire| - 1], stream) + if last.stream == stream && last.ok then [last] else []
  }

  ghost predicate Ascending(w: seq<WireEvent>) {
    forall i, j :: 0 <= i < j < |w| ==> w[i].index < w[j].index
  }

  lemma {:induction false} ArrivalsAscend(wire: seq<WireEvent>, stream: nat)
    requires Ascending(wire)
    ensures Ascending(Arrivals(wire, stream))
    ensures forall x :: x in Arrivals(wire, stream) <==> x in wire && x.stream == stream && x.ok
  {
    if wire != [] {
      var n := |wire| - 1;
      ArrivalsAscend(wire[..n], stream);
      assert wire == wire[..n] + [wire[n]];
      assert forall k :: 0 <= k < |Arrivals(wire[..n], stream)| ==> Arrivals(wire[..n], stream)[k] in wire[..n];
    }
  }

  /** The server's stream delivers a prefix of what was sent on the instance. */
  ghost predicate Carries(wire: seq<WireEvent>, stream: nat, inbox: seq<Envelope<WireEvent>>) {
    && |inbox| <= |Arrivals(wire, stream)|
    && forall i :: 0 <= i < |inbox| ==> inbox[i].body == Arrivals(wire, stream)[i]
  }

  lemma {:induction false} StartsFollowSends(
      s: State, stream: nat, inbox: seq<Envelope<WireEvent>>, steps: seq<LoopStep>, n: NodeStream<WireEvent>, a: nat, b: nat)
    requires Sound(s) && Carries(s.log.wire, stream, inbox)
    requires LoopRun(Opened(inbox), steps, n) && a < b < |n.core.started|
    ensures n.core.started[a] < n.core.started[b] < |inbox|
    ensures var x, y := inbox[n.core.started[a]].body, inbox[n.core.started[b]].body;
            && x.index < y.index < |s.log.accepted|
            && s.log.accepted[x.index] == x.req && s.log.accepted[y.index] == y.req
            && x.stream == y.stream == stream
  {
    FifoUntilRelease(inbox, steps, n);
    ArrivalsAscend(s.log.wire, stream);
    var i, j := n.core.started[a], n.core.started[b];
    assert j in n.core.started;
    var arrived := Arrivals(s.log.wire, stream);
    assert arrived[i] in arrived && arrived[j] in arrived;
  }

  /** Handlers on the server begin in the order in which the client's send queue accepted the requests. */
  lemma {:induction false} HandlersFollowAcceptance(
      c: Params, s: State, stream: nat, inbox: seq<Envelope<WireEvent>>, steps: seq<LoopStep>,
      n: NodeStream<WireEvent>, a: nat, b: nat)
    requires Reachable(c, s) && Carries(s.log.wire, stream, inbox)
    requires LoopRun(Opened(inbox), steps, n) && a < b < |n.core.started|
    ensures n.core.started[a] < n.core.started[b] < |inbox|
    ensures var x, y := inbox[n.core.started[a]].body, inbox[n.core.started[b]].body;
            && x.index < y.index < |s.log.accepted|
            && s.log.accepted[x.index] == x.req && s.log.accepted[y.index] == y.req
            && x.stream == y.stream == stream
  {
    SoundReachable(c, s);
    StartsFollowSends(s, stream, inbox, steps, n, a, b);
  }
}

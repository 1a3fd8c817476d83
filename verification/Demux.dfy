/**
 * Requests and responses of both directions share one bidirectional stream; the high bit of the
 * message ID tells them apart (internal/stream/message_id.go, internal/stream/router.go).
 */
module Demux {

  const HALF: nat := 0x8000_0000_0000_0000

  type Uint64 = n: nat | n < 2 * HALF

  /** ServerSequenceNumber: n | 2^63, written as arithmetic. */
  function ServerSequenceNumber(n: Uint64): Uint64 {
    if n < HALF then n + HALF else n
  }

  /** isServerSequenceNumber: n & 2^63 != 0, written as arithmetic. */
  predicate IsServerSequenceNumber(n: Uint64) {
    n >= HALF
  }

  /** The arithmetic forms are what the bit operations do. */
  lemma BitForms(n: bv64)
    ensures n < 0x8000_0000_0000_0000 ==> n | 0x8000_0000_0000_0000 == n + 0x8000_0000_0000_0000
    ensures n >= 0x8000_0000_0000_0000 ==> n | 0x8000_0000_0000_0000 == n
    ensures n & 0x8000_0000_0000_0000 != 0 <==> n >= 0x8000_0000_0000_0000
  {
  }

  /** An atomic counter: it wraps around. */
  function Increment(n: Uint64): Uint64 {
    if n + 1 == 2 * HALF then 0 else n + 1
  }

  datatype Side = Client | Server

  function Other(x: Side): Side {
    if x == Client then Server else Client
  }

  /** A call, named by its initiator and the value its initiator's counter had. */
  datatype Call = Call(side: Side, number: Uint64)

  /** getMsgID of the outbound manager and of the inbound manager. */
  function MsgID(c: Call): Uint64 {
    if c.side == Client then c.number else ServerSequenceNumber(c.number)
  }

  /** What a message really is is not on the wire: routing reads only `id`. */
  datatype Message = Message(id: Uint64, response: bool, call: Call)

  /** The counter and router of one side, and what its router has done with the messages it received. */
  datatype Endpoint = Endpoint(
    next: Uint64,
    pending: map<Uint64, Call>,
    handled: set<Message>,                // dispatched to a handler
    delivered: set<(Message, Call)>)      // delivered to a pending call

  datatype State = State(client: Endpoint, server: Endpoint, toServer: set<Message>, toClient: set<Message>) {

    function At(x: Side): Endpoint {
      if x == Client then client else server
    }

    function To(x: Side): set<Message> {
      if x == Client then toClient else toServer
    }

    function With(x: Side, p: Endpoint): State {
      if x == Client then this.(client := p) else this.(server := p)
    }

    function Sent(x: Side, m: Message): State {
      if x == Client then this.(toClient := toClient + {m}) else this.(toServer := toServer + {m})
    }
  }

  const Fresh := Endpoint(0, map[], {}, {})
  const Init := State(Fresh, Fresh, {}, {})

  /** Whether side x takes a message for a request: RouteMessage and RouteInboundMessage. */
  predicate TakesForRequest(x: Side, id: Uint64) {
    if x == Client then IsServerSequenceNumber(id) else !IsServerSequenceNumber(id)
  }

  datatype Step =
    | Place(side: Side)                      // register a call and send its request
    | Resend(side: Side, m: Message)         // register and send it again after a requeue
    | Forget(side: Side, id: Uint64)           // the entry leaves the router
    | Receive(at: Side, m: Message)
    | Reply(at: Side, m: Message)          // a handler responds, any number of times

  predicate Enabled(s: State, e: Step) {
    match e
    case Place(_) => true
    case Resend(x, m) => m in s.To(Other(x)) && !m.response
    case Forget(_, _) => true
    case Receive(x, m) => m in s.To(x)
    case Reply(x, m) => m in s.At(x).handled
  }

  /** NewResponseMessage: a response carries the ID of its request. */
  function ResponseTo(m: Message): Message {
    Message(m.id, true, m.call)
  }

  function Routed(p: Endpoint, x: Side, m: Message): Endpoint {
    if TakesForRequest(x, m.id) then p.(handled := p.handled + {m})
    else if m.id in p.pending then p.(delivered := p.delivered + {(m, p.pending[m.id])})
    else p
  }

  function Apply(s: State, e: Step): State
    requires Enabled(s, e)
  {
    match e
    case Place(x) =>
      var p := s.At(x);
      var call := Call(x, Increment(p.next));
      s.With(x, p.(next := Increment(p.next), pending := p.pending[MsgID(call) := call]))
       .Sent(Other(x), Message(MsgID(call), false, call))
    case Resend(x, m) => s.With(x, s.At(x).(pending := s.At(x).pending[m.id := m.call]))
    case Forget(x, id) => s.With(x, s.At(x).(pending := s.At(x).pending - {id}))
    case Receive(x, m) => s.With(x, Routed(s.At(x), x, m))
    case Reply(x, m) => s.Sent(Other(x), ResponseTo(m))
  }

  /** Neither counter has reached the high bit. */
  predicate Bounded(s: State) {
    s.client.next < HALF && s.server.next < HALF
  }

  ghost predicate Genuine(m: Message) {
    m.id == MsgID(m.call) && m.call.number < HALF
  }

  /** What may travel towards x: requests of the other side, and responses to x's own calls. */
  ghost predicate Proper(x: Side, m: Message) {
    Genuine(m) && m.call.side == if m.response then x else Other(x)
  }

  ghost predicate EndpointOk(x: Side, p: Endpoint) {
    && (forall id :: id in p.pending ==> p.pending[id].side == x && p.pending[id].number < HALF && MsgID(p.pending[id]) == id)
    && (forall m :: m in p.handled ==> !m.response && Proper(x, m))
    && (forall d :: d in p.delivered ==> d.0.response && Proper(x, d.0) && d.0.call == d.1)
  }

  ghost predicate Inv(s: State) {
    && EndpointOk(Client, s.client) && EndpointOk(Server, s.server)
    && (forall m :: m in s.toServer ==> Proper(Server, m))
    && (forall m :: m in s.toClient ==> Proper(Client, m))
  }

  lemma RoutedOk(p: Endpoint, x: Side, m: Message)
    requires EndpointOk(x, p) && Proper(x, m)
    ensures EndpointOk(x, Routed(p, x, m))
  {
  }

  lemma PlaceOk(s: State, x: Side)
    requires Inv(s) && Bounded(Apply(s, Place(x)))
    ensures Inv(Apply(s, Place(x)))
  {
    var call := Call(x, Increment(s.At(x).next));
    assert call.number < HALF;
    assert Proper(Other(x), Message(MsgID(call), false, call));
  }

  lemma StepOk(s: State, e: Step)
    requires Inv(s) && Enabled(s, e) && Bounded(Apply(s, e))
    ensures Inv(Apply(s, e))
  {
    match e
    case Place(x) => PlaceOk(s, x);
    case Resend(x, m) => assert Proper(Other(x), m);
    case Receive(x, m) => RoutedOk(s.At(x), x, m);
    case Reply(x, m) => assert Proper(x, m) && Proper(Other(x), ResponseTo(m));
    case _ =>
  }

  /** Every state along the steps is bounded. */
  ghost predicate BoundedRun(s: State, steps: seq<Step>, t: State)
    decreases |steps|
  {
    && Bounded(s)
    && if steps == [] then s == t
       else Enabled(s, steps[0]) && BoundedRun(Apply(s, steps[0]), steps[1..], t)
  }

  lemma {:induction false} RunOk(s: State, steps: seq<Step>, t: State)
    requires Inv(s) && BoundedRun(s, steps, t)
    ensures Inv(t)
    decreases |steps|
  {
    if steps != [] {
      StepOk(s, steps[0]);
      RunOk(Apply(s, steps[0]), steps[1..], t);
    }
  }

  /**
   * While both counters stay below 2^63, in every run: routers hold only IDs of their own half,
   * handlers see only requests of the peer, and a pending call is only ever given a response to
   * that very call.
   */
  lemma {:induction false} NeverMisrouted(steps: seq<Step>, s: State, x: Side)
    requires BoundedRun(Init, steps, s)
    ensures forall id :: id in s.At(x).pending ==> (IsServerSequenceNumber(id) <==> x == Server)
    ensures forall m :: m in s.At(x).handled ==> !m.response && m.call.side == Other(x)
    ensures forall d :: d in s.At(x).delivered ==> d.0.response && d.0.call == d.1 && d.1.side == x
  {
    RunOk(Init, steps, s);
  }

  // ---- every message reaches its place ---------------------------------------------------

  /** A received request is dispatched, and a received response is delivered to its call while that is pending. */
  lemma ReceiveMeans(s: State, x: Side, m: Message)
    requires Inv(s) && m in s.To(x)
    ensures var p, q := s.At(x), Apply(s, Receive(x, m)).At(x);
            && q.handled == (if m.response then p.handled else p.handled + {m})
            && q.delivered == (if m.response && MsgID(m.call) in p.pending then p.delivered + {(m, m.call)} else p.delivered)
  {
    assert Proper(x, m);
  }

  ghost predicate Received(steps: seq<Step>, x: Side, m: Message) {
    exists k :: 0 <= k < |steps| && steps[k] == Receive(x, m)
  }

  lemma OthersKeep(s: State, e: Step, x: Side)
    requires Enabled(s, e) && !(e.Receive? && e.at == x)
    ensures Apply(s, e).At(x).handled == s.At(x).handled && Apply(s, e).At(x).delivered == s.At(x).delivered
  {
  }

  lemma {:induction false} HandledRun(s: State, steps: seq<Step>, t: State, x: Side, m: Message)
    requires Inv(s) && BoundedRun(s, steps, t)
    ensures m in t.At(x).handled <==> m in s.At(x).handled || (!m.response && Received(steps, x, m))
    ensures forall d :: d in s.At(x).delivered ==> d in t.At(x).delivered
    ensures forall d :: d in t.At(x).delivered ==> d in s.At(x).delivered || Received(steps, x, d.0)
    decreases |steps|
  {
    if steps != [] {
      var e, rest, u := steps[0], steps[1..], Apply(s, steps[0]);
      StepOk(s, e);
      HandledRun(u, rest, t, x, m);
      if e.Receive? && e.at == x {
        ReceiveMeans(s, x, e.m);
      } else {
        OthersKeep(s, e, x);
      }
      forall q
        ensures Received(steps, x, q) <==> e == Receive(x, q) || Received(rest, x, q)
      {
        ReceivedFirst(steps, x, q);
      }
    }
  }

  lemma ReceivedFirst(steps: seq<Step>, x: Side, m: Message)
    requires steps != []
    ensures Received(steps, x, m) <==> steps[0] == Receive(x, m) || Received(steps[1..], x, m)
  {
    if Received(steps[1..], x, m) {
      var k :| 0 <= k < |steps[1..]| && steps[1..][k] == Receive(x, m);
      assert steps[k + 1] == Receive(x, m);
    }
    if Received(steps, x, m) {
      var k :| 0 <= k < |steps| && steps[k] == Receive(x, m);
      assert k > 0 ==> steps[1..][k - 1] == Receive(x, m);
    }
  }

  /** In every bounded run the messages dispatched to handlers are exactly the requests received. */
  lemma {:induction false} HandledAreReceived(steps: seq<Step>, s: State, x: Side, m: Message)
    requires BoundedRun(Init, steps, s)
    ensures m in s.At(x).handled <==> !m.response && Received(steps, x, m)
  {
    HandledRun(Init, steps, s, x, m);
  }

  /** A response that is received while its call is pending stays delivered to that call, whatever happens next. */
  lemma {:induction false} ResponseDelivered(a: seq<Step>, s: State, x: Side, m: Message, b: seq<Step>, t: State)
    requires BoundedRun(Init, a, s) && m in s.To(x) && m.response && MsgID(m.call) in s.At(x).pending
    requires BoundedRun(Apply(s, Receive(x, m)), b, t)
    ensures (m, m.call) in t.At(x).delivered
  {
    RunOk(Init, a, s);
    ReceiveMeans(s, x, m);
    StepOk(s, Receive(x, m));
    HandledRun(Apply(s, Receive(x, m)), b, t, x, m);
  }

  /** From every proper state, a new call can make the round trip: its request is handled, and the response comes back to it. */
  lemma RoundTrip(s: State, x: Side)
    requires Inv(s) && s.At(x).next + 1 < HALF
    ensures var call := Call(x, s.At(x).next + 1);
            var m := Message(MsgID(call), false, call);
            var placed := Apply(s, Place(x));
            && Enabled(placed, Receive(Other(x), m))
            && var got := Apply(placed, Receive(Other(x), m));
               && Enabled(got, Reply(Other(x), m))
               && var sent := Apply(got, Reply(Other(x), m));
                  && Enabled(sent, Receive(x, ResponseTo(m)))
                  && (ResponseTo(m), call) in Apply(sent, Receive(x, ResponseTo(m))).At(x).delivered
  {
  }

  /** A request that is sent again is pending again, so that the response to either copy comes back to its call. */
  lemma ResendMeans(s: State, x: Side, m: Message)
    requires Inv(s) && Enabled(s, Resend(x, m))
    ensures var t := Apply(s, Resend(x, m));
            && t.At(x).pending == s.At(x).pending[m.id := m.call]
            && (ResponseTo(m) in t.To(x) ==> (ResponseTo(m), m.call) in Apply(t, Receive(x, ResponseTo(m))).At(x).delivered)
  {
    assert Proper(Other(x), m);
  }

  // ---- beyond the bound ------------------------------------------------------------------

  /** A request is told from a response at both ends exactly if a server made the call or its number is below 2^63. */
  lemma ToldApartIff(c: Call)
    ensures TakesForRequest(Other(c.side), MsgID(c)) && !TakesForRequest(c.side, MsgID(c))
            <==> c.side == Server || c.number < HALF
  {
  }

  /** Calls of one side with numbers up to n have different IDs exactly if a client makes them or n is below 2^63. */
  lemma DistinctIDsIff(x: Side, n: Uint64)
    ensures (forall a: Uint64, b: Uint64 :: a <= n && b <= n && MsgID(Call(x, a)) == MsgID(Call(x, b)) ==> a == b)
            <==> x == Client || n < HALF
  {
    if x == Server && n >= HALF {
      assert MsgID(Call(x, 0)) == MsgID(Call(x, HALF));
    }
  }

  /**
   * From any state in which the client's counter has reached the bound: the next request is never
   * dispatched by the server, and is delivered as a response if the server waits under its ID.
   */
  lemma ClientBeyond(s: State)
    requires HALF <= s.client.next + 1 < 2 * HALF
    ensures var call := Call(Client, s.client.next + 1);
            var m := Message(call.number, false, call);
            var placed := Apply(s, Place(Client));
            && m in placed.toServer && Enabled(placed, Receive(Server, m))
            && var t := Apply(placed, Receive(Server, m));
               && t.server.handled == s.server.handled
               && (m.id in s.server.pending ==> (m, s.server.pending[m.id]) in t.server.delivered)
  {
  }

  /**
   * From any state in which the server's counter has reached the bound: its next call takes the place
   * of the call with the number 2^63 below, and is given the response to that one.
   */
  lemma ServerBeyond(s: State)
    requires HALF <= s.server.next + 1 < 2 * HALF
    ensures var call := Call(Server, s.server.next + 1);
            var older := Call(Server, s.server.next + 1 - HALF);
            var m := Message(MsgID(older), true, older);
            var placed := Apply(s, Place(Server));
            && placed.server.pending == s.server.pending[MsgID(older) := call]
            && (m in s.toServer ==> Enabled(placed, Receive(Server, m))
                                    && (m, call) in Apply(placed, Receive(Server, m)).server.delivered)
  {
    assert MsgID(Call(Server, s.server.next + 1)) == MsgID(Call(Server, s.server.next + 1 - HALF));
  }
}

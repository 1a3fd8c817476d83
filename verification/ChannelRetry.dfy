/**
 * Nothing is forgotten: a call that waits for a response was sent on the current stream, is about
 * to be sent, or will be swept out of the router for another try, and the receiver reads the
 * current stream or is on its way to it — unless an open stream was replaced under a waiting call
 * or under the receiver.
 */
module ChannelRetry {
  import opened Requests
  import opened Channel
  import opened ChannelStreams
  import opened ChannelShutdown

  // ---- what holds in every run -----------------------------------------------------------

  ghost predicate Committed(pc: SenderPc) {
    pc == Registering || pc == Arming || pc == Sending
  }

  /** The stream the sender fetched is the current one, or its context is cancelled and Send will fail. */
  ghost predicate FetchedOk(x: Sender, l: Link) {
    Committed(x.pc) ==> x.stream < l.nextStream && (l.stream == Some(x.stream) || x.stream in l.dead)
  }

  ghost predicate WireBound(wire: seq<WireEvent>, l: Link) {
    forall k :: 0 <= k < |wire| ==> wire[k].stream < l.nextStream
  }

  /** The sender is about to signal streamReady. */
  ghost predicate WillSignal(pc: SenderPc) {
    pc == Announcing || pc == Signalling
  }

  /** A receiver that waits although there is a stream will be signalled; it leaves only on shutdown. */
  ghost predicate SignalOk(s: State) {
    && (s.receiver.pc == Awaiting && s.link.stream.Some? ==> s.ready || WillSignal(s.sender.pc))
    && (s.receiver.pc == Gone ==> s.shutdown.connDone)
  }

  ghost predicate Fetched(c: Params, s: State) {
    LinkOk(c, s.link) && FetchedOk(s.sender, s.link) && WireBound(s.log.wire, s.link) && SignalOk(s)
  }

  lemma PrepareFetched(c: Params, s: State, e: PrepareStep)
    requires c.kind == Outbound && Fetched(c, s) && PrepareEnabled(c, s, e)
    ensures var t := PrepareApply(c, s, e);
            FetchedOk(t.sender, t.link) && WireBound(t.log.wire, t.link) && SignalOk(t)
  {
  }

  lemma SendFetched(c: Params, s: State, e: SendStep)
    requires c.kind == Outbound && Fetched(c, s) && SendEnabled(c, s, e)
    ensures var t := SendApply(c, s, e);
            FetchedOk(t.sender, t.link) && WireBound(t.log.wire, t.link) && SignalOk(t)
  {
  }

  lemma QueueFetched(c: Params, s: State, e: QueueStep)
    requires Fetched(c, s) && QueueEnabled(c, s, e)
    ensures var t := QueueApply(c, s, e);
            FetchedOk(t.sender, t.link) && WireBound(t.log.wire, t.link) && SignalOk(t)
  {
  }

  lemma FinishFetched(c: Params, s: State, e: FinishStep)
    requires Fetched(c, s) && FinishEnabled(s, e)
    ensures var t := FinishApply(s, e);
            FetchedOk(t.sender, t.link) && WireBound(t.log.wire, t.link) && SignalOk(t)
  {
  }

  lemma ReceiverFetched(c: Params, s: State, e: Step)
    requires c.kind == Outbound && Fetched(c, s) && Enabled(c, s, e) && (e.Listen? || e.Respond?)
    ensures var t := Apply(c, s, e);
            FetchedOk(t.sender, t.link) && WireBound(t.log.wire, t.link) && SignalOk(t)
  {
    match e
    case Listen(x) => assert RecvApply(c, s, x).link == s.link;
    case Respond(x) => assert RouteApply(c, s, x).sender == s.sender;
  }

  lemma OtherFetched(c: Params, s: State, e: Step)
    requires c.kind == Outbound && Fetched(c, s) && Enabled(c, s, e) && (e.Call? || e.Watching? || e.Close?)
    ensures var t := Apply(c, s, e);
            FetchedOk(t.sender, t.link) && WireBound(t.log.wire, t.link) && SignalOk(t)
  {
    match e
    case Call(x) => assert CallApply(s, x).link == s.link;
    case Watching(x) => assert WatchApply(s, x).receiver == s.receiver;
    case Close(x) => assert CloseApply(c, s, x).link == s.link;
  }

  lemma FetchedStep(c: Params, s: State, e: Step)
    requires c.kind == Outbound && Fetched(c, s) && Enabled(c, s, e)
    ensures Fetched(c, Apply(c, s, e))
  {
    LinkStep(c, s, e);
    match e
    case Prepare(x) => PrepareFetched(c, s, x);
    case Transmit(x) => SendFetched(c, s, x);
    case Queue(x) => QueueFetched(c, s, x);
    case Settle(x) => FinishFetched(c, s, x);
    case Listen(_) => ReceiverFetched(c, s, e);
    case Respond(_) => ReceiverFetched(c, s, e);
    case _ => OtherFetched(c, s, e);
  }

  // ---- waiting calls and the receiver ----------------------------------------------------

  ghost predicate SentOn(wire: seq<WireEvent>, stream: Option<nat>, r: Request) {
    exists k :: 0 <= k < |wire| && wire[k].req == r && wire[k].ok && stream == Some(wire[k].stream)
  }

  ghost predicate InHand(x: Sender, r: Request) {
    (x.pc == Arming || x.pc == Sending) && x.req == r
  }

  /** Some goroutine is on its way to RequeuePending. */
  ghost predicate SweepDue(s: State) {
    || s.watchers.sweeping > 0 || s.receiver.pc == Resweeping
    || s.sender.pc == SendFailed || s.sender.pc == Clearing || s.sender.pc == Sweeping
  }

  ghost predicate Covered(s: State) {
    || SweepDue(s)
    || forall k :: k in s.pending ==> SentOn(s.log.wire, s.link.stream, s.pending[k]) || InHand(s.sender, s.pending[k])
  }

  ghost predicate Reads(x: Receiver) {
    x.pc == Receiving || x.pc == Routing || x.pc == Delivering
  }

  /** The receiver reads the current stream, or one whose context is cancelled, so that Recv will fail. */
  ghost predicate Listens(s: State) {
    Reads(s.receiver) ==> s.link.stream == Some(s.receiver.stream) || s.receiver.stream in s.link.dead
  }

  ghost predicate Tended(s: State) {
    Covered(s) && Listens(s)
  }

  /** The step is an ensureStream that replaces an open stream, because the connection is not ready. */
  ghost predicate Replaces(s: State, e: Step) {
    && s.link.stream.Some? && e.Prepare?
    && (e.prepare.Connect? || e.prepare.Ensure?) && e.prepare.how != Keep
  }

  /** Calls wait on the current stream, and nobody is about to sweep the router. */
  ghost predicate CallsWait(s: State) {
    s.pending != map[] && !SweepDue(s)
  }

  ghost predicate ReadsCurrent(s: State) {
    Reads(s.receiver) && s.link.stream == Some(s.receiver.stream)
  }

  /** It replaces the stream under waiting calls or under the receiver. */
  ghost predicate Abandons(s: State, e: Step) {
    Replaces(s, e) && (CallsWait(s) || ReadsCurrent(s))
  }

  lemma SentStays(wire: seq<WireEvent>, e: WireEvent, stream: Option<nat>, r: Request)
    requires SentOn(wire, stream, r)
    ensures SentOn(wire + [e], stream, r)
  {
    var k :| 0 <= k < |wire| && wire[k].req == r && wire[k].ok && stream == Some(wire[k].stream);
    assert (wire + [e])[k] == wire[k];
  }

  lemma SendTended(c: Params, s: State, e: SendStep)
    requires c.kind == Outbound && Fetched(c, s) && Tended(s) && SendEnabled(c, s, e)
    ensures Tended(SendApply(c, s, e))
  {
    var t := SendApply(c, s, e);
    if e.Send? && !SweepDue(t) {
      var event := WireEvent(LastTaken(s.log), s.sender.req, s.sender.stream, e.ok);
      forall k | k in t.pending
        ensures SentOn(t.log.wire, t.link.stream, t.pending[k])
      {
        assert t.log.wire == s.log.wire + [event];
        if InHand(s.sender, s.pending[k]) {
          assert t.log.wire[|s.log.wire|] == event;
        } else {
          SentStays(s.log.wire, event, s.link.stream, s.pending[k]);
        }
      }
    }
  }

  lemma PrepareTended(c: Params, s: State, e: PrepareStep)
    requires c.kind == Outbound && Fetched(c, s) && Tended(s) && PrepareEnabled(c, s, e) && !Replaces(s, Prepare(e))
    ensures Tended(PrepareApply(c, s, e))
  {
    var t := PrepareApply(c, s, e);
    assert t == s.(link := t.link, sender := t.sender, ready := t.ready);
    assert forall r :: !InHand(s.sender, r);
    if t.link != s.link {
      assert s.link.stream.None?;
      assert forall r :: !SentOn(s.log.wire, s.link.stream, r);
    }
  }

  lemma FinishTended(c: Params, s: State, e: FinishStep)
    requires c.kind == Outbound && LinkOk(c, s.link) && Tended(s) && FinishEnabled(s, e)
    ensures Tended(FinishApply(s, e))
  {
  }

  lemma WatchTended(c: Params, s: State, e: WatchStep)
    requires c.kind == Outbound && LinkOk(c, s.link) && Tended(s) && WatchEnabled(s, e)
    ensures Tended(WatchApply(s, e))
  {
  }

  lemma RecvTended(c: Params, s: State, e: RecvStep)
    requires c.kind == Outbound && Tended(s) && RecvEnabled(s, e)
    ensures Tended(RecvApply(c, s, e))
  {
  }

  lemma RouteTended(c: Params, s: State, e: RouteStep)
    requires c.kind == Outbound && LinkOk(c, s.link) && Tended(s) && RouteEnabled(s, e)
    ensures Tended(RouteApply(c, s, e))
  {
  }

  lemma QueueTended(c: Params, s: State, e: QueueStep)
    requires Tended(s) && QueueEnabled(c, s, e)
    ensures Tended(QueueApply(c, s, e))
  {
  }

  /** Callers and Close touch neither the streams nor the wire, and at most empty the router. */
  lemma OtherTended(c: Params, s: State, e: Step)
    requires Tended(s) && Enabled(c, s, e) && (e.Call? || e.Close?)
    ensures Tended(Apply(c, s, e))
  {
    match e
    case Call(x) => assert CallApply(s, x).pending == s.pending;
    case Close(x) => assert CloseApply(c, s, x).sender == s.sender;
  }

  lemma KeepsTended(c: Params, s: State, e: Step)
    requires c.kind == Outbound && Fetched(c, s) && Tended(s) && Enabled(c, s, e) && !Replaces(s, e)
    ensures Tended(Apply(c, s, e))
  {
    match e
    case Prepare(x) => PrepareTended(c, s, x);
    case Transmit(x) => SendTended(c, s, x);
    case Settle(x) => FinishTended(c, s, x);
    case Watching(x) => WatchTended(c, s, x);
    case Listen(x) => RecvTended(c, s, x);
    case Respond(x) => RouteTended(c, s, x);
    case Queue(x) => QueueTended(c, s, x);
    case _ => OtherTended(c, s, e);
  }

  /** After a replacement no waiting call was sent on the new stream, and nobody reads it. */
  lemma ReplacedUntended(c: Params, s: State, e: Step)
    requires c.kind == Outbound && Fetched(c, s) && Tended(s) && Enabled(c, s, e) && Replaces(s, e)
    ensures Covered(Apply(c, s, e)) <==> !CallsWait(s)
    ensures Listens(Apply(c, s, e)) <==> !ReadsCurrent(s)
  {
    var t := Apply(c, s, e);
    assert t == PrepareApply(c, s, e.prepare) && t.pending == s.pending && t.receiver == s.receiver;
    if CallsWait(s) {
      var k :| k in s.pending;
      assert k in t.pending && !InHand(t.sender, t.pending[k]);
      assert !SentOn(t.log.wire, t.link.stream, t.pending[k]);
    }
  }

  /** A step stops tending exactly if it replaces the stream under waiting calls or under the receiver. */
  lemma TendedStepIff(c: Params, s: State, e: Step)
    requires c.kind == Outbound && Fetched(c, s) && Tended(s) && Enabled(c, s, e)
    ensures Tended(Apply(c, s, e)) <==> !Abandons(s, e)
  {
    if Replaces(s, e) {
      ReplacedUntended(c, s, e);
    } else {
      KeepsTended(c, s, e);
    }
  }

  // ---- whole runs ------------------------------------------------------------------------

  /** In every run of an outbound channel no signal to the receiver is lost. */
  lemma {:induction false} FetchedRun(c: Params, s: State, steps: seq<Step>, t: State)
    requires c.kind == Outbound && Fetched(c, s) && Run(c, s, steps, t)
    ensures Fetched(c, t)
  {
    if steps != [] {
      var n := |steps| - 1;
      var m :| Run(c, s, steps[..n], m) && Enabled(c, m, steps[n]) && t == Apply(c, m, steps[n]);
      FetchedRun(c, s, steps[..n], m);
      FetchedStep(c, m, steps[n]);
    }
  }

  lemma FetchedReachable(c: Params, s: State)
    requires c.kind == Outbound && Reachable(c, s)
    ensures Fetched(c, s)
  {
    var steps :| Run(c, Init(c), steps, s);
    FetchedRun(c, Init(c), steps, s);
  }

  lemma NoLostSignal(c: Params, s: State)
    requires c.kind == Outbound && Reachable(c, s)
    ensures s.receiver.pc == Awaiting && s.link.stream.Some? ==> s.ready || WillSignal(s.sender.pc)
    ensures s.receiver.pc == Gone ==> s.shutdown.connDone
  {
    FetchedReachable(c, s);
  }

  /** A run none of whose steps abandons waiting calls or the receiver. */
  ghost predicate CarefulRun(c: Params, s: State, steps: seq<Step>, t: State) {
    if steps == [] then s == t
    else
      var n := |steps| - 1;
      exists m :: CarefulRun(c, s, steps[..n], m) && Enabled(c, m, steps[n]) && !Abandons(m, steps[n])
                  && t == Apply(c, m, steps[n])
  }

  lemma {:induction false} CarefulOk(c: Params, s: State, steps: seq<Step>, t: State)
    requires c.kind == Outbound && Fetched(c, s) && Tended(s) && CarefulRun(c, s, steps, t)
    ensures Fetched(c, t) && Tended(t)
  {
    if steps != [] {
      var n := |steps| - 1;
      var m :| CarefulRun(c, s, steps[..n], m) && Enabled(c, m, steps[n]) && !Abandons(m, steps[n])
               && t == Apply(c, m, steps[n]);
      CarefulOk(c, s, steps[..n], m);
      FetchedStep(c, m, steps[n]);
      TendedStepIff(c, m, steps[n]);
    }
  }

  /**
   * In every run of an outbound channel that never replaces a stream under waiting calls or under
   * the receiver, each waiting call was sent on the current stream, is about to be sent, or a sweep
   * is due; and a receiver that reads, reads the current stream or one on which Recv will fail.
   */
  lemma {:induction false} NothingForgotten(c: Params, steps: seq<Step>, s: State)
    requires c.kind == Outbound && CarefulRun(c, Init(c), steps, s)
    ensures forall k :: k in s.pending ==>
              SweepDue(s) || InHand(s.sender, s.pending[k]) || SentOn(s.log.wire, s.link.stream, s.pending[k])
    ensures Reads(s.receiver) ==> s.link.stream == Some(s.receiver.stream) || s.receiver.stream in s.link.dead
  {
    CarefulOk(c, Init(c), steps, s);
  }

  // ---- two runs that do forget -----------------------------------------------------------

  const Bystander := Request(2, 2, false, false, true, true)

  const FirstLink := Link(Some(0), Some(0), 1, [], {})

  /** Stream 0 is open, and a caller waits in Enqueue. */
  lemma StreamOpen(c: Params) returns (s: State)
    requires c.kind == Outbound
    ensures Reachable(c, s) && s.log == Log({Victim}, [], 0, [])
    ensures s == Init(c).(log := s.log, pools := Init(c).pools.(waiting := multiset{Victim}),
                          sender := Sender(Idle, NoRequest, 0, false), link := FirstLink, ready := true)
  {
    s := VictimWaits(c);
    s := Extend(c, s, Prepare(Connect(Fresh)));
    s := Extend(c, s, Prepare(Signal));
  }

  lemma VictimTaken(c: Params, s: State) returns (t: State)
    requires Reachable(c, s) && s.log == Log({Victim}, [], 0, []) && s.queue == []
    requires s.pools == Init(c).pools.(waiting := multiset{Victim}) && s.sender == Sender(Idle, NoRequest, 0, false)
    ensures Reachable(c, t)
    ensures t == s.(log := Log({Victim}, [Victim], 1, []), pools := Init(c).pools, sender := Sender(Ensuring, Victim, 0, false))
  {
    t := Extend(c, s, Queue(Handover(Victim)));
    assert s.pools.waiting - multiset{Victim} == multiset{};
  }

  /** The victim goes out on the current stream and waits for its response. */
  lemma VictimSent(c: Params, s: State) returns (t: State)
    requires c.kind == Outbound && Reachable(c, s) && s.sender == Sender(Signalling, Victim, 0, false)
    requires s.link.stream.Some? && s.link.dead == {} && s.cancelled == {} && !s.shutdown.connDone
    ensures Reachable(c, t)
    ensures t == s.(sender := Sender(Idle, Victim, s.link.stream.value, false), ready := true,
                    pending := s.pending[Victim.msgID := Victim], log := t.log)
    ensures t.log == s.log.(wire := s.log.wire + [WireEvent(LastTaken(s.log), Victim, s.link.stream.value, true)])
  {
    t := Extend(c, s, Prepare(Signal));
    t := Extend(c, t, Prepare(CheckCtx));
    t := Extend(c, t, Prepare(Fetch));
    t := RegisterAndSend(c, t);
  }

  lemma BystanderTaken(c: Params, s: State) returns (t: State)
    requires Reachable(c, s) && s.log.issued == {Victim} && s.queue == [] && s.sender.pc == Idle && !s.shutdown.connDone
    ensures Reachable(c, t) && t.sender == s.sender.(req := Bystander, pc := Ensuring)
    ensures t.link == s.link && t.pending == s.pending && t.log.wire == s.log.wire
    ensures t.watchers == s.watchers && t.receiver == s.receiver
  {
    t := Extend(c, s, Call(Issue(Bystander)));
    t := Extend(c, t, Call(Pass(Bystander)));
    t := Extend(c, t, Queue(Handover(Bystander)));
  }

  /**
   * When the next request finds the connection not ready, its stream replaces the one the victim
   * was sent on. The victim is on no current stream, and nobody is about to send it again.
   */
  lemma Forgotten(c: Params) returns (s: State)
    requires c.kind == Outbound
    ensures Reachable(c, s) && s.link.stream.Some? && Victim.msgID in s.pending && !Covered(s)
  {
    s := StreamOpen(c);
    s := VictimTaken(c, s);
    s := Extend(c, s, Prepare(Ensure(Keep)));
    s := VictimSent(c, s);
    s := BystanderTaken(c, s);
    s := ReplaceUnder(c, s);
  }

  lemma ReplaceUnder(c: Params, s: State) returns (t: State)
    requires c.kind == Outbound && Reachable(c, s) && s.sender.pc == Ensuring && s.link == FirstLink
    requires s.pending == map[Victim.msgID := Victim] && !SweepDue(s) && WireBound(s.log.wire, s.link)
    ensures Reachable(c, t) && t.link.stream.Some? && Victim.msgID in t.pending && !Covered(t)
  {
    t := Extend(c, s, Prepare(Ensure(Fresh)));
    assert t.link.stream == Some(1);
    assert !SentOn(t.log.wire, t.link.stream, Victim) && !InHand(t.sender, Victim);
  }

  /**
   * The stream is replaced under the receiver while no call waits. The victim is then sent on the
   * new stream, which nobody reads: the receiver is in Recv on the old one, whose context is alive.
   */
  lemma Unread(c: Params) returns (s: State)
    requires c.kind == Outbound
    ensures Reachable(c, s) && Covered(s) && !SweepDue(s) && !Listens(s) && s.sender.pc == Idle
    ensures Victim.msgID in s.pending && s.link.stream == Some(1) && SentOn(s.log.wire, Some(1), Victim)
    ensures s.receiver.pc == Receiving && s.receiver.stream == 0 && 0 !in s.link.dead
  {
    s := StreamOpen(c);
    s := Extend(c, s, Listen(Look));
    s := VictimTaken(c, s);
    s := Extend(c, s, Prepare(Ensure(Fresh)));
    assert s.link == Link(Some(1), Some(1), 2, [], {});
    s := VictimSent(c, s);
    assert s.log.wire[0] == WireEvent(0, Victim, 1, true);
  }
}

/** Broken streams are given up: no stream on which a send or a receive has failed is used again. */
module ChannelClearing {
  import opened Requests
  import opened Channel
  import opened ChannelDelivery
  import opened ChannelRetry
  import opened ChannelStreams
  import opened ChannelTraces

  /** The stream instance is not the current one, and never will be again. */
  ghost predicate Gone(l: Link, stream: nat) {
    stream < l.nextStream && l.stream != Some(stream)
  }

  lemma GoneStays(c: Params, s: State, e: Step, stream: nat)
    requires Enabled(c, s, e) && Gone(s.link, stream)
    ensures Gone(Apply(c, s, e).link, stream)
  {
    LinkMoves(c, s, e);
  }

  lemma StreamsGrow(c: Params, s: State, e: Step)
    requires Enabled(c, s, e)
    ensures s.link.nextStream <= Apply(c, s, e).link.nextStream
  {
    LinkMoves(c, s, e);
  }

  // ---- the sender ------------------------------------------------------------------------

  /** The sender has fetched a stream for its request. */
  ghost predicate HasStream(pc: SenderPc) {
    pc == Registering || pc == Arming || pc == Sending || pc == Sent || pc == SendFailed || pc == Clearing || pc == Sweeping
  }

  /** The send of event k failed, and the sender is on its way to clear its stream. */
  ghost predicate AboutToClear(s: State, k: nat) {
    && k == |s.log.wire| - 1 && (s.sender.pc == SendFailed || s.sender.pc == Clearing)
    && s.sender.stream == s.log.wire[k].stream
  }

  ghost predicate FailedGone(s: State) {
    forall k :: 0 <= k < |s.log.wire| && !s.log.wire[k].ok ==> Gone(s.link, s.log.wire[k].stream) || AboutToClear(s, k)
  }

  /** While Send is in flight its cancel callback is armed, has started, or the stream is gone. */
  ghost predicate Watched(s: State) {
    s.sender.pc == Sending ==> s.sender.armed || s.sender.stream in s.watchers.firing || Gone(s.link, s.sender.stream)
  }

  /** The callback is armed only from just before Send until just after it. */
  ghost predicate ArmedAround(x: Sender) {
    x.armed ==> x.pc == Sending || x.pc == Sent || x.pc == SendFailed
  }

  ghost predicate ClearingOk(c: Params, s: State) {
    && LinkOk(c, s.link) && (HasStream(s.sender.pc) ==> s.sender.stream < s.link.nextStream)
    && FailedGone(s) && Watched(s) && ArmedAround(s.sender)
  }

  /** A step that leaves the sender, the wire and the watchers alone. */
  lemma Unmoved(c: Params, s: State, t: State)
    requires ClearingOk(c, s) && LinkOk(c, t.link) && s.link.nextStream <= t.link.nextStream
    requires t.log.wire == s.log.wire && t.watchers.firing == s.watchers.firing && t.sender == s.sender
    requires forall x: nat :: Gone(s.link, x) ==> Gone(t.link, x)
    ensures ClearingOk(c, t)
  {
  }

  lemma PrepareClearing(c: Params, s: State, e: PrepareStep, t: State)
    requires ClearingOk(c, s) && PrepareEnabled(c, s, e) && t == PrepareApply(c, s, e) && LinkOk(c, t.link)
    requires forall x: nat :: Gone(s.link, x) ==> Gone(t.link, x)
    ensures ClearingOk(c, t)
  {
    assert t == s.(link := t.link, sender := t.sender, ready := t.ready);
    assert !s.sender.armed && t.sender == s.sender.(pc := t.sender.pc, stream := t.sender.stream);
  }

  lemma SendClearing(c: Params, s: State, e: SendStep, t: State)
    requires ClearingOk(c, s) && SendEnabled(c, s, e) && t == SendApply(c, s, e)
    ensures ClearingOk(c, t)
  {
    assert t == s.(pending := t.pending, sender := t.sender, log := t.log, pools := t.pools);
    if e.Send? {
      var event := WireEvent(LastTaken(s.log), s.sender.req, s.sender.stream, e.ok);
      assert t.log.wire == s.log.wire + [event];
      assert forall k :: 0 <= k < |s.log.wire| ==> t.log.wire[k] == s.log.wire[k];
    }
  }

  lemma FinishClearing(c: Params, s: State, e: FinishStep, t: State)
    requires ClearingOk(c, s) && FinishEnabled(s, e) && t == FinishApply(s, e) && LinkOk(c, t.link)
    requires forall x: nat :: Gone(s.link, x) ==> Gone(t.link, x)
    ensures ClearingOk(c, t)
  {
    assert t == s.(link := t.link, pending := t.pending, sender := t.sender, pools := t.pools, answers := t.answers);
    assert e == SenderClear ==> Gone(t.link, s.sender.stream);
  }

  lemma QueueClearing(c: Params, s: State, e: QueueStep, t: State)
    requires ClearingOk(c, s) && QueueEnabled(c, s, e) && t == QueueApply(c, s, e)
    ensures ClearingOk(c, t)
  {
    assert t == s.(pools := t.pools, queue := t.queue, sender := t.sender, log := t.log, answers := t.answers);
  }

  lemma WatchClearing(c: Params, s: State, e: WatchStep, t: State)
    requires ClearingOk(c, s) && WatchEnabled(s, e) && t == WatchApply(s, e) && LinkOk(c, t.link)
    requires forall x: nat :: Gone(s.link, x) ==> Gone(t.link, x)
    ensures ClearingOk(c, t)
  {
    assert t == s.(link := t.link, pending := t.pending, sender := t.sender, pools := t.pools, watchers := t.watchers);
  }

  /** The others leave the sender, the wire and the watchers alone. */
  lemma OthersClearing(c: Params, s: State, e: Step, t: State)
    requires Enabled(c, s, e) && t == Apply(c, s, e) && (e.Call? || e.Listen? || e.Respond? || e.Close?)
    ensures t.log.wire == s.log.wire && t.watchers == s.watchers && t.sender == s.sender
  {
    match e
    case Call(x) => assert t == CallApply(s, x);
    case Listen(x) => assert t == RecvApply(c, s, x);
    case Respond(x) => assert t == RouteApply(c, s, x);
    case Close(x) => assert t == CloseApply(c, s, x);
  }

  lemma ClearingStep(c: Params, s: State, e: Step, t: State)
    requires ClearingOk(c, s) && Enabled(c, s, e) && t == Apply(c, s, e)
    ensures ClearingOk(c, t)
  {
    LinkStep(c, s, e);
    StreamsGrow(c, s, e);
    forall x: nat | Gone(s.link, x)
      ensures Gone(t.link, x)
    {
      GoneStays(c, s, e, x);
    }
    match e
    case Prepare(x) => PrepareClearing(c, s, x, t);
    case Transmit(x) => SendClearing(c, s, x, t);
    case Settle(x) => FinishClearing(c, s, x, t);
    case Queue(x) => QueueClearing(c, s, x, t);
    case Watching(x) => WatchClearing(c, s, x, t);
    case _ =>
      OthersClearing(c, s, e, t);
      Unmoved(c, s, t);
  }

  lemma {:induction false} ClearingRun(c: Params, s: State, steps: seq<Step>, t: State)
    requires ClearingOk(c, s) && Run(c, s, steps, t)
    ensures ClearingOk(c, t)
  {
    if steps != [] {
      var n := |steps| - 1;
      var m :| Run(c, s, steps[..n], m) && Enabled(c, m, steps[n]) && t == Apply(c, m, steps[n]);
      ClearingRun(c, s, steps[..n], m);
      ClearingStep(c, m, steps[n], t);
    }
  }

  lemma ClearingReachable(c: Params, s: State)
    requires Reachable(c, s)
    ensures ClearingOk(c, s)
  {
    var steps :| Run(c, Init(c), steps, s);
    ClearingRun(c, Init(c), steps, s);
  }

  /** In every reachable state, a stream on which a send failed is gone for good, or the sender is about to clear it. */
  lemma FailedSendGivesUp(c: Params, s: State, k: nat)
    requires Reachable(c, s) && k < |s.log.wire| && !s.log.wire[k].ok
    ensures Gone(s.link, s.log.wire[k].stream) || AboutToClear(s, k)
  {
    ClearingReachable(c, s);
  }

  /** And what is gone stays gone in every continuation. */
  lemma {:induction false} GoneForGood(c: Params, s: State, steps: seq<Step>, t: State, stream: nat)
    requires Gone(s.link, stream) && Run(c, s, steps, t)
    ensures Gone(t.link, stream)
  {
    if steps != [] {
      var n := |steps| - 1;
      var m :| Run(c, s, steps[..n], m) && Enabled(c, m, steps[n]) && t == Apply(c, m, steps[n]);
      GoneForGood(c, s, steps[..n], m, stream);
      GoneStays(c, m, steps[n], stream);
    }
  }

  /**
   * A Send whose request is cancelled is unblocked: in every reachable state its callback can start, has
   * started and not yet cleared, or the stream is given up, and on an outbound channel its context cancelled.
   */
  lemma CancelledSendIsFreed(c: Params, s: State)
    requires Reachable(c, s) && s.sender.pc == Sending && s.sender.req in s.cancelled
    ensures || Enabled(c, s, Watching(Fire)) || s.sender.stream in s.watchers.firing
            || (Gone(s.link, s.sender.stream) && (c.kind == Outbound ==> s.sender.stream in s.link.dead))
  {
    ClearingReachable(c, s);
    if c.kind == Outbound {
      FetchedReachable(c, s);
    }
    Freed(c, s);
    assert WatchEnabled(s, Fire) ==> Enabled(c, s, Watching(Fire));
  }

  lemma Freed(c: Params, s: State)
    requires ClearingOk(c, s) && (c.kind == Outbound ==> Fetched(c, s)) && s.sender.pc == Sending && s.sender.req in s.cancelled
    ensures || WatchEnabled(s, Fire) || s.sender.stream in s.watchers.firing
            || (Gone(s.link, s.sender.stream) && (c.kind == Outbound ==> s.sender.stream in s.link.dead))
  {
  }

  /** A callback only ever runs for a request whose Send is in flight or has just returned. */
  lemma ArmedOnlyAroundSend(c: Params, s: State)
    requires Reachable(c, s) && Enabled(c, s, Watching(Fire))
    ensures s.sender.pc == Sending || s.sender.pc == Sent || s.sender.pc == SendFailed
  {
    ClearingReachable(c, s);
  }

  // ---- the receiver ----------------------------------------------------------------------

  ghost predicate HoldsStream(pc: ReceiverPc) {
    pc == Receiving || pc == Routing || pc == Delivering || pc == Dropping
  }

  ghost predicate HeldOk(s: State) {
    HoldsStream(s.receiver.pc) ==> s.receiver.stream < s.link.nextStream
  }

  lemma HeldStep(c: Params, s: State, e: Step, t: State)
    requires LinkOk(c, s.link) && HeldOk(s) && Enabled(c, s, e) && t == Apply(c, s, e)
    ensures HeldOk(t)
  {
    StreamsGrow(c, s, e);
    match e
    case Listen(x) => ListenHeld(c, s, x);
    case Respond(x) => RespondHeld(c, s, x);
    case _ => OthersLeaveReceiver(c, s, e);
  }

  lemma ListenHeld(c: Params, s: State, e: RecvStep)
    requires LinkOk(c, s.link) && HeldOk(s) && RecvEnabled(s, e)
    ensures HeldOk(RecvApply(c, s, e))
  {
  }

  lemma RespondHeld(c: Params, s: State, e: RouteStep)
    requires LinkOk(c, s.link) && HeldOk(s) && RouteEnabled(s, e)
    ensures HeldOk(RouteApply(c, s, e))
  {
  }

  lemma {:induction false} HeldAlways(c: Params, states: seq<State>, steps: seq<Step>, n: nat)
    requires Trace(c, states, steps) && n <= |steps|
    ensures HeldOk(states[n])
  {
    if n > 0 {
      HeldAlways(c, states, steps, n - 1);
      HeldNext(c, states, steps, n - 1);
    }
  }

  lemma HeldNext(c: Params, states: seq<State>, steps: seq<Step>, k: nat)
    requires Trace(c, states, steps) && k < |steps| && HeldOk(states[k])
    ensures HeldOk(states[k + 1])
  {
    assert StepAt(c, states, steps, k);
    StatesReachable(c, states, steps, k);
    LinkReachable(c, states[k]);
    HeldStep(c, states[k], steps[k], states[k + 1]);
  }

  lemma DropStep(c: Params, s: State, e: Step, t: State)
    requires Enabled(c, s, e) && ByReceiver(e) && t == Apply(c, s, e) && s.receiver.pc == Dropping && HeldOk(s)
    ensures e == Respond(ReceiverClear) && Gone(t.link, s.receiver.stream)
  {
    StreamsGrow(c, s, e);
  }

  /**
   * In every run of an outbound channel, a stream on which Recv failed is gone for good, or the receiver
   * has done nothing else yet and is about to clear it.
   */
  lemma {:induction false} FailedRecvGivesUp(c: Params, states: seq<State>, steps: seq<Step>, k: nat, n: nat)
    requires Trace(c, states, steps) && c.kind == Outbound && k < n <= |steps| && steps[k] == Listen(RecvError)
    ensures var x := states[n].receiver;
            || Gone(states[n].link, states[k].receiver.stream)
            || (Quiet(steps, k, n) && x.pc == Dropping && x.stream == states[k].receiver.stream)
  {
    var stream := states[k].receiver.stream;
    if n == k + 1 {
      FailsNext(c, states, steps, k);
    } else {
      FailedRecvGivesUp(c, states, steps, k, n - 1);
      if Gone(states[n - 1].link, stream) {
        GoneNext(c, states, steps, n - 1, stream);
      } else if ByReceiver(steps[n - 1]) {
        HeldAlways(c, states, steps, n - 1);
        DropsNext(c, states, steps, n - 1);
      } else {
        LeftAlone(c, states, steps, n - 1);
      }
    }
  }

  lemma FailsNext(c: Params, states: seq<State>, steps: seq<Step>, k: nat)
    requires Trace(c, states, steps) && c.kind == Outbound && k < |steps| && steps[k] == Listen(RecvError)
    ensures states[k + 1].receiver == states[k].receiver.(pc := Dropping)
  {
    assert StepAt(c, states, steps, k);
    assert states[k + 1] == RecvApply(c, states[k], RecvError);
  }

  lemma GoneNext(c: Params, states: seq<State>, steps: seq<Step>, k: nat, stream: nat)
    requires Trace(c, states, steps) && k < |steps| && Gone(states[k].link, stream)
    ensures Gone(states[k + 1].link, stream)
  {
    assert StepAt(c, states, steps, k);
    GoneStays(c, states[k], steps[k], stream);
  }

  lemma DropsNext(c: Params, states: seq<State>, steps: seq<Step>, k: nat)
    requires Trace(c, states, steps) && k < |steps| && ByReceiver(steps[k])
    requires states[k].receiver.pc == Dropping && HeldOk(states[k])
    ensures Gone(states[k + 1].link, states[k].receiver.stream)
  {
    assert StepAt(c, states, steps, k);
    DropStep(c, states[k], steps[k], states[k + 1]);
  }
}

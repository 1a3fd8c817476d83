/** Responses reach the calls they answer, and only those. */
module ChannelDelivery {
  import opened Requests
  import opened Router
  import opened Channel
  import opened ChannelOwnership
  import opened ChannelTraces

  // ---- one response ----------------------------------------------------------------------

  /** The three steps of the receiver for a response with the given message ID. */
  ghost predicate CanDeliver(c: Params, s: State, id: nat) {
    && Enabled(c, s, Listen(Recv(id)))
    && var got := Apply(c, s, Listen(Recv(id)));
       && Enabled(c, got, Respond(Route))
       && Enabled(c, Apply(c, got, Respond(Route)), Respond(Deliver(true)))
  }

  ghost function Delivered(c: Params, s: State, id: nat): State
    requires CanDeliver(c, s, id)
  {
    Apply(c, Apply(c, Apply(c, s, Listen(Recv(id))), Respond(Route)), Respond(Deliver(true)))
  }

  /**
   * From every reachable state whose receiver is reading: a response to a pending call can be
   * delivered, which adds one reply to that call and to no other, and ends the call unless it streams.
   */
  lemma ResponseReaches(c: Params, s: State, id: nat)
    requires Reachable(c, s) && s.receiver.pc == Receiving && id in s.pending
    ensures var r := s.pending[id];
            && r.msgID == id && CanDeliver(c, s, id)
            && var t := Delivered(c, s, id);
               && t.answers == s.answers.(replies := s.answers.replies + multiset{r})
               && t.pools == (if r.streaming then s.pools else s.pools.(finished := s.pools.finished + multiset{r}))
               && t.pending == (if r.streaming then s.pending else s.pending - {id})
               && t.receiver.pc == Again(c) && t.sender == s.sender && t.queue == s.queue && t.link == s.link && t.log == s.log
  {
    OwnershipReachable(c, s);
    var got := Taken(c, s, id);
    var found := Found(c, got);
    Handed(c, found);
  }

  lemma Taken(c: Params, s: State, id: nat) returns (t: State)
    requires s.receiver.pc == Receiving
    ensures Enabled(c, s, Listen(Recv(id))) && t == Apply(c, s, Listen(Recv(id)))
    ensures t == s.(receiver := s.receiver.(msgID := id, pc := Routing))
  {
    t := RecvApply(c, s, Recv(id));
  }

  lemma Found(c: Params, s: State) returns (t: State)
    requires s.receiver.pc == Routing && s.receiver.msgID in s.pending
    ensures Enabled(c, s, Respond(Route)) && t == Apply(c, s, Respond(Route))
    ensures var id := s.receiver.msgID;
            t == s.(receiver := s.receiver.(req := s.pending[id], pc := Delivering),
                    pending := if s.pending[id].streaming then s.pending else s.pending - {id})
  {
    t := RouteApply(c, s, Route);
  }

  lemma Handed(c: Params, s: State)
    requires s.receiver.pc == Delivering && s.receiver.req.hasChan
    ensures Enabled(c, s, Respond(Deliver(true)))
    ensures var r, t := s.receiver.req, Apply(c, s, Respond(Deliver(true)));
            && t.answers == s.answers.(replies := s.answers.replies + multiset{r})
            && t.pools == (if r.streaming then s.pools else s.pools.(finished := s.pools.finished + multiset{r}))
            && t == s.(receiver := s.receiver.(pc := Again(c)), answers := t.answers, pools := t.pools)
  {
    var t := RouteApply(c, s, Deliver(true));
  }

  /** A message whose ID is not pending changes nothing but the receiver's own state. */
  lemma UnknownIgnored(c: Params, s: State, id: nat)
    requires s.receiver.pc == Receiving && id !in s.pending
    ensures Enabled(c, s, Listen(Recv(id))) && Enabled(c, Apply(c, s, Listen(Recv(id))), Respond(Route))
    ensures var t := Apply(c, Apply(c, s, Listen(Recv(id))), Respond(Route));
            t == s.(receiver := s.receiver.(msgID := id, pc := Again(c)))
  {
  }

  // ---- whole runs ------------------------------------------------------------------------

  ghost predicate ByReceiver(e: Step) {
    e.Listen? || e.Respond?
  }

  /** Nobody else touches the receiver. */
  lemma OthersLeaveReceiver(c: Params, s: State, e: Step)
    requires Enabled(c, s, e) && !ByReceiver(e)
    ensures Apply(c, s, e).receiver == s.receiver
  {
    match e
    case Call(x) => assert CallApply(s, x).receiver == s.receiver;
    case Queue(x) => assert QueueApply(c, s, x).receiver == s.receiver;
    case Prepare(x) => assert PrepareApply(c, s, x).receiver == s.receiver;
    case Transmit(x) => assert SendApply(c, s, x).receiver == s.receiver;
    case Settle(x) => assert FinishApply(s, x).receiver == s.receiver;
    case Watching(x) => assert WatchApply(s, x).receiver == s.receiver;
    case Close(x) => assert CloseApply(c, s, x).receiver == s.receiver;
  }

  /** Step k routes a message to the pending call r. */
  ghost predicate Finds(states: seq<State>, steps: seq<Step>, k: nat, r: Request)
    requires |states| == |steps| + 1 && k < |steps|
  {
    && steps[k] == Respond(Route) && states[k].receiver.msgID in states[k].pending
    && states[k].pending[states[k].receiver.msgID] == r
  }

  /** Step j puts the response on the channel of r, or gives it up because that is full and the context done. */
  ghost predicate Delivers(states: seq<State>, steps: seq<Step>, j: nat, r: Request)
    requires |states| == |steps| + 1 && j < |steps|
  {
    && steps[j].Respond? && steps[j].route.Deliver?
    && if steps[j].route.ok
       then states[j + 1].answers == states[j].answers.(replies := states[j].answers.replies + multiset{r})
       else states[j + 1].answers == states[j].answers && !r.roomy && r in states[j].cancelled
  }

  /** The receiver takes no step strictly between k and j. */
  ghost predicate Quiet(steps: seq<Step>, k: nat, j: nat)
    requires j <= |steps|
  {
    forall i :: k < i < j ==> !ByReceiver(steps[i])
  }

  lemma DeliverStep(c: Params, s: State, e: Step)
    requires Enabled(c, s, e) && ByReceiver(e) && s.receiver.pc == Delivering && s.receiver.req.hasChan
    ensures e.Respond? && e.route.Deliver?
    ensures var r, t := s.receiver.req, Apply(c, s, e);
            if e.route.ok then t.answers == s.answers.(replies := s.answers.replies + multiset{r})
            else t.answers == s.answers && !r.roomy && r in s.cancelled
  {
  }

  lemma RouteFinds(c: Params, s: State, t: State, r: Request)
    requires Reachable(c, s) && Enabled(c, s, Respond(Route)) && t == Apply(c, s, Respond(Route))
    requires s.receiver.msgID in s.pending && s.pending[s.receiver.msgID] == r
    ensures t.receiver.pc == Delivering && t.receiver.req == r && r.hasChan && r.msgID == s.receiver.msgID
  {
    OwnershipReachable(c, s);
    assert t == RouteApply(c, s, Route);
  }

  lemma FindsNext(c: Params, states: seq<State>, steps: seq<Step>, k: nat, r: Request)
    requires Trace(c, states, steps) && k < |steps| && Finds(states, steps, k, r)
    ensures states[k + 1].receiver.pc == Delivering && states[k + 1].receiver.req == r && r.hasChan
  {
    assert StepAt(c, states, steps, k);
    StatesReachable(c, states, steps, k);
    RouteFinds(c, states[k], states[k + 1], r);
  }

  lemma LeftAlone(c: Params, states: seq<State>, steps: seq<Step>, k: nat)
    requires Trace(c, states, steps) && k < |steps| && !ByReceiver(steps[k])
    ensures states[k + 1].receiver == states[k].receiver
  {
    assert StepAt(c, states, steps, k);
    OthersLeaveReceiver(c, states[k], steps[k]);
  }

  /** Until the next step of the receiver, the call found by step k is in delivery. */
  lemma {:induction false} InDelivery(c: Params, states: seq<State>, steps: seq<Step>, k: nat, n: nat, r: Request)
    requires Trace(c, states, steps) && k < n <= |steps| && Finds(states, steps, k, r) && Quiet(steps, k, n)
    ensures states[n].receiver.pc == Delivering && states[n].receiver.req == r && r.hasChan
  {
    if n == k + 1 {
      FindsNext(c, states, steps, k, r);
    } else {
      InDelivery(c, states, steps, k, n - 1, r);
      LeftAlone(c, states, steps, n - 1);
    }
  }

  lemma DeliversNext(c: Params, states: seq<State>, steps: seq<Step>, j: nat, r: Request)
    requires Trace(c, states, steps) && j < |steps| && ByReceiver(steps[j])
    requires states[j].receiver.pc == Delivering && states[j].receiver.req == r && r.hasChan
    ensures Delivers(states, steps, j, r)
  {
    assert StepAt(c, states, steps, j);
    DeliverStep(c, states[j], steps[j]);
  }

  /**
   * In every run each message that was routed to a pending call is delivered to it by the receiver's
   * next step, or is still in delivery at the end.
   */
  lemma {:induction false} RoutedIsDelivered(c: Params, states: seq<State>, steps: seq<Step>, k: nat, r: Request)
    requires Trace(c, states, steps) && k < |steps| && Finds(states, steps, k, r)
    ensures || (exists j :: k < j < |steps| && Quiet(steps, k, j) && Delivers(states, steps, j, r))
            || (Quiet(steps, k, |steps|) && states[|steps|].receiver.pc == Delivering && states[|steps|].receiver.req == r)
  {
    if Quiet(steps, k, |steps|) {
      InDelivery(c, states, steps, k, |steps|, r);
    } else {
      var j := NextOfReceiver(steps, k);
      InDelivery(c, states, steps, k, j, r);
      DeliversNext(c, states, steps, j, r);
    }
  }

  lemma {:induction false} NextOfReceiver(steps: seq<Step>, k: nat) returns (j: nat)
    requires k < |steps| && !Quiet(steps, k, |steps|)
    ensures k < j < |steps| && Quiet(steps, k, j) && ByReceiver(steps[j])
  {
    j := k + 1;
    while !ByReceiver(steps[j])
      invariant k < j < |steps| && Quiet(steps, k, j)
      invariant exists i :: j <= i < |steps| && ByReceiver(steps[i])
      decreases |steps| - j
    {
      j := j + 1;
    }
  }

  // ---- and only those --------------------------------------------------------------------

  /** The message the receiver works on was received by step k, and has only been routed since. */
  ghost predicate WorksOn(states: seq<State>, steps: seq<Step>, k: nat, n: nat)
    requires |states| == |steps| + 1 && n <= |steps|
  {
    && k < n && steps[k] == Listen(Recv(states[n].receiver.msgID))
    && forall i :: k < i < n && ByReceiver(steps[i]) ==> steps[i] == Respond(Route)
  }

  ghost predicate Matched(x: Receiver) {
    x.pc == Delivering ==> x.req.msgID == x.msgID
  }

  lemma ListenStep(c: Params, s: State, e: RecvStep, t: State)
    requires RecvEnabled(s, e) && t == RecvApply(c, s, e)
    ensures t.receiver.pc == Routing ==> e == Recv(t.receiver.msgID)
    ensures t.receiver.pc != Delivering
  {
  }

  lemma RespondStep(c: Params, s: State, e: RouteStep, t: State)
    requires Keyed(s.pending) && RouteEnabled(s, e) && t == RouteApply(c, s, e)
    ensures t.receiver.pc != Routing
    ensures t.receiver.pc == Delivering ==> e == Route && s.receiver.pc == Routing
    ensures t.receiver.pc == Delivering ==> t.receiver.req.msgID == t.receiver.msgID == s.receiver.msgID
  {
  }

  lemma ReceiverStep(c: Params, s: State, e: Step, t: State)
    requires Reachable(c, s) && Enabled(c, s, e) && ByReceiver(e) && t == Apply(c, s, e)
    ensures t.receiver.pc == Routing ==> e == Listen(Recv(t.receiver.msgID))
    ensures t.receiver.pc == Delivering ==> e == Respond(Route) && s.receiver.pc == Routing
    ensures t.receiver.pc == Delivering ==> t.receiver.req.msgID == t.receiver.msgID == s.receiver.msgID
  {
    OwnershipReachable(c, s);
    match e
    case Listen(x) => ListenStep(c, s, x, t);
    case Respond(x) => RespondStep(c, s, x, t);
  }

  lemma Received(c: Params, states: seq<State>, steps: seq<Step>, k: nat)
    requires Trace(c, states, steps) && k < |steps| && ByReceiver(steps[k])
    ensures var s, e, t := states[k], steps[k], states[k + 1];
            && (t.receiver.pc == Routing ==> e == Listen(Recv(t.receiver.msgID)))
            && (t.receiver.pc == Delivering ==> e == Respond(Route) && s.receiver.pc == Routing)
            && (t.receiver.pc == Delivering ==> t.receiver.req.msgID == t.receiver.msgID == s.receiver.msgID)
  {
    assert StepAt(c, states, steps, k);
    StatesReachable(c, states, steps, k);
    ReceiverStep(c, states[k], steps[k], states[k + 1]);
  }

  lemma {:induction false} WasReceived(c: Params, states: seq<State>, steps: seq<Step>, n: nat) returns (k: nat)
    requires Trace(c, states, steps) && n <= |steps|
    requires states[n].receiver.pc == Routing || states[n].receiver.pc == Delivering
    ensures WorksOn(states, steps, k, n) && Matched(states[n].receiver)
  {
    assert n > 0;
    if !ByReceiver(steps[n - 1]) {
      LeftAlone(c, states, steps, n - 1);
      k := WasReceived(c, states, steps, n - 1);
      WorksOnMore(states, steps, k, n);
    } else {
      Received(c, states, steps, n - 1);
      if states[n].receiver.pc == Routing {
        k := n - 1;
      } else {
        k := WasReceived(c, states, steps, n - 1);
        WorksOnMore(states, steps, k, n);
      }
    }
  }

  lemma WorksOnMore(states: seq<State>, steps: seq<Step>, k: nat, n: nat)
    requires |states| == |steps| + 1 && 0 < n <= |steps| && WorksOn(states, steps, k, n - 1)
    requires states[n].receiver.msgID == states[n - 1].receiver.msgID
    requires ByReceiver(steps[n - 1]) ==> steps[n - 1] == Respond(Route)
    ensures WorksOn(states, steps, k, n)
  {
  }

  /** A call that waits for a response gets replies only by delivery. */
  lemma RepliesAdded(c: Params, s: State, e: Step, r: Request)
    requires WellRouted(s) && Enabled(c, s, e) && r.WantsServerResponse()
    ensures Apply(c, s, e).answers.replies[r] > s.answers.replies[r]
            ==> e == Respond(Deliver(true)) && s.receiver.pc == Delivering && s.receiver.req == r
  {
    match e
    case Queue(x) => QueueReplies(c, s, x);
    case Transmit(x) => SendAnswersNobody(c, s, x);
    case Settle(x) => FinishReplies(s, x, r);
    case Respond(x) => RouteReplies(c, s, x, r);
    case _ => OtherSettles(c, s, e);
  }

  lemma QueueReplies(c: Params, s: State, e: QueueStep)
    requires QueueEnabled(c, s, e)
    ensures QueueApply(c, s, e).answers.replies == s.answers.replies
  {
  }

  lemma RouteReplies(c: Params, s: State, e: RouteStep, r: Request)
    requires RouteEnabled(s, e)
    ensures RouteApply(c, s, e).answers.replies[r] > s.answers.replies[r]
            ==> e == Deliver(true) && s.receiver.pc == Delivering && s.receiver.req == r
  {
  }

  lemma FinishReplies(s: State, e: FinishStep, r: Request)
    requires WellRouted(s) && FinishEnabled(s, e) && r.WantsServerResponse()
    ensures FinishApply(s, e).answers.replies[r] == s.answers.replies[r]
  {
  }

  /** In every run, each reply to a call that waits for a response answers a message of its own with that call's ID. */
  lemma {:induction false} RepliesWereReceived(c: Params, states: seq<State>, steps: seq<Step>, j: nat, r: Request)
    returns (k: nat)
    requires Trace(c, states, steps) && j < |steps| && r.WantsServerResponse()
    requires states[j + 1].answers.replies[r] > states[j].answers.replies[r]
    ensures k < j && steps[k] == Listen(Recv(r.msgID)) && steps[j] == Respond(Deliver(true))
    ensures forall i :: k < i < j && ByReceiver(steps[i]) ==> steps[i] == Respond(Route)
  {
    assert StepAt(c, states, steps, j);
    StatesReachable(c, states, steps, j);
    OwnershipReachable(c, states[j]);
    RepliesAdded(c, states[j], steps[j], r);
    k := WasReceived(c, states, steps, j);
  }
}

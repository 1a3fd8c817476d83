/**
 * A quorum call or waiting multicast over a configuration (client_interceptor.go, multicast.go):
 * the caller dispatches to one node after the other while the nodes' channels run.
 */
module QuorumCall {
  import opened Requests
  import opened Router
  import opened Channel
  import opened ChannelOwnership
  import opened ChannelCallers
  import opened ChannelShutdown

  // ---- the reply channel -----------------------------------------------------------------

  /** A node: reached over a channel, served in-process, or without a channel. */
  datatype Node = Remote(c: Params, chan: State) | InProcess(answered: bool) | Absent

  /** How far the call has got with a node: not yet, an error reported by the caller, or enqueued. */
  datatype Progress = Undispatched | Reported | Enqueued

  datatype Leg = Leg(node: Node, progress: Progress, req: Request)

  /** `queued` values are in the reply channel, `consumed` have been taken out; `next` is the dispatch loop's position. */
  datatype Call = Call(legs: seq<Leg>, next: nat, queued: int, consumed: nat)

  datatype Step =
    | Report                            // marshalling failed, or the node is skipped
    | Enqueue
    | NodeStep(i: nat, e: Channel.Step) // any goroutine of a node's channel, for this or another call
    | LocalReply(i: nat)                // the in-process handler sends its response, or the send is confirmed
    | LocalRefuse(i: nat)               // an in-process request is refused: its context is done, or there is no handler
    | Consume

  ghost function AnswersOf(leg: Leg): nat {
    match leg.node
    case Remote(_, chan) => chan.answers.errors[leg.req] + chan.answers.replies[leg.req]
    case InProcess(answered) => if answered then 1 else 0
    case Absent => 0
  }

  ghost predicate CanEnqueue(leg: Leg) {
    leg.node.Remote? ==> Admissible(leg.node.chan.log, leg.req)
  }

  ghost predicate Enabled(s: Call, e: Step) {
    match e
    case Report => s.next < |s.legs|
    case Enqueue => s.next < |s.legs| && CanEnqueue(s.legs[s.next])
    case NodeStep(i, x) =>
      && i < |s.legs| && s.legs[i].node.Remote? && x != Channel.Call(Issue(s.legs[i].req))
      && Channel.Enabled(s.legs[i].node.c, s.legs[i].node.chan, x)
    case LocalReply(i) => i < |s.legs| && s.legs[i].node == InProcess(false) && s.legs[i].progress == Enqueued
    case LocalRefuse(i) => i < |s.legs| && s.legs[i].node == InProcess(false) && s.legs[i].progress == Enqueued
    case Consume => s.queued > 0
  }

  /** The request enters the node's channel; a node without one drops it silently. */
  ghost function Entered(leg: Leg): Leg
    requires CanEnqueue(leg)
  {
    if leg.node.Remote? then
      leg.(progress := Enqueued, node := leg.node.(chan := CallApply(leg.node.chan, Issue(leg.req))))
    else leg.(progress := Enqueued)
  }

  ghost function Moved(leg: Leg, x: Channel.Step): Leg
    requires leg.node.Remote? && Channel.Enabled(leg.node.c, leg.node.chan, x)
  {
    leg.(node := leg.node.(chan := Channel.Apply(leg.node.c, leg.node.chan, x)))
  }

  /** Replaces a leg; whatever it newly put on the reply channel is queued, with no check for room. */
  ghost function With(s: Call, i: nat, leg: Leg): Call
    requires i < |s.legs|
  {
    s.(legs := s.legs[i := leg], queued := s.queued + Value(leg) - Value(s.legs[i]))
  }

  /** How many values the node has contributed, by error report and by delivery together. */
  ghost function Value(leg: Leg): nat {
    AnswersOf(leg) + if leg.progress == Reported then 1 else 0
  }

  ghost function Apply(s: Call, e: Step): Call
    requires Enabled(s, e)
  {
    match e
    case Report => With(s, s.next, s.legs[s.next].(progress := Reported)).(next := s.next + 1)
    case Enqueue => With(s, s.next, Entered(s.legs[s.next])).(next := s.next + 1)
    case NodeStep(i, x) => With(s, i, Moved(s.legs[i], x))
    case LocalReply(i) => With(s, i, s.legs[i].(node := InProcess(true)))
    case LocalRefuse(i) => With(s, i, s.legs[i].(node := InProcess(true)))
    case Consume => s.(queued := s.queued - 1, consumed := s.consumed + 1)
  }

  ghost predicate Run(s: Call, steps: seq<Step>, t: Call)
    decreases |steps|
  {
    if steps == [] then s == t
    else Enabled(s, steps[0]) && Run(Apply(s, steps[0]), steps[1..], t)
  }

  /** Before the call: channels in any reachable state that do not know its requests yet. */
  ghost predicate Fresh(leg: Leg) {
    && leg.progress == Undispatched && leg.req.hasChan && !leg.req.Streams()
    && match leg.node
       case Remote(c, chan) => Reachable(c, chan) && leg.req !in chan.log.issued
       case InProcess(answered) => !answered
       case Absent => true
  }

  ghost predicate Start(s: Call) {
    && s.next == 0 && s.queued == 0 && s.consumed == 0
    && forall i :: 0 <= i < |s.legs| ==> Fresh(s.legs[i])
  }

  // ---- one value per node -----------------------------------------------------------------

  /** The request is known to its channel exactly when it was enqueued, and the channel keeps its invariant. */
  ghost predicate LegOk(leg: Leg) {
    && leg.req.hasChan && !leg.req.Streams()
    && match leg.node
       case Remote(c, chan) =>
         Ownership(chan) && ClosingOk(c, chan) && (leg.req in chan.log.issued <==> leg.progress == Enqueued)
       case InProcess(answered) => answered ==> leg.progress == Enqueued
       case Absent => true
  }

  /** A node contributes at most one value, and none before the call has dealt with it. */
  lemma OneValue(leg: Leg)
    requires LegOk(leg)
    ensures Value(leg) <= 1 && (leg.progress == Undispatched ==> Value(leg) == 0)
  {
    if leg.node.Remote? {
      var s := leg.node.chan;
      assert Owners(s, leg.req) == if leg.req in s.log.issued then 1 else 0;
      assert FinalAnswers(s, leg.req) <= s.pools.finished[leg.req];
    }
  }

  lemma EnteredOk(leg: Leg)
    requires LegOk(leg) && leg.progress == Undispatched && CanEnqueue(leg)
    ensures LegOk(Entered(leg)) && Value(Entered(leg)) == Value(leg)
  {
    if leg.node.Remote? {
      OwnershipStep(leg.node.c, leg.node.chan, Channel.Call(Issue(leg.req)));
      ClosingStep(leg.node.c, leg.node.chan, Channel.Call(Issue(leg.req)));
    }
  }

  lemma AnswersGrow(c: Params, s: State, x: Channel.Step, r: Request)
    requires Channel.Enabled(c, s, x)
    ensures Channel.Apply(c, s, x).answers.errors[r] >= s.answers.errors[r]
    ensures Channel.Apply(c, s, x).answers.replies[r] >= s.answers.replies[r]
  {
  }

  lemma MovedOk(leg: Leg, x: Channel.Step)
    requires LegOk(leg) && leg.node.Remote? && x != Channel.Call(Issue(leg.req))
    requires Channel.Enabled(leg.node.c, leg.node.chan, x)
    ensures LegOk(Moved(leg, x)) && Value(Moved(leg, x)) >= Value(leg)
  {
    OwnershipStep(leg.node.c, leg.node.chan, x);
    ClosingStep(leg.node.c, leg.node.chan, x);
    StepIssues(leg.node.c, leg.node.chan, x);
    AnswersGrow(leg.node.c, leg.node.chan, x, leg.req);
  }

  ghost predicate LegsOk(legs: seq<Leg>) {
    forall i :: 0 <= i < |legs| ==> LegOk(legs[i])
  }

  /** Every value contributed so far is in the reply channel or was consumed. */
  ghost predicate CallOk(s: Call) {
    && LegsOk(s.legs) && s.next <= |s.legs|
    && (forall i :: s.next <= i < |s.legs| ==> s.legs[i].progress == Undispatched)
    && s.queued >= 0 && s.queued + s.consumed == Total(s.legs)
  }

  // ---- counting --------------------------------------------------------------------------

  ghost function Total(legs: seq<Leg>): nat {
    if legs == [] then 0 else Total(legs[..|legs| - 1]) + Value(legs[|legs| - 1])
  }

  lemma {:induction false} TotalUpdate(legs: seq<Leg>, i: nat, leg: Leg)
    requires i < |legs|
    ensures Total(legs[i := leg]) + Value(legs[i]) == Total(legs) + Value(leg)
  {
    var n := |legs| - 1;
    if i == n {
      assert legs[i := leg][..n] == legs[..n];
    } else {
      assert legs[i := leg][..n] == legs[..n][i := leg];
      TotalUpdate(legs[..n], i, leg);
    }
  }

  lemma {:induction false} TotalBound(legs: seq<Leg>)
    requires LegsOk(legs)
    ensures Total(legs) <= |legs|
  {
    if legs != [] {
      TotalBound(legs[..|legs| - 1]);
      OneValue(legs[|legs| - 1]);
    }
  }

  lemma WithOk(s: Call, i: nat, leg: Leg)
    requires CallOk(s) && i < |s.legs| && LegOk(leg) && Value(leg) >= Value(s.legs[i])
    ensures var t := With(s, i, leg); LegsOk(t.legs) && t.queued >= 0 && t.queued + t.consumed == Total(t.legs)
  {
    TotalUpdate(s.legs, i, leg);
  }

  lemma StepOk(s: Call, e: Step)
    requires CallOk(s) && Enabled(s, e)
    ensures CallOk(Apply(s, e))
  {
    match e
    case Report => WithOk(s, s.next, s.legs[s.next].(progress := Reported));
    case Enqueue =>
      EnteredOk(s.legs[s.next]);
      WithOk(s, s.next, Entered(s.legs[s.next]));
    case NodeStep(i, x) =>
      MovedOk(s.legs[i], x);
      WithOk(s, i, Moved(s.legs[i], x));
    case LocalReply(i) => WithOk(s, i, s.legs[i].(node := InProcess(true)));
    case LocalRefuse(i) => WithOk(s, i, s.legs[i].(node := InProcess(true)));
    case Consume =>
  }

  lemma {:induction false} RunOk(s: Call, steps: seq<Step>, t: Call)
    requires CallOk(s) && Run(s, steps, t)
    ensures CallOk(t) && |t.legs| == |s.legs|
    decreases |steps|
  {
    if steps != [] {
      StepOk(s, steps[0]);
      RunOk(Apply(s, steps[0]), steps[1..], t);
    }
  }

  lemma FreshOk(leg: Leg)
    requires Fresh(leg)
    ensures LegOk(leg) && Value(leg) == 0
  {
    if leg.node.Remote? {
      OwnershipReachable(leg.node.c, leg.node.chan);
      ClosingReachable(leg.node.c, leg.node.chan);
    }
    OneValue(leg);
  }

  lemma {:induction false} ZeroTotal(legs: seq<Leg>)
    requires forall i :: 0 <= i < |legs| ==> Value(legs[i]) == 0
    ensures Total(legs) == 0
  {
    if legs != [] {
      ZeroTotal(legs[..|legs| - 1]);
    }
  }

  lemma StartOk(s: Call)
    requires Start(s)
    ensures CallOk(s)
  {
    forall i | 0 <= i < |s.legs|
      ensures LegOk(s.legs[i]) && Value(s.legs[i]) == 0
    {
      FreshOk(s.legs[i]);
    }
    ZeroTotal(s.legs);
  }

  /**
   * The reply channel has capacity |legs|. In every run it holds at most that many values, so each
   * value the caller or a node puts on it, at most one per step, finds room: nobody ever blocks.
   */
  lemma {:induction false} RoomForEveryReply(s: Call, steps: seq<Step>, t: Call, e: Step)
    requires Start(s) && Run(s, steps, t) && Enabled(t, e)
    ensures |t.legs| == |s.legs| && 0 <= t.queued <= |t.legs|
    ensures Apply(t, e).queued > t.queued ==> t.queued < |t.legs| && Apply(t, e).queued == t.queued + 1
  {
    StartOk(s);
    RunOk(s, steps, t);
    TotalBound(t.legs);
    StepOk(t, e);
    TotalBound(Apply(t, e).legs);
    PushesOne(t, e);
  }

  /** No more values than nodes are ever put on the reply channel. */
  lemma {:induction false} Bounded(s: Call, steps: seq<Step>, t: Call)
    requires Start(s) && Run(s, steps, t)
    ensures |t.legs| == |s.legs| && 0 <= t.queued + t.consumed <= |s.legs|
  {
    StartOk(s);
    RunOk(s, steps, t);
    TotalBound(t.legs);
  }

  lemma PushesOne(s: Call, e: Step)
    requires CallOk(s) && Enabled(s, e)
    ensures Apply(s, e).queued <= s.queued + 1 && |Apply(s, e).legs| == |s.legs|
  {
    match e
    case Report => OneValue(s.legs[s.next]);
    case Enqueue => EnteredOk(s.legs[s.next]);
    case NodeStep(i, x) =>
      MovedOk(s.legs[i], x);
      OneValue(Moved(s.legs[i], x));
    case _ =>
  }

  /** Which steps put a value on the reply channel, and which take one off. */
  lemma StepValues(s: Call, e: Step)
    requires CallOk(s) && Enabled(s, e)
    ensures e.Report? || e.LocalReply? || e.LocalRefuse? ==> Apply(s, e).queued == s.queued + 1
    ensures e.Enqueue? ==> Apply(s, e).queued == s.queued
    ensures e.NodeStep? ==> Apply(s, e).queued == s.queued + AnswersOf(Moved(s.legs[e.i], e.e)) - AnswersOf(s.legs[e.i])
    ensures e.Consume? <==> Apply(s, e).consumed == s.consumed + 1
    ensures e.Consume? ==> Apply(s, e).queued == s.queued - 1
  {
    match e
    case Report => OneValue(s.legs[s.next]);
    case Enqueue => EnteredOk(s.legs[s.next]);
    case _ =>
  }

  // ---- a value from every node -----------------------------------------------------------

  /** The request was given to a node without a channel, which drops it. */
  ghost predicate Dropped(leg: Leg) {
    leg.node.Absent? && leg.progress == Enqueued
  }

  /** Nothing is in the hands of the channel's goroutines: the sender waits for a request, or has left. */
  ghost predicate AtRest(s: State) {
    && s.pools == Pools(multiset{}, multiset{}, multiset{}, multiset{}, s.pools.finished)
    && (s.sender.pc == Exited || (s.sender.pc == Idle && s.queue == [])) && s.receiver.pc != Delivering
  }

  /** The node is dispatched and at rest, and the response channel has room. */
  ghost predicate Rested(leg: Leg) {
    && leg.progress != Undispatched && leg.req.roomy
    && (leg.progress == Enqueued && leg.node.Remote? ==> AtRest(leg.node.chan))
    && (leg.progress == Enqueued ==> leg.node != InProcess(false))
  }

  /** The request is still in the buffer of the send queue or in the router. */
  ghost predicate LeftOver(leg: Leg) {
    && leg.progress == Enqueued && leg.node.Remote?
    && (leg.req in leg.node.chan.queue || InPending(leg.node.chan.pending, leg.req) == 1)
  }

  /** A node at rest has contributed exactly one value, unless it dropped the request or still has it. */
  lemma RestedValue(leg: Leg)
    requires LegOk(leg) && Rested(leg)
    ensures Value(leg) == if Dropped(leg) || LeftOver(leg) then 0 else 1
  {
    OneValue(leg);
    if leg.node.Remote? {
      var s := leg.node.chan;
      assert Owners(s, leg.req) == if leg.req in s.log.issued then 1 else 0;
      assert FinalAnswers(s, leg.req) == s.pools.finished[leg.req];
      assert leg.req in s.queue <==> multiset(s.queue)[leg.req] > 0;
    }
  }

  ghost predicate AllRested(s: Call) {
    forall i :: 0 <= i < |s.legs| ==> Rested(s.legs[i])
  }

  lemma {:induction false} TotalRested(legs: seq<Leg>)
    requires LegsOk(legs) && forall i :: 0 <= i < |legs| ==> Rested(legs[i])
    ensures Total(legs) == |legs| <==> forall i :: 0 <= i < |legs| ==> !Dropped(legs[i]) && !LeftOver(legs[i])
  {
    if legs != [] {
      var n := |legs| - 1;
      TotalRested(legs[..n]);
      TotalBound(legs[..n]);
      RestedValue(legs[n]);
      assert forall i :: 0 <= i < n ==> legs[..n][i] == legs[i];
    }
  }

  /**
   * Once all nodes are at rest, one value per node has arrived exactly if no node dropped the request
   * for lack of a channel and none still has it in its send buffer or router.
   */
  lemma {:induction false} AllRepliesIff(s: Call, steps: seq<Step>, t: Call)
    requires Start(s) && Run(s, steps, t) && AllRested(t)
    ensures t.queued + t.consumed == |s.legs| <==> forall i :: 0 <= i < |t.legs| ==> !Dropped(t.legs[i]) && !LeftOver(t.legs[i])
  {
    StartOk(s);
    RunOk(s, steps, t);
    TotalRested(t.legs);
  }

  // ---- nothing more arrives --------------------------------------------------------------

  /** The channel is done with the request, or its handler has answered. */
  ghost predicate Settled(leg: Leg) {
    && (leg.progress == Enqueued && leg.node.Remote? ==> leg.node.chan.pools.finished[leg.req] > 0)
    && (leg.progress == Enqueued ==> leg.node != InProcess(false))
  }

  /** The request is in the buffer of a channel whose sender has left. */
  ghost predicate Stranded(leg: Leg) {
    && leg.progress == Enqueued && leg.node.Remote?
    && leg.node.chan.sender.pc == Exited && leg.req in leg.node.chan.queue
  }

  ghost predicate Silent(leg: Leg) {
    Dropped(leg) || Stranded(leg)
  }

  /** The call is over for this node. */
  ghost predicate Over(leg: Leg) {
    leg.progress != Undispatched && leg.req.roomy && (Settled(leg) || Stranded(leg))
  }

  ghost predicate AllOver(s: Call) {
    forall i :: 0 <= i < |s.legs| ==> Over(s.legs[i])
  }

  /** The call is over with exactly one value, or silently with none. */
  lemma ExactlyOneValue(leg: Leg)
    requires LegOk(leg) && Over(leg)
    ensures Value(leg) == if Silent(leg) then 0 else 1
  {
    OneValue(leg);
    if leg.node.Remote? {
      var s := leg.node.chan;
      assert Owners(s, leg.req) == if leg.req in s.log.issued then 1 else 0;
      assert FinalAnswers(s, leg.req) == s.pools.finished[leg.req];
      assert leg.req in s.queue <==> multiset(s.queue)[leg.req] > 0;
    }
  }

  /** One-way requests are not registered, so for a multicast at rest everything is over. */
  lemma RestIsOver(leg: Leg)
    requires LegOk(leg) && Rested(leg) && leg.req.oneway
    ensures Over(leg) && (LeftOver(leg) <==> Stranded(leg))
  {
    RestedValue(leg);
    if leg.node.Remote? {
      var s := leg.node.chan;
      assert TwoWayOnly(s.pending) && InPending(s.pending, leg.req) == 0;
      assert Owners(s, leg.req) == if leg.req in s.log.issued then 1 else 0;
      assert leg.req in s.queue <==> multiset(s.queue)[leg.req] > 0;
    }
  }

  lemma BufferStays(c: Params, s: State, x: Channel.Step, r: Request)
    requires Channel.Enabled(c, s, x) && s.sender.pc == Exited && r in s.queue
    ensures Channel.Apply(c, s, x).sender.pc == Exited && r in Channel.Apply(c, s, x).queue
  {
    if x.Queue? {
      QueueStays(c, s, x.queue, r);
    } else if x.Prepare? || x.Transmit? || x.Settle? {
      SenderHasLeft(c, s, x);
    } else {
      BystanderSteps(c, s, x);
    }
  }

  lemma QueueStays(c: Params, s: State, e: QueueStep, r: Request)
    requires QueueEnabled(c, s, e) && s.sender.pc == Exited && r in s.queue
    ensures QueueApply(c, s, e).sender.pc == Exited && r in QueueApply(c, s, e).queue
  {
  }

  lemma SenderHasLeft(c: Params, s: State, x: Channel.Step)
    requires s.sender.pc == Exited && (x.Prepare? || x.Transmit? || x.Settle?)
    ensures !Channel.Enabled(c, s, x)
  {
  }

  lemma BystanderSteps(c: Params, s: State, x: Channel.Step)
    requires Channel.Enabled(c, s, x) && (x.Call? || x.Watching? || x.Listen? || x.Respond? || x.Close?)
    ensures Channel.Apply(c, s, x).sender.pc == s.sender.pc && Channel.Apply(c, s, x).queue == s.queue
  {
    match x
    case Call(e) => assert CallApply(s, e).sender == s.sender;
    case Watching(e) => assert WatchApply(s, e).queue == s.queue;
    case Listen(e) => assert RecvApply(c, s, e).sender == s.sender;
    case Respond(e) => assert RouteApply(c, s, e).sender == s.sender;
    case Close(e) => assert CloseApply(c, s, e).sender == s.sender;
  }

  lemma MovedOver(leg: Leg, x: Channel.Step)
    requires LegOk(leg) && leg.node.Remote? && x != Channel.Call(Issue(leg.req))
    requires Channel.Enabled(leg.node.c, leg.node.chan, x) && Over(leg)
    ensures Over(Moved(leg, x)) && (Silent(Moved(leg, x)) <==> Silent(leg))
  {
    MovedOk(leg, x);
    ExactlyOneValue(leg);
    FinishedStays(leg.node.c, leg.node.chan, x, leg.req);
    if Stranded(leg) {
      BufferStays(leg.node.c, leg.node.chan, x, leg.req);
    } else {
      ExactlyOneValue(Moved(leg, x));
    }
  }

  lemma AllDispatched(s: Call)
    requires CallOk(s) && AllOver(s)
    ensures s.next == |s.legs|
  {
    var progress := if s.next < |s.legs| then s.legs[s.next].progress else Reported;
  }

  /** Once the call is over for every node, it stays over, and who stays silent does not change. */
  lemma OverStep(s: Call, e: Step)
    requires CallOk(s) && AllOver(s) && Enabled(s, e)
    ensures AllOver(Apply(s, e)) && |Apply(s, e).legs| == |s.legs|
    ensures forall i :: 0 <= i < |s.legs| ==> (Silent(Apply(s, e).legs[i]) <==> Silent(s.legs[i]))
  {
    AllDispatched(s);
    if e.NodeStep? {
      MovedOver(s.legs[e.i], e.e);
    }
  }

  lemma {:induction false} OverRun(s: Call, steps: seq<Step>, t: Call)
    requires CallOk(s) && AllOver(s) && Run(s, steps, t)
    ensures CallOk(t) && AllOver(t) && |t.legs| == |s.legs|
    ensures forall i :: 0 <= i < |s.legs| ==> (Silent(t.legs[i]) <==> Silent(s.legs[i]))
    decreases |steps|
  {
    if steps != [] {
      StepOk(s, steps[0]);
      OverStep(s, steps[0]);
      OverRun(Apply(s, steps[0]), steps[1..], t);
    }
  }

  lemma {:induction false} SameTotal(a: seq<Leg>, b: seq<Leg>)
    requires |a| == |b| && LegsOk(a) && LegsOk(b)
    requires forall i :: 0 <= i < |a| ==> Over(a[i]) && Over(b[i]) && (Silent(a[i]) <==> Silent(b[i]))
    ensures Total(a) == Total(b)
  {
    if a != [] {
      var n := |a| - 1;
      SameTotal(a[..n], b[..n]);
      ExactlyOneValue(a[n]);
      ExactlyOneValue(b[n]);
    }
  }

  /** When a call is over, all its values have arrived: their number stays the same in every continuation. */
  lemma {:induction false} NothingMoreArrives(s: Call, steps: seq<Step>, t: Call)
    requires CallOk(s) && AllOver(s) && Run(s, steps, t)
    ensures t.queued + t.consumed == s.queued + s.consumed
  {
    OverRun(s, steps, t);
    SameTotal(s.legs, t.legs);
  }
}

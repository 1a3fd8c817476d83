/**
 * Conservation: in every interleaving each request has exactly one owner, and is therefore
 * neither lost nor duplicated and is answered at most once, however often it is re-sent.
 */
module ChannelOwnership {
  import opened Requests
  import opened Router
  import opened Channel

  /**
   * Whether the sender's hand owns its request. From Register on, a call that waits for a server
   * response belongs to the router; the sender only remembers it.
   */
  ghost predicate OwnsHand(x: Sender) {
    match x.pc
    case Ensuring | Signalling | Checking | Fetching | Registering | Refusing | Failing | Confirming | DrainRefusing => true
    case Arming | Sending | Sent | SendFailed | Clearing | Sweeping => !x.req.WantsServerResponse()
    case _ => false
  }

  ghost function Held(x: Sender, r: Request): nat {
    if x.req == r && OwnsHand(x) then 1 else 0
  }

  /** A delivery in flight owns a non-streaming request; a streaming one stays in the router. */
  ghost function InDelivery(x: Receiver, r: Request): nat {
    if x.req == r && x.pc == Delivering && !r.streaming then 1 else 0
  }

  ghost function Pooled(p: Pools, r: Request): nat {
    p.entering[r] + p.waiting[r] + p.retrying[r] + p.failing[r] + p.finished[r]
  }

  /** How many owners r has, counting "the channel is done with it" as one. */
  ghost function Owners(s: State, r: Request): nat {
    Pooled(s.pools, r) + multiset(s.queue)[r] + Held(s.sender, r) + InPending(s.pending, r) + InDelivery(s.receiver, r)
  }

  /** The answers that end r: every answer of a non-streaming call, the error of a streaming one. */
  ghost function FinalAnswers(s: State, r: Request): nat {
    s.answers.errors[r] + if r.Streams() then 0 else s.answers.replies[r]
  }

  ghost predicate Conserved(s: State) {
    forall r: Request :: Owners(s, r) == if r in s.log.issued then 1 else 0
  }

  ghost predicate UniqueIDs(s: State) {
    forall x, y :: x in s.log.issued && y in s.log.issued && x.WantsServerResponse() && y.WantsServerResponse() && x.msgID == y.msgID
                   ==> x == y
  }

  ghost predicate TwoWayOnly(p: Pending) {
    forall k :: k in p ==> p[k].WantsServerResponse()
  }

  /** Only calls that wait for a server response reach the router, and each is stored under its ID. */
  ghost predicate WellRouted(s: State) {
    && Keyed(s.pending) && TwoWayOnly(s.pending)
    && (s.receiver.pc == Delivering ==> s.receiver.req.WantsServerResponse())
    && (s.sender.pc == Confirming ==> s.sender.req.WantsSendConfirmation())
  }

  /** Answers and completion agree: exactly, when the response channel has room. */
  ghost predicate AnsweredOnce(s: State) {
    forall r: Request ::
      && FinalAnswers(s, r) <= s.pools.finished[r]
      && (r.hasChan && r.roomy ==> FinalAnswers(s, r) == s.pools.finished[r])
  }

  ghost predicate Ownership(s: State) {
    Conserved(s) && UniqueIDs(s) && WellRouted(s) && AnsweredOnce(s)
  }

  // ---- one step --------------------------------------------------------------------------

  /** A request in the sender's hand before Register has no entry its registration would overwrite. */
  lemma NoOverwrite(s: State)
    requires Ownership(s) && s.sender.pc == Registering && s.sender.req.WantsServerResponse()
    ensures s.sender.req.msgID !in s.pending
  {
    var r := s.sender.req;
    assert Owners(s, r) == 1;
    var x := if r.msgID in s.pending then s.pending[r.msgID] else r;
    var owners := Owners(s, x);
  }

  lemma CallOwners(s: State, e: CallStep, r: Request)
    requires CallEnabled(s, e)
    ensures Owners(CallApply(s, e), r) == Owners(s, r) + if e == Issue(r) then 1 else 0
  {
  }

  lemma TakeOwners(c: Params, s: State, r: Request)
    requires QueueEnabled(c, s, Take)
    ensures Owners(QueueApply(c, s, Take), r) == Owners(s, r)
  {
    assert s.queue == [s.queue[0]] + s.queue[1..];
  }

  lemma AdmitOwners(c: Params, s: State, e: QueueStep, r: Request)
    requires QueueEnabled(c, s, e) && (e.Deposit? || e.Handover?)
    ensures Owners(QueueApply(c, s, e), r) == Owners(s, r)
  {
  }

  lemma QueueOwners(c: Params, s: State, e: QueueStep, r: Request)
    requires QueueEnabled(c, s, e)
    ensures Owners(QueueApply(c, s, e), r) == Owners(s, r)
  {
    if e == Take {
      TakeOwners(c, s, r);
    } else if e.Deposit? || e.Handover? {
      AdmitOwners(c, s, e, r);
    }
  }

  lemma PrepareOwners(c: Params, s: State, e: PrepareStep, r: Request)
    requires PrepareEnabled(c, s, e)
    ensures Owners(PrepareApply(c, s, e), r) == Owners(s, r)
  {
  }

  lemma SendOwners(c: Params, s: State, e: SendStep, r: Request)
    requires SendEnabled(c, s, e)
    requires e == Register && s.sender.req.WantsServerResponse() ==> s.sender.req.msgID !in s.pending
    ensures Owners(SendApply(c, s, e), r) == Owners(s, r)
  {
    match e
    case Register => RegisterOwners(c, s, r);
    case Stop => StopOwners(c, s, r);
    case _ =>
  }

  lemma RegisterOwners(c: Params, s: State, r: Request)
    requires SendEnabled(c, s, Register)
    requires s.sender.req.WantsServerResponse() ==> s.sender.req.msgID !in s.pending
    ensures Owners(SendApply(c, s, Register), r) == Owners(s, r)
  {
  }

  lemma StopOwners(c: Params, s: State, r: Request)
    requires SendEnabled(c, s, Stop)
    ensures Owners(SendApply(c, s, Stop), r) == Owners(s, r)
  {
  }

  /** Emptying the router moves each entry to one of the two pools. */
  lemma SweptOwners(p: Pools, pending: Pending, r: Request)
    requires Keyed(pending)
    ensures Pooled(SweepPools(p, pending), r) == Pooled(p, r) + InPending(pending, r)
  {
    SweepPartition(pending, r);
  }

  lemma SenderSweepOwners(s: State, r: Request)
    requires Keyed(s.pending) && FinishEnabled(s, SenderSweep)
    ensures Owners(FinishApply(s, SenderSweep), r) == Owners(s, r)
  {
    SweptOwners(s.pools, s.pending, r);
  }

  lemma AnswerOwners(s: State, ok: bool, r: Request)
    requires FinishEnabled(s, Answer(ok))
    ensures Owners(FinishApply(s, Answer(ok)), r) == Owners(s, r)
  {
  }

  lemma FinishOwners(s: State, e: FinishStep, r: Request)
    requires Keyed(s.pending) && FinishEnabled(s, e)
    ensures Owners(FinishApply(s, e), r) == Owners(s, r)
  {
    match e
    case SenderSweep => SenderSweepOwners(s, r);
    case Answer(ok) => AnswerOwners(s, ok, r);
    case _ =>
  }

  lemma WatchOwners(s: State, e: WatchStep, r: Request)
    requires Keyed(s.pending) && WatchEnabled(s, e)
    ensures Owners(WatchApply(s, e), r) == Owners(s, r)
  {
    SweptOwners(s.pools, s.pending, r);
  }

  lemma RecvOwners(c: Params, s: State, e: RecvStep, r: Request)
    requires RecvEnabled(s, e)
    ensures Owners(RecvApply(c, s, e), r) == Owners(s, r)
  {
  }

  lemma FoundOwners(c: Params, s: State, r: Request)
    requires Keyed(s.pending) && RouteEnabled(s, Route)
    ensures Owners(RouteApply(c, s, Route), r) == Owners(s, r)
  {
  }

  lemma DeliverOwners(c: Params, s: State, ok: bool, r: Request)
    requires RouteEnabled(s, Deliver(ok))
    ensures Owners(RouteApply(c, s, Deliver(ok)), r) == Owners(s, r)
  {
  }

  lemma ReceiverSweepOwners(c: Params, s: State, r: Request)
    requires Keyed(s.pending) && RouteEnabled(s, ReceiverSweep)
    ensures Owners(RouteApply(c, s, ReceiverSweep), r) == Owners(s, r)
  {
    SweptOwners(s.pools, s.pending, r);
  }

  lemma RouteOwners(c: Params, s: State, e: RouteStep, r: Request)
    requires Keyed(s.pending) && RouteEnabled(s, e)
    ensures Owners(RouteApply(c, s, e), r) == Owners(s, r)
  {
    match e
    case Route => FoundOwners(c, s, r);
    case Deliver(ok) => DeliverOwners(c, s, ok, r);
    case ReceiverClear =>
    case ReceiverSweep => ReceiverSweepOwners(c, s, r);
  }

  lemma CloseOwners(c: Params, s: State, e: CloseStep, r: Request)
    requires Keyed(s.pending) && CloseEnabled(c, s, e)
    ensures Owners(CloseApply(c, s, e), r) == Owners(s, r)
  {
    SweepPartition(s.pending, r);
  }

  /** The step registers a call under a message ID that the router already holds. */
  ghost predicate Overwrites(s: State, e: Step) {
    e == Transmit(Register) && s.sender.req.WantsServerResponse() && s.sender.req.msgID in s.pending
  }

  lemma StepOwners(c: Params, s: State, e: Step, r: Request)
    requires Ownership(s) && Enabled(c, s, e)
    ensures Owners(Apply(c, s, e), r) == Owners(s, r) + if e == Call(Issue(r)) then 1 else 0
  {
    if e == Transmit(Register) && s.sender.req.WantsServerResponse() {
      NoOverwrite(s);
    }
    MoveOwners(c, s, e, r);
  }

  lemma MoveOwners(c: Params, s: State, e: Step, r: Request)
    requires Keyed(s.pending) && Enabled(c, s, e) && !Overwrites(s, e)
    ensures Owners(Apply(c, s, e), r) == Owners(s, r) + if e == Call(Issue(r)) then 1 else 0
  {
    match e
    case Call(x) => CallOwners(s, x, r);
    case Queue(x) => QueueOwners(c, s, x, r);
    case Prepare(x) => PrepareOwners(c, s, x, r);
    case Transmit(x) => SendOwners(c, s, x, r);
    case Settle(x) => FinishOwners(s, x, r);
    case Watching(x) => WatchOwners(s, x, r);
    case Listen(x) => RecvOwners(c, s, x, r);
    case Respond(x) => RouteOwners(c, s, x, r);
    case Close(x) => CloseOwners(c, s, x, r);
  }

  /** From s to t, r gets at most one final answer per completion, and exactly one if there is room. */
  ghost predicate Settled(s: State, t: State, r: Request) {
    && FinalAnswers(t, r) + s.pools.finished[r] <= FinalAnswers(s, r) + t.pools.finished[r]
    && (r.hasChan && r.roomy ==> FinalAnswers(t, r) + s.pools.finished[r] == FinalAnswers(s, r) + t.pools.finished[r])
  }

  lemma QueueSettles(c: Params, s: State, e: QueueStep, r: Request)
    requires QueueEnabled(c, s, e)
    ensures Settled(s, QueueApply(c, s, e), r)
  {
  }

  lemma SendSettles(c: Params, s: State, e: SendStep, r: Request)
    requires SendEnabled(c, s, e)
    ensures Settled(s, SendApply(c, s, e), r)
  {
  }

  lemma FinishSettles(s: State, e: FinishStep, r: Request)
    requires WellRouted(s) && FinishEnabled(s, e)
    ensures Settled(s, FinishApply(s, e), r)
  {
  }

  lemma RouteSettles(c: Params, s: State, e: RouteStep, r: Request)
    requires WellRouted(s) && RouteEnabled(s, e)
    ensures Settled(s, RouteApply(c, s, e), r)
  {
  }

  lemma SendAnswersNobody(c: Params, s: State, e: SendStep)
    requires SendEnabled(c, s, e)
    ensures SendApply(c, s, e).answers == s.answers
  {
  }

  /** The other steps answer nobody. */
  lemma OtherSettles(c: Params, s: State, e: Step)
    requires Enabled(c, s, e) && (e.Call? || e.Prepare? || e.Watching? || e.Listen? || e.Close?)
    ensures Apply(c, s, e).answers == s.answers && Apply(c, s, e).pools.finished == s.pools.finished
  {
    match e
    case Call(x) => assert CallApply(s, x).pools.finished == s.pools.finished;
    case Prepare(x) => assert PrepareApply(c, s, x).pools == s.pools;
    case Watching(x) => assert WatchApply(s, x).pools.finished == s.pools.finished;
    case Listen(x) => assert RecvApply(c, s, x).pools == s.pools;
    case Close(x) => assert CloseApply(c, s, x).pools.finished == s.pools.finished;
  }

  lemma StepSettles(c: Params, s: State, e: Step, r: Request)
    requires WellRouted(s) && Enabled(c, s, e)
    ensures Settled(s, Apply(c, s, e), r)
  {
    match e
    case Queue(x) => QueueSettles(c, s, x, r);
    case Transmit(x) => SendSettles(c, s, x, r);
    case Settle(x) => FinishSettles(s, x, r);
    case Respond(x) => RouteSettles(c, s, x, r);
    case _ => OtherSettles(c, s, e);
  }

  lemma SenderRouting(c: Params, s: State, e: Step)
    requires WellRouted(s) && Enabled(c, s, e) && (e.Queue? || e.Prepare? || e.Transmit?)
    ensures WellRouted(Apply(c, s, e))
  {
    match e
    case Queue(x) => assert QueueApply(c, s, x).pending == s.pending;
    case Prepare(x) => assert PrepareApply(c, s, x).pending == s.pending;
    case Transmit(x) => assert SendApply(c, s, x).receiver == s.receiver;
  }

  lemma SweeperRouting(c: Params, s: State, e: Step)
    requires WellRouted(s) && Enabled(c, s, e) && (e.Call? || e.Settle? || e.Watching? || e.Close?)
    ensures WellRouted(Apply(c, s, e))
  {
  }

  lemma ReceiverRouting(c: Params, s: State, e: Step)
    requires WellRouted(s) && Enabled(c, s, e) && (e.Listen? || e.Respond?)
    ensures WellRouted(Apply(c, s, e))
  {
  }

  lemma StepRouting(c: Params, s: State, e: Step)
    requires WellRouted(s) && Enabled(c, s, e)
    ensures WellRouted(Apply(c, s, e))
  {
    if e.Queue? || e.Prepare? || e.Transmit? {
      SenderRouting(c, s, e);
    } else if e.Listen? || e.Respond? {
      ReceiverRouting(c, s, e);
    } else {
      SweeperRouting(c, s, e);
    }
  }

  /** Only a caller issues requests. */
  lemma SenderIssues(c: Params, s: State, e: Step)
    requires Enabled(c, s, e) && (e.Queue? || e.Prepare? || e.Transmit? || e.Settle?)
    ensures Apply(c, s, e).log.issued == s.log.issued
  {
  }

  lemma OtherIssues(c: Params, s: State, e: Step)
    requires Enabled(c, s, e) && (e.Watching? || e.Listen? || e.Respond? || e.Close?)
    ensures Apply(c, s, e).log == s.log
  {
  }

  lemma StepIssues(c: Params, s: State, e: Step)
    requires UniqueIDs(s) && Enabled(c, s, e)
    ensures Apply(c, s, e).log.issued == s.log.issued + (if e.Call? && e.call.Issue? then {e.call.r} else {})
    ensures UniqueIDs(Apply(c, s, e))
  {
    if e.Queue? || e.Prepare? || e.Transmit? || e.Settle? {
      SenderIssues(c, s, e);
    } else if !e.Call? {
      OtherIssues(c, s, e);
    }
  }

  /** Every step keeps the ownership invariant. */
  lemma OwnershipStep(c: Params, s: State, e: Step)
    requires Ownership(s) && Enabled(c, s, e)
    ensures Ownership(Apply(c, s, e))
  {
    var t := Apply(c, s, e);
    StepRouting(c, s, e);
    StepIssues(c, s, e);
    forall r: Request
      ensures Owners(t, r) == if r in t.log.issued then 1 else 0
      ensures FinalAnswers(t, r) <= t.pools.finished[r]
      ensures r.hasChan && r.roomy ==> FinalAnswers(t, r) == t.pools.finished[r]
    {
      StepOwners(c, s, e, r);
      StepSettles(c, s, e, r);
      assert Owners(s, r) == if r in s.log.issued then 1 else 0;
      assert FinalAnswers(s, r) <= s.pools.finished[r];
    }
  }

  lemma OwnershipInit(c: Params)
    ensures Ownership(Init(c))
  {
  }

  lemma {:induction false} OwnershipRun(c: Params, s: State, steps: seq<Step>, t: State)
    requires Ownership(s) && Run(c, s, steps, t)
    ensures Ownership(t)
  {
    if steps != [] {
      var n := |steps| - 1;
      var m :| Run(c, s, steps[..n], m) && Enabled(c, m, steps[n]) && t == Apply(c, m, steps[n]);
      OwnershipRun(c, s, steps[..n], m);
      OwnershipStep(c, m, steps[n]);
    }
  }

  // ---- every reachable state -------------------------------------------------------------

  lemma OwnershipReachable(c: Params, s: State)
    requires Reachable(c, s)
    ensures Ownership(s)
  {
    OwnershipInit(c);
    var steps :| Run(c, Init(c), steps, s);
    OwnershipRun(c, Init(c), steps, s);
  }

  /** Never lost, never duplicated: an issued request has exactly one owner, any other request none. */
  lemma ExactlyOneOwner(c: Params, s: State, r: Request)
    requires Reachable(c, s)
    ensures Owners(s, r) == if r in s.log.issued then 1 else 0
  {
    OwnershipReachable(c, s);
  }

  /**
   * At most one answer: however often r was sent and by whatever route it ended, a non-streaming
   * call has at most one answer and a streaming call at most one channel-generated error; a call
   * that ended has exactly that one if its response channel has room.
   */
  lemma AtMostOneAnswer(c: Params, s: State, r: Request)
    requires Reachable(c, s)
    ensures s.answers.errors[r] <= 1
    ensures !r.Streams() ==> s.answers.errors[r] + s.answers.replies[r] <= 1
    ensures FinalAnswers(s, r) <= s.pools.finished[r] <= 1
    ensures r.hasChan && r.roomy ==> FinalAnswers(s, r) == s.pools.finished[r]
  {
    OwnershipReachable(c, s);
    ExactlyOneOwner(c, s, r);
    assert FinalAnswers(s, r) <= s.pools.finished[r];
  }
}

/** What a broken stream means for the callers: calls are tried again, and errors have a cause. */
module ChannelRequeue {
  import opened Requests
  import opened Router
  import opened Channel
  import opened ChannelCallers
  import opened ChannelOwnership
  import opened ChannelOrder
  import opened ChannelRetry
  import opened ChannelTraces

  // ---- open channels ---------------------------------------------------------------------

  /** While the channel is open, only streaming requests are about to be failed outside the sender. */
  ghost predicate OnlyStreamsFail(s: State) {
    !s.shutdown.connDone ==> forall r: Request :: s.pools.failing[r] > 0 ==> r.streaming
  }

  /** The sender drains only a closed channel, and fails only calls that the router does not hold. */
  ghost predicate SenderOk(s: State) {
    && (s.shutdown.phase != Open ==> s.shutdown.connDone)
    && (s.sender.pc == Draining || s.sender.pc == DrainRefusing || s.sender.pc == Exited ==> s.shutdown.connDone)
    && (s.sender.pc == Failing ==> !s.sender.req.WantsServerResponse())
  }

  ghost predicate OpenOk(s: State) {
    OnlyStreamsFail(s) && SenderOk(s)
  }

  lemma CallOpen(s: State, e: CallStep)
    requires OpenOk(s) && CallEnabled(s, e)
    ensures OpenOk(CallApply(s, e))
  {
  }

  lemma QueueOpen(c: Params, s: State, e: QueueStep)
    requires OpenOk(s) && QueueEnabled(c, s, e)
    ensures OpenOk(QueueApply(c, s, e))
  {
  }

  lemma PrepareOpen(c: Params, s: State, e: PrepareStep)
    requires OpenOk(s) && PrepareEnabled(c, s, e)
    ensures OpenOk(PrepareApply(c, s, e))
  {
    var t := PrepareApply(c, s, e);
    assert t == s.(link := t.link, sender := t.sender, ready := t.ready);
  }

  lemma SendOpen(c: Params, s: State, e: SendStep)
    requires OpenOk(s) && SendEnabled(c, s, e)
    ensures OpenOk(SendApply(c, s, e))
  {
    var t := SendApply(c, s, e);
    assert t == s.(pending := t.pending, sender := t.sender, log := t.log, pools := t.pools);
  }

  lemma FinishOpen(s: State, e: FinishStep)
    requires OpenOk(s) && FinishEnabled(s, e)
    ensures OpenOk(FinishApply(s, e))
  {
    var t := FinishApply(s, e);
    forall r: Request | t.pools.failing[r] > 0
      ensures s.pools.failing[r] > 0 || r.streaming
    {
      assert e == SenderSweep ==> t.pools == SweepPools(s.pools, s.pending);
    }
  }

  lemma WatchOpen(s: State, e: WatchStep)
    requires OpenOk(s) && WatchEnabled(s, e)
    ensures OpenOk(WatchApply(s, e))
  {
    var t := WatchApply(s, e);
    forall r: Request | t.pools.failing[r] > 0
      ensures s.pools.failing[r] > 0 || r.streaming
    {
      assert e == WatcherSweep ==> t.pools == SweepPools(s.pools, s.pending);
    }
  }

  lemma RouteOpen(c: Params, s: State, e: RouteStep)
    requires OpenOk(s) && RouteEnabled(s, e)
    ensures OpenOk(RouteApply(c, s, e))
  {
    var t := RouteApply(c, s, e);
    forall r: Request | t.pools.failing[r] > 0
      ensures s.pools.failing[r] > 0 || r.streaming
    {
      assert e == ReceiverSweep ==> t.pools == SweepPools(s.pools, s.pending);
    }
  }

  lemma OtherOpen(c: Params, s: State, e: Step)
    requires OpenOk(s) && Enabled(c, s, e) && (e.Listen? || e.Close?)
    ensures OpenOk(Apply(c, s, e))
  {
    match e
    case Listen(x) => assert RecvApply(c, s, x).pools == s.pools && RecvApply(c, s, x).sender == s.sender;
    case Close(x) => assert CloseApply(c, s, x).sender == s.sender;
  }

  /** Every step keeps that on an open channel only streaming requests are failed outside the sender. */
  lemma OpenStep(c: Params, s: State, e: Step)
    requires OpenOk(s) && Enabled(c, s, e)
    ensures OpenOk(Apply(c, s, e))
  {
    match e
    case Call(x) => CallOpen(s, x);
    case Queue(x) => QueueOpen(c, s, x);
    case Prepare(x) => PrepareOpen(c, s, x);
    case Transmit(x) => SendOpen(c, s, x);
    case Settle(x) => FinishOpen(s, x);
    case Watching(x) => WatchOpen(s, x);
    case Respond(x) => RouteOpen(c, s, x);
    case _ => OtherOpen(c, s, e);
  }

  lemma {:induction false} OpenRun(c: Params, s: State, steps: seq<Step>, t: State)
    requires OpenOk(s) && Run(c, s, steps, t)
    ensures OpenOk(t)
  {
    if steps != [] {
      var n := |steps| - 1;
      var m :| Run(c, s, steps[..n], m) && Enabled(c, m, steps[n]) && t == Apply(c, m, steps[n]);
      OpenRun(c, s, steps[..n], m);
      OpenStep(c, m, steps[n]);
    }
  }

  lemma OpenReachable(c: Params, s: State)
    requires Reachable(c, s)
    ensures OpenOk(s)
  {
    var steps :| Run(c, Init(c), steps, s);
    OpenRun(c, Init(c), steps, s);
  }

  // ---- swept calls are tried again -------------------------------------------------------

  /** The step empties the router for another try. */
  ghost predicate Sweeps(e: Step) {
    e == Settle(SenderSweep) || e == Watching(WatcherSweep) || e == Respond(ReceiverSweep)
  }

  /** How often r was let into sendQ, plus one while it is on its way there. */
  ghost function Tries(s: State, r: Request): nat {
    Admissions(s, r) + s.pools.retrying[r]
  }

  ghost function OnItsWay(s: State, r: Request): nat {
    s.pools.entering[r] + s.pools.waiting[r] + s.pools.retrying[r]
  }

  lemma CallTries(s: State, e: CallStep, r: Request)
    requires CallEnabled(s, e) && !s.shutdown.connDone
    ensures Tries(CallApply(s, e), r) == Tries(s, r) + if e == Issue(r) then 1 else 0
  {
  }

  lemma QueueTries(c: Params, s: State, e: QueueStep, r: Request)
    requires QueueEnabled(c, s, e)
    ensures Tries(QueueApply(c, s, e), r) == Tries(s, r)
  {
  }

  lemma ElsewhereTries(c: Params, s: State, e: Step)
    requires Enabled(c, s, e) && !e.Call? && !e.Queue?
    ensures Apply(c, s, e).pools.retrying
            == s.pools.retrying + if Sweeps(e) then multiset(Retryable(s.pending)) else multiset{}
  {
    match e
    case Prepare(x) => assert PrepareApply(c, s, x).pools == s.pools;
    case Transmit(x) => assert SendApply(c, s, x).pools.retrying == s.pools.retrying;
    case Settle(x) => assert x != SenderSweep ==> FinishApply(s, x).pools.retrying == s.pools.retrying;
    case Watching(x) => assert x != WatcherSweep ==> WatchApply(s, x).pools == s.pools;
    case Listen(x) => assert RecvApply(c, s, x).pools == s.pools;
    case Respond(x) => assert x != ReceiverSweep ==> RouteApply(c, s, x).pools.retrying == s.pools.retrying;
    case Close(x) => assert CloseApply(c, s, x).pools.retrying == s.pools.retrying;
  }

  /** On an open channel exactly issuing a request, and sweeping a call that does not stream, lead to another try. */
  lemma StepTries(c: Params, s: State, e: Step, r: Request)
    requires Keyed(s.pending) && Enabled(c, s, e) && !s.shutdown.connDone
    ensures Tries(Apply(c, s, e), r) == Tries(s, r) + (if e == Call(Issue(r)) then 1 else 0)
                                        + (if Sweeps(e) && !r.streaming then InPending(s.pending, r) else 0)
  {
    match e
    case Call(x) => CallTries(s, x, r);
    case Queue(x) => QueueTries(c, s, x, r);
    case _ =>
      ElsewhereAdmissions(c, s, e);
      ElsewhereTries(c, s, e);
      SweepPartition(s.pending, r);
  }

  lemma StaysDone(c: Params, s: State, e: Step)
    requires Enabled(c, s, e) && s.shutdown.connDone
    ensures Apply(c, s, e).shutdown.connDone
  {
    match e
    case Call(x) => assert CallApply(s, x).shutdown == s.shutdown;
    case Queue(x) => assert QueueApply(c, s, x).shutdown == s.shutdown;
    case _ => StaysClosed(c, s, e);
  }

  lemma {:induction false} TriesGrow(c: Params, s: State, steps: seq<Step>, t: State, r: Request)
    requires Reachable(c, s) && Run(c, s, steps, t) && !t.shutdown.connDone
    ensures Reachable(c, t) && !s.shutdown.connDone && Tries(t, r) >= Tries(s, r)
  {
    if steps != [] {
      var n := |steps| - 1;
      var m :| Run(c, s, steps[..n], m) && Enabled(c, m, steps[n]) && t == Apply(c, m, steps[n]);
      if m.shutdown.connDone {
        StaysDone(c, m, steps[n]);
      }
      TriesGrow(c, s, steps[..n], m, r);
      OwnershipReachable(c, m);
      StepTries(c, m, steps[n], r);
      ReachesNext(c, m, steps[n], t);
    }
  }

  /**
   * A call that waits and does not stream when the router is swept is put back into sendQ: in every
   * continuation in which the channel stays open it has been accepted again, or is on its way there.
   */
  lemma {:induction false} SweptIsTriedAgain(c: Params, s: State, e: Step, steps: seq<Step>, t: State, r: Request)
    requires Reachable(c, s) && Enabled(c, s, e) && Sweeps(e) && InPending(s.pending, r) == 1 && !r.streaming
    requires Run(c, Apply(c, s, e), steps, t) && !t.shutdown.connDone
    ensures multiset(t.log.accepted)[r] + OnItsWay(t, r) > multiset(s.log.accepted)[r]
  {
    var m := Apply(c, s, e);
    ReachesNext(c, s, e, m);
    TriesGrow(c, m, steps, t, r);
    if s.shutdown.connDone {
      StaysDone(c, s, e);
    }
    OwnershipReachable(c, s);
    StepTries(c, s, e, r);
    ExactlyOneOwner(c, s, r);
  }

  /** A sweep that is due can always be carried out, with all the calls that wait now. */
  lemma {:induction false} SweepComes(c: Params, s: State) returns (steps: seq<Step>, m: State, e: Step)
    requires SweepDue(s)
    ensures Run(c, s, steps, m) && m.pending == s.pending && m.shutdown == s.shutdown && Enabled(c, m, e) && Sweeps(e)
  {
    steps, m := [], s;
    if s.watchers.sweeping > 0 {
      e := Watching(WatcherSweep);
    } else if s.receiver.pc == Resweeping {
      e := Respond(ReceiverSweep);
    } else {
      e := Settle(SenderSweep);
      if s.sender.pc == SendFailed {
        steps, m := OneMore(c, s, steps, m, Transmit(Stop));
      }
      if m.sender.pc == Clearing {
        steps, m := OneMore(c, s, steps, m, Settle(SenderClear));
      }
    }
  }

  lemma {:induction false} OneMore(c: Params, s: State, steps: seq<Step>, m: State, e: Step) returns (more: seq<Step>, t: State)
    requires Run(c, s, steps, m) && Enabled(c, m, e)
    ensures Run(c, s, more, t) && t == Apply(c, m, e)
  {
    more, t := steps + [e], Apply(c, m, e);
    assert more[..|more| - 1] == steps && more[|more| - 1] == e;
  }

  // ---- errors have a cause ---------------------------------------------------------------

  /** The step is the sender's own refusal: no stream could be had, or the context of the request is done. */
  ghost predicate Refusal(s: State, e: Step) {
    && e.Prepare?
    && match e.prepare
       case Ensure(how) => how == Refused
       case CheckCtx => s.sender.req in s.cancelled
       case Fetch => s.link.stream.None?
       case _ => false
  }

  ghost predicate Refuses(states: seq<State>, steps: seq<Step>, k: nat, r: Request)
    requires |states| == |steps| + 1 && k < |steps|
  {
    Refusal(states[k], steps[k]) && states[k].sender.req == r
  }

  lemma PrepareRefuses(c: Params, s: State, e: PrepareStep)
    requires PrepareEnabled(c, s, e)
    ensures PrepareApply(c, s, e).sender.req == s.sender.req
    ensures PrepareApply(c, s, e).sender.pc == Refusing <==> Refusal(s, Prepare(e))
  {
  }

  lemma OthersRefuse(c: Params, s: State, e: Step)
    requires Enabled(c, s, e) && (e.Queue? || e.Transmit? || e.Settle?)
    ensures Apply(c, s, e).sender.pc != Refusing || Apply(c, s, e).sender == s.sender
  {
    match e
    case Queue(x) => assert QueueApply(c, s, x).sender.pc != Refusing || QueueApply(c, s, x).sender == s.sender;
    case Transmit(x) => assert SendApply(c, s, x).sender.pc != Refusing;
    case Settle(x) => assert FinishApply(s, x).sender.pc != Refusing;
  }

  lemma RefusalBegins(c: Params, s: State, e: Step, t: State)
    requires Enabled(c, s, e) && t == Apply(c, s, e)
    ensures t.sender.pc == Refusing ==> t.sender.req == s.sender.req && (s.sender.pc == Refusing || Refusal(s, e))
  {
    if e.Prepare? {
      PrepareRefuses(c, s, e.prepare);
    } else if e.Queue? || e.Transmit? || e.Settle? {
      OthersRefuse(c, s, e);
    } else {
      OtherOrder(c, s, e);
    }
  }

  lemma RefusedNext(c: Params, states: seq<State>, steps: seq<Step>, k: nat)
    requires Trace(c, states, steps) && k < |steps|
    ensures var s, t := states[k], states[k + 1];
            t.sender.pc == Refusing ==> t.sender.req == s.sender.req && (s.sender.pc == Refusing || Refusal(s, steps[k]))
  {
    assert StepAt(c, states, steps, k);
    RefusalBegins(c, states[k], steps[k], states[k + 1]);
  }

  /** A refusal goes back to its cause, and the sender has done nothing else since. */
  lemma {:induction false} RefusalCause(c: Params, states: seq<State>, steps: seq<Step>, n: nat) returns (k: nat)
    requires Trace(c, states, steps) && n <= |steps| && states[n].sender.pc == Refusing
    ensures k < n && Refuses(states, steps, k, states[n].sender.req)
    ensures forall i :: k < i <= n ==> states[i].sender.pc == Refusing
  {
    assert n > 0;
    RefusedNext(c, states, steps, n - 1);
    if states[n - 1].sender.pc == Refusing {
      k := RefusalCause(c, states, steps, n - 1);
    } else {
      k := n - 1;
    }
  }

  lemma FinishErrors(s: State, e: FinishStep, r: Request)
    requires SenderOk(s) && FinishEnabled(s, e) && r.WantsServerResponse() && !s.shutdown.connDone
    ensures FinishApply(s, e).answers.errors[r] > s.answers.errors[r]
            ==> e == Answer(true) && s.sender.pc == Refusing && s.sender.req == r
  {
  }

  lemma QueueErrors(c: Params, s: State, e: QueueStep, r: Request)
    requires OnlyStreamsFail(s) && QueueEnabled(c, s, e) && !r.streaming && !s.shutdown.connDone
    ensures QueueApply(c, s, e).answers.errors[r] == s.answers.errors[r]
  {
  }

  lemma RouteErrors(c: Params, s: State, e: RouteStep)
    requires RouteEnabled(s, e)
    ensures RouteApply(c, s, e).answers.errors == s.answers.errors
  {
  }

  lemma ErrorsAdded(c: Params, s: State, e: Step, r: Request)
    requires OpenOk(s) && Enabled(c, s, e) && !s.shutdown.connDone && r.WantsServerResponse() && !r.streaming
    ensures Apply(c, s, e).answers.errors[r] > s.answers.errors[r]
            ==> e == Settle(Answer(true)) && s.sender.pc == Refusing && s.sender.req == r
  {
    match e
    case Queue(x) => QueueErrors(c, s, x, r);
    case Transmit(x) => SendAnswersNobody(c, s, x);
    case Settle(x) => FinishErrors(s, x, r);
    case Respond(x) => RouteErrors(c, s, x);
    case _ => OtherSettles(c, s, e);
  }

  /**
   * In every run, while the channel is open, a call that waits for a response and does not stream gets
   * an error only from the sender's own refusal: it had no stream, or the call's context was done.
   */
  lemma {:induction false} ErrorHasCause(c: Params, states: seq<State>, steps: seq<Step>, j: nat, r: Request) returns (k: nat)
    requires Trace(c, states, steps) && j < |steps| && !states[j].shutdown.connDone
    requires r.WantsServerResponse() && !r.streaming
    requires states[j + 1].answers.errors[r] > states[j].answers.errors[r]
    ensures steps[j] == Settle(Answer(true)) && k < j && Refuses(states, steps, k, r)
    ensures forall i :: k < i <= j ==> states[i].sender.pc == Refusing
  {
    assert StepAt(c, states, steps, j);
    StatesReachable(c, states, steps, j);
    OpenReachable(c, states[j]);
    ErrorsAdded(c, states[j], steps[j], r);
    k := RefusalCause(c, states, steps, j);
  }
}

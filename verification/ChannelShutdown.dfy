/**
 * Shutdown: when Close has returned and every goroutine has finished, nothing is left behind —
 * exactly for outbound channels with an unbuffered send queue.
 */
module ChannelShutdown {
  import opened Requests
  import opened Channel
  import opened ChannelOwnership
  import opened ChannelTraces

  /** Close has returned and all goroutines have finished. */
  ghost predicate Quiescent(s: State) {
    && s.shutdown.phase == Returned
    && s.sender.pc == Exited && s.receiver.pc == Gone
    && s.watchers == Watchers(multiset{}, 0)
    && s.pools == Pools(multiset{}, multiset{}, multiset{}, multiset{}, s.pools.finished)
  }

  /** Between registering a request and sweeping the router after the failed send. */
  ghost predicate WillSweep(pc: SenderPc) {
    pc == Arming || pc == Sending || pc == SendFailed || pc == Clearing || pc == Sweeping
  }

  ghost predicate ClosingOk(c: Params, s: State) {
    && (s.shutdown.phase != Open ==> s.shutdown.connDone)
    && (c.kind == Outbound && (s.shutdown.phase == Swept || s.shutdown.phase == Returned) ==>
          s.pending == map[] || WillSweep(s.sender.pc))
    && |s.queue| <= c.capacity
  }

  lemma SenderClosing(c: Params, s: State, e: Step)
    requires ClosingOk(c, s) && Enabled(c, s, e) && (e.Queue? || e.Prepare? || e.Transmit? || e.Settle?)
    ensures ClosingOk(c, Apply(c, s, e))
  {
    match e
    case Queue(x) => assert QueueApply(c, s, x).shutdown == s.shutdown;
    case Prepare(x) => assert PrepareApply(c, s, x).shutdown == s.shutdown;
    case Transmit(x) => assert SendApply(c, s, x).shutdown == s.shutdown;
    case Settle(x) => assert FinishApply(s, x).shutdown == s.shutdown;
  }

  lemma ClosingStep(c: Params, s: State, e: Step)
    requires ClosingOk(c, s) && Enabled(c, s, e)
    ensures ClosingOk(c, Apply(c, s, e))
  {
    match e
    case Call(x) => assert CallApply(s, x).shutdown == s.shutdown;
    case Watching(x) => assert WatchApply(s, x).shutdown == s.shutdown;
    case Listen(x) => assert RecvApply(c, s, x).shutdown == s.shutdown;
    case Respond(x) => assert RouteApply(c, s, x).shutdown == s.shutdown;
    case Close(x) => assert CloseApply(c, s, x).queue == s.queue;
    case _ => SenderClosing(c, s, e);
  }

  lemma {:induction false} ClosingRun(c: Params, s: State, steps: seq<Step>, t: State)
    requires ClosingOk(c, s) && Run(c, s, steps, t)
    ensures ClosingOk(c, t)
  {
    if steps != [] {
      var n := |steps| - 1;
      var m :| Run(c, s, steps[..n], m) && Enabled(c, m, steps[n]) && t == Apply(c, m, steps[n]);
      ClosingRun(c, s, steps[..n], m);
      ClosingStep(c, m, steps[n]);
    }
  }

  /** The sender leaves only when it has drained the queue. */
  lemma DrainedAtExit(c: Params, s: State, e: Step)
    requires Enabled(c, s, e) && s.sender.pc != Exited
    ensures Apply(c, s, e).sender.pc == Exited ==> e == Settle(DrainDone) && Apply(c, s, e).queue == []
  {
    match e
    case Call(x) => assert CallApply(s, x).sender == s.sender;
    case Queue(x) => assert QueueApply(c, s, x).sender.pc != Exited;
    case Prepare(x) => assert PrepareApply(c, s, x).sender.pc != Exited;
    case Transmit(x) => assert SendApply(c, s, x).sender.pc != Exited;
    case Settle(x) => assert FinishApply(s, x).queue == s.queue;
    case Watching(x) => assert WatchApply(s, x).sender.pc == s.sender.pc;
    case Listen(x) => assert RecvApply(c, s, x).sender == s.sender;
    case Respond(x) => assert RouteApply(c, s, x).sender == s.sender;
    case Close(x) => assert CloseApply(c, s, x).sender == s.sender;
  }

  lemma ClosingReachable(c: Params, s: State)
    requires Reachable(c, s)
    ensures ClosingOk(c, s)
  {
    var steps :| Run(c, Init(c), steps, s);
    ClosingRun(c, Init(c), steps, s);
  }

  /**
   * After the shutdown of an outbound channel the router is empty, and every issued request is
   * either finished or stranded in the buffer of sendQ.
   */
  lemma ShutdownAccounts(c: Params, s: State, r: Request)
    requires c.kind == Outbound && Reachable(c, s) && Quiescent(s)
    ensures s.pending == map[] && |s.queue| <= c.capacity
    ensures r in s.log.issued ==> s.pools.finished[r] + multiset(s.queue)[r] == 1
  {
    ClosingReachable(c, s);
    ExactlyOneOwner(c, s, r);
  }

  /** With the default unbuffered queue every request is finished, and answered once if it can be. */
  lemma ShutdownAnswersAll(c: Params, s: State, r: Request)
    requires c == Params(Outbound, 0) && Reachable(c, s) && Quiescent(s) && r in s.log.issued
    ensures s.pending == map[] && s.queue == []
    ensures s.pools.finished[r] == 1
    ensures r.hasChan && r.roomy && !r.Streams() ==> s.answers.errors[r] + s.answers.replies[r] == 1
    ensures r.hasChan && r.roomy && r.Streams() ==> s.answers.errors[r] == 1
  {
    ShutdownAccounts(c, s, r);
    AtMostOneAnswer(c, s, r);
  }

  ghost predicate ShutdownComplete(c: Params) {
    forall s :: Reachable(c, s) && Quiescent(s) ==>
                  s.pending == map[] && forall r :: r in s.log.issued ==> s.pools.finished[r] == 1
  }

  // ---- the runs in which shutdown leaves a request behind --------------------------------

  const Victim := Request(1, 1, false, false, true, true)

  lemma Start(c: Params) returns (s: State)
    ensures s == Init(c) && Reachable(c, s)
  {
    s := Init(c);
    assert Run(c, s, [], s);
  }

  lemma Extend(c: Params, s: State, e: Step) returns (t: State)
    requires Reachable(c, s) && Enabled(c, s, e)
    ensures t == Apply(c, s, e) && Reachable(c, t)
  {
    t := Apply(c, s, e);
    ReachesNext(c, s, e, t);
  }

  lemma CloseAll(c: Params, s: State) returns (t: State)
    requires Reachable(c, s) && s.shutdown.phase == Open && s.pending == map[]
    ensures Reachable(c, t) && t == s.(shutdown := Shutdown(true, Returned))
  {
    t := Extend(c, s, Close(CloseCancel));
    t := Extend(c, t, Close(CloseSweep));
    t := Extend(c, t, Close(CloseReturn));
  }

  /** A caller has passed the outer check of Enqueue and waits in the inner select. */
  lemma VictimWaits(c: Params) returns (s: State)
    ensures Reachable(c, s)
    ensures s == Init(c).(log := Log({Victim}, [], 0, []), pools := Init(c).pools.(waiting := multiset{Victim}))
  {
    s := Start(c);
    s := Extend(c, s, Call(Issue(Victim)));
    s := Extend(c, s, Call(Pass(Victim)));
  }

  lemma SenderExits(c: Params, s: State) returns (t: State)
    requires Reachable(c, s) && s.sender.pc == Idle && s.shutdown.connDone && s.queue == []
    ensures Reachable(c, t) && t == s.(sender := s.sender.(pc := Exited))
  {
    t := Extend(c, s, Prepare(Leave));
    t := Extend(c, t, Settle(DrainDone));
  }

  lemma ReceiverExits(c: Params, s: State) returns (t: State)
    requires Reachable(c, s) && s.shutdown.connDone
    requires if c.kind == Outbound then s.receiver.pc == Looking && s.link.stream.None? else s.receiver.pc == Receiving
    ensures Reachable(c, t) && t == s.(receiver := s.receiver.(pc := Gone))
  {
    if c.kind == Outbound {
      t := Extend(c, s, Listen(Look));
      t := Extend(c, t, Listen(Wake(false)));
    } else {
      t := Extend(c, s, Listen(RecvError));
    }
  }

  /** With room in the buffer, the waiting caller deposits after the sender has drained sendQ and exited. */
  lemma StrandedInBuffer(c: Params) returns (s: State)
    requires c.capacity > 0
    ensures Reachable(c, s) && Quiescent(s) && Victim in s.log.issued && s.pools.finished[Victim] == 0
  {
    s := VictimWaits(c);
    s := CloseAll(c, s);
    s := Extend(c, s, Prepare(Connect(if c.kind == Outbound then Refused else Keep)));
    s := SenderExits(c, s);
    s := ReceiverExits(c, s);
    s := Extend(c, s, Queue(Deposit(Victim)));
  }

  /** The sender of an inbound channel takes the victim, and Close sweeps the router before it is registered. */
  lemma TakenBeforeClose(c: Params) returns (s: State)
    requires c == Params(Inbound, 0)
    ensures Reachable(c, s) && s.shutdown == Shutdown(true, Returned)
    ensures s.sender == Sender(Ensuring, Victim, 0, false) && s.receiver == Init(c).receiver
    ensures s.pools == Init(c).pools && s.queue == [] && s.watchers == Init(c).watchers
    ensures s.link == Init(c).link && s.cancelled == {} && s.log.issued == {Victim}
  {
    s := VictimWaits(c);
    s := Extend(c, s, Prepare(Connect(Keep)));
    s := Extend(c, s, Queue(Handover(Victim)));
    s := CloseAll(c, s);
  }

  /** Its stream is still alive, so the send succeeds. */
  lemma SentAfterClose(c: Params) returns (s: State)
    requires c == Params(Inbound, 0)
    ensures Reachable(c, s) && s.shutdown == Shutdown(true, Returned) && Victim.msgID in s.pending
    ensures s.sender.pc == Idle && s.receiver == Init(c).receiver
    ensures s.pools == Init(c).pools && s.queue == [] && s.watchers == Init(c).watchers
  {
    s := TakenBeforeClose(c);
    s := Extend(c, s, Prepare(Ensure(Keep)));
    s := Extend(c, s, Prepare(CheckCtx));
    s := Extend(c, s, Prepare(Fetch));
    s := RegisterAndSend(c, s);
  }

  /** The entry stays in the router. */
  lemma StrandedInRouter(c: Params) returns (s: State)
    requires c == Params(Inbound, 0)
    ensures Reachable(c, s) && Quiescent(s) && s.pending != map[]
  {
    s := SentAfterClose(c);
    s := SenderExits(c, s);
    s := ReceiverExits(c, s);
  }

  lemma RegisterAndSend(c: Params, s: State) returns (t: State)
    requires Reachable(c, s) && s.sender == Sender(Registering, Victim, s.sender.stream, false)
    requires ContextAlive(c, s, s.sender.stream)
    ensures Reachable(c, t)
    ensures t == s.(sender := s.sender.(pc := Idle), pending := s.pending[Victim.msgID := Victim], log := t.log)
    ensures t.log == s.log.(wire := s.log.wire + [WireEvent(LastTaken(s.log), Victim, s.sender.stream, true)])
  {
    t := Extend(c, s, Transmit(Register));
    t := Extend(c, t, Transmit(Arm));
    t := Extend(c, t, Transmit(Send(true)));
    t := Extend(c, t, Transmit(Stop));
  }

  /** Shutdown is complete in every run exactly for outbound channels whose send queue is unbuffered. */
  lemma ShutdownCompleteIff(c: Params)
    ensures ShutdownComplete(c) <==> c.kind == Outbound && c.capacity == 0
  {
    if c.capacity > 0 {
      var s := StrandedInBuffer(c);
    } else if c.kind == Inbound {
      var s := StrandedInRouter(c);
    } else {
      forall s | Reachable(c, s) && Quiescent(s)
        ensures s.pending == map[] && forall r :: r in s.log.issued ==> s.pools.finished[r] == 1
      {
        ShutdownAccounts(c, s, Victim);
        forall r | r in s.log.issued
          ensures s.pools.finished[r] == 1
        {
          ShutdownAnswersAll(c, s, r);
        }
      }
    }
  }
}

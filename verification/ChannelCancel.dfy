/** A request whose context is done is not sent any more, although it may still be retried. */
module ChannelCancel {
  import opened Requests
  import opened Channel

  /** The sender has passed the check of the request's context. */
  ghost predicate PastCheck(pc: SenderPc) {
    pc == Fetching || pc == Registering || pc == Arming || pc == Sending
  }

  /** r is cancelled and not past the check, and was not handed to Send since event w. */
  ghost predicate Halted(r: Request, w: nat, s: State) {
    && r in s.cancelled && !(s.sender.req == r && PastCheck(s.sender.pc))
    && forall k :: w <= k < |s.log.wire| ==> s.log.wire[k].req != r
  }

  lemma PrepareHalted(c: Params, r: Request, w: nat, s: State, e: PrepareStep)
    requires Halted(r, w, s) && PrepareEnabled(c, s, e)
    ensures Halted(r, w, PrepareApply(c, s, e))
  {
  }

  lemma SendHalted(c: Params, r: Request, w: nat, s: State, e: SendStep)
    requires Halted(r, w, s) && SendEnabled(c, s, e)
    ensures Halted(r, w, SendApply(c, s, e))
  {
  }

  lemma QueueHalted(c: Params, r: Request, w: nat, s: State, e: QueueStep)
    requires Halted(r, w, s) && QueueEnabled(c, s, e)
    ensures Halted(r, w, QueueApply(c, s, e))
  {
  }

  lemma OtherHalted(c: Params, s: State, e: Step)
    requires Enabled(c, s, e) && !e.Prepare? && !e.Transmit? && !e.Queue?
    ensures var t := Apply(c, s, e);
            && s.cancelled <= t.cancelled && t.log.wire == s.log.wire && t.sender.req == s.sender.req
            && (PastCheck(t.sender.pc) ==> PastCheck(s.sender.pc))
  {
    match e
    case Call(x) => assert CallApply(s, x).sender == s.sender;
    case Settle(x) => assert FinishApply(s, x).log == s.log;
    case Watching(x) => assert WatchApply(s, x).log == s.log;
    case Listen(x) => assert RecvApply(c, s, x).sender == s.sender;
    case Respond(x) => assert RouteApply(c, s, x).sender == s.sender;
    case Close(x) => assert CloseApply(c, s, x).sender == s.sender;
  }

  lemma StepHalted(c: Params, r: Request, w: nat, s: State, e: Step)
    requires Halted(r, w, s) && Enabled(c, s, e)
    ensures Halted(r, w, Apply(c, s, e))
  {
    match e
    case Prepare(x) => PrepareHalted(c, r, w, s, x);
    case Transmit(x) => SendHalted(c, r, w, s, x);
    case Queue(x) => QueueHalted(c, r, w, s, x);
    case _ => OtherHalted(c, s, e);
  }

  /** In every continuation a cancelled request that is not past the check is never handed to Send. */
  lemma {:induction false} CancelledNeverSent(c: Params, r: Request, s: State, steps: seq<Step>, t: State)
    requires r in s.cancelled && !(s.sender.req == r && PastCheck(s.sender.pc)) && Run(c, s, steps, t)
    ensures Halted(r, |s.log.wire|, t)
  {
    if steps != [] {
      var n := |steps| - 1;
      var m :| Run(c, s, steps[..n], m) && Enabled(c, m, steps[n]) && t == Apply(c, m, steps[n]);
      CancelledNeverSent(c, r, s, steps[..n], m);
      StepHalted(c, r, |s.log.wire|, m, steps[n]);
    }
  }

  /** The same from the moment the context of the request ends. */
  lemma {:induction false} CancelStopsSends(c: Params, r: Request, s: State, steps: seq<Step>, t: State)
    requires Enabled(c, s, Call(Cancel(r))) && !(s.sender.req == r && PastCheck(s.sender.pc))
    requires Run(c, Apply(c, s, Call(Cancel(r))), steps, t)
    ensures forall k :: |s.log.wire| <= k < |t.log.wire| ==> t.log.wire[k].req != r
  {
    var m := CallApply(s, Cancel(r));
    CancelledNeverSent(c, r, m, steps, t);
  }
}

/** An inbound channel that lost its stream: it never gets another, and refuses everything it dequeues. */
module ChannelInbound {
  import opened Requests
  import opened Channel
  import opened ChannelOrder
  import opened ChannelStreams

  /** r is finished, with an error on its response channel if that has room. */
  ghost predicate WasRefused(p: Pools, a: Answers, r: Request) {
    p.finished[r] >= 1 && (r.hasChan && r.roomy ==> a.errors[r] >= 1)
  }

  ghost predicate BeingRefused(pc: SenderPc) {
    pc == Ensuring || pc == Refusing || pc == DrainRefusing
  }

  /**
   * There is no stream; nothing taken from position n on reached the wire after event w, and each
   * of it was refused or, if it is the last one, is in the sender's hand to be refused.
   */
  ghost predicate CutOff(n: nat, w: nat, s: State) {
    && s.link.stream.None? && n <= s.log.taken <= |s.log.accepted|
    && (forall k :: w <= k < |s.log.wire| ==> s.log.wire[k].index < n)
    && (s.log.taken > n ==> s.sender.pc != Connecting && (HasHand(s.sender.pc) ==> BeingRefused(s.sender.pc)))
    && (forall j :: n <= j < s.log.taken ==>
          || WasRefused(s.pools, s.answers, s.log.accepted[j])
          || (j == s.log.taken - 1 && s.sender.req == s.log.accepted[j] && BeingRefused(s.sender.pc)))
  }

  lemma QueueCut(c: Params, n: nat, w: nat, s: State, e: QueueStep)
    requires Ordered(s) && CutOff(n, w, s) && QueueEnabled(c, s, e)
    ensures CutOff(n, w, QueueApply(c, s, e))
  {
    if e == Take {
      TakeCut(c, n, w, s);
    } else if e.Deposit? || e.Handover? {
      AdmitCut(c, n, w, s, e);
    } else {
      var t := QueueApply(c, s, e);
      assert t == s.(pools := t.pools, answers := t.answers);
      assert s.pools.finished <= t.pools.finished && s.answers.errors <= t.answers.errors;
    }
  }

  lemma TakeCut(c: Params, n: nat, w: nat, s: State)
    requires Ordered(s) && CutOff(n, w, s) && QueueEnabled(c, s, Take)
    ensures CutOff(n, w, QueueApply(c, s, Take))
  {
    var t := QueueApply(c, s, Take);
    assert t == s.(queue := t.queue, sender := t.sender, log := s.log.(taken := s.log.taken + 1));
    assert s.queue[0] == s.log.accepted[s.log.taken];
  }

  lemma AdmitCut(c: Params, n: nat, w: nat, s: State, e: QueueStep)
    requires Ordered(s) && CutOff(n, w, s) && QueueEnabled(c, s, e) && (e.Deposit? || e.Handover?)
    ensures CutOff(n, w, QueueApply(c, s, e))
  {
    var t := QueueApply(c, s, e);
    assert t.log.accepted == s.log.accepted + [e.r] && t.pools.finished == s.pools.finished && t.answers == s.answers;
    assert forall j :: n <= j < s.log.taken ==> s.log.accepted[j] == t.log.accepted[j];
    assert e.Handover? ==> s.log.taken == |s.log.accepted|;
  }

  lemma SendCut(c: Params, n: nat, w: nat, s: State, e: SendStep)
    requires Ordered(s) && CutOff(n, w, s) && SendEnabled(c, s, e)
    ensures CutOff(n, w, SendApply(c, s, e))
  {
    assert s.log.taken == n;
  }

  lemma FinishCut(n: nat, w: nat, s: State, e: FinishStep)
    requires Ordered(s) && CutOff(n, w, s) && FinishEnabled(s, e)
    ensures CutOff(n, w, FinishApply(s, e))
  {
    var t := FinishApply(s, e);
    assert s.pools.finished <= t.pools.finished && s.answers.errors <= t.answers.errors;
    if e.Answer? {
      assert s.log.taken > n ==> WasRefused(t.pools, t.answers, s.sender.req);
    }
  }

  lemma PrepareCut(c: Params, n: nat, w: nat, s: State, e: PrepareStep)
    requires c.kind == Inbound && CutOff(n, w, s) && PrepareEnabled(c, s, e)
    ensures CutOff(n, w, PrepareApply(c, s, e))
  {
  }

  lemma RouteCut(c: Params, n: nat, w: nat, s: State, e: RouteStep)
    requires CutOff(n, w, s) && RouteEnabled(s, e)
    ensures CutOff(n, w, RouteApply(c, s, e))
  {
    var t := RouteApply(c, s, e);
    assert s.pools.finished <= t.pools.finished && s.answers.errors <= t.answers.errors;
  }

  /** The other steps touch nothing that CutOff speaks of, except the link. */
  lemma OtherSteps(c: Params, s: State, e: Step)
    requires Enabled(c, s, e) && (e.Call? || e.Watching? || e.Listen? || e.Close?)
    ensures var t := Apply(c, s, e);
            && t.log.accepted == s.log.accepted && t.log.taken == s.log.taken && t.log.wire == s.log.wire
            && t.sender.pc == s.sender.pc && t.pools.finished == s.pools.finished && t.answers == s.answers
  {
    match e
    case Call(x) => assert CallApply(s, x).pools.finished == s.pools.finished;
    case Watching(x) => assert WatchApply(s, x).pools.finished == s.pools.finished;
    case Listen(x) => assert RecvApply(c, s, x).pools == s.pools;
    case Close(x) => assert CloseApply(c, s, x).pools.finished == s.pools.finished;
  }

  lemma StepCut(c: Params, n: nat, w: nat, s: State, e: Step)
    requires c.kind == Inbound && LinkOk(c, s.link) && Ordered(s) && CutOff(n, w, s) && Enabled(c, s, e)
    ensures CutOff(n, w, Apply(c, s, e))
  {
    match e
    case Queue(x) => QueueCut(c, n, w, s, x);
    case Prepare(x) => PrepareCut(c, n, w, s, x);
    case Transmit(x) => SendCut(c, n, w, s, x);
    case Settle(x) => FinishCut(n, w, s, x);
    case Respond(x) => RouteCut(c, n, w, s, x);
    case _ =>
      LinkStep(c, s, e);
      OtherSteps(c, s, e);
  }

  lemma {:induction false} CutRun(c: Params, n: nat, w: nat, s: State, steps: seq<Step>, t: State)
    requires c.kind == Inbound && LinkOk(c, s.link) && Sound(s) && CutOff(n, w, s) && Run(c, s, steps, t)
    ensures LinkOk(c, t.link) && Sound(t) && CutOff(n, w, t)
  {
    if steps != [] {
      var k := |steps| - 1;
      var m :| Run(c, s, steps[..k], m) && Enabled(c, m, steps[k]) && t == Apply(c, m, steps[k]);
      CutRun(c, n, w, s, steps[..k], m);
      StepCut(c, n, w, m, steps[k]);
      SoundStep(c, m, steps[k]);
      LinkStep(c, m, steps[k]);
    }
  }

  /**
   * From a state whose stream is gone, in every continuation: the channel stays without a stream,
   * no request dequeued afterwards is handed to Send, and each such request is being refused or
   * has been, with an error if its response channel has room.
   */
  lemma {:induction false} InboundStaysDown(c: Params, s: State, steps: seq<Step>, t: State)
    requires c.kind == Inbound && Reachable(c, s) && s.link.stream.None? && Run(c, s, steps, t)
    ensures CutOff(s.log.taken, |s.log.wire|, t)
  {
    SoundReachable(c, s);
    LinkReachable(c, s);
    CutRun(c, s.log.taken, |s.log.wire|, s, steps, t);
  }
}

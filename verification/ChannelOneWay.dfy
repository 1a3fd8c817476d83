/** One-way requests: confirmed exactly if they were sent. */
module ChannelOneWay {
  import opened Requests
  import opened Channel
  import opened ChannelOwnership
  import opened ChannelOrder

  ghost predicate SentOk(wire: seq<WireEvent>, r: Request) {
    exists k :: 0 <= k < |wire| && wire[k].req == r && wire[k].ok
  }

  /** The sender has sent its request and is not done with it. */
  ghost predicate JustSent(x: Sender) {
    x.pc == Sent || x.pc == Confirming
  }

  /** Replies only to requests that were sent, and no errors to those. */
  ghost predicate Told(s: State, r: Request) {
    && (s.answers.replies[r] > 0 ==> SentOk(s.log.wire, r))
    && (SentOk(s.log.wire, r) ==> s.answers.errors[r] == 0)
    && (SentOk(s.log.wire, r) ==> s.pools.finished[r] > 0 || (s.sender.req == r && JustSent(s.sender)))
  }

  ghost predicate OneWayOk(s: State) {
    && (JustSent(s.sender) ==> SentOk(s.log.wire, s.sender.req))
    && forall r: Request :: !r.WantsServerResponse() ==> Told(s, r)
  }

  lemma SentMore(wire: seq<WireEvent>, e: WireEvent, r: Request)
    ensures SentOk(wire + [e], r) <==> SentOk(wire, r) || (e.req == r && e.ok)
  {
    var all := wire + [e];
    assert all[|wire|] == e;
    assert forall k :: 0 <= k < |wire| ==> all[k] == wire[k];
  }

  /** A request that is being refused was not sent. */
  lemma RefusedTold(c: Params, s: State, x: Request, ok: bool, r: Request)
    requires Ownership(s) && OneWayOk(s) && QueueEnabled(c, s, ReplyError(x, ok)) && !r.WantsServerResponse()
    ensures Told(QueueApply(c, s, ReplyError(x, ok)), r)
  {
    assert Told(s, r) && Owners(s, r) == if r in s.log.issued then 1 else 0;
    var t := QueueApply(c, s, ReplyError(x, ok));
    assert t.sender == s.sender && t.log == s.log && t.answers.replies == s.answers.replies;
    if x != r {
      assert t.answers.errors[r] == s.answers.errors[r] && t.pools.finished[r] == s.pools.finished[r];
    }
  }

  lemma QueueTold(c: Params, s: State, e: QueueStep, r: Request)
    requires Ownership(s) && OneWayOk(s) && QueueEnabled(c, s, e) && !r.WantsServerResponse()
    ensures Told(QueueApply(c, s, e), r)
    ensures QueueApply(c, s, e).sender == s.sender || !JustSent(QueueApply(c, s, e).sender)
    ensures QueueApply(c, s, e).log.wire == s.log.wire
  {
    if e.ReplyError? {
      RefusedTold(c, s, e.r, e.ok, r);
    } else {
      assert Told(s, r);
      var t := QueueApply(c, s, e);
      assert t.answers == s.answers && t.pools.finished == s.pools.finished;
    }
  }

  lemma SendTold(c: Params, s: State, e: SendStep, r: Request)
    requires Ownership(s) && OneWayOk(s) && SendEnabled(c, s, e) && !r.WantsServerResponse()
    ensures Told(SendApply(c, s, e), r)
  {
    assert Told(s, r) && Owners(s, r) == if r in s.log.issued then 1 else 0;
    assert FinalAnswers(s, r) <= s.pools.finished[r];
    if e.Send? {
      SentMore(s.log.wire, WireEvent(LastTaken(s.log), s.sender.req, s.sender.stream, e.ok), r);
    }
  }

  lemma SendKeeps(c: Params, s: State, e: SendStep)
    requires OneWayOk(s) && SendEnabled(c, s, e)
    ensures var t := SendApply(c, s, e); JustSent(t.sender) ==> SentOk(t.log.wire, t.sender.req)
  {
    if e.Send? {
      SentMore(s.log.wire, WireEvent(LastTaken(s.log), s.sender.req, s.sender.stream, e.ok), s.sender.req);
    }
  }

  lemma FinishTold(s: State, e: FinishStep, r: Request)
    requires Ownership(s) && OneWayOk(s) && FinishEnabled(s, e) && !r.WantsServerResponse()
    ensures Told(FinishApply(s, e), r) && !JustSent(FinishApply(s, e).sender)
  {
    assert Told(s, r) && Owners(s, r) == if r in s.log.issued then 1 else 0;
  }

  lemma RouteTold(c: Params, s: State, e: RouteStep, r: Request)
    requires Ownership(s) && OneWayOk(s) && RouteEnabled(s, e) && !r.WantsServerResponse()
    ensures Told(RouteApply(c, s, e), r) && RouteApply(c, s, e).sender == s.sender && RouteApply(c, s, e).log == s.log
  {
    assert Told(s, r);
  }

  lemma PrepareTold(c: Params, s: State, e: PrepareStep, r: Request)
    requires OneWayOk(s) && PrepareEnabled(c, s, e) && !r.WantsServerResponse()
    ensures Told(PrepareApply(c, s, e), r) && !JustSent(PrepareApply(c, s, e).sender)
  {
    var t := PrepareApply(c, s, e);
    assert t == s.(link := t.link, sender := t.sender, ready := t.ready);
    assert Told(s, r);
  }

  lemma OtherTold(c: Params, s: State, e: Step, r: Request)
    requires OneWayOk(s) && Enabled(c, s, e) && (e.Call? || e.Watching? || e.Listen? || e.Close?) && !r.WantsServerResponse()
    ensures Told(Apply(c, s, e), r)
    ensures var t := Apply(c, s, e); t.sender == s.sender.(armed := t.sender.armed) && t.log.wire == s.log.wire
  {
    assert Told(s, r);
    OtherOrder(c, s, e);
    OtherSettles(c, s, e);
  }

  lemma StepTold(c: Params, s: State, e: Step, r: Request)
    requires Ownership(s) && OneWayOk(s) && Enabled(c, s, e) && !r.WantsServerResponse()
    ensures var t := Apply(c, s, e); Told(t, r) && (JustSent(t.sender) ==> SentOk(t.log.wire, t.sender.req))
  {
    match e
    case Queue(x) => QueueTold(c, s, x, r);
    case Prepare(x) => PrepareTold(c, s, x, r);
    case Transmit(x) =>
      SendTold(c, s, x, r);
      SendKeeps(c, s, x);
    case Settle(x) => FinishTold(s, x, r);
    case Respond(x) => RouteTold(c, s, x, r);
    case _ => OtherTold(c, s, e, r);
  }

  lemma OneWayStep(c: Params, s: State, e: Step)
    requires Ownership(s) && OneWayOk(s) && Enabled(c, s, e)
    ensures OneWayOk(Apply(c, s, e))
  {
    StepTold(c, s, e, NoRequest);
    forall r: Request | !r.WantsServerResponse()
      ensures Told(Apply(c, s, e), r)
    {
      StepTold(c, s, e, r);
    }
  }

  lemma {:induction false} OneWayRun(c: Params, s: State, steps: seq<Step>, t: State)
    requires Ownership(s) && OneWayOk(s) && Run(c, s, steps, t)
    ensures Ownership(t) && OneWayOk(t)
  {
    if steps != [] {
      var n := |steps| - 1;
      var m :| Run(c, s, steps[..n], m) && Enabled(c, m, steps[n]) && t == Apply(c, m, steps[n]);
      OneWayRun(c, s, steps[..n], m);
      OwnershipStep(c, m, steps[n]);
      OneWayStep(c, m, steps[n]);
    }
  }

  /**
   * In every reachable state a one-way request has a confirmation only if it was sent and an error only
   * if it was not; when it has ended, it has exactly the right one of the two, if there is room.
   */
  lemma {:induction false} ConfirmedIffSent(c: Params, s: State, r: Request)
    requires Reachable(c, s) && r.oneway
    ensures s.answers.replies[r] > 0 ==> SentOk(s.log.wire, r)
    ensures s.answers.errors[r] > 0 ==> !SentOk(s.log.wire, r)
    ensures s.pools.finished[r] > 0 && r.hasChan && r.roomy ==>
              if SentOk(s.log.wire, r) then s.answers.replies[r] == 1 && s.answers.errors[r] == 0
              else s.answers.replies[r] == 0 && s.answers.errors[r] == 1
  {
    OwnershipInit(c);
    var steps :| Run(c, Init(c), steps, s);
    OneWayRun(c, Init(c), steps, s);
    assert Told(s, r);
    AtMostOneAnswer(c, s, r);
  }
}

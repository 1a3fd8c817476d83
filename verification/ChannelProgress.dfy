/**
 * Shutdown makes progress: once the channel is being closed, its goroutines can take only so many
 * steps, and they come to rest with everything finished, exactly if no response is stuck on a
 * response channel that is full.
 */
module ChannelProgress {
  import opened Requests
  import opened Router
  import opened Channel
  import opened ChannelOwnership
  import opened ChannelShutdown
  import opened Quorums

  // ---- how much there is left to do ------------------------------------------------------

  ghost function SenderWork(x: Sender): nat {
    (if x.armed then 3 else 0) +
    match x.pc
    case Exited => 0
    case Draining => 1
    case Idle | DrainRefusing => 2
    case Refusing | Failing | Confirming => 3
    case Sweeping | Sent => 4
    case Clearing => 5
    case SendFailed => 6
    case Sending => 7
    case Announcing => 8
    case Connecting => 9
    case Arming => 11
    case Registering => 16
    case Fetching => 17
    case Checking => 18
    case Signalling => 24
    case Ensuring => 25
  }

  ghost function ReceiverWork(pc: ReceiverPc): nat {
    match pc
    case Gone => 0
    case Awaiting | Rechecking => 1
    case Resweeping => 2
    case Dropping => 3
    case Receiving => 4
    case Looking => 5
    case Delivering => 6
    case Routing => 7
  }

  ghost function PoolWork(p: Pools): nat {
    2 * |p.entering| + 25 * |p.waiting| + 3 * |p.retrying| + |p.failing|
  }

  ghost function WatchWork(w: Watchers): nat {
    2 * |w.firing| + w.sweeping
  }

  ghost function CloseWork(phase: ClosePhase): nat {
    match phase
    case Cancelled => 2
    case Swept => 1
    case _ => 0
  }

  /** An upper bound on the steps that are left. */
  ghost function Work(s: State): nat {
    PoolWork(s.pools) + 24 * |s.queue| + SenderWork(s.sender) + WatchWork(s.watchers) + ReceiverWork(s.receiver.pc)
    + 4 * |s.pending| + (if s.ready then 5 else 0) + CloseWork(s.shutdown.phase)
  }

  /** A step of the channel's own goroutines; the others are events from outside. */
  ghost predicate Internal(e: Step) {
    match e
    case Call(x) => x.Pass? || x.Quit?
    case Listen(x) => !x.Recv?
    case Close(x) => x == CloseSweep || x == CloseReturn
    case _ => true
  }

  // ---- every internal step leaves less to do ---------------------------------------------

  lemma {:induction false} ValuesSize(p: Pending)
    ensures |p.Values| <= |p|
    decreases |p|
  {
    if p != map[] {
      var k :| k in p;
      var q := p - {k};
      assert q.Keys == p.Keys - {k};
      ValuesSize(q);
      forall v | v in p.Values
        ensures v in q.Values + {p[k]}
      {
        var j :| j in p && p[j] == v;
        assert j != k ==> j in q && q[j] == v;
      }
      Subset(p.Values, q.Values + {p[k]});
    }
  }

  lemma SweepSize(p: Pending)
    ensures |Retryable(p)| + |Doomed(p)| <= |p|
  {
    ValuesSize(p);
    assert Retryable(p) !! Doomed(p) && Retryable(p) + Doomed(p) <= p.Values;
    Subset(Retryable(p) + Doomed(p), p.Values);
  }

  lemma SweepWork(p: Pools, pending: Pending)
    ensures PoolWork(SweepPools(p, pending)) <= PoolWork(p) + 3 * |pending|
  {
    SweepSize(pending);
  }

  lemma CallWork(s: State, e: CallStep)
    requires s.shutdown.connDone && CallEnabled(s, e) && (e.Pass? || e.Quit?)
    ensures Work(CallApply(s, e)) < Work(s)
  {
    var t := CallApply(s, e);
    assert t == s.(pools := t.pools);
    match e
    case Pass(r) => assert s.pools.entering == (s.pools.entering - multiset{r}) + multiset{r};
    case Quit(r) => assert s.pools.waiting == (s.pools.waiting - multiset{r}) + multiset{r};
  }

  lemma ReceivedWork(x: Sender, r: Request)
    requires AtReceive(x.pc)
    ensures SenderWork(Received(x, r)) <= SenderWork(x) + 23
  {
  }

  lemma TakeWork(c: Params, s: State)
    requires QueueEnabled(c, s, Take)
    ensures Work(QueueApply(c, s, Take)) < Work(s)
  {
    var t := QueueApply(c, s, Take);
    assert t == s.(queue := s.queue[1..], sender := t.sender, log := t.log);
    ReceivedWork(s.sender, s.queue[0]);
  }

  lemma AdmitWork(c: Params, s: State, e: QueueStep)
    requires QueueEnabled(c, s, e) && (e.Deposit? || e.Handover?)
    ensures Work(QueueApply(c, s, e)) < Work(s)
  {
    var t := QueueApply(c, s, e);
    assert t == s.(pools := t.pools, queue := t.queue, sender := t.sender, log := t.log);
    assert t.pools == s.pools.(waiting := t.pools.waiting) && s.pools.waiting == t.pools.waiting + multiset{e.r};
    if e.Handover? {
      ReceivedWork(s.sender, e.r);
    }
  }

  lemma RetryWork(c: Params, s: State, r: Request)
    requires QueueEnabled(c, s, Retry(r))
    ensures Work(QueueApply(c, s, Retry(r))) < Work(s)
  {
    var t := QueueApply(c, s, Retry(r));
    assert t == s.(pools := t.pools) && s.pools.retrying == t.pools.retrying + multiset{r};
  }

  lemma ReplyWork(c: Params, s: State, r: Request, ok: bool)
    requires QueueEnabled(c, s, ReplyError(r, ok))
    ensures Work(QueueApply(c, s, ReplyError(r, ok))) < Work(s)
  {
    var t := QueueApply(c, s, ReplyError(r, ok));
    assert t == s.(pools := t.pools, answers := t.answers) && s.pools.failing == t.pools.failing + multiset{r};
  }

  lemma QueueWork(c: Params, s: State, e: QueueStep)
    requires QueueEnabled(c, s, e)
    ensures Work(QueueApply(c, s, e)) < Work(s)
  {
    match e
    case Take => TakeWork(c, s);
    case Retry(r) => RetryWork(c, s, r);
    case ReplyError(r, ok) => ReplyWork(c, s, r, ok);
    case _ => AdmitWork(c, s, e);
  }

  lemma PrepareWork(c: Params, s: State, e: PrepareStep)
    requires PrepareEnabled(c, s, e)
    ensures Work(PrepareApply(c, s, e)) < Work(s)
  {
    var t := PrepareApply(c, s, e);
    assert t == s.(link := t.link, sender := t.sender, ready := t.ready);
  }

  lemma RegisterWork(c: Params, s: State)
    requires SendEnabled(c, s, Register)
    ensures Work(SendApply(c, s, Register)) < Work(s)
  {
    var t := SendApply(c, s, Register);
    assert t == s.(pending := t.pending, sender := t.sender);
    assert t.pending.Keys <= s.pending.Keys + {s.sender.req.msgID};
    Subset(t.pending.Keys, s.pending.Keys + {s.sender.req.msgID});
    assert |t.pending| == |t.pending.Keys| <= |s.pending| + 1;
  }

  lemma SendWork(c: Params, s: State, e: SendStep)
    requires SendEnabled(c, s, e)
    ensures Work(SendApply(c, s, e)) < Work(s)
  {
    var t := SendApply(c, s, e);
    if e == Register {
      RegisterWork(c, s);
    } else {
      assert t == s.(sender := t.sender, log := t.log, pools := t.pools);
      assert PoolWork(t.pools) == PoolWork(s.pools);
      assert SenderWork(t.sender) < SenderWork(s.sender);
    }
  }

  /** A sweep of the router, by whichever goroutine. */
  lemma SweptWork(s: State, x: Sender, w: Watchers, y: Receiver)
    requires SenderWork(x) + WatchWork(w) + ReceiverWork(y.pc)
             < SenderWork(s.sender) + WatchWork(s.watchers) + ReceiverWork(s.receiver.pc)
    ensures Work(s.(pending := map[], pools := SweepPools(s.pools, s.pending), sender := x, watchers := w, receiver := y)) < Work(s)
  {
    SweepWork(s.pools, s.pending);
  }

  lemma FinishWork(s: State, e: FinishStep)
    requires FinishEnabled(s, e)
    ensures Work(FinishApply(s, e)) < Work(s)
  {
    var t := FinishApply(s, e);
    match e
    case SenderSweep => SweptWork(s, t.sender, s.watchers, s.receiver);
    case Answer(_) =>
      assert t == s.(sender := t.sender, pools := Finish(s.pools, s.sender.req), answers := t.answers);
      assert SenderWork(t.sender) < SenderWork(s.sender);
    case _ => assert t == s.(link := t.link, sender := t.sender);
  }

  lemma WatchWorkLess(s: State, e: WatchStep)
    requires WatchEnabled(s, e)
    ensures Work(WatchApply(s, e)) < Work(s)
  {
    var t := WatchApply(s, e);
    if e == WatcherSweep {
      SweptWork(s, s.sender, t.watchers, s.receiver);
    } else {
      assert t == s.(link := t.link, sender := t.sender, watchers := t.watchers);
      assert e.WatcherClear? ==> s.watchers.firing == t.watchers.firing + multiset{e.stream};
    }
  }

  lemma RecvWork(c: Params, s: State, e: RecvStep)
    requires s.shutdown.connDone && RecvEnabled(s, e) && !e.Recv?
    ensures Work(RecvApply(c, s, e)) < Work(s)
  {
    var t := RecvApply(c, s, e);
    assert t == s.(receiver := t.receiver, ready := t.ready);
  }

  lemma FoundWork(c: Params, s: State)
    requires RouteEnabled(s, Route)
    ensures Work(RouteApply(c, s, Route)) < Work(s)
  {
    var t := RouteApply(c, s, Route);
    assert t == s.(receiver := t.receiver, pending := t.pending);
    assert t.pending.Keys <= s.pending.Keys;
    Subset(t.pending.Keys, s.pending.Keys);
    assert |t.pending| == |t.pending.Keys| <= |s.pending.Keys| == |s.pending|;
  }

  lemma RouteWork(c: Params, s: State, e: RouteStep)
    requires RouteEnabled(s, e)
    ensures Work(RouteApply(c, s, e)) < Work(s)
  {
    var t := RouteApply(c, s, e);
    match e
    case Route => FoundWork(c, s);
    case ReceiverSweep => SweptWork(s, s.sender, s.watchers, t.receiver);
    case Deliver(_) =>
      assert t == s.(receiver := t.receiver, pools := t.pools, answers := t.answers);
      assert PoolWork(t.pools) == PoolWork(s.pools);
    case ReceiverClear => assert t == s.(receiver := t.receiver, link := t.link);
  }

  lemma CloseWorkLess(c: Params, s: State, e: CloseStep)
    requires CloseEnabled(c, s, e) && (e == CloseSweep || e == CloseReturn)
    ensures Work(CloseApply(c, s, e)) < Work(s)
  {
    var t := CloseApply(c, s, e);
    assert t == s.(pending := t.pending, pools := t.pools, shutdown := t.shutdown);
    ValuesSize(s.pending);
  }

  /** While the channel is being closed, each internal step leaves less work. */
  lemma StepWork(c: Params, s: State, e: Step)
    requires s.shutdown.connDone && Enabled(c, s, e) && Internal(e)
    ensures Work(Apply(c, s, e)) < Work(s)
  {
    match e
    case Call(x) => CallWork(s, x);
    case Queue(x) => QueueWork(c, s, x);
    case Prepare(x) => PrepareWork(c, s, x);
    case Transmit(x) => SendWork(c, s, x);
    case Settle(x) => FinishWork(s, x);
    case Watching(x) => WatchWorkLess(s, x);
    case Listen(x) => RecvWork(c, s, x);
    case Respond(x) => RouteWork(c, s, x);
    case Close(x) => CloseWorkLess(c, s, x);
  }

  // ---- full response channels ------------------------------------------------------------

  /** The requests of `full` have a full response channel that nobody reads. */
  ghost predicate CanBeFull(full: set<Request>) {
    forall r :: r in full ==> r.hasChan && !r.roomy
  }

  /** The step puts a response on the channel of r. */
  ghost predicate DeliversTo(s: State, e: Step, r: Request) {
    || e == Queue(ReplyError(r, true))
    || (e == Settle(Answer(true)) && s.sender.req == r)
    || (e == Respond(Deliver(true)) && s.receiver.req == r)
  }

  /** An internal step that does not need room on a full channel. */
  ghost predicate Possible(c: Params, full: set<Request>, s: State, e: Step) {
    Enabled(c, s, e) && Internal(e) && forall r :: r in full ==> !DeliversTo(s, e, r)
  }

  /** A delivery on a full channel is under way or still to come, and no cancelled context ends it. */
  ghost predicate Jammed(s: State, r: Request) {
    && r !in s.cancelled
    && ((r in s.log.issued && s.pools.finished[r] == 0) || (s.receiver.pc == Delivering && s.receiver.req == r))
  }

  ghost predicate Unjammed(full: set<Request>, s: State) {
    forall r :: r in full ==> !Jammed(s, r)
  }

  ghost predicate Closing(s: State) {
    s.shutdown.connDone && s.shutdown.phase != Open
  }

  // ---- there is always a next step -------------------------------------------------------

  /** How a delivery to r ends if the channels of `full` are full. */
  ghost function Outcome(full: set<Request>, r: Request): bool {
    r.hasChan && r !in full
  }

  lemma OutcomeOk(full: set<Request>, s: State, r: Request)
    requires CanBeFull(full) && Unjammed(full, s) && Owners(s, r) == 1 && r in s.log.issued
    requires s.pools.finished[r] == 0
    ensures Deliverable(s, r, Outcome(full, r))
  {
    assert r in full ==> !Jammed(s, r);
  }

  lemma PoolsNext(c: Params, full: set<Request>, s: State) returns (e: Step)
    requires CanBeFull(full) && Unjammed(full, s) && Closing(s) && Conserved(s)
    requires s.pools != Pools(multiset{}, multiset{}, multiset{}, multiset{}, s.pools.finished)
    ensures Possible(c, full, s, e)
  {
    if s.pools.entering != multiset{} {
      var r :| r in s.pools.entering;
      e := Call(Pass(r));
    } else if s.pools.waiting != multiset{} {
      var r :| r in s.pools.waiting;
      e := Call(Quit(r));
    } else if s.pools.retrying != multiset{} {
      var r :| r in s.pools.retrying;
      e := Queue(Retry(r));
    } else {
      var r :| r in s.pools.failing;
      assert Owners(s, r) == if r in s.log.issued then 1 else 0;
      OutcomeOk(full, s, r);
      e := Queue(ReplyError(r, Outcome(full, r)));
    }
  }

  lemma SenderNext(c: Params, full: set<Request>, s: State) returns (e: Step)
    requires CanBeFull(full) && Unjammed(full, s) && Closing(s) && Conserved(s) && s.sender.pc != Exited
    ensures Possible(c, full, s, e)
  {
    var how := if c.kind == Outbound || s.link.stream.None? then Refused else Keep;
    match s.sender.pc
    case Connecting => e := Prepare(Connect(how));
    case Announcing | Signalling => e := Prepare(Signal);
    case Idle => e := Prepare(Leave);
    case Ensuring => e := Prepare(Ensure(how));
    case Checking => e := Prepare(CheckCtx);
    case Fetching => e := Prepare(Fetch);
    case Registering => e := Transmit(Register);
    case Arming => e := Transmit(Arm);
    case Sending => e := Transmit(Send(false));
    case Sent | SendFailed => e := Transmit(Stop);
    case Clearing => e := Settle(SenderClear);
    case Sweeping => e := Settle(SenderSweep);
    case Draining => e := if s.queue == [] then Settle(DrainDone) else Queue(Take);
    case Refusing | Failing | Confirming | DrainRefusing =>
      var r := s.sender.req;
      assert Held(s.sender, r) == 1;
      assert Owners(s, r) == if r in s.log.issued then 1 else 0;
      OutcomeOk(full, s, r);
      e := Settle(Answer(Outcome(full, r)));
  }

  lemma ReceiverNext(c: Params, full: set<Request>, s: State) returns (e: Step)
    requires CanBeFull(full) && Unjammed(full, s) && Closing(s) && s.receiver.pc != Gone
    ensures Possible(c, full, s, e)
  {
    match s.receiver.pc
    case Looking => e := Listen(Look);
    case Awaiting => e := Listen(Wake(false));
    case Receiving => e := Listen(RecvError);
    case Rechecking => e := Listen(Recheck);
    case Routing => e := Respond(Route);
    case Delivering =>
      var r := s.receiver.req;
      assert r in full ==> !Jammed(s, r);
      e := Respond(Deliver(Outcome(full, r)));
    case Dropping => e := Respond(ReceiverClear);
    case Resweeping => e := Respond(ReceiverSweep);
  }

  /** Unless all goroutines have finished, one of them can go on. */
  lemma Next(c: Params, full: set<Request>, s: State) returns (e: Step)
    requires CanBeFull(full) && Unjammed(full, s) && Closing(s) && Conserved(s) && !Quiescent(s)
    ensures Possible(c, full, s, e)
  {
    if s.pools != Pools(multiset{}, multiset{}, multiset{}, multiset{}, s.pools.finished) {
      e := PoolsNext(c, full, s);
    } else if s.sender.pc != Exited {
      e := SenderNext(c, full, s);
    } else if s.receiver.pc != Gone {
      e := ReceiverNext(c, full, s);
    } else if s.watchers.firing != multiset{} {
      var st :| st in s.watchers.firing;
      e := Watching(WatcherClear(st));
    } else if s.watchers.sweeping > 0 {
      e := Watching(WatcherSweep);
    } else {
      e := Close(if s.shutdown.phase == Cancelled then CloseSweep else CloseReturn);
    }
  }

  // ---- what internal steps keep ----------------------------------------------------------

  lemma SenderKeeps(c: Params, s: State, e: Step)
    requires Enabled(c, s, e) && (e.Queue? || e.Prepare? || e.Transmit? || e.Settle?)
    ensures var t := Apply(c, s, e);
            && t.shutdown == s.shutdown && t.cancelled == s.cancelled && t.receiver == s.receiver
            && s.pools.finished <= t.pools.finished
  {
    match e
    case Queue(x) => assert QueueApply(c, s, x).receiver == s.receiver;
    case Prepare(x) => assert PrepareApply(c, s, x).pools == s.pools;
    case Transmit(x) => assert SendApply(c, s, x).receiver == s.receiver;
    case Settle(x) => assert FinishApply(s, x).receiver == s.receiver;
  }

  lemma OtherKeeps(c: Params, s: State, e: Step)
    requires Enabled(c, s, e) && Internal(e) && Closing(s)
    requires e.Call? || e.Watching? || e.Listen? || e.Close?
    ensures var t := Apply(c, s, e);
            && Closing(t) && t.cancelled == s.cancelled && t.pools.finished == s.pools.finished
            && (t.receiver.pc == Delivering ==> t.receiver == s.receiver)
            && (s.receiver.pc == Delivering ==> t.receiver == s.receiver)
  {
    match e
    case Call(x) => assert CallApply(s, x).receiver == s.receiver;
    case Watching(x) => assert WatchApply(s, x).receiver == s.receiver;
    case Listen(x) => assert RecvApply(c, s, x).pools == s.pools;
    case Close(x) => assert CloseApply(c, s, x).receiver == s.receiver;
  }

  lemma RouteKeeps(c: Params, s: State, e: RouteStep)
    requires RouteEnabled(s, e)
    ensures var t := RouteApply(c, s, e);
            && t.shutdown == s.shutdown && t.cancelled == s.cancelled && s.pools.finished <= t.pools.finished
            && (t.receiver.pc == Delivering ==> s.receiver.msgID in s.pending && t.receiver.req == s.pending[s.receiver.msgID])
  {
  }

  lemma InternalIssues(c: Params, s: State, e: Step)
    requires Enabled(c, s, e) && Internal(e)
    ensures Apply(c, s, e).log.issued == s.log.issued
  {
    if e.Queue? || e.Prepare? || e.Transmit? || e.Settle? {
      SenderIssues(c, s, e);
    } else if !e.Call? {
      OtherIssues(c, s, e);
    }
  }

  /** An internal step jams nothing: a delivery it starts was still to come before. */
  lemma UnjammedStep(c: Params, full: set<Request>, s: State, e: Step)
    requires Ownership(s) && Closing(s) && Unjammed(full, s) && Enabled(c, s, e) && Internal(e)
    ensures Closing(Apply(c, s, e)) && Unjammed(full, Apply(c, s, e))
  {
    var t := Apply(c, s, e);
    InternalIssues(c, s, e);
    if e.Queue? || e.Prepare? || e.Transmit? || e.Settle? {
      SenderKeeps(c, s, e);
    } else if e.Respond? {
      RouteKeeps(c, s, e.route);
    } else {
      OtherKeeps(c, s, e);
    }
    forall r | r in full
      ensures !Jammed(t, r)
    {
      assert !Jammed(s, r);
      assert Owners(s, r) == if r in s.log.issued then 1 else 0;
    }
  }

  lemma QueueJams(c: Params, s: State, e: QueueStep, r: Request)
    requires QueueEnabled(c, s, e) && r.hasChan && !r.roomy && r !in s.cancelled && !DeliversTo(s, Queue(e), r)
    ensures QueueApply(c, s, e).pools.finished[r] == s.pools.finished[r]
  {
  }

  lemma SendJams(c: Params, s: State, e: SendStep, r: Request)
    requires SendEnabled(c, s, e) && r.hasChan
    ensures SendApply(c, s, e).pools.finished[r] == s.pools.finished[r]
  {
  }

  lemma FinishJams(s: State, e: FinishStep, r: Request)
    requires FinishEnabled(s, e) && r.hasChan && !r.roomy && r !in s.cancelled && !DeliversTo(s, Settle(e), r)
    ensures FinishApply(s, e).pools.finished[r] == s.pools.finished[r]
  {
  }

  lemma RouteJams(c: Params, s: State, e: RouteStep, r: Request)
    requires RouteEnabled(s, e) && r.hasChan && !r.roomy && r !in s.cancelled && !DeliversTo(s, Respond(e), r)
    ensures RouteApply(c, s, e).pools.finished[r] == s.pools.finished[r]
    ensures s.receiver.pc == Delivering && s.receiver.req == r ==> RouteApply(c, s, e).receiver == s.receiver
  {
  }

  /** A jammed delivery stays jammed as long as its channel stays full. */
  lemma JammedStep(c: Params, full: set<Request>, s: State, e: Step, r: Request)
    requires CanBeFull(full) && r in full && Jammed(s, r) && Closing(s) && Possible(c, full, s, e)
    ensures Closing(Apply(c, s, e)) && Jammed(Apply(c, s, e), r)
  {
    InternalIssues(c, s, e);
    match e
    case Queue(x) =>
      SenderKeeps(c, s, e);
      QueueJams(c, s, x, r);
    case Prepare(x) =>
      SenderKeeps(c, s, e);
      assert PrepareApply(c, s, x).pools == s.pools;
    case Transmit(x) =>
      SenderKeeps(c, s, e);
      SendJams(c, s, x, r);
    case Settle(x) =>
      SenderKeeps(c, s, e);
      FinishJams(s, x, r);
    case Respond(x) =>
      RouteKeeps(c, s, x);
      RouteJams(c, s, x, r);
    case _ => OtherKeeps(c, s, e);
  }

  // ---- whole runs ------------------------------------------------------------------------

  /** The steps are internal and lead from s to t while the channels of `full` stay full. */
  ghost predicate InternalRun(c: Params, full: set<Request>, s: State, steps: seq<Step>, t: State)
    decreases |steps|
  {
    if steps == [] then s == t
    else Possible(c, full, s, steps[0]) && InternalRun(c, full, Apply(c, s, steps[0]), steps[1..], t)
  }

  /** No run outlasts the work there is. */
  lemma {:induction false} RunsEnd(c: Params, full: set<Request>, s: State, steps: seq<Step>, t: State)
    requires CanBeFull(full) && Ownership(s) && Closing(s) && Unjammed(full, s) && InternalRun(c, full, s, steps, t)
    ensures |steps| <= Work(s) && Ownership(t) && Closing(t) && Unjammed(full, t)
    decreases |steps|
  {
    if steps != [] {
      var m := Apply(c, s, steps[0]);
      StepWork(c, s, steps[0]);
      OwnershipStep(c, s, steps[0]);
      UnjammedStep(c, full, s, steps[0]);
      RunsEnd(c, full, m, steps[1..], t);
    }
  }

  /** A run that cannot go on has finished all goroutines. */
  lemma {:induction false} LongestRunFinishes(c: Params, full: set<Request>, s: State, steps: seq<Step>, t: State)
    requires CanBeFull(full) && Ownership(s) && Closing(s) && Unjammed(full, s) && InternalRun(c, full, s, steps, t)
    requires forall e :: !Possible(c, full, t, e)
    ensures |steps| <= Work(s) && Quiescent(t)
  {
    RunsEnd(c, full, s, steps, t);
    if !Quiescent(t) {
      var e := Next(c, full, t);
      assert false;
    }
  }

  /** If nothing is jammed, the goroutines can finish. */
  lemma {:induction false} CanFinish(c: Params, full: set<Request>, s: State) returns (steps: seq<Step>, t: State)
    requires CanBeFull(full) && Ownership(s) && Closing(s) && Unjammed(full, s)
    ensures InternalRun(c, full, s, steps, t) && Quiescent(t)
    decreases Work(s)
  {
    if Quiescent(s) {
      steps, t := [], s;
    } else {
      var e := Next(c, full, s);
      StepWork(c, s, e);
      OwnershipStep(c, s, e);
      UnjammedStep(c, full, s, e);
      var rest: seq<Step>;
      rest, t := CanFinish(c, full, Apply(c, s, e));
      steps := [e] + rest;
      assert steps[1..] == rest;
    }
  }

  lemma {:induction false} StaysJammed(c: Params, full: set<Request>, s: State, steps: seq<Step>, t: State, r: Request)
    requires CanBeFull(full) && r in full && Jammed(s, r) && Closing(s) && Reachable(c, s) && InternalRun(c, full, s, steps, t)
    ensures Jammed(t, r) && Reachable(c, t)
    decreases |steps|
  {
    if steps != [] {
      JammedStep(c, full, s, steps[0], r);
      var m := Extend(c, s, steps[0]);
      StaysJammed(c, full, m, steps[1..], t, r);
    }
  }

  ghost predicate Finishes(c: Params, full: set<Request>, s: State) {
    exists steps, t :: InternalRun(c, full, s, steps, t) && Quiescent(t)
  }

  /**
   * Once Close has been called on an outbound channel with an unbuffered queue, its goroutines can
   * finish exactly if no response waits for room on a full channel of a live context.
   */
  lemma {:induction false} FinishesIff(c: Params, full: set<Request>, s: State)
    requires c == Params(Outbound, 0) && CanBeFull(full) && Reachable(c, s) && Closing(s)
    ensures Finishes(c, full, s) <==> Unjammed(full, s)
  {
    OwnershipReachable(c, s);
    if Unjammed(full, s) {
      var steps, t := CanFinish(c, full, s);
    } else if Finishes(c, full, s) {
      var r :| r in full && Jammed(s, r);
      var steps, t :| InternalRun(c, full, s, steps, t) && Quiescent(t);
      StaysJammed(c, full, s, steps, t, r);
      ShutdownAccounts(c, t, r);
    }
  }

  /** A request whose response channel need not have room. */
  const Cramped := Request(3, 3, false, false, true, false)

  /** A run to a channel that is being closed and can never come to rest while that response channel is full. */
  lemma {:induction false} NeverFinishes() returns (s: State)
    ensures Reachable(Params(Outbound, 0), s) && Closing(s) && Jammed(s, Cramped) && !Finishes(Params(Outbound, 0), {Cramped}, s)
  {
    var c := Params(Outbound, 0);
    s := Start(c);
    s := Extend(c, s, Call(Issue(Cramped)));
    s := Extend(c, s, Close(CloseCancel));
    FinishesIff(c, {Cramped}, s);
  }
}

/** A request that is issued after the Enqueue of another has returned is accepted after it, or not at all. */
module ChannelCallers {
  import opened Requests
  import opened Router
  import opened Channel
  import opened ChannelOwnership
  import opened ChannelOrder

  /** Enqueue of r has returned: sendQ accepted it, or it was refused and answered. */
  ghost predicate Left(s: State, r: Request) {
    r in s.log.accepted || s.pools.finished[r] > 0
  }

  // ---- only a closed channel refuses in Enqueue ------------------------------------------

  /** What the other goroutines hold was accepted once, or was refused because the channel is closed. */
  ghost predicate Origins(s: State) {
    && (forall k :: k in s.pending ==> s.pending[k] in s.log.accepted)
    && (s.receiver.pc == Delivering ==> s.receiver.req in s.log.accepted)
    && (forall r: Request :: s.pools.retrying[r] > 0 ==> r in s.log.accepted)
    && (s.shutdown.phase != Open ==> s.shutdown.connDone)
    && (!s.shutdown.connDone ==> forall r: Request :: s.pools.failing[r] > 0 || s.pools.finished[r] > 0 ==> r in s.log.accepted)
  }

  lemma CallOrigins(s: State, e: CallStep)
    requires Origins(s) && CallEnabled(s, e)
    ensures Origins(CallApply(s, e))
  {
  }

  lemma QueueOrigins(c: Params, s: State, e: QueueStep)
    requires Origins(s) && QueueEnabled(c, s, e)
    ensures Origins(QueueApply(c, s, e))
  {
    assert s.log.accepted <= QueueApply(c, s, e).log.accepted;
  }

  lemma PrepareOrigins(c: Params, s: State, e: PrepareStep)
    requires Origins(s) && PrepareEnabled(c, s, e)
    ensures Origins(PrepareApply(c, s, e))
  {
    var t := PrepareApply(c, s, e);
    assert t == s.(link := t.link, sender := t.sender, ready := t.ready);
  }

  lemma SendOrigins(c: Params, s: State, e: SendStep)
    requires Origins(s) && Ordered(s) && SendEnabled(c, s, e)
    ensures Origins(SendApply(c, s, e))
  {
    var t := SendApply(c, s, e);
    assert HasHand(s.sender.pc) ==> s.sender.req in s.log.accepted;
    assert t == s.(pending := t.pending, sender := t.sender, log := t.log, pools := t.pools);
    assert t.log.accepted == s.log.accepted;
  }

  lemma SweptOrigins(p: Pools, pending: Pending, accepted: seq<Request>, r: Request)
    requires forall k :: k in pending ==> pending[k] in accepted
    ensures SweepPools(p, pending).retrying[r] > 0 ==> p.retrying[r] > 0 || r in accepted
    ensures SweepPools(p, pending).failing[r] > 0 ==> p.failing[r] > 0 || r in accepted
  {
  }

  lemma FinishOrigins(s: State, e: FinishStep)
    requires Origins(s) && Ordered(s) && FinishEnabled(s, e)
    ensures Origins(FinishApply(s, e))
  {
    forall r: Request {
      SweptOrigins(s.pools, s.pending, s.log.accepted, r);
    }
  }

  lemma WatchOrigins(s: State, e: WatchStep)
    requires Origins(s) && WatchEnabled(s, e)
    ensures Origins(WatchApply(s, e))
  {
    forall r: Request {
      SweptOrigins(s.pools, s.pending, s.log.accepted, r);
    }
  }

  lemma RouteOrigins(c: Params, s: State, e: RouteStep)
    requires Origins(s) && RouteEnabled(s, e)
    ensures Origins(RouteApply(c, s, e))
  {
    forall r: Request {
      SweptOrigins(s.pools, s.pending, s.log.accepted, r);
    }
  }

  lemma RecvOrigins(c: Params, s: State, e: RecvStep)
    requires Origins(s) && RecvEnabled(s, e)
    ensures Origins(RecvApply(c, s, e))
  {
    var t := RecvApply(c, s, e);
    assert t == s.(receiver := t.receiver, ready := t.ready);
  }

  lemma CloseOrigins(c: Params, s: State, e: CloseStep)
    requires Origins(s) && CloseEnabled(c, s, e)
    ensures Origins(CloseApply(c, s, e))
  {
    var t := CloseApply(c, s, e);
    assert t == s.(pending := t.pending, pools := t.pools, shutdown := t.shutdown);
  }

  lemma OriginsStep(c: Params, s: State, e: Step)
    requires Origins(s) && Ordered(s) && Enabled(c, s, e)
    ensures Origins(Apply(c, s, e))
  {
    match e
    case Call(x) => CallOrigins(s, x);
    case Queue(x) => QueueOrigins(c, s, x);
    case Prepare(x) => PrepareOrigins(c, s, x);
    case Transmit(x) => SendOrigins(c, s, x);
    case Settle(x) => FinishOrigins(s, x);
    case Watching(x) => WatchOrigins(s, x);
    case Respond(x) => RouteOrigins(c, s, x);
    case Listen(x) => RecvOrigins(c, s, x);
    case Close(x) => CloseOrigins(c, s, x);
  }

  // ---- one request before another --------------------------------------------------------

  ghost predicate Absent(q: seq<Request>, n: nat, b: Request)
    requires n <= |q|
  {
    forall k :: 0 <= k < n ==> q[k] != b
  }

  /** Every position of b in q comes after one of a. */
  ghost predicate After(q: seq<Request>, a: Request, b: Request) {
    exists p :: 0 <= p < |q| && q[p] == a && Absent(q, p, b)
  }

  /** The channel was closed before b was issued, so sendQ never accepts it. */
  ghost predicate Barred(s: State, b: Request) {
    s.shutdown.connDone && b !in s.log.accepted && s.pools.waiting[b] == 0 && s.pools.retrying[b] == 0
  }

  ghost predicate Before(s: State, a: Request, b: Request) {
    After(s.log.accepted, a, b) || Barred(s, b)
  }

  lemma AfterGrows(q: seq<Request>, t: seq<Request>, a: Request, b: Request)
    requires After(q, a, b) && q <= t
    ensures After(t, a, b)
  {
    var p :| 0 <= p < |q| && q[p] == a && Absent(q, p, b);
    assert t[p] == a && Absent(t, p, b);
  }

  lemma QueueBarred(c: Params, s: State, e: QueueStep, b: Request)
    requires QueueEnabled(c, s, e)
    ensures s.log.accepted <= QueueApply(c, s, e).log.accepted
    ensures Barred(s, b) ==> Barred(QueueApply(c, s, e), b)
  {
  }

  lemma CallBarred(s: State, e: CallStep, b: Request)
    requires CallEnabled(s, e)
    ensures CallApply(s, e).log.accepted == s.log.accepted
    ensures Barred(s, b) ==> Barred(CallApply(s, e), b)
  {
  }

  /** Elsewhere only a sweep of the router adds to the requests that enter Enqueue again. */
  lemma OtherBarred(c: Params, s: State, e: Step, b: Request)
    requires Origins(s) && Enabled(c, s, e) && !e.Call? && !e.Queue?
    ensures Apply(c, s, e).log.accepted == s.log.accepted
    ensures Barred(s, b) ==> Barred(Apply(c, s, e), b)
  {
    ElsewhereAdmissions(c, s, e);
    StaysClosed(c, s, e);
    SweptOrigins(s.pools, s.pending, s.log.accepted, b);
  }

  lemma StaysClosed(c: Params, s: State, e: Step)
    requires Enabled(c, s, e) && !e.Call? && !e.Queue?
    ensures s.shutdown.connDone ==> Apply(c, s, e).shutdown.connDone
  {
    match e
    case Prepare(x) => assert PrepareApply(c, s, x).shutdown == s.shutdown;
    case Transmit(x) => assert SendApply(c, s, x).shutdown == s.shutdown;
    case Settle(x) => assert FinishApply(s, x).shutdown == s.shutdown;
    case Watching(x) => assert WatchApply(s, x).shutdown == s.shutdown;
    case Listen(x) => assert RecvApply(c, s, x).shutdown == s.shutdown;
    case Respond(x) => assert RouteApply(c, s, x).shutdown == s.shutdown;
    case Close(x) => assert s.shutdown.connDone ==> CloseApply(c, s, x).shutdown.connDone;
  }

  lemma AcceptedGrows(c: Params, s: State, e: Step, b: Request)
    requires Origins(s) && Enabled(c, s, e)
    ensures s.log.accepted <= Apply(c, s, e).log.accepted
    ensures Barred(s, b) ==> Barred(Apply(c, s, e), b)
  {
    match e
    case Call(x) => CallBarred(s, x, b);
    case Queue(x) => QueueBarred(c, s, x, b);
    case _ => OtherBarred(c, s, e, b);
  }

  /** Every step keeps the order of two requests. */
  lemma BeforeStep(c: Params, s: State, e: Step, a: Request, b: Request)
    requires Origins(s) && Before(s, a, b) && Enabled(c, s, e)
    ensures Before(Apply(c, s, e), a, b)
  {
    AcceptedGrows(c, s, e, b);
    if After(s.log.accepted, a, b) {
      AfterGrows(s.log.accepted, Apply(c, s, e).log.accepted, a, b);
    }
  }

  // ---- whole runs ------------------------------------------------------------------------

  ghost predicate Orderly(s: State) {
    Sound(s) && Origins(s)
  }

  lemma OrderlyStep(c: Params, s: State, e: Step)
    requires Orderly(s) && Enabled(c, s, e)
    ensures Orderly(Apply(c, s, e))
  {
    SoundStep(c, s, e);
    OriginsStep(c, s, e);
  }

  lemma {:induction false} OrderlyRun(c: Params, s: State, steps: seq<Step>, t: State)
    requires Orderly(s) && Run(c, s, steps, t)
    ensures Orderly(t)
  {
    if steps != [] {
      var n := |steps| - 1;
      var m :| Run(c, s, steps[..n], m) && Enabled(c, m, steps[n]) && t == Apply(c, m, steps[n]);
      OrderlyRun(c, s, steps[..n], m);
      OrderlyStep(c, m, steps[n]);
    }
  }

  lemma OrderlyReachable(c: Params, s: State)
    requires Reachable(c, s)
    ensures Orderly(s)
  {
    OwnershipInit(c);
    var steps :| Run(c, Init(c), steps, s);
    OrderlyRun(c, Init(c), steps, s);
  }

  lemma LeftStays(c: Params, s: State, e: Step, a: Request)
    requires Orderly(s) && Enabled(c, s, e) && Left(s, a)
    ensures Left(Apply(c, s, e), a)
  {
    AcceptedGrows(c, s, e, a);
    FinishedStays(c, s, e, a);
  }

  lemma FinishedStays(c: Params, s: State, e: Step, a: Request)
    requires Enabled(c, s, e)
    ensures Apply(c, s, e).pools.finished[a] >= s.pools.finished[a]
  {
    match e
    case Queue(x) => assert QueueApply(c, s, x).pools.finished[a] >= s.pools.finished[a];
    case Transmit(x) => assert SendApply(c, s, x).pools.finished[a] >= s.pools.finished[a];
    case Settle(x) => assert FinishApply(s, x).pools.finished[a] >= s.pools.finished[a];
    case Respond(x) => assert RouteApply(c, s, x).pools.finished[a] >= s.pools.finished[a];
    case _ => OtherSettles(c, s, e);
  }

  /** Where Enqueue of a has returned and b is still unknown, a comes first. */
  lemma ComesFirst(s: State, a: Request, b: Request)
    requires Orderly(s) && Left(s, a) && b !in s.log.issued
    ensures Before(s, a, b)
  {
    assert b !in s.log.accepted;
    assert Owners(s, b) == 0;
    if a in s.log.accepted {
      var p :| 0 <= p < |s.log.accepted| && s.log.accepted[p] == a;
      assert Absent(s.log.accepted, p, b);
    }
  }

  lemma {:induction false} BeforeRun(c: Params, s: State, a: Request, b: Request, steps: seq<Step>, t: State)
    requires Orderly(s) && Before(s, a, b) && Run(c, s, steps, t)
    ensures Orderly(t) && Before(t, a, b)
  {
    if steps != [] {
      var n := |steps| - 1;
      var m :| Run(c, s, steps[..n], m) && Enabled(c, m, steps[n]) && t == Apply(c, m, steps[n]);
      BeforeRun(c, s, a, b, steps[..n], m);
      OrderlyStep(c, m, steps[n]);
      BeforeStep(c, m, steps[n], a, b);
    }
  }

  /**
   * If Enqueue of a has returned before b is issued, then in every continuation each position of b
   * among the accepted requests follows one of a; if a was refused, b is never accepted.
   */
  lemma {:induction false} AcceptedInCallOrder(c: Params, s: State, a: Request, b: Request, steps: seq<Step>, t: State, q: nat)
    requires Reachable(c, s) && Left(s, a) && b !in s.log.issued && Run(c, s, steps, t)
    requires q < |t.log.accepted| && t.log.accepted[q] == b
    ensures exists p :: 0 <= p < q && t.log.accepted[p] == a
  {
    OrderlyReachable(c, s);
    ComesFirst(s, a, b);
    BeforeRun(c, s, a, b, steps, t);
    AfterMeans(t.log.accepted, a, b, q);
  }

  lemma AfterMeans(accepted: seq<Request>, a: Request, b: Request, q: nat)
    requires After(accepted, a, b) && q < |accepted| && accepted[q] == b && a != b
    ensures exists p :: 0 <= p < q && accepted[p] == a
  {
    var p :| 0 <= p < |accepted| && accepted[p] == a && Absent(accepted, p, b);
  }

  // ---- closed channels -------------------------------------------------------------------

  /** Once Close has begun, or the parent context has ended, no request issued later is ever accepted. */
  lemma {:induction false} ClosedRefuses(c: Params, s: State, e: CloseStep, steps: seq<Step>, t: State, b: Request)
    requires Reachable(c, s) && CloseEnabled(c, s, e) && (e == CloseCancel || e == ParentDone) && b !in s.log.issued
    requires Run(c, Apply(c, s, Close(e)), steps, t)
    ensures b !in t.log.accepted
  {
    var m := CloseApply(c, s, e);
    OrderlyReachable(c, s);
    OrderlyStep(c, s, Close(e));
    assert Owners(s, b) == 0;
    BarredRun(c, m, steps, t, b);
  }

  lemma {:induction false} BarredRun(c: Params, s: State, steps: seq<Step>, t: State, b: Request)
    requires Orderly(s) && Barred(s, b) && Run(c, s, steps, t)
    ensures Orderly(t) && Barred(t, b)
  {
    if steps != [] {
      var n := |steps| - 1;
      var m :| Run(c, s, steps[..n], m) && Enabled(c, m, steps[n]) && t == Apply(c, m, steps[n]);
      BarredRun(c, s, steps[..n], m, b);
      OrderlyStep(c, m, steps[n]);
      AcceptedGrows(c, m, steps[n], b);
    }
  }
}

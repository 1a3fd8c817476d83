/**
 * The order of sends: what reaches the wire follows the order in which sendQ accepted it, and a
 * streaming request reaches it at most once.
 */
module ChannelOrder {
  import opened Requests
  import opened Router
  import opened Channel
  import opened ChannelOwnership

  /** The sender is working on the request it took last. */
  ghost predicate HasHand(pc: SenderPc) {
    !(pc == Connecting || pc == Announcing || pc == Idle || pc == Draining || pc == Exited)
  }

  ghost predicate BeforeSend(pc: SenderPc) {
    pc == Ensuring || pc == Signalling || pc == Checking || pc == Fetching || pc == Registering || pc == Arming || pc == Sending
  }

  ghost predicate WireOk(log: Log) {
    && (forall k :: 0 <= k < |log.wire| ==> log.wire[k].index < log.taken <= |log.accepted|
                                            && log.accepted[log.wire[k].index] == log.wire[k].req)
    && (forall i, j :: 0 <= i < j < |log.wire| ==> log.wire[i].index < log.wire[j].index)
  }

  ghost predicate Ordered(s: State) {
    && s.log.taken <= |s.log.accepted|
    && s.queue == s.log.accepted[s.log.taken..]
    && (HasHand(s.sender.pc) ==> s.log.taken > 0 && s.log.accepted[s.log.taken - 1] == s.sender.req)
    && WireOk(s.log)
    && (BeforeSend(s.sender.pc) ==> forall k :: 0 <= k < |s.log.wire| ==> s.log.wire[k].index < s.log.taken - 1)
  }

  lemma TakeOrder(c: Params, s: State)
    requires Ordered(s) && QueueEnabled(c, s, Take)
    ensures Ordered(QueueApply(c, s, Take))
  {
    assert s.queue[0] == s.log.accepted[s.log.taken];
  }

  lemma AcceptOrder(c: Params, s: State, e: QueueStep)
    requires Ordered(s) && QueueEnabled(c, s, e) && (e.Deposit? || e.Handover?)
    ensures Ordered(QueueApply(c, s, e))
  {
    assert e.Handover? ==> s.log.taken == |s.log.accepted|;
  }

  lemma QueueOrder(c: Params, s: State, e: QueueStep)
    requires Ordered(s) && QueueEnabled(c, s, e)
    ensures Ordered(QueueApply(c, s, e))
  {
    if e == Take {
      TakeOrder(c, s);
    } else if e.Deposit? || e.Handover? {
      AcceptOrder(c, s, e);
    } else {
      assert QueueApply(c, s, e).log == s.log && QueueApply(c, s, e).sender == s.sender;
    }
  }

  lemma SendOrder(c: Params, s: State, e: SendStep)
    requires Ordered(s) && SendEnabled(c, s, e)
    ensures Ordered(SendApply(c, s, e))
  {
  }

  lemma PrepareOrder(c: Params, s: State, e: PrepareStep)
    requires Ordered(s) && PrepareEnabled(c, s, e)
    ensures Ordered(PrepareApply(c, s, e))
  {
  }

  lemma FinishOrder(s: State, e: FinishStep)
    requires Ordered(s) && FinishEnabled(s, e)
    ensures Ordered(FinishApply(s, e))
  {
  }

  lemma StepOrder(c: Params, s: State, e: Step)
    requires Ordered(s) && Enabled(c, s, e)
    ensures Ordered(Apply(c, s, e))
  {
    match e
    case Queue(x) => QueueOrder(c, s, x);
    case Prepare(x) => PrepareOrder(c, s, x);
    case Transmit(x) => SendOrder(c, s, x);
    case Settle(x) => FinishOrder(s, x);
    case _ => OtherOrder(c, s, e);
  }

  /** The other steps leave the sender at its work, and the queue and its history alone. */
  lemma OtherOrder(c: Params, s: State, e: Step)
    requires Enabled(c, s, e) && (e.Call? || e.Watching? || e.Listen? || e.Respond? || e.Close?)
    ensures var t := Apply(c, s, e);
            && t.log == s.log.(issued := t.log.issued) && t.queue == s.queue
            && t.sender == s.sender.(armed := t.sender.armed)
  {
    match e
    case Call(x) => assert CallApply(s, x).sender == s.sender;
    case Watching(x) => assert WatchApply(s, x).log == s.log;
    case Listen(x) => assert RecvApply(c, s, x).log == s.log;
    case Respond(x) => assert RouteApply(c, s, x).log == s.log;
    case Close(x) => assert CloseApply(c, s, x).log == s.log;
  }

  /** How often r was let into sendQ, or is on its way there. */
  ghost function Admissions(s: State, r: Request): nat {
    multiset(s.log.accepted)[r] + s.pools.entering[r] + s.pools.waiting[r]
  }

  ghost predicate AdmittedOnce(s: State) {
    && (forall r: Request :: r.streaming ==> Admissions(s, r) <= 1 && s.pools.retrying[r] == 0)
    && (forall r: Request :: r in s.log.accepted ==> r in s.log.issued)
  }

  lemma CallAdmissions(s: State, e: CallStep, r: Request)
    requires CallEnabled(s, e)
    ensures Admissions(CallApply(s, e), r) <= Admissions(s, r) + if e == Issue(r) then 1 else 0
    ensures CallApply(s, e).pools.retrying == s.pools.retrying
  {
  }

  lemma QueueAdmissions(c: Params, s: State, e: QueueStep, r: Request)
    requires QueueEnabled(c, s, e)
    ensures Admissions(QueueApply(c, s, e), r) <= Admissions(s, r) + if e == Retry(r) then 1 else 0
    ensures QueueApply(c, s, e).pools.retrying <= s.pools.retrying
  {
  }

  /** Outside Enqueue and sendQ, only a sweep of the router adds to the requests to be retried. */
  lemma ElsewhereAdmissions(c: Params, s: State, e: Step)
    requires Enabled(c, s, e) && !e.Call? && !e.Queue?
    ensures var t := Apply(c, s, e);
            && t.log.accepted == s.log.accepted && t.log.issued == s.log.issued
            && t.pools.entering == s.pools.entering && t.pools.waiting == s.pools.waiting
            && t.pools.retrying in {s.pools.retrying, s.pools.retrying + multiset(Retryable(s.pending))}
  {
    match e
    case Prepare(x) => assert PrepareApply(c, s, x).pools == s.pools;
    case Transmit(x) => assert SendApply(c, s, x).pools.retrying == s.pools.retrying;
    case Settle(x) => assert FinishApply(s, x).log == s.log;
    case Watching(x) => assert WatchApply(s, x).log == s.log;
    case Listen(x) => assert RecvApply(c, s, x).pools == s.pools;
    case Respond(x) => assert RouteApply(c, s, x).log == s.log;
    case Close(x) => assert CloseApply(c, s, x).pools.retrying == s.pools.retrying;
  }

  lemma StepAdmissions(c: Params, s: State, e: Step, r: Request)
    requires Ownership(s) && Enabled(c, s, e) && r.streaming
    requires Admissions(s, r) <= 1 && s.pools.retrying[r] == 0
    requires r in s.log.accepted ==> r in s.log.issued
    ensures Admissions(Apply(c, s, e), r) <= 1 && Apply(c, s, e).pools.retrying[r] == 0
  {
    match e
    case Call(x) =>
      CallAdmissions(s, x, r);
      assert Owners(s, r) == if r in s.log.issued then 1 else 0;
    case Queue(x) => QueueAdmissions(c, s, x, r);
    case _ =>
      ElsewhereAdmissions(c, s, e);
      SweepPartition(s.pending, r);
  }

  /** Only issued requests are let into sendQ. */
  lemma StepAccepts(c: Params, s: State, e: Step, r: Request)
    requires Ownership(s) && Enabled(c, s, e)
    requires r in s.log.accepted ==> r in s.log.issued
    ensures var t := Apply(c, s, e); r in t.log.accepted ==> r in t.log.issued
  {
    StepIssues(c, s, e);
    assert Owners(s, r) == if r in s.log.issued then 1 else 0;
    match e
    case Call(x) => assert CallApply(s, x).log.accepted == s.log.accepted;
    case Queue(x) => QueueAccepts(c, s, x, r);
    case _ => ElsewhereAdmissions(c, s, e);
  }

  lemma QueueAccepts(c: Params, s: State, e: QueueStep, r: Request)
    requires QueueEnabled(c, s, e)
    ensures r in QueueApply(c, s, e).log.accepted ==> r in s.log.accepted || r in s.pools.waiting
  {
  }

  // ---- whole runs ------------------------------------------------------------------------

  ghost predicate Sound(s: State) {
    Ownership(s) && Ordered(s) && AdmittedOnce(s)
  }

  lemma SoundStep(c: Params, s: State, e: Step)
    requires Sound(s) && Enabled(c, s, e)
    ensures Sound(Apply(c, s, e))
  {
    OwnershipStep(c, s, e);
    StepOrder(c, s, e);
    var t := Apply(c, s, e);
    forall r: Request | r.streaming
      ensures Admissions(t, r) <= 1 && t.pools.retrying[r] == 0
    {
      StepAdmissions(c, s, e, r);
    }
    forall r | r in t.log.accepted
      ensures r in t.log.issued
    {
      StepAccepts(c, s, e, r);
    }
  }

  lemma {:induction false} SoundRun(c: Params, s: State, steps: seq<Step>, t: State)
    requires Sound(s) && Run(c, s, steps, t)
    ensures Sound(t)
  {
    if steps != [] {
      var n := |steps| - 1;
      var m :| Run(c, s, steps[..n], m) && Enabled(c, m, steps[n]) && t == Apply(c, m, steps[n]);
      SoundRun(c, s, steps[..n], m);
      SoundStep(c, m, steps[n]);
    }
  }

  lemma SoundReachable(c: Params, s: State)
    requires Reachable(c, s)
    ensures Sound(s)
  {
    OwnershipInit(c);
    var steps :| Run(c, Init(c), steps, s);
    SoundRun(c, Init(c), steps, s);
  }

  /** The wire is a subsequence of what sendQ accepted, in the order of acceptance. */
  lemma WireFollowsAcceptance(c: Params, s: State, i: nat, j: nat)
    requires Reachable(c, s) && i < j < |s.log.wire|
    ensures s.log.wire[i].index < s.log.wire[j].index < |s.log.accepted|
    ensures s.log.accepted[s.log.wire[i].index] == s.log.wire[i].req
    ensures s.log.accepted[s.log.wire[j].index] == s.log.wire[j].req
  {
    SoundReachable(c, s);
  }

  lemma {:induction false} CountTwice(q: seq<Request>, i: nat, j: nat)
    requires i < j < |q| && q[i] == q[j]
    ensures multiset(q)[q[i]] >= 2
  {
    assert q == q[..j] + q[j..];
    assert q[i] in q[..j] && q[j] in q[j..];
  }

  /** A streaming request is handed to Send at most once, whatever happens to the streams. */
  lemma StreamingSentOnce(c: Params, s: State, i: nat, j: nat)
    requires Reachable(c, s) && i < |s.log.wire| && j < |s.log.wire|
    requires s.log.wire[i].req == s.log.wire[j].req && s.log.wire[i].req.streaming
    ensures i == j
  {
    SoundReachable(c, s);
    var a, b := s.log.wire[i].index, s.log.wire[j].index;
    var r := s.log.wire[i].req;
    assert s.log.accepted[a] == r == s.log.accepted[b];
    assert Admissions(s, r) <= 1;
    if a < b {
      CountTwice(s.log.accepted, a, b);
    } else if b < a {
      CountTwice(s.log.accepted, b, a);
    }
  }
}

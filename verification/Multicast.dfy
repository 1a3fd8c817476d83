/** The loop in which a waiting multicast drains its reply channel (multicast.go), and when it ends. */
module Multicast {
  import opened Requests
  import C = Channel
  import opened QuorumCall
  import R = Responses

  /** How the loop ends; `Waiting` if it blocks, with nothing to receive and a live context. */
  datatype Outcome = AllSent | SendFailure(errors: seq<R.NodeError>) | CtxError | Waiting

  /** No select before iteration n takes the branch of the context. */
  ghost predicate Undisturbed(ctx: seq<bool>, n: nat) {
    forall i :: 0 <= i < n && i < |ctx| ==> !ctx[i]
  }

  /**
   * One iteration per node; `arrivals` are the values that are ever put on the reply channel, and
   * ctx[i] says that the select of iteration i takes the branch of the context. The loop blocks
   * exactly if the values run out first, and reports all errors except those of skipped nodes.
   */
  method Drain<T>(size: nat, arrivals: seq<R.NodeResponse<T>>, ctx: seq<bool>) returns (out: Outcome, received: nat)
    requires |ctx| == size
    ensures received <= size && received <= |arrivals| && Undisturbed(ctx, received)
    ensures out.Waiting? <==> received == |arrivals| < size && !ctx[received]
    ensures out.CtxError? <==> received < size && ctx[received]
    ensures out.AllSent? <==> received == size && R.Errors(arrivals[..size], true) == []
    ensures out.SendFailure? ==> received == size && out.errors == R.Errors(arrivals[..size], true)
  {
    var errs := [];
    received := 0;
    while received < size
      invariant received <= size && received <= |arrivals| && Undisturbed(ctx, received)
      invariant errs == R.Errors(arrivals[..received], true)
    {
      if ctx[received] {
        return CtxError, received;
      }
      if received == |arrivals| {
        return Waiting, received;
      }
      var r := arrivals[received];
      assert arrivals[..received + 1][..received] == arrivals[..received];
      if r.err.Other? {
        errs := errs + [R.NodeError(r.nodeID, r.err)];
      }
      received := received + 1;
    }
    out := if errs == [] then AllSent else SendFailure(errs);
  }

  // ---- one multicast at rest -------------------------------------------------------------

  ghost predicate OneWay(s: Call) {
    forall i :: 0 <= i < |s.legs| ==> s.legs[i].req.oneway && s.legs[i].req.roomy
  }

  /** Some node never answers: it has no channel, or has the request in a buffer that nobody empties. */
  ghost predicate SomeSilent(s: Call) {
    exists i :: 0 <= i < |s.legs| && Silent(s.legs[i])
  }

  lemma {:induction false} RestMeans(s: Call, steps: seq<Step>, t: Call)
    requires Start(s) && Run(s, steps, t) && AllRested(t) && OneWay(t)
    ensures CallOk(t) && AllOver(t) && |t.legs| == |s.legs|
    ensures t.queued + t.consumed == |s.legs| <==> !SomeSilent(t)
  {
    StartOk(s);
    RunOk(s, steps, t);
    AllRepliesIff(s, steps, t);
    forall i | 0 <= i < |t.legs|
      ensures Over(t.legs[i]) && (LeftOver(t.legs[i]) <==> Stranded(t.legs[i]))
    {
      RestIsOver(t.legs[i]);
    }
  }

  /**
   * A multicast whose context stays alive, once its nodes are at rest: it waits, in every continuation,
   * exactly if a node dropped its request or has it in the buffer of a channel whose sender has left.
   */
  method WaitForSends<T>(
      ghost s: Call, ghost steps: seq<Step>, ghost t: Call, ghost more: seq<Step>, ghost u: Call,
      size: nat, arrivals: seq<R.NodeResponse<T>>, ctx: seq<bool>)
    returns (out: Outcome)
    requires Start(s) && Run(s, steps, t) && AllRested(t) && OneWay(t) && size == |s.legs|
    requires Run(t, more, u) && |arrivals| == u.queued + u.consumed && |ctx| == size && Undisturbed(ctx, size)
    ensures out.Waiting? <==> SomeSilent(t)
    ensures !out.Waiting? ==> out == if R.Errors(arrivals, true) == [] then AllSent else SendFailure(R.Errors(arrivals, true))
  {
    RestMeans(s, steps, t);
    NothingMoreArrives(t, more, u);
    Bounded(s, steps, t);
    var received;
    out, received := Drain(size, arrivals, ctx);
    assert arrivals[..|arrivals|] == arrivals;
  }

  // ---- all multicasts on a configuration -------------------------------------------------

  /** What a caller knows of a node: how it is reached. */
  datatype Kind = Wire(c: C.Params) | Here | Nowhere

  function KindOf(n: Node): Kind {
    match n
    case Remote(c, _) => Wire(c)
    case InProcess(_) => Here
    case Absent => Nowhere
  }

  ghost predicate On(s: Call, kinds: seq<Kind>) {
    |s.legs| == |kinds| && forall i :: 0 <= i < |kinds| ==> KindOf(s.legs[i].node) == kinds[i]
  }

  /** Every multicast over such nodes gets a value from each, once they are at rest. */
  ghost predicate AlwaysReturns(kinds: seq<Kind>) {
    forall s, steps, t :: Start(s) && On(s, kinds) && Run(s, steps, t) && AllRested(t) && OneWay(t)
                          ==> t.queued + t.consumed == |kinds|
  }

  /** The node has a channel, and that has no send buffer. */
  ghost predicate Reliable(k: Kind) {
    match k
    case Wire(c) => c.capacity == 0
    case Here => true
    case Nowhere => false
  }

  lemma StepKinds(s: Call, e: Step, kinds: seq<Kind>)
    requires On(s, kinds) && Enabled(s, e)
    ensures On(Apply(s, e), kinds)
  {
  }

  lemma {:induction false} RunKinds(s: Call, steps: seq<Step>, t: Call, kinds: seq<Kind>)
    requires On(s, kinds) && Run(s, steps, t)
    ensures On(t, kinds)
    decreases |steps|
  {
    if steps != [] {
      StepKinds(s, steps[0], kinds);
      RunKinds(Apply(s, steps[0]), steps[1..], t, kinds);
    }
  }

  lemma {:induction false} ReliableReturns(kinds: seq<Kind>, s: Call, steps: seq<Step>, t: Call)
    requires forall i :: 0 <= i < |kinds| ==> Reliable(kinds[i])
    requires Start(s) && On(s, kinds) && Run(s, steps, t) && AllRested(t) && OneWay(t)
    ensures t.queued + t.consumed == |kinds|
  {
    RestMeans(s, steps, t);
    RunKinds(s, steps, t, kinds);
    forall i | 0 <= i < |t.legs|
      ensures !Silent(t.legs[i])
    {
      assert Reliable(kinds[i]) && LegOk(t.legs[i]);
    }
  }

  // ---- runs in which a node stays silent -------------------------------------------------

  ghost predicate Reaches(s: Call, t: Call) {
    exists steps :: Run(s, steps, t)
  }

  lemma {:induction false} RunExtends(s: Call, steps: seq<Step>, t: Call, e: Step)
    requires Run(s, steps, t) && Enabled(t, e)
    ensures Run(s, steps + [e], Apply(t, e))
    decreases |steps|
  {
    if steps != [] {
      assert (steps + [e])[1..] == steps[1..] + [e];
      RunExtends(Apply(s, steps[0]), steps[1..], t, e);
    }
  }

  lemma More(s: Call, t: Call, e: Step) returns (u: Call)
    requires Reaches(s, t) && Enabled(t, e)
    ensures u == Apply(t, e) && Reaches(s, u)
  {
    u := Apply(t, e);
    var steps :| Run(s, steps, t);
    RunExtends(s, steps, t, e);
  }

  const Token := Request(1, 1, false, true, true, true)

  function NodeFor(k: Kind): Node {
    match k
    case Wire(c) => Remote(c, C.Init(c))
    case Here => InProcess(false)
    case Nowhere => Absent
  }

  /** A multicast over nodes that have done nothing so far. */
  function NewCall(kinds: seq<Kind>): Call {
    Call.Call(seq(|kinds|, j requires 0 <= j < |kinds| => Leg(NodeFor(kinds[j]), Undispatched, Token)), 0, 0, 0)
  }

  lemma NewCallStarts(kinds: seq<Kind>)
    ensures Start(NewCall(kinds)) && On(NewCall(kinds), kinds)
  {
    forall c: C.Params
      ensures C.Reachable(c, C.Init(c))
    {
      assert C.Run(c, C.Init(c), [], C.Init(c));
    }
  }

  /** The first n nodes are dispatched: node i got the request, and the others an error report. */
  ghost predicate DispatchedTo(s: Call, t: Call, i: nat, n: nat) {
    && i < |s.legs| == |t.legs| && t.next == n <= |s.legs|
    && forall j :: 0 <= j < |s.legs| ==>
                     if j >= n then t.legs[j] == s.legs[j]
                     else if j == i then CanEnqueue(s.legs[i]) && t.legs[i] == Entered(s.legs[i])
                     else t.legs[j] == s.legs[j].(progress := Reported)
  }

  lemma {:induction false} DispatchUpTo(s: Call, i: nat, n: nat) returns (t: Call)
    requires i < |s.legs| && s.next == 0 && n <= |s.legs| && CanEnqueue(s.legs[i])
    ensures Reaches(s, t) && DispatchedTo(s, t, i, n)
    decreases n
  {
    if n == 0 {
      t := s;
      assert Run(s, [], t);
    } else {
      t := DispatchUpTo(s, i, n - 1);
      t := More(s, t, if n - 1 == i then Enqueue else Report);
    }
  }

  /** A step of the channel of node i. */
  lemma NodeMore(s: Call, t: Call, i: nat, x: C.Step) returns (u: Call)
    requires Reaches(s, t) && Enabled(t, NodeStep(i, x))
    ensures Reaches(s, u) && u.legs == t.legs[i := Moved(t.legs[i], x)]
  {
    u := More(s, t, NodeStep(i, x));
  }

  ghost predicate HasChannel(t: Call, i: nat, c: C.Params, chan: C.State) {
    i < |t.legs| && t.legs[i] == Leg(Remote(c, chan), Enqueued, Token)
  }

  ghost function WaitingState(c: C.Params): C.State {
    C.Init(c).(log := C.Log({Token}, [], 0, []), pools := C.Init(c).pools.(waiting := multiset{Token}))
  }

  /** The caller passes the outer check of Enqueue. */
  lemma CallerWaits(s: Call, t: Call, i: nat, c: C.Params) returns (u: Call)
    requires Reaches(s, t) && HasChannel(t, i, c, C.CallApply(C.Init(c), C.Issue(Token)))
    ensures Reaches(s, u) && HasChannel(u, i, c, WaitingState(c)) && u.legs == t.legs[i := u.legs[i]]
  {
    u := NodeMore(s, t, i, C.Call(C.Pass(Token)));
    var chan := u.legs[i].node.chan;
    assert chan.log.issued == {Token} && chan.pools.waiting == multiset{Token} && chan.pools.entering == multiset{};
    assert chan == WaitingState(c);
  }

  /** The channel is closed while the caller waits in Enqueue. */
  lemma CloseUnder(s: Call, t: Call, i: nat, c: C.Params) returns (u: Call, chan: C.State)
    requires Reaches(s, t) && HasChannel(t, i, c, WaitingState(c))
    ensures Reaches(s, u) && HasChannel(u, i, c, chan) && u.legs == t.legs[i := u.legs[i]]
    ensures chan == WaitingState(c).(shutdown := C.Shutdown(true, C.Returned))
  {
    u := NodeMore(s, t, i, C.Close(C.CloseCancel));
    u := NodeMore(s, u, i, C.Close(C.CloseSweep));
    u := NodeMore(s, u, i, C.Close(C.CloseReturn));
    chan := u.legs[i].node.chan;
  }

  /** The sender connects, finds the channel closed and its queue empty, and leaves. */
  lemma SenderLeaves(s: Call, t: Call, i: nat, c: C.Params, before: C.State) returns (u: Call, chan: C.State)
    requires Reaches(s, t) && HasChannel(t, i, c, before) && before.shutdown.connDone
    requires before.sender == C.Init(c).sender && before.link == C.Init(c).link && before.queue == []
    ensures Reaches(s, u) && HasChannel(u, i, c, chan) && u.legs == t.legs[i := u.legs[i]]
    ensures chan == before.(sender := before.sender.(pc := C.Exited), link := chan.link)
  {
    u := NodeMore(s, t, i, C.Prepare(C.Connect(if c.kind == C.Outbound then C.Refused else C.Keep)));
    u := NodeMore(s, u, i, C.Prepare(C.Leave));
    u := NodeMore(s, u, i, C.Settle(C.DrainDone));
    chan := u.legs[i].node.chan;
  }

  /** Only then does the caller's select take the free place in the buffer. */
  lemma DepositLate(s: Call, t: Call, i: nat, c: C.Params, before: C.State) returns (u: Call)
    requires Reaches(s, t) && HasChannel(t, i, c, before) && c.capacity > 0 && before.queue == []
    requires before.pools == C.Init(c).pools.(waiting := multiset{Token}) && before.sender.pc == C.Exited
    requires before.receiver.pc != C.Delivering
    ensures Reaches(s, u) && |u.legs| == |t.legs| && u.legs == t.legs[i := u.legs[i]]
    ensures Rested(u.legs[i]) && Stranded(u.legs[i]) && u.legs[i].req == Token
  {
    u := NodeMore(s, t, i, C.Queue(C.Deposit(Token)));
    assert multiset{Token} - multiset{Token} == multiset{};
  }

  lemma {:induction false} SilentRun(kinds: seq<Kind>, i: nat) returns (s: Call, t: Call)
    requires i < |kinds| && !Reliable(kinds[i])
    ensures Start(s) && On(s, kinds) && Reaches(s, t) && AllRested(t) && OneWay(t) && i < |t.legs| && Silent(t.legs[i])
  {
    s := NewCall(kinds);
    NewCallStarts(kinds);
    t := DispatchUpTo(s, i, |kinds|);
    if kinds[i].Wire? {
      var c := kinds[i].c;
      var chan;
      t := CallerWaits(s, t, i, c);
      t, chan := CloseUnder(s, t, i, c);
      t, chan := SenderLeaves(s, t, i, c, chan);
      t := DepositLate(s, t, i, c, chan);
    }
  }

  /**
   * Every waiting multicast on a configuration returns once its nodes are at rest, exactly if each
   * node has a channel and no channel has a send buffer.
   */
  lemma {:induction false} AlwaysReturnsIff(kinds: seq<Kind>)
    ensures AlwaysReturns(kinds) <==> forall i :: 0 <= i < |kinds| ==> Reliable(kinds[i])
  {
    if forall i :: 0 <= i < |kinds| ==> Reliable(kinds[i]) {
      forall s, steps, t | Start(s) && On(s, kinds) && Run(s, steps, t) && AllRested(t) && OneWay(t)
        ensures t.queued + t.consumed == |kinds|
      {
        ReliableReturns(kinds, s, steps, t);
      }
    } else {
      var i :| 0 <= i < |kinds| && !Reliable(kinds[i]);
      var s, t := SilentRun(kinds, i);
      var steps :| Run(s, steps, t);
      RestMeans(s, steps, t);
    }
  }
}

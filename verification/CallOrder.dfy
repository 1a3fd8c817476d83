/**
 * A caller that makes one call after the other (async.go, client_interceptor.go): each call is
 * dispatched once, by a loop over the nodes that blocks in Enqueue, while the nodes run.
 */
module CallOrder {
  import opened Requests
  import opened Router
  import opened Channel
  import opened ChannelOwnership
  import opened ChannelOrder
  import opened ChannelCallers
  import opened EndToEnd
  import D = Dispatch

  // ---- nodes -----------------------------------------------------------------------------

  /** A node: reached over a channel, served in-process, or without a channel. */
  datatype Node = Remote(c: Params, chan: State) | InProcess(local: D.Local<Request>) | Detached

  /** What happens in a node, apart from the caller's own Enqueue. */
  datatype NodeStep = ChannelStep(e: Channel.Step) | LocalStep(l: D.LocalStep<Request>)

  ghost predicate NodeEnabled(n: Node, x: NodeStep) {
    match x
    case ChannelStep(e) => n.Remote? && Channel.Enabled(n.c, n.chan, e)
    case LocalStep(l) => n.InProcess? && D.LocalEnabled(n.local, l)
  }

  ghost function NodeApply(n: Node, x: NodeStep): Node
    requires NodeEnabled(n, x)
  {
    match x
    case ChannelStep(e) => n.(chan := Channel.Apply(n.c, n.chan, e))
    case LocalStep(l) => n.(local := D.LocalApply(n.local, l))
  }

  /** The caller enters Enqueue; a node without a channel drops the request. */
  ghost predicate CanEnter(n: Node, r: Request) {
    n.Remote? ==> Admissible(n.chan.log, r)
  }

  ghost function Entered(n: Node, r: Request): Node
    requires CanEnter(n, r)
  {
    match n
    case Remote(c, chan) => n.(chan := CallApply(chan, Issue(r)))
    case InProcess(local) => n.(local := D.LocalApply(local, D.Arrive(r)))
    case Detached => n
  }

  /** Enqueue has returned: in-process, once the handler's goroutine is started or the request is refused. */
  ghost predicate Returns(n: Node, r: Request) {
    match n
    case Remote(_, chan) => Left(chan, r)
    case InProcess(local) => r in local.dispatched || r in local.refused
    case Detached => true
  }

  /** The node has not seen the request. */
  ghost predicate Unknown(n: Node, r: Request) {
    match n
    case Remote(_, chan) => r !in chan.log.issued
    case InProcess(local) => r !in local.blocked && r !in local.dispatched && r !in local.refused
    case Detached => true
  }

  ghost predicate NodeOk(n: Node) {
    match n
    case Remote(_, chan) => Orderly(chan)
    case InProcess(local) => D.LocalOk(local)
    case Detached => true
  }

  /** In the order in which the node takes up requests, each b follows an a, unless a was refused. */
  ghost predicate First(n: Node, a: Request, b: Request) {
    match n
    case Remote(_, chan) => a != b && Before(chan, a, b)
    case InProcess(local) => a != b && (a in local.refused || After(local.dispatched, a, b))
    case Detached => true
  }

  lemma FirstWhenUnknown(n: Node, a: Request, b: Request)
    requires NodeOk(n) && Returns(n, a) && Unknown(n, b)
    ensures First(n, a, b)
  {
    match n
    case Remote(_, chan) =>
      ComesFirst(chan, a, b);
      assert Owners(chan, a) > 0 ==> a in chan.log.issued;
    case InProcess(local) =>
      if a !in local.refused {
        var p :| 0 <= p < |local.dispatched| && local.dispatched[p] == a;
        assert Absent(local.dispatched, p, b);
      }
    case Detached =>
  }

  /** From n to m, whoever has returned stays returned, and whoever comes first stays first. */
  ghost predicate Kept(n: Node, m: Node, a: Request, b: Request) {
    (Returns(n, a) ==> Returns(m, a)) && (First(n, a, b) ==> First(m, a, b))
  }

  ghost predicate Extends(n: Node, m: Node) {
    forall a, b :: Kept(n, m, a, b)
  }

  lemma ChannelKeeps(n: Node, e: Channel.Step, m: Node, a: Request, b: Request)
    requires NodeOk(n) && NodeEnabled(n, ChannelStep(e)) && m == NodeApply(n, ChannelStep(e))
    ensures Kept(n, m, a, b)
  {
    if Left(n.chan, a) {
      LeftStays(n.c, n.chan, e, a);
    }
    if Before(n.chan, a, b) {
      BeforeStep(n.c, n.chan, e, a, b);
    }
  }

  lemma LocalKeeps(n: Node, l: D.LocalStep<Request>, m: Node, a: Request, b: Request)
    requires NodeOk(n) && NodeEnabled(n, LocalStep(l)) && m == NodeApply(n, LocalStep(l))
    ensures Kept(n, m, a, b)
  {
    if After(n.local.dispatched, a, b) {
      AfterGrows(n.local.dispatched, m.local.dispatched, a, b);
    }
  }

  /** A step of the node keeps its invariant and extends what it knows. */
  lemma NodeExtends(n: Node, x: NodeStep, m: Node)
    requires NodeOk(n) && NodeEnabled(n, x) && m == NodeApply(n, x)
    ensures NodeOk(m) && Extends(n, m)
  {
    match x
    case ChannelStep(e) =>
      OrderlyStep(n.c, n.chan, e);
      forall a, b
        ensures Kept(n, m, a, b)
      {
        ChannelKeeps(n, e, m, a, b);
      }
    case LocalStep(l) =>
      D.LocalStepOk(n.local, l);
      forall a, b
        ensures Kept(n, m, a, b)
      {
        LocalKeeps(n, l, m, a, b);
      }
  }

  lemma EnteredExtends(n: Node, r: Request, m: Node)
    requires NodeOk(n) && CanEnter(n, r) && m == Entered(n, r)
    ensures NodeOk(m) && Extends(n, m)
  {
    match n
    case Remote(_, _) => NodeExtends(n, ChannelStep(Channel.Call(Issue(r))), m);
    case InProcess(_) => NodeExtends(n, LocalStep(D.Arrive(r)), m);
    case Detached =>
  }

  // ---- calls -----------------------------------------------------------------------------

  /** The state of a call's sendOnce. */
  datatype Once = Unsent | Dispatching | Done

  /**
   * A call: whether its terminal method sends at once (AsyncThreshold) or its first reader does,
   * its request for each node, and how far its dispatch loop is. `entered` says that the loop is in
   * Enqueue of node `next`; for the nodes in `skipped` it reported an error instead.
   */
  datatype Invocation = Invocation(eager: bool, reqs: seq<Request>, once: Once, next: nat, entered: bool, skipped: set<nat>)

  /** `log` lists the calls of Enqueue by the dispatch loops, as pairs of a call and a node. */
  datatype World = World(nodes: seq<Node>, calls: seq<Invocation>, log: seq<(nat, nat)>)

  datatype Step =
    | Create(eager: bool, reqs: seq<Request>)   // the caller makes the next call
    | Range(k: nat)                             // a goroutine starts to read the replies of call k: sendNow
    | Skip(k: nat)                              // the dispatch loop reports an error for a node
    | Enter(k: nat)                             // the dispatch loop enters Enqueue of a node
    | Exit(k: nat)                              // and returns from it
    | Finish(k: nat)                            // the dispatch loop is done
    | InNode(i: nat, x: NodeStep)

  /** An eager call returns to the caller only when it is dispatched. */
  ghost predicate CallerFree(w: World) {
    forall j :: 0 <= j < |w.calls| && w.calls[j].eager ==> w.calls[j].once == Done
  }

  ghost predicate Looping(w: World, k: nat) {
    k < |w.calls| && w.calls[k].once == Dispatching && w.calls[k].next < |w.nodes| && w.calls[k].next < |w.calls[k].reqs|
  }

  ghost predicate Enabled(w: World, e: Step) {
    match e
    case Create(_, reqs) =>
      CallerFree(w) && |reqs| == |w.nodes| && forall i :: 0 <= i < |w.nodes| ==> Unknown(w.nodes[i], reqs[i])
    case Range(k) => k < |w.calls| && w.calls[k].once != Dispatching
    case Skip(k) => Looping(w, k) && !w.calls[k].entered
    case Enter(k) =>
      Looping(w, k) && !w.calls[k].entered && CanEnter(w.nodes[w.calls[k].next], w.calls[k].reqs[w.calls[k].next])
    case Exit(k) =>
      Looping(w, k) && w.calls[k].entered && Returns(w.nodes[w.calls[k].next], w.calls[k].reqs[w.calls[k].next])
    case Finish(k) => k < |w.calls| && w.calls[k].once == Dispatching && w.calls[k].next == |w.nodes|
    case InNode(i, x) => i < |w.nodes| && NodeEnabled(w.nodes[i], x)
  }

  ghost function Become(w: World, k: nat, c: Invocation): World
    requires k < |w.calls|
  {
    w.(calls := w.calls[k := c])
  }

  /** The dispatch loop goes on to the next node. */
  ghost function MoveOn(c: Invocation, skipped: set<nat>): Invocation {
    c.(next := c.next + 1, entered := false, skipped := skipped)
  }

  ghost function Apply(w: World, e: Step): World
    requires Enabled(w, e)
  {
    match e
    case Create(eager, reqs) =>
      w.(calls := w.calls + [Invocation(eager, reqs, if eager then Dispatching else Unsent, 0, false, {})])
    case Range(k) => if w.calls[k].once == Done then w else Become(w, k, w.calls[k].(once := Dispatching))
    case Skip(k) => Become(w, k, MoveOn(w.calls[k], w.calls[k].skipped + {w.calls[k].next}))
    case Enter(k) =>
      var c := w.calls[k];
      Become(w, k, c.(entered := true)).(nodes := w.nodes[c.next := Entered(w.nodes[c.next], c.reqs[c.next])],
                                         log := w.log + [(k, c.next)])
    case Exit(k) => Become(w, k, MoveOn(w.calls[k], w.calls[k].skipped))
    case Finish(k) => Become(w, k, w.calls[k].(once := Done))
    case InNode(i, x) => w.(nodes := w.nodes[i := NodeApply(w.nodes[i], x)])
  }

  ghost predicate Run(w: World, steps: seq<Step>, v: World)
    decreases |steps|
  {
    if steps == [] then w == v
    else Enabled(w, steps[0]) && Run(Apply(w, steps[0]), steps[1..], v)
  }

  // ---- the order of eager calls ----------------------------------------------------------

  /** Call j came before call k at node i: it skipped the node, or its request comes first there. */
  ghost predicate InOrder(w: World, i: nat, j: nat, k: nat)
    requires i < |w.nodes| && j < |w.calls| && k < |w.calls|
  {
    && i < |w.calls[j].reqs| && i < |w.calls[k].reqs|
    && (i in w.calls[j].skipped || First(w.nodes[i], w.calls[j].reqs[i], w.calls[k].reqs[i]))
  }

  /** The dispatch loop has returned from Enqueue of each node behind it, or skipped it. */
  ghost predicate CallOk(nodes: seq<Node>, c: Invocation) {
    && |c.reqs| == |nodes| && c.next <= |nodes|
    && (c.once == Done ==> c.next == |nodes|)
    && (forall i :: 0 <= i < c.next ==> i in c.skipped || Returns(nodes[i], c.reqs[i]))
  }

  ghost predicate WorldOk(w: World) {
    && (forall i :: 0 <= i < |w.nodes| ==> NodeOk(w.nodes[i]))
    && (forall k :: 0 <= k < |w.calls| ==> CallOk(w.nodes, w.calls[k]))
    && (forall i, j, k :: 0 <= i < |w.nodes| && 0 <= j < k < |w.calls| && w.calls[j].eager ==> InOrder(w, i, j, k))
  }

  /** Replacing a node by one that keeps what it knew keeps everything. */
  lemma NodeReplaced(w: World, i: nat, n: Node)
    requires WorldOk(w) && i < |w.nodes| && NodeOk(n) && Extends(w.nodes[i], n)
    ensures WorldOk(w.(nodes := w.nodes[i := n]))
  {
    var v := w.(nodes := w.nodes[i := n]);
    forall k | 0 <= k < |v.calls|
      ensures CallOk(v.nodes, v.calls[k])
    {
      var c := w.calls[k];
      assert CallOk(w.nodes, c) && Kept(w.nodes[i], n, c.reqs[i], c.reqs[i]);
    }
    forall x, j, k | 0 <= x < |v.nodes| && 0 <= j < k < |v.calls| && v.calls[j].eager
      ensures InOrder(v, x, j, k)
    {
      assert InOrder(w, x, j, k) && Kept(w.nodes[i], n, w.calls[j].reqs[i], w.calls[k].reqs[i]);
    }
  }

  /** Advancing a dispatch loop keeps everything, if what it leaves behind has returned or was skipped. */
  lemma LoopAdvanced(w: World, k: nat, c: Invocation)
    requires WorldOk(w) && k < |w.calls| && CallOk(w.nodes, c)
    requires c.eager == w.calls[k].eager && c.reqs == w.calls[k].reqs && w.calls[k].skipped <= c.skipped
    ensures WorldOk(Become(w, k, c))
  {
    var v := Become(w, k, c);
    forall i, x, y | 0 <= i < |v.nodes| && 0 <= x < y < |v.calls| && v.calls[x].eager
      ensures InOrder(v, i, x, y)
    {
      assert InOrder(w, i, x, y);
    }
  }

  /** A new call comes after all eager calls, because they are dispatched. */
  lemma CreateOk(w: World, eager: bool, reqs: seq<Request>)
    requires WorldOk(w) && Enabled(w, Create(eager, reqs))
    ensures WorldOk(Apply(w, Create(eager, reqs)))
  {
    var v := Apply(w, Create(eager, reqs));
    forall i, j, k | 0 <= i < |v.nodes| && 0 <= j < k < |v.calls| && v.calls[j].eager
      ensures InOrder(v, i, j, k)
    {
      if k < |w.calls| {
        assert InOrder(w, i, j, k);
      } else {
        assert CallOk(w.nodes, w.calls[j]) && w.calls[j].once == Done;
        if i !in w.calls[j].skipped {
          FirstWhenUnknown(w.nodes[i], w.calls[j].reqs[i], reqs[i]);
        }
      }
    }
  }

  lemma NodeStepOk(w: World, i: nat, x: NodeStep)
    requires WorldOk(w) && Enabled(w, InNode(i, x))
    ensures WorldOk(Apply(w, InNode(i, x)))
  {
    var m := NodeApply(w.nodes[i], x);
    NodeExtends(w.nodes[i], x, m);
    NodeReplaced(w, i, m);
  }

  lemma LogExtended(w: World, log: seq<(nat, nat)>)
    requires WorldOk(w)
    ensures WorldOk(w.(log := log))
  {
    var v := w.(log := log);
    forall i, j, k | 0 <= i < |v.nodes| && 0 <= j < k < |v.calls| && v.calls[j].eager
      ensures InOrder(v, i, j, k)
    {
      assert InOrder(w, i, j, k);
    }
  }

  lemma EnterOk(w: World, k: nat)
    requires WorldOk(w) && Enabled(w, Enter(k))
    ensures WorldOk(Apply(w, Enter(k)))
  {
    var c := w.calls[k];
    var m := Entered(w.nodes[c.next], c.reqs[c.next]);
    EnteredExtends(w.nodes[c.next], c.reqs[c.next], m);
    LoopAdvanced(w, k, c.(entered := true));
    var v := Become(w, k, c.(entered := true));
    NodeReplaced(v, c.next, m);
    LogExtended(v.(nodes := v.nodes[c.next := m]), w.log + [(k, c.next)]);
  }

  lemma RangeOk(w: World, k: nat)
    requires WorldOk(w) && Enabled(w, Range(k))
    ensures WorldOk(Apply(w, Range(k)))
  {
    if w.calls[k].once == Unsent {
      assert CallOk(w.nodes, w.calls[k]);
      LoopAdvanced(w, k, w.calls[k].(once := Dispatching));
    }
  }

  /** The dispatch loop moves on from a node that it skipped or whose Enqueue has returned. */
  lemma MovedOn(nodes: seq<Node>, c: Invocation, skipped: set<nat>)
    requires CallOk(nodes, c) && c.once == Dispatching && c.next < |nodes| && c.skipped <= skipped
    requires c.next in skipped || Returns(nodes[c.next], c.reqs[c.next])
    ensures CallOk(nodes, MoveOn(c, skipped))
  {
  }

  lemma SkipOk(w: World, k: nat)
    requires WorldOk(w) && Enabled(w, Skip(k))
    ensures WorldOk(Apply(w, Skip(k)))
  {
    var c := w.calls[k];
    assert CallOk(w.nodes, c);
    MovedOn(w.nodes, c, c.skipped + {c.next});
    LoopAdvanced(w, k, MoveOn(c, c.skipped + {c.next}));
    assert Apply(w, Skip(k)) == Become(w, k, MoveOn(c, c.skipped + {c.next}));
  }

  lemma ExitOk(w: World, k: nat)
    requires WorldOk(w) && Enabled(w, Exit(k))
    ensures WorldOk(Apply(w, Exit(k)))
  {
    var c := w.calls[k];
    assert CallOk(w.nodes, c);
    MovedOn(w.nodes, c, c.skipped);
    LoopAdvanced(w, k, MoveOn(c, c.skipped));
    assert Apply(w, Exit(k)) == Become(w, k, MoveOn(c, c.skipped));
  }

  lemma FinishOk(w: World, k: nat)
    requires WorldOk(w) && Enabled(w, Finish(k))
    ensures WorldOk(Apply(w, Finish(k)))
  {
    assert CallOk(w.nodes, w.calls[k]);
    LoopAdvanced(w, k, w.calls[k].(once := Done));
  }

  lemma StepOk(w: World, e: Step)
    requires WorldOk(w) && Enabled(w, e)
    ensures WorldOk(Apply(w, e))
  {
    match e
    case Create(eager, reqs) => CreateOk(w, eager, reqs);
    case Range(k) => RangeOk(w, k);
    case Skip(k) => SkipOk(w, k);
    case Enter(k) => EnterOk(w, k);
    case Exit(k) => ExitOk(w, k);
    case Finish(k) => FinishOk(w, k);
    case InNode(i, x) => NodeStepOk(w, i, x);
  }

  lemma {:induction false} RunOk(w: World, steps: seq<Step>, v: World)
    requires WorldOk(w) && Run(w, steps, v)
    ensures WorldOk(v) && |v.nodes| == |w.nodes|
    decreases |steps|
  {
    if steps != [] {
      StepOk(w, steps[0]);
      RunOk(Apply(w, steps[0]), steps[1..], v);
    }
  }

  /** Before the first call: nodes in any reachable state. */
  ghost predicate Start(w: World) {
    w.calls == [] && w.log == [] && forall i :: 0 <= i < |w.nodes| ==>
      match w.nodes[i]
      case Remote(c, chan) => Reachable(c, chan)
      case InProcess(local) => exists steps :: D.LocalRun(D.LocalStart(), steps, local)
      case Detached => true
  }

  lemma StartOk(w: World)
    requires Start(w)
    ensures WorldOk(w)
  {
    forall i | 0 <= i < |w.nodes|
      ensures NodeOk(w.nodes[i])
    {
      match w.nodes[i]
      case Remote(c, chan) => OrderlyReachable(c, chan);
      case InProcess(local) =>
        var steps :| D.LocalRun(D.LocalStart(), steps, local);
        D.LocalRunOk(D.LocalStart(), steps, local);
      case Detached =>
    }
  }

  /** However everything interleaves, each node takes up an eager call before every later call. */
  lemma {:induction false} CallsInOrder(w: World, steps: seq<Step>, v: World, i: nat, j: nat, k: nat)
    requires Start(w) && Run(w, steps, v) && i < |v.nodes| && j < k < |v.calls| && v.calls[j].eager
    ensures InOrder(v, i, j, k)
  {
    StartOk(w);
    RunOk(w, steps, v);
  }

  // ---- exactly-once dispatch -------------------------------------------------------------

  /** Call k has entered Enqueue of node i. */
  ghost predicate Dispatched(c: Invocation, i: nat) {
    (i < c.next && i !in c.skipped) || (i == c.next && c.entered)
  }

  ghost predicate LogOk(w: World) {
    && (forall x, y :: 0 <= x < y < |w.log| ==> w.log[x] != w.log[y])
    && (forall k: nat, i: nat :: (k, i) in w.log <==> k < |w.calls| && Dispatched(w.calls[k], i))
    && (forall k :: 0 <= k < |w.calls| ==>
          && (forall i :: i in w.calls[k].skipped ==> i < w.calls[k].next)
          && (w.calls[k].entered ==> w.calls[k].once == Dispatching && w.calls[k].next < |w.nodes|))
  }

  lemma LogStep(w: World, e: Step)
    requires LogOk(w) && Enabled(w, e)
    ensures LogOk(Apply(w, e))
  {
  }

  lemma {:induction false} LogRun(w: World, steps: seq<Step>, v: World)
    requires LogOk(w) && Run(w, steps, v)
    ensures LogOk(v)
    decreases |steps|
  {
    if steps != [] {
      LogStep(w, steps[0]);
      LogRun(Apply(w, steps[0]), steps[1..], v);
    }
  }

  /**
   * However many goroutines read its replies, a call enters Enqueue of each node at most once, and
   * exactly once when it is done.
   */
  lemma {:induction false} DispatchedOnce(w: World, steps: seq<Step>, v: World, k: nat, i: nat)
    requires Start(w) && Run(w, steps, v) && k < |v.calls| && i < |v.nodes|
    ensures forall x, y :: 0 <= x < |v.log| && 0 <= y < |v.log| && v.log[x] == v.log[y] == (k, i) ==> x == y
    ensures v.calls[k].once == Done ==> ((k, i) in v.log <==> i !in v.calls[k].skipped)
  {
    StartOk(w);
    RunOk(w, steps, v);
    LogRun(w, steps, v);
    assert CallOk(v.nodes, v.calls[k]);
  }

  // ---- dispatch comes to an end ----------------------------------------------------------

  lemma {:induction false} RunExtends(w: World, steps: seq<Step>, v: World, e: Step)
    requires Run(w, steps, v) && Enabled(v, e)
    ensures Run(w, steps + [e], Apply(v, e))
    decreases |steps|
  {
    if steps != [] {
      assert (steps + [e])[1..] == steps[1..] + [e];
      RunExtends(Apply(w, steps[0]), steps[1..], v, e);
    }
  }

  ghost predicate Reaches(w: World, v: World) {
    exists steps :: Run(w, steps, v)
  }

  lemma More(w: World, v: World, e: Step) returns (u: World)
    requires Reaches(w, v) && Enabled(v, e)
    ensures u == Apply(v, e) && Reaches(w, u)
  {
    u := Apply(v, e);
    var steps :| Run(w, steps, v);
    RunExtends(w, steps, v, e);
  }

  /** Only node i has changed. */
  ghost predicate OnlyNode(v: World, u: World, i: nat) {
    i < |v.nodes| == |u.nodes| && u == v.(nodes := v.nodes[i := u.nodes[i]])
  }

  /** Whatever the node does, the other nodes and the calls stay as they are. */
  lemma NodeMore(w: World, v: World, i: nat, x: NodeStep) returns (u: World)
    requires Reaches(w, v) && WorldOk(v) && i < |v.nodes| && NodeEnabled(v.nodes[i], x)
    ensures Reaches(w, u) && WorldOk(u) && OnlyNode(v, u, i) && u.nodes[i] == NodeApply(v.nodes[i], x)
  {
    u := More(w, v, InNode(i, x));
    StepOk(v, InNode(i, x));
  }

  /** A request whose Enqueue has not returned is with its caller, or about to be answered with an error. */
  lemma WithCaller(s: State, r: Request)
    requires Orderly(s) && r in s.log.issued && !Left(s, r)
    ensures s.pools.entering[r] > 0 || s.pools.waiting[r] > 0 || s.pools.failing[r] > 0
  {
    assert Owners(s, r) == 1;
    AcceptedElsewhere(s, r);
  }

  /** What the queue, the sender, the router and a delivery hold was accepted. */
  lemma AcceptedElsewhere(s: State, r: Request)
    requires Ordered(s) && Origins(s) && r !in s.log.accepted
    ensures multiset(s.queue)[r] == 0 && Held(s.sender, r) == 0
    ensures InPending(s.pending, r) == 0 && InDelivery(s.receiver, r) == 0 && s.pools.retrying[r] == 0
  {
    assert HasHand(s.sender.pc) ==> s.log.accepted[s.log.taken - 1] in s.log.accepted;
    assert r in s.queue ==> r in s.log.accepted;
  }

  lemma ErrorReturns(w: World, v: World, i: nat, r: Request) returns (u: World)
    requires Reaches(w, v) && WorldOk(v) && i < |v.nodes| && v.nodes[i].Remote? && v.nodes[i].chan.pools.failing[r] > 0
    ensures Reaches(w, u) && WorldOk(u) && OnlyNode(v, u, i) && Returns(u.nodes[i], r)
  {
    var x := ReplyError(r, r.hasChan);
    var s := v.nodes[i].chan;
    u := NodeMore(w, v, i, ChannelStep(Queue(x)));
    assert u.nodes[i].chan == QueueApply(v.nodes[i].c, s, x);
    assert u.nodes[i].chan.pools.finished[r] == s.pools.finished[r] + 1;
  }

  /** The caller gives up on a closed channel. */
  lemma ClosedReturns(w: World, v: World, i: nat, r: Request) returns (u: World)
    requires Reaches(w, v) && WorldOk(v) && i < |v.nodes| && v.nodes[i].Remote? && v.nodes[i].chan.shutdown.connDone
    requires r in v.nodes[i].chan.log.issued
    ensures Reaches(w, u) && WorldOk(u) && OnlyNode(v, u, i) && Returns(u.nodes[i], r)
  {
    var s := v.nodes[i].chan;
    u := v;
    if !Left(s, r) {
      WithCaller(s, r);
      if s.pools.failing[r] == 0 {
        u := TurnedAway(w, v, i, r);
      }
      u := ErrorReturns(w, u, i, r);
    }
  }

  lemma TurnedAway(w: World, v: World, i: nat, r: Request) returns (u: World)
    requires Reaches(w, v) && WorldOk(v) && i < |v.nodes| && v.nodes[i].Remote? && v.nodes[i].chan.shutdown.connDone
    requires v.nodes[i].chan.pools.entering[r] > 0 || v.nodes[i].chan.pools.waiting[r] > 0
    ensures Reaches(w, u) && WorldOk(u) && OnlyNode(v, u, i) && u.nodes[i].Remote? && u.nodes[i].chan.pools.failing[r] > 0
  {
    if v.nodes[i].chan.pools.entering[r] > 0 {
      u := NodeMore(w, v, i, ChannelStep(Channel.Call(Pass(r))));
    } else {
      u := NodeMore(w, v, i, ChannelStep(Channel.Call(Quit(r))));
    }
  }

  lemma ClosesNode(w: World, v: World, i: nat) returns (u: World)
    requires Reaches(w, v) && WorldOk(v) && i < |v.nodes| && v.nodes[i].Remote?
    ensures Reaches(w, u) && WorldOk(u) && OnlyNode(v, u, i) && u.nodes[i].Remote? && u.nodes[i].chan.shutdown.connDone
    ensures u.nodes[i].chan.log == v.nodes[i].chan.log
  {
    if v.nodes[i].chan.shutdown.connDone {
      u := v;
    } else {
      u := NodeMore(w, v, i, ChannelStep(Channel.Close(CloseCancel)));
    }
  }

  ghost predicate HasEntered(n: Node, r: Request) {
    match n
    case Remote(_, chan) => r in chan.log.issued
    case InProcess(local) => r in local.blocked
    case Detached => true
  }

  /** Enqueue of a request that has entered a node can return. */
  lemma {:induction false} CanReturn(w: World, v: World, i: nat, r: Request) returns (u: World)
    requires Reaches(w, v) && WorldOk(v) && i < |v.nodes|
    requires HasEntered(v.nodes[i], r)
    ensures Reaches(w, u) && WorldOk(u) && OnlyNode(v, u, i) && Returns(u.nodes[i], r)
  {
    match v.nodes[i]
    case Remote(_, _) =>
      u := ClosesNode(w, v, i);
      u := ClosedReturns(w, u, i, r);
    case InProcess(_) => u := NodeMore(w, v, i, LocalStep(D.Refuse(r)));
    case Detached => u := v;
  }

  lemma EntersNode(w: World, v: World, k: nat) returns (u: World)
    requires Reaches(w, v) && WorldOk(v) && Enabled(v, Enter(k))
    ensures Reaches(w, u) && WorldOk(u) && |u.nodes| == |v.nodes| && u.calls == v.calls[k := v.calls[k].(entered := true)]
    ensures var i := v.calls[k].next;
            u.nodes == v.nodes[i := u.nodes[i]] && HasEntered(u.nodes[i], v.calls[k].reqs[i])
  {
    u := More(w, v, Enter(k));
    EnterOk(v, k);
  }

  lemma ReturnsFromNode(w: World, v: World, k: nat) returns (u: World)
    requires Reaches(w, v) && WorldOk(v) && Enabled(v, Enter(k))
    ensures Reaches(w, u) && WorldOk(u) && |u.nodes| == |v.nodes| && u.calls == v.calls[k := v.calls[k].(entered := true)]
    ensures var i := v.calls[k].next;
            u.nodes == v.nodes[i := u.nodes[i]] && Returns(u.nodes[i], v.calls[k].reqs[i])
  {
    var i := v.calls[k].next;
    var m := EntersNode(w, v, k);
    u := CanReturn(w, m, i, v.calls[k].reqs[i]);
  }

  lemma LeavesNode(w: World, v: World, k: nat) returns (u: World)
    requires Reaches(w, v) && WorldOk(v) && Enabled(v, Exit(k))
    ensures Reaches(w, u) && WorldOk(u) && u.nodes == v.nodes
    ensures u.calls == v.calls[k := MoveOn(v.calls[k], v.calls[k].skipped)]
  {
    u := More(w, v, Exit(k));
    ExitOk(v, k);
  }

  /** The dispatch loop can enter Enqueue of its next node and return from it. */
  lemma {:induction false} PassesNode(w: World, v: World, k: nat) returns (u: World)
    requires Reaches(w, v) && WorldOk(v) && Enabled(v, Enter(k))
    ensures Reaches(w, u) && WorldOk(u) && |u.nodes| == |v.nodes|
    ensures u.calls == v.calls[k := MoveOn(v.calls[k], v.calls[k].skipped)]
    ensures u.nodes == v.nodes[v.calls[k].next := u.nodes[v.calls[k].next]]
  {
    var m := ReturnsFromNode(w, v, k);
    u := LeavesNode(w, m, k);
  }

  /** The nodes that are left will take the call's requests. */
  ghost predicate WillEnter(w: World, k: nat) {
    && k < |w.calls| && w.calls[k].once == Dispatching && !w.calls[k].entered
    && |w.calls[k].reqs| == |w.nodes| && w.calls[k].next <= |w.nodes|
    && forall i :: w.calls[k].next <= i < |w.nodes| ==> CanEnter(w.nodes[i], w.calls[k].reqs[i])
  }

  /** From every state, the dispatch of a call can be carried through to all remaining nodes, skipping none. */
  lemma {:induction false} CanDispatch(w: World, v: World, k: nat) returns (u: World)
    requires Reaches(w, v) && WorldOk(v) && WillEnter(v, k)
    ensures Reaches(w, u) && WorldOk(u) && |u.calls| == |v.calls| && u.calls[k].once == Done
    ensures u.calls[k].skipped == v.calls[k].skipped && u.calls[k].reqs == v.calls[k].reqs
    decreases |v.nodes| - v.calls[k].next
  {
    if v.calls[k].next == |v.nodes| {
      u := More(w, v, Finish(k));
      FinishOk(v, k);
    } else {
      var m := PassesNode(w, v, k);
      u := CanDispatch(w, m, k);
    }
  }

  // ---- handlers in call order ------------------------------------------------------------

  /** Handler x on the server began for request r. */
  ghost predicate Began(inbox: seq<D.Envelope<WireEvent>>, n: D.NodeStream<WireEvent>, x: nat, r: Request) {
    x < |n.core.started| && n.core.started[x] < |inbox| && inbox[n.core.started[x]].body.req == r
  }

  lemma TwoPositions(q: seq<Request>, a: Request, b: Request, x: nat, y: nat)
    requires a != b && After(q, a, b) && x < |q| && y < |q| && q[x] == a && q[y] == b && multiset(q)[a] <= 1
    ensures x < y
  {
    var p :| 0 <= p < |q| && q[p] == a && Absent(q, p, b);
    if p < x {
      CountTwice(q, p, x);
    } else if x < p {
      CountTwice(q, x, p);
    }
  }

  /**
   * From the caller to the handlers: on every node, over one stream instance, the handler of an
   * eager call that was not sent again begins before the handlers of all later calls.
   */
  lemma {:induction false} HandlersInCallOrder(
      w: World, steps: seq<Step>, v: World, i: nat, j: nat, k: nat,
      stream: nat, inbox: seq<D.Envelope<WireEvent>>, loop: seq<D.LoopStep>, n: D.NodeStream<WireEvent>, x: nat, y: nat)
    requires Start(w) && Run(w, steps, v) && i < |v.nodes| && v.nodes[i].Remote?
    requires j < k < |v.calls| && v.calls[j].eager && i !in v.calls[j].skipped
    requires Carries(v.nodes[i].chan.log.wire, stream, inbox) && D.LoopRun(D.Opened(inbox), loop, n)
    requires i < |v.calls[j].reqs| && i < |v.calls[k].reqs|
    requires multiset(v.nodes[i].chan.log.accepted)[v.calls[j].reqs[i]] <= 1
    requires Began(inbox, n, x, v.calls[j].reqs[i]) && Began(inbox, n, y, v.calls[k].reqs[i])
    ensures x < y
  {
    StartOk(w);
    RunOk(w, steps, v);
    CallsInOrder(w, steps, v, i, j, k);
    var s, a, b := v.nodes[i].chan, v.calls[j].reqs[i], v.calls[k].reqs[i];
    assert NodeOk(v.nodes[i]) && Before(s, a, b) && a != b;
    if y < x {
      StartsFollowSends(s, stream, inbox, loop, n, y, x);
      var p, q := inbox[n.core.started[x]].body.index, inbox[n.core.started[y]].body.index;
      assert s.log.accepted[q] == b;
      TwoPositions(s.log.accepted, a, b, p, q);
    }
  }

  /** In-process, a handler of a later call begins only after one of an eager call has begun, if that was not refused. */
  lemma {:induction false} LocalHandlersInCallOrder(w: World, steps: seq<Step>, v: World, i: nat, j: nat, k: nat, y: nat)
    requires Start(w) && Run(w, steps, v) && i < |v.nodes| && v.nodes[i].InProcess?
    requires j < k < |v.calls| && v.calls[j].eager && i !in v.calls[j].skipped
    requires i < |v.calls[j].reqs| && i < |v.calls[k].reqs| && v.calls[j].reqs[i] !in v.nodes[i].local.refused
    requires var l := v.nodes[i].local;
             y < |l.core.started| && l.core.started[y] < |l.dispatched| && l.dispatched[l.core.started[y]] == v.calls[k].reqs[i]
    ensures var l := v.nodes[i].local;
            exists x :: 0 <= x < y && l.core.started[x] < |l.dispatched| && l.dispatched[l.core.started[x]] == v.calls[j].reqs[i]
  {
    StartOk(w);
    RunOk(w, steps, v);
    CallsInOrder(w, steps, v, i, j, k);
    assert NodeOk(v.nodes[i]) && First(v.nodes[i], v.calls[j].reqs[i], v.calls[k].reqs[i]);
    LocalStarts(v.nodes[i].local, v.calls[j].reqs[i], v.calls[k].reqs[i], y);
  }

  lemma {:induction false} LocalStarts(l: D.Local<Request>, a: Request, b: Request, y: nat)
    requires D.LocalOk(l) && a != b && After(l.dispatched, a, b)
    requires y < |l.core.started| && l.core.started[y] < |l.dispatched| && l.dispatched[l.core.started[y]] == b
    ensures exists x :: 0 <= x < y && l.core.started[x] < |l.dispatched| && l.dispatched[l.core.started[x]] == a
  {
    D.LocalStarts(l);
    AfterMeans(l.dispatched, a, b, y);
    var p :| 0 <= p < y && l.dispatched[p] == a;
    assert l.core.started[p] == p;
  }

  // ---- calls that are sent by their first reader -----------------------------------------

  const Early := Request(1, 1, false, false, true, true)
  const Late := Request(2, 2, false, false, true, true)
  const Wide := Params(Outbound, 2)

  /** A dispatch loop hands the request of call k to the only node, which accepts it into its buffer. */
  lemma Accepted(w: World, v: World, k: nat, r: Request) returns (u: World)
    requires Reaches(w, v) && |v.nodes| == 1 && v.nodes[0].Remote? && v.nodes[0].c == Wide && k < |v.calls|
    requires v.calls[k] == Invocation(v.calls[k].eager, [r], Dispatching, 0, false, {})
    requires var s := v.nodes[0].chan;
             Admissible(s.log, r) && s.pools == Init(Wide).pools && !s.shutdown.connDone && |s.queue| < 2
    ensures Reaches(w, u) && |u.nodes| == 1 && u.nodes[0].Remote? && u.nodes[0].c == Wide
    ensures var s, t := v.nodes[0].chan, u.nodes[0].chan;
            && t.log == s.log.(issued := s.log.issued + {r}, accepted := s.log.accepted + [r])
            && t.pools == Init(Wide).pools && t.shutdown == s.shutdown && |t.queue| == |s.queue| + 1
    ensures u.calls == v.calls[k := v.calls[k].(entered := true)]
  {
    u := More(w, v, Enter(k));
    u := More(w, u, InNode(0, ChannelStep(Channel.Call(Pass(r)))));
    u := More(w, u, InNode(0, ChannelStep(Queue(Deposit(r)))));
    assert multiset{r} - multiset{r} == multiset{};
  }

  const LazyCall := Invocation(false, [Early], Unsent, 0, false, {})
  const EagerCall := Invocation(true, [Late], Dispatching, 0, false, {})

  lemma TwoCalls() returns (w: World, v: World)
    ensures Start(w) && Reaches(w, v) && v.nodes == w.nodes == [Remote(Wide, Init(Wide))]
    ensures v.calls == [LazyCall, EagerCall]
  {
    w := World([Remote(Wide, Init(Wide))], [], []);
    assert Channel.Run(Wide, Init(Wide), [], Init(Wide));
    assert Run(w, [], w);
    v := More(w, w, Create(false, [Early]));
    v := More(w, v, Create(true, [Late]));
  }

  /** A lazy call is overtaken by one that was made later. */
  lemma Overtaken() returns (w: World, v: World)
    ensures Start(w) && Reaches(w, v) && |v.nodes| == 1 && |v.calls| == 2 && !v.calls[0].eager && !InOrder(v, 0, 0, 1)
  {
    w, v := TwoCalls();
    v := Accepted(w, v, 1, Late);
    v := ReadLate(w, v);
  }

  /** The replies of the lazy call are read only after the other one has been accepted. */
  lemma ReadLate(w: World, v: World) returns (u: World)
    requires Reaches(w, v) && |v.nodes| == 1 && v.nodes[0].Remote? && v.nodes[0].c == Wide
    requires v.calls == [LazyCall, EagerCall.(entered := true)]
    requires var s := v.nodes[0].chan;
             && s.log == Log({Late}, [Late], 0, []) && s.pools == Init(Wide).pools
             && !s.shutdown.connDone && |s.queue| == 1
    ensures Reaches(w, u) && |u.nodes| == 1 && |u.calls| == 2 && !u.calls[0].eager && !InOrder(u, 0, 0, 1)
  {
    u := More(w, v, Range(0));
    u := Accepted(w, u, 0, Early);
    assert u.nodes[0].chan.log.accepted == [Late, Early];
    EarlySecond();
  }

  lemma EarlySecond()
    ensures !After([Late, Early], Early, Late)
  {
    var q := [Late, Early];
    assert q[0] == Late && Late != Early;
  }

  ghost predicate AlwaysInOrder(eager: bool) {
    forall w, steps, v, i: nat, j: nat, k: nat ::
      Start(w) && Run(w, steps, v) && i < |v.nodes| && j < k < |v.calls| && v.calls[j].eager == eager ==> InOrder(v, i, j, k)
  }

  /** Calls are taken up in call order in every run exactly if the earlier one is sent when it is made. */
  lemma {:induction false} InOrderIff(eager: bool)
    ensures AlwaysInOrder(eager) <==> eager
  {
    if eager {
      forall w, steps, v, i: nat, j: nat, k: nat
        | Start(w) && Run(w, steps, v) && i < |v.nodes| && j < k < |v.calls| && v.calls[j].eager == eager
        ensures InOrder(v, i, j, k)
      {
        CallsInOrder(w, steps, v, i, j, k);
      }
    } else {
      var w, v := Overtaken();
      var steps :| Run(w, steps, v);
    }
  }
}

/**
 * Ordered dispatch of requests to handlers (internal/stream/server.go and the local dispatch of
 * internal/stream/router.go). Each handler runs in its own goroutine and owns a release function
 * that unlocks a shared mutex once; the next request is dispatched only under that mutex.
 */
module Dispatch {
  import opened Sequences

  // ---- the mutex and the handlers --------------------------------------------------------

  datatype Phase = Spawned | Running | Returned

  /** A dispatched message: the goroutine's progress and whether its sync.Once has fired. */
  datatype Handler = Handler(phase: Phase, released: bool)

  /**
   * `handlers` holds one entry per dispatched message, in dispatch order; `started` lists the
   * entries whose handler has begun, in the order they began. `fault` records an Unlock of an
   * unlocked mutex, which is fatal in Go.
   */
  datatype Core = Core(locked: bool, handlers: seq<Handler>, started: seq<nat>, fault: bool)

  function Unlock(k: Core): Core {
    k.(locked := false, fault := k.fault || !k.locked)
  }

  /** The release function of entry i: once.Do(mut.Unlock). */
  function Release(k: Core, i: nat): Core
    requires i < |k.handlers|
  {
    if k.handlers[i].released then k
    else Unlock(k.(handlers := k.handlers[i := k.handlers[i].(released := true)]))
  }

  function Spawn(k: Core): Core {
    k.(handlers := k.handlers + [Handler(Spawned, false)])
  }

  /** A message without a handler to run: it is released at once. */
  function Absorb(k: Core): Core {
    Release(k.(handlers := k.handlers + [Handler(Returned, false)]), |k.handlers|)
  }

  /** What running handlers do; a handler may release early, repeatedly, and after it has returned. */
  datatype HandlerStep = Begin(i: nat) | Free(i: nat) | Return(i: nat)

  predicate HandlerEnabled(k: Core, e: HandlerStep) {
    && e.i < |k.handlers|
    && match e
       case Begin(i) => k.handlers[i].phase == Spawned
       case Free(i) => k.handlers[i].phase != Spawned
       case Return(i) => k.handlers[i].phase == Running
  }

  function HandlerApply(k: Core, e: HandlerStep): Core
    requires HandlerEnabled(k, e)
  {
    match e
    case Begin(i) =>
      k.(handlers := k.handlers[i := k.handlers[i].(phase := Running)], started := k.started + [i])
    case Free(i) => Release(k, i)
    case Return(i) =>
      var r := Release(k, i);
      r.(handlers := r.handlers[i := r.handlers[i].(phase := Returned)])
  }

  // ---- the specification both dispatchers meet -------------------------------------------

  ghost predicate LastReleased(k: Core) {
    k.handlers == [] || k.handlers[|k.handlers| - 1].released
  }

  ghost predicate LastSpawned(k: Core) {
    k.handlers != [] && k.handlers[|k.handlers| - 1].phase == Spawned
  }

  /**
   * First in, first out until release: at most the newest entry is unreleased, a handler that has
   * not begun is unreleased and one that has returned is released, and the handlers that have begun
   * are the dispatched requests in dispatch order, without a gap.
   */
  ghost predicate Disciplined(k: Core, requests: seq<bool>) {
    && |k.handlers| == |requests| && !k.fault
    && (forall i :: 0 <= i < |k.handlers| - 1 ==> k.handlers[i].released)
    && (forall i :: 0 <= i < |k.handlers| && k.handlers[i].phase == Spawned ==> !k.handlers[i].released && requests[i])
    && (forall i :: 0 <= i < |k.handlers| && k.handlers[i].phase == Returned ==> k.handlers[i].released)
    && k.started == Positions(requests, |requests| - if LastSpawned(k) then 1 else 0)
  }

  lemma SpawnDiscipline(k: Core, requests: seq<bool>)
    requires Disciplined(k, requests) && LastReleased(k)
    ensures Disciplined(Spawn(k), requests + [true])
  {
    PositionsPrefix(requests, requests + [true], |requests|);
  }

  lemma AbsorbDiscipline(k: Core, requests: seq<bool>)
    requires Disciplined(k, requests) && LastReleased(k) && k.locked
    ensures Disciplined(Absorb(k), requests + [false])
    ensures !Absorb(k).locked && LastReleased(Absorb(k))
  {
    AbsorbMeans(k);
    PositionsSkip(requests);
  }

  lemma AbsorbMeans(k: Core)
    requires k.locked
    ensures Absorb(k) == Core(false, k.handlers + [Handler(Returned, true)], k.started, k.fault)
  {
    var n := |k.handlers|;
    assert (k.handlers + [Handler(Returned, false)])[n := Handler(Returned, true)] == k.handlers + [Handler(Returned, true)];
  }

  lemma BeginDiscipline(k: Core, requests: seq<bool>, i: nat)
    requires Disciplined(k, requests) && HandlerEnabled(k, Begin(i))
    ensures Disciplined(HandlerApply(k, Begin(i)), requests)
    ensures var t := HandlerApply(k, Begin(i)); t.locked == k.locked && LastReleased(t) == LastReleased(k)
  {
    assert i == |k.handlers| - 1;
  }

  lemma ReleaseDiscipline(k: Core, requests: seq<bool>, i: nat)
    requires Disciplined(k, requests) && i < |k.handlers| && k.handlers[i].phase != Spawned
    requires !LastReleased(k) ==> k.locked
    ensures Disciplined(Release(k, i), requests) && Release(k, i).handlers[i] == k.handlers[i].(released := true)
    ensures var t := Release(k, i);
            if LastReleased(t) && !LastReleased(k) then !t.locked
            else t.locked == k.locked && LastReleased(t) == LastReleased(k)
  {
    assert !k.handlers[i].released ==> i == |k.handlers| - 1;
  }

  lemma ReturnDiscipline(k: Core, requests: seq<bool>, i: nat)
    requires Disciplined(k, requests) && i < |k.handlers| && k.handlers[i].phase == Running && k.handlers[i].released
    ensures var t := k.(handlers := k.handlers[i := k.handlers[i].(phase := Returned)]);
            Disciplined(t, requests) && LastReleased(t) == LastReleased(k)
  {
    var t := k.(handlers := k.handlers[i := k.handlers[i].(phase := Returned)]);
    assert LastSpawned(t) == LastSpawned(k);
  }

  /** Handlers keep the discipline, provided the mutex is locked as long as the newest entry is unreleased. */
  lemma HandlerDiscipline(k: Core, requests: seq<bool>, e: HandlerStep)
    requires Disciplined(k, requests) && HandlerEnabled(k, e)
    requires !LastReleased(k) ==> k.locked
    ensures Disciplined(HandlerApply(k, e), requests)
    ensures var t := HandlerApply(k, e);
            if LastReleased(t) && !LastReleased(k) then !t.locked
            else t.locked == k.locked && LastReleased(t) == LastReleased(k)
  {
    match e
    case Begin(i) => BeginDiscipline(k, requests, i);
    case Free(i) => ReleaseDiscipline(k, requests, i);
    case Return(i) =>
      ReleaseDiscipline(k, requests, i);
      ReturnDiscipline(Release(k, i), requests, i);
  }

  // ---- NodeStream: the receive loop of one stream ----------------------------------------

  /** What arrives on a stream: a request to be handled, or something that is only routed. */
  datatype Envelope<M> = Envelope(request: bool, body: M)
  datatype Loop = AtRecv | AtLock | Left
  datatype NodeStream<M> = NodeStream(core: Core, inbox: seq<Envelope<M>>, received: nat, loop: Loop)

  /** The loop starts with the mutex locked. */
  function Opened<M>(inbox: seq<Envelope<M>>): NodeStream<M> {
    NodeStream(Core(true, [], [], false), inbox, 0, AtRecv)
  }

  datatype LoopStep = Receive | Break | Relock | Handling(h: HandlerStep)

  predicate LoopEnabled<M>(s: NodeStream<M>, e: LoopStep) {
    match e
    case Receive => s.loop == AtRecv && s.received < |s.inbox|
    case Break => s.loop == AtRecv
    case Relock => s.loop == AtLock && !s.core.locked
    case Handling(h) => HandlerEnabled(s.core, h)
  }

  function LoopApply<M>(s: NodeStream<M>, e: LoopStep): NodeStream<M>
    requires LoopEnabled(s, e)
  {
    match e
    case Receive =>
      s.(received := s.received + 1, loop := AtLock,
         core := if s.inbox[s.received].request then Spawn(s.core) else Absorb(s.core))
    case Break => s.(loop := Left, core := Unlock(s.core))
    case Relock => s.(loop := AtRecv, core := s.core.(locked := true))
    case Handling(h) => s.(core := HandlerApply(s.core, h))
  }

  ghost function Kinds<M>(s: NodeStream<M>): seq<bool>
    requires s.received <= |s.inbox|
  {
    seq(s.received, i requires 0 <= i < s.received => s.inbox[i].request)
  }

  ghost predicate StreamOk<M>(s: NodeStream<M>) {
    && s.received <= |s.inbox|
    && Disciplined(s.core, Kinds(s))
    && (s.loop == AtRecv ==> s.core.locked && LastReleased(s.core))
    && (s.loop == AtLock ==> s.core.locked == !LastReleased(s.core))
    && (s.loop == Left ==> LastReleased(s.core))
  }

  lemma ReceiveOk<M>(s: NodeStream<M>)
    requires StreamOk(s) && LoopEnabled(s, Receive)
    ensures StreamOk(LoopApply(s, Receive))
  {
    var t := LoopApply(s, Receive);
    assert Kinds(t) == Kinds(s) + [s.inbox[s.received].request];
    if s.inbox[s.received].request {
      SpawnDiscipline(s.core, Kinds(s));
    } else {
      AbsorbDiscipline(s.core, Kinds(s));
    }
  }

  lemma HandlingOk<M>(s: NodeStream<M>, h: HandlerStep)
    requires StreamOk(s) && LoopEnabled(s, Handling(h))
    ensures StreamOk(LoopApply(s, Handling(h)))
  {
    assert Kinds(LoopApply(s, Handling(h))) == Kinds(s);
    HandlerDiscipline(s.core, Kinds(s), h);
  }

  lemma LoopStepOk<M>(s: NodeStream<M>, e: LoopStep)
    requires StreamOk(s) && LoopEnabled(s, e)
    ensures StreamOk(LoopApply(s, e)) && LoopApply(s, e).inbox == s.inbox
  {
    match e
    case Receive => ReceiveOk(s);
    case Handling(h) => HandlingOk(s, h);
    case Break => BreakOk(s);
    case Relock => RelockOk(s);
  }

  lemma BreakOk<M>(s: NodeStream<M>)
    requires StreamOk(s) && LoopEnabled(s, Break)
    ensures StreamOk(LoopApply(s, Break))
  {
    assert Kinds(LoopApply(s, Break)) == Kinds(s);
  }

  lemma RelockOk<M>(s: NodeStream<M>)
    requires StreamOk(s) && LoopEnabled(s, Relock)
    ensures StreamOk(LoopApply(s, Relock))
  {
    assert Kinds(LoopApply(s, Relock)) == Kinds(s);
  }

  ghost predicate LoopRun<M>(s: NodeStream<M>, steps: seq<LoopStep>, t: NodeStream<M>)
    decreases |steps|
  {
    if steps == [] then s == t
    else LoopEnabled(s, steps[0]) && LoopRun(LoopApply(s, steps[0]), steps[1..], t)
  }

  lemma {:induction false} LoopRunOk<M>(s: NodeStream<M>, steps: seq<LoopStep>, t: NodeStream<M>)
    requires StreamOk(s) && LoopRun(s, steps, t)
    ensures StreamOk(t) && t.inbox == s.inbox
    decreases |steps|
  {
    if steps != [] {
      LoopStepOk(s, steps[0]);
      LoopRunOk(LoopApply(s, steps[0]), steps[1..], t);
    }
  }

  /**
   * In every run: the mutex is locked whenever the loop calls Recv, it is never unlocked twice, and
   * between two messages it is free exactly when the newest handler is released, so no repeated or
   * late release lets a later request in. All handlers but the newest are released, and handlers
   * begin in the order in which their requests arrived, skipping none.
   */
  lemma {:induction false} FifoUntilRelease<M>(inbox: seq<Envelope<M>>, steps: seq<LoopStep>, s: NodeStream<M>)
    requires LoopRun(Opened(inbox), steps, s)
    ensures s.loop == AtRecv ==> s.core.locked
    ensures s.loop == AtLock ==> (s.core.locked <==> !LastReleased(s.core))
    ensures !s.core.fault && s.received == |s.core.handlers| <= |inbox|
    ensures forall i :: 0 <= i < |s.core.handlers| - 1 ==> s.core.handlers[i].released
    ensures forall i :: 0 <= i < |s.core.handlers| && s.core.handlers[i].phase == Returned ==> s.core.handlers[i].released
    ensures forall a, b :: 0 <= a < b < |s.core.started| ==> s.core.started[a] < s.core.started[b]
    ensures forall i :: i in s.core.started ==> i < s.received && inbox[i].request
    ensures forall i :: 0 <= i < s.received - 1 && inbox[i].request ==> i in s.core.started
  {
    assert Kinds(Opened(inbox)) == [];
    LoopRunOk(Opened(inbox), steps, s);
    StartsAre(s.core, Kinds(s));
    forall i | i in s.core.started
      ensures i < s.received && inbox[i].request
    {
      assert Kinds(s)[i];
    }
    forall i | 0 <= i < s.received - 1 && inbox[i].request
      ensures i in s.core.started
    {
      assert Kinds(s)[i];
    }
  }

  /** The handlers that have begun, as the discipline describes them. */
  lemma {:induction false} StartsAre(k: Core, requests: seq<bool>)
    requires Disciplined(k, requests)
    ensures forall a, b :: 0 <= a < b < |k.started| ==> k.started[a] < k.started[b]
    ensures forall i :: i in k.started ==> i < |requests| && requests[i]
    ensures forall i :: 0 <= i < |requests| - 1 && requests[i] ==> i in k.started
  {
    PositionsMean(requests, |requests| - if LastSpawned(k) then 1 else 0);
  }

  // ---- the loop goes on ------------------------------------------------------------------

  lemma {:induction false} LoopJoin<M>(s: NodeStream<M>, a: seq<LoopStep>, m: NodeStream<M>, b: seq<LoopStep>, t: NodeStream<M>)
    requires LoopRun(s, a, m) && LoopRun(m, b, t)
    ensures LoopRun(s, a + b, t)
    decreases |a|
  {
    if a == [] {
      assert a + b == b;
    } else {
      assert (a + b)[1..] == a[1..] + b;
      LoopJoin(LoopApply(s, a[0]), a[1..], m, b, t);
    }
  }

  lemma {:induction false} LoopMore<M>(s: NodeStream<M>, a: seq<LoopStep>, m: NodeStream<M>, e: LoopStep)
    returns (b: seq<LoopStep>, t: NodeStream<M>)
    requires LoopRun(s, a, m) && StreamOk(m) && LoopEnabled(m, e)
    ensures LoopRun(s, b, t) && t == LoopApply(m, e) && StreamOk(t) && t.inbox == m.inbox
  {
    t := LoopApply(m, e);
    assert [e][1..] == [] && LoopRun(m, [e], t);
    LoopJoin(s, a, m, [e], t);
    b := a + [e];
    LoopStepOk(m, e);
  }

  /** A newest handler that is not released can begin, if it has not, and release. */
  lemma {:induction false} CanRelease<M>(s: NodeStream<M>) returns (steps: seq<LoopStep>, t: NodeStream<M>)
    requires StreamOk(s) && s.loop == AtLock
    ensures LoopRun(s, steps, t) && StreamOk(t) && t.loop == AtLock && t.inbox == s.inbox && t.received == s.received
    ensures !t.core.locked && !LastSpawned(t.core)
  {
    steps, t := [], s;
    if !LastReleased(s.core) {
      var n := |s.core.handlers| - 1;
      if LastSpawned(s.core) {
        steps, t := LoopMore(s, steps, t, Handling(Begin(n)));
      }
      steps, t := LoopMore(s, steps, t, Handling(Free(n)));
    }
  }

  /** From every state of the loop, all messages that have arrived can still be received and all requests handled. */
  lemma {:induction false} ServesAll<M>(s: NodeStream<M>) returns (steps: seq<LoopStep>, t: NodeStream<M>)
    requires StreamOk(s) && s.loop != Left
    ensures LoopRun(s, steps, t) && StreamOk(t) && t.inbox == s.inbox && t.received == |s.inbox|
    ensures forall i :: 0 <= i < |s.inbox| && s.inbox[i].request ==> i in t.core.started
    decreases |s.inbox| - s.received, s.loop == AtRecv
  {
    if s.loop == AtLock {
      var a, m := CanRelease(s);
      if m.received == |s.inbox| {
        steps, t := a, m;
        AllBegun(t);
      } else {
        var b, u := LoopMore(s, a, m, Relock);
        b, u := LoopMore(s, b, u, Receive);
        var rest;
        rest, t := ServesAll(u);
        LoopJoin(s, b, u, rest, t);
        steps := b + rest;
      }
    } else if s.received < |s.inbox| {
      var b, u := LoopMore(s, [], s, Receive);
      var rest;
      rest, t := ServesAll(u);
      LoopJoin(s, b, u, rest, t);
      steps := b + rest;
    } else {
      steps, t := [], s;
      AllBegun(t);
    }
  }

  lemma {:induction false} AllBegun<M>(s: NodeStream<M>)
    requires StreamOk(s) && s.received == |s.inbox| && !LastSpawned(s.core)
    ensures forall i :: 0 <= i < |s.inbox| && s.inbox[i].request ==> i in s.core.started
  {
    PositionsMean(Kinds(s), |Kinds(s)|);
    forall i | 0 <= i < |s.inbox| && s.inbox[i].request
      ensures i in s.core.started
    {
      assert Kinds(s)[i];
    }
  }

  // ---- in-process dispatch for the local node --------------------------------------------

  /** Callers in DispatchLocalRequest, the requests dispatched so far, the handlers, and the refused requests. */
  datatype Local<M> = Local(core: Core, blocked: multiset<M>, dispatched: seq<M>, refused: multiset<M>)

  /** Refuse: the request is answered without a handler, because its context is done or there is none. */
  datatype LocalStep<M> = Arrive(m: M) | Refuse(m: M) | Acquire(m: M) | LocalHandling(h: HandlerStep)

  function LocalStart<M>(): Local<M> {
    Local(Core(false, [], [], false), multiset{}, [], multiset{})
  }

  predicate LocalEnabled<M(==)>(s: Local<M>, e: LocalStep<M>) {
    match e
    case Arrive(_) => true
    case Refuse(m) => m in s.blocked
    case Acquire(m) => m in s.blocked && !s.core.locked
    case LocalHandling(h) => HandlerEnabled(s.core, h)
  }

  function LocalApply<M(==)>(s: Local<M>, e: LocalStep<M>): Local<M>
    requires LocalEnabled(s, e)
  {
    match e
    case Arrive(m) => s.(blocked := s.blocked + multiset{m})
    case Refuse(m) => s.(blocked := s.blocked - multiset{m}, refused := s.refused + multiset{m})
    case Acquire(m) =>
      s.(core := Spawn(s.core.(locked := true)), blocked := s.blocked - multiset{m}, dispatched := s.dispatched + [m])
    case LocalHandling(h) => s.(core := HandlerApply(s.core, h))
  }

  function AllRequests(n: nat): seq<bool> {
    seq(n, _ => true)
  }

  /** The same discipline, with the mutex locked exactly while the newest handler is unreleased. */
  ghost predicate LocalOk<M>(s: Local<M>) {
    Disciplined(s.core, AllRequests(|s.dispatched|)) && s.core.locked == !LastReleased(s.core)
  }

  lemma LocalStepOk<M>(s: Local<M>, e: LocalStep<M>)
    requires LocalOk(s) && LocalEnabled(s, e)
    ensures LocalOk(LocalApply(s, e))
  {
    var n := |s.dispatched|;
    match e
    case Acquire(m) =>
      assert AllRequests(n + 1) == AllRequests(n) + [true];
      SpawnDiscipline(s.core.(locked := true), AllRequests(n));
    case LocalHandling(h) => HandlerDiscipline(s.core, AllRequests(n), h);
    case _ =>
  }

  ghost predicate LocalRun<M>(s: Local<M>, steps: seq<LocalStep<M>>, t: Local<M>)
    decreases |steps|
  {
    if steps == [] then s == t
    else LocalEnabled(s, steps[0]) && LocalRun(LocalApply(s, steps[0]), steps[1..], t)
  }

  lemma {:induction false} LocalRunOk<M>(s: Local<M>, steps: seq<LocalStep<M>>, t: Local<M>)
    requires LocalOk(s) && LocalRun(s, steps, t)
    ensures LocalOk(t)
    decreases |steps|
  {
    if steps != [] {
      LocalStepOk(s, steps[0]);
      LocalRunOk(LocalApply(s, steps[0]), steps[1..], t);
    }
  }

  lemma {:induction false} PositionsOfAll(n: nat, m: nat)
    requires m <= n
    ensures |Positions(AllRequests(n), m)| == m
    ensures forall k :: 0 <= k < m ==> Positions(AllRequests(n), m)[k] == k
  {
    if m > 0 {
      PositionsOfAll(n, m - 1);
    }
  }

  lemma LocalStarts<M>(s: Local<M>)
    requires LocalOk(s)
    ensures |s.dispatched| - 1 <= |s.core.started| <= |s.dispatched|
    ensures forall k :: 0 <= k < |s.core.started| ==> s.core.started[k] == k
  {
    var n := |s.dispatched|;
    PositionsOfAll(n, n - if LastSpawned(s.core) then 1 else 0);
  }

  /**
   * Local requests run first in, first out until release: the handlers that have begun are those of
   * the first requests that acquired the mutex, in that order; all but the newest are released, and
   * the mutex is free exactly when that one is.
   */
  lemma {:induction false} LocalFifo<M>(steps: seq<LocalStep<M>>, s: Local<M>)
    requires LocalRun(LocalStart(), steps, s)
    ensures !s.core.fault && |s.core.handlers| == |s.dispatched|
    ensures forall i :: 0 <= i < |s.core.handlers| - 1 ==> s.core.handlers[i].released
    ensures s.core.locked <==> !LastReleased(s.core)
    ensures |s.dispatched| - 1 <= |s.core.started| <= |s.dispatched|
    ensures forall k :: 0 <= k < |s.core.started| ==> s.core.started[k] == k
  {
    LocalRunOk(LocalStart(), steps, s);
    LocalStarts(s);
  }

  lemma {:induction false} LocalMore<M>(s: Local<M>, a: seq<LocalStep<M>>, m: Local<M>, e: LocalStep<M>)
    returns (b: seq<LocalStep<M>>, t: Local<M>)
    requires LocalRun(s, a, m) && LocalOk(m) && LocalEnabled(m, e)
    ensures LocalRun(s, b, t) && t == LocalApply(m, e) && LocalOk(t)
    decreases |a|
  {
    LocalStepOk(m, e);
    t := LocalApply(m, e);
    if a == [] {
      b := [e];
    } else {
      var rest;
      rest, t := LocalMore(LocalApply(s, a[0]), a[1..], m, e);
      b := [a[0]] + rest;
      assert b[1..] == rest;
    }
  }

  /** From every state, each caller that waits can get its request dispatched and its handler begun. */
  lemma {:induction false} LocalServes<M>(s: Local<M>, m: M) returns (steps: seq<LocalStep<M>>, t: Local<M>)
    requires LocalOk(s) && m in s.blocked
    ensures LocalRun(s, steps, t) && LocalOk(t) && t.dispatched == s.dispatched + [m]
    ensures |s.dispatched| in t.core.started
  {
    steps, t := [], s;
    var n := |s.dispatched|;
    if s.core.locked {
      if LastSpawned(s.core) {
        steps, t := LocalMore(s, steps, t, LocalHandling(Begin(n - 1)));
      }
      steps, t := LocalMore(s, steps, t, LocalHandling(Free(n - 1)));
    }
    steps, t := LocalMore(s, steps, t, Acquire(m));
    steps, t := LocalMore(s, steps, t, LocalHandling(Begin(n)));
  }
}

/**
 * A per-node channel as a step machine (internal/stream/channel.go): callers of Enqueue, the
 * sender, the receiver, per-request cancel watchers, requeue goroutines and Close interleave
 * freely. Every lock-protected section and every channel operation is one step.
 */
module Channel {
  import opened Requests
  import opened Router

  datatype Kind = Outbound | Inbound
  datatype Params = Params(kind: Kind, capacity: nat)

  // ---- state -----------------------------------------------------------------------------

  /** The requests in the hands of goroutines other than the sender and the receiver, and the finished ones. */
  datatype Pools = Pools(
    entering: multiset<Request>,      // in Enqueue, before the outer check of connCtx
    waiting: multiset<Request>,       // in Enqueue, blocked in the inner select
    retrying: multiset<Request>,      // taken from the router by a requeue goroutine
    failing: multiset<Request>,       // about to be answered with an error
    finished: multiset<Request>)      // the channel is done with these

  datatype SenderPc =
    | Connecting | Announcing | Idle | Ensuring | Signalling | Checking | Fetching | Registering | Arming
    | Sending | Sent | SendFailed | Clearing | Sweeping | Refusing | Failing | Confirming | Draining | DrainRefusing | Exited

  /** The sender: the request it took last, the stream it fetched for it, and whether the cancel callback is armed. */
  datatype Sender = Sender(pc: SenderPc, req: Request, stream: nat, armed: bool)

  /** Started cancel callbacks: by the stream they will clear, and those that did and will requeue. */
  datatype Watchers = Watchers(firing: multiset<nat>, sweeping: nat)

  datatype ReceiverPc = Looking | Awaiting | Receiving | Routing | Delivering | Dropping | Resweeping | Rechecking | Gone

  /** The receiver goroutine; for an inbound channel, the receive loop of NodeStream. */
  datatype Receiver = Receiver(pc: ReceiverPc, stream: nat, msgID: nat, req: Request)

  /** The fields under streamMut. */
  datatype Link = Link(
    stream: Option<nat>,              // the current stream instance
    cancelOf: Option<nat>,            // the instance whose context streamCancel cancels
    nextStream: nat,
    cleared: seq<nat>,                // instances for which clearStream returned true, in order
    dead: set<nat>)                   // instances whose context streamCancel has cancelled

  datatype ClosePhase = Open | Cancelled | Swept | Returned
  datatype Shutdown = Shutdown(connDone: bool, phase: ClosePhase)

  /** Values and send confirmations, and channel-generated errors, put on response channels. */
  datatype Answers = Answers(replies: multiset<Request>, errors: multiset<Request>)

  /** One call of Send: the position in acceptance order, the request and the stream instance. */
  datatype WireEvent = WireEvent(index: nat, req: Request, stream: nat, ok: bool)

  /** What happened so far; no step reads it to decide what to do. */
  datatype Log = Log(
    issued: set<Request>,
    accepted: seq<Request>,           // everything sendQ ever accepted, in order
    taken: nat,                       // how many of those the sender has received
    wire: seq<WireEvent>)

  datatype State = State(
    log: Log,
    cancelled: set<Request>,          // requests whose context is done
    pools: Pools,
    queue: seq<Request>,              // sendQ
    sender: Sender,
    watchers: Watchers,
    receiver: Receiver,
    pending: Pending,
    answers: Answers,
    link: Link,
    ready: bool,                      // streamReady holds a signal
    shutdown: Shutdown)

  const NoRequest := Request(0, 0, false, false, false, false)

  function Init(c: Params): State {
    State(Log({}, [], 0, []), {}, Pools(multiset{}, multiset{}, multiset{}, multiset{}, multiset{}), [],
          Sender(Connecting, NoRequest, 0, false), Watchers(multiset{}, 0),
          Receiver(if c.kind == Outbound then Looking else Receiving, 0, 0, NoRequest),
          map[], Answers(multiset{}, multiset{}),
          if c.kind == Outbound then Link(None, None, 0, [], {}) else Link(Some(0), None, 1, [], {}),
          c.kind == Inbound,
          Shutdown(false, Open))
  }

  // ---- shared sections -------------------------------------------------------------------

  /** RequeuePending, under the router's lock; the two groups go to a goroutine each. */
  ghost function SweepPools(p: Pools, pending: Pending): Pools {
    p.(retrying := p.retrying + multiset(Retryable(pending)), failing := p.failing + multiset(Doomed(pending)))
  }

  predicate Clears(l: Link, stale: nat) {
    l.stream == Some(stale)
  }

  /** clearStream, under streamMut. */
  function Clear(l: Link, stale: nat): Link {
    if Clears(l, stale) then
      l.(stream := None, cleared := l.cleared + [stale],
         dead := if l.cancelOf.Some? then l.dead + {l.cancelOf.value} else l.dead)
    else l
  }

  /** The outcomes of ensureConnectedNodeStream. */
  datatype Connection = Keep | Fresh | Refused

  predicate CanConnect(c: Params, l: Link, how: Connection) {
    match how
    case Keep => l.stream.Some?
    case Fresh => c.kind == Outbound
    case Refused => c.kind == Outbound || l.stream.None?
  }

  /** ensureStream: an inbound channel only looks at its stream, an outbound one may replace it. */
  function EnsureStream(c: Params, l: Link, how: Connection): Link {
    if how == Keep || c.kind == Inbound then l
    else l.(nextStream := l.nextStream + 1, cancelOf := Some(l.nextStream),
            stream := if how == Fresh then Some(l.nextStream) else None)
  }

  /** Whether deliver may end this way: it gives up only on a full channel of a cancelled request. */
  predicate Deliverable(s: State, r: Request, ok: bool) {
    if ok then r.hasChan else !r.hasChan || (!r.roomy && r in s.cancelled)
  }

  function Finish(p: Pools, r: Request): Pools {
    p.(finished := p.finished + multiset{r})
  }

  function AddReply(a: Answers, r: Request, ok: bool): Answers {
    if ok then a.(replies := a.replies + multiset{r}) else a
  }

  function AddError(a: Answers, r: Request, ok: bool): Answers {
    if ok then a.(errors := a.errors + multiset{r}) else a
  }

  // ---- Enqueue, by a caller or by a requeue goroutine, and sendQ -------------------------

  datatype CallStep =
    | Issue(r: Request)          // a caller enters Enqueue
    | Cancel(r: Request)         // the request's context is cancelled
    | Pass(r: Request)           // outer check
    | Quit(r: Request)           // inner select, connCtx branch

  /** Message IDs of two-way calls are unique per router, and one-way calls do not stream. */
  ghost predicate Admissible(log: Log, r: Request) {
    && r !in log.issued
    && !(r.oneway && r.streaming)
    && (r.WantsServerResponse() ==>
          forall x :: x in log.issued && x.WantsServerResponse() ==> x.msgID != r.msgID)
  }

  ghost predicate CallEnabled(s: State, e: CallStep) {
    match e
    case Issue(r) => Admissible(s.log, r)
    case Cancel(r) => r in s.log.issued
    case Pass(r) => r in s.pools.entering
    case Quit(r) => r in s.pools.waiting && s.shutdown.connDone
  }

  ghost function CallApply(s: State, e: CallStep): State
    requires CallEnabled(s, e)
  {
    var p := s.pools;
    match e
    case Issue(r) =>
      s.(log := s.log.(issued := s.log.issued + {r}), pools := p.(entering := p.entering + multiset{r}))
    case Cancel(r) => s.(cancelled := s.cancelled + {r})
    case Pass(r) =>
      s.(pools := if s.shutdown.connDone
                  then p.(entering := p.entering - multiset{r}, failing := p.failing + multiset{r})
                  else p.(entering := p.entering - multiset{r}, waiting := p.waiting + multiset{r}))
    case Quit(r) => s.(pools := p.(waiting := p.waiting - multiset{r}, failing := p.failing + multiset{r}))
  }

  datatype QueueStep =
    | Deposit(r: Request)        // inner select, room in the buffer
    | Handover(r: Request)       // inner select, received directly by the sender
    | Take                       // the sender receives from the buffer
    | Retry(r: Request)          // a requeue goroutine enters Enqueue
    | ReplyError(r: Request, ok: bool)

  predicate AtReceive(pc: SenderPc) {
    pc == Idle || pc == Draining
  }

  function Received(x: Sender, r: Request): Sender {
    x.(req := r, pc := if x.pc == Idle then Ensuring else DrainRefusing)
  }

  predicate QueueEnabled(c: Params, s: State, e: QueueStep) {
    match e
    case Deposit(r) => r in s.pools.waiting && |s.queue| < c.capacity
    case Handover(r) => r in s.pools.waiting && s.queue == [] && AtReceive(s.sender.pc)
    case Take => s.queue != [] && AtReceive(s.sender.pc)
    case Retry(r) => r in s.pools.retrying
    case ReplyError(r, ok) => r in s.pools.failing && Deliverable(s, r, ok)
  }

  function QueueApply(c: Params, s: State, e: QueueStep): State
    requires QueueEnabled(c, s, e)
  {
    var p := s.pools;
    match e
    case Deposit(r) =>
      s.(pools := p.(waiting := p.waiting - multiset{r}), queue := s.queue + [r],
         log := s.log.(accepted := s.log.accepted + [r]))
    case Handover(r) =>
      s.(pools := p.(waiting := p.waiting - multiset{r}), sender := Received(s.sender, r),
         log := s.log.(accepted := s.log.accepted + [r], taken := s.log.taken + 1))
    case Take =>
      s.(queue := s.queue[1..], sender := Received(s.sender, s.queue[0]),
         log := s.log.(taken := s.log.taken + 1))
    case Retry(r) => s.(pools := p.(retrying := p.retrying - multiset{r}, entering := p.entering + multiset{r}))
    case ReplyError(r, ok) =>
      s.(pools := Finish(p.(failing := p.failing - multiset{r}), r), answers := AddError(s.answers, r, ok))
  }

  // ---- the sender goroutine --------------------------------------------------------------

  datatype PrepareStep =
    | Connect(how: Connection)
    | Leave
    | Ensure(how: Connection)
    | Signal                     // signal streamReady, unless it already holds a signal
    | CheckCtx
    | Fetch

  predicate PrepareEnabled(c: Params, s: State, e: PrepareStep) {
    match e
    case Connect(how) => s.sender.pc == Connecting && CanConnect(c, s.link, how)
    case Leave => s.sender.pc == Idle && s.shutdown.connDone
    case Ensure(how) => s.sender.pc == Ensuring && CanConnect(c, s.link, how)
    case Signal => s.sender.pc == Announcing || s.sender.pc == Signalling
    case CheckCtx => s.sender.pc == Checking
    case Fetch => s.sender.pc == Fetching
  }

  /** Where the sender goes from ensureStream: an outbound channel signals its receiver first. */
  function Connected(c: Params, how: Connection, signal: SenderPc, next: SenderPc, failed: SenderPc): SenderPc {
    if how == Refused then failed else if c.kind == Outbound then signal else next
  }

  function PrepareApply(c: Params, s: State, e: PrepareStep): State
    requires PrepareEnabled(c, s, e)
  {
    var x := s.sender;
    match e
    case Connect(how) =>
      s.(link := EnsureStream(c, s.link, how), sender := x.(pc := Connected(c, how, Announcing, Idle, Idle)))
    case Leave => s.(sender := x.(pc := Draining))
    case Ensure(how) =>
      s.(link := EnsureStream(c, s.link, how), sender := x.(pc := Connected(c, how, Signalling, Checking, Refusing)))
    case Signal => s.(ready := true, sender := x.(pc := if x.pc == Announcing then Idle else Checking))
    case CheckCtx => s.(sender := x.(pc := if x.req in s.cancelled then Refusing else Fetching))
    case Fetch =>
      s.(sender := if s.link.stream.None? then x.(pc := Refusing) else x.(stream := s.link.stream.value, pc := Registering))
  }

  datatype SendStep = Register | Arm | Send(ok: bool) | Stop

  /** A stream context is a child of connCtx on an outbound channel, and independent on an inbound one. */
  predicate ContextAlive(c: Params, s: State, stream: nat) {
    stream !in s.link.dead && !(c.kind == Outbound && s.shutdown.connDone)
  }

  predicate SendEnabled(c: Params, s: State, e: SendStep) {
    match e
    case Register => s.sender.pc == Registering
    case Arm => s.sender.pc == Arming
    case Send(ok) => s.sender.pc == Sending && (ok ==> ContextAlive(c, s, s.sender.stream))
    case Stop => s.sender.pc == Sent || s.sender.pc == SendFailed
  }

  function SendApply(c: Params, s: State, e: SendStep): State
    requires SendEnabled(c, s, e)
  {
    var x := s.sender;
    match e
    case Register =>
      s.(pending := if x.req.WantsServerResponse() then s.pending[x.req.msgID := x.req] else s.pending,
         sender := x.(pc := Arming))
    case Arm => s.(sender := x.(armed := true, pc := Sending))
    case Send(ok) =>
      s.(sender := x.(pc := if ok then Sent else SendFailed),
         log := s.log.(wire := s.log.wire + [WireEvent(LastTaken(s.log), x.req, x.stream, ok)]))
    case Stop =>
      s.(sender := x.(armed := false, pc := AfterStop(x)),
         pools := if x.pc == Sent && !x.req.hasChan then Finish(s.pools, x.req) else s.pools)
  }

  function LastTaken(log: Log): nat {
    if log.taken == 0 then 0 else log.taken - 1
  }

  function AfterStop(x: Sender): SenderPc {
    if x.pc == SendFailed then Clearing else if x.req.WantsSendConfirmation() then Confirming else Idle
  }

  datatype FinishStep = SenderClear | SenderSweep | Answer(ok: bool) | DrainDone

  predicate Answering(pc: SenderPc) {
    pc == Refusing || pc == Failing || pc == Confirming || pc == DrainRefusing
  }

  predicate FinishEnabled(s: State, e: FinishStep) {
    match e
    case SenderClear => s.sender.pc == Clearing
    case SenderSweep => s.sender.pc == Sweeping
    case Answer(ok) => Answering(s.sender.pc) && Deliverable(s, s.sender.req, ok)
    case DrainDone => s.sender.pc == Draining && s.queue == []
  }

  ghost function FinishApply(s: State, e: FinishStep): State
    requires FinishEnabled(s, e)
  {
    var x := s.sender;
    match e
    case SenderClear => s.(link := Clear(s.link, x.stream), sender := x.(pc := Sweeping))
    case SenderSweep =>
      s.(pending := map[], pools := SweepPools(s.pools, s.pending),
         sender := x.(pc := if x.req.WantsServerResponse() then Idle else Failing))
    case Answer(ok) =>
      s.(sender := x.(pc := if x.pc == DrainRefusing then Draining else Idle),
         pools := Finish(s.pools, x.req),
         answers := if x.pc == Confirming then AddReply(s.answers, x.req, ok) else AddError(s.answers, x.req, ok))
    case DrainDone => s.(sender := x.(pc := Exited))
  }

  // ---- cancel watchers -------------------------------------------------------------------

  datatype WatchStep = Fire | WatcherClear(stream: nat) | WatcherSweep

  predicate WatchEnabled(s: State, e: WatchStep) {
    match e
    case Fire => s.sender.armed && s.sender.req in s.cancelled
    case WatcherClear(st) => st in s.watchers.firing
    case WatcherSweep => s.watchers.sweeping > 0
  }

  ghost function WatchApply(s: State, e: WatchStep): State
    requires WatchEnabled(s, e)
  {
    var w := s.watchers;
    match e
    case Fire =>
      s.(sender := s.sender.(armed := false), watchers := w.(firing := w.firing + multiset{s.sender.stream}))
    case WatcherClear(st) =>
      s.(link := Clear(s.link, st),
         watchers := Watchers(w.firing - multiset{st}, w.sweeping + if Clears(s.link, st) then 1 else 0))
    case WatcherSweep =>
      s.(pending := map[], pools := SweepPools(s.pools, s.pending), watchers := w.(sweeping := w.sweeping - 1))
  }

  // ---- the receiver goroutine ------------------------------------------------------------

  datatype RecvStep =
    | Look
    | Wake(signalled: bool)      // a signal on streamReady, or connCtx done
    | Recv(msgID: nat)
    | RecvError
    | Recheck

  predicate RecvEnabled(s: State, e: RecvStep) {
    match e
    case Look => s.receiver.pc == Looking
    case Wake(signalled) => s.receiver.pc == Awaiting && if signalled then s.ready else s.shutdown.connDone
    case Recv(_) => s.receiver.pc == Receiving
    case RecvError => s.receiver.pc == Receiving
    case Recheck => s.receiver.pc == Rechecking
  }

  function RecvApply(c: Params, s: State, e: RecvStep): State
    requires RecvEnabled(s, e)
  {
    var x := s.receiver;
    match e
    case Look =>
      s.(receiver := if s.link.stream.Some? then x.(stream := s.link.stream.value, pc := Receiving)
                     else x.(pc := Awaiting))
    case Wake(signalled) =>
      s.(receiver := x.(pc := if signalled then Looking else Gone), ready := s.ready && !signalled)
    case Recv(id) => s.(receiver := x.(msgID := id, pc := Routing))
    case RecvError => s.(receiver := x.(pc := if c.kind == Outbound then Dropping else Gone))
    case Recheck => s.(receiver := x.(pc := if s.shutdown.connDone then Gone else Looking))
  }

  datatype RouteStep = Route | Deliver(ok: bool) | ReceiverClear | ReceiverSweep

  predicate RouteEnabled(s: State, e: RouteStep) {
    match e
    case Route => s.receiver.pc == Routing
    case Deliver(ok) => s.receiver.pc == Delivering && Deliverable(s, s.receiver.req, ok)
    case ReceiverClear => s.receiver.pc == Dropping
    case ReceiverSweep => s.receiver.pc == Resweeping
  }

  /** Where the receive loop continues after a message. */
  function Again(c: Params): ReceiverPc {
    if c.kind == Outbound then Looking else Receiving
  }

  ghost function RouteApply(c: Params, s: State, e: RouteStep): State
    requires RouteEnabled(s, e)
  {
    var x := s.receiver;
    match e
    case Route =>
      if x.msgID !in s.pending then s.(receiver := x.(pc := Again(c)))
      else s.(receiver := x.(req := s.pending[x.msgID], pc := Delivering),
              pending := if s.pending[x.msgID].streaming then s.pending else s.pending - {x.msgID})
    case Deliver(ok) =>
      s.(receiver := x.(pc := Again(c)), answers := AddReply(s.answers, x.req, ok),
         pools := if x.req.streaming then s.pools else Finish(s.pools, x.req))
    case ReceiverClear =>
      s.(link := Clear(s.link, x.stream),
         receiver := x.(pc := if Clears(s.link, x.stream) then Resweeping else Rechecking))
    case ReceiverSweep =>
      s.(pending := map[], pools := SweepPools(s.pools, s.pending), receiver := x.(pc := Rechecking))
  }

  // ---- Close -----------------------------------------------------------------------------

  /** ParentDone: the stream context an inbound channel was created with ends. */
  datatype CloseStep = CloseCancel | CloseSweep | CloseReturn | ParentDone

  predicate CloseEnabled(c: Params, s: State, e: CloseStep) {
    match e
    case CloseCancel => s.shutdown.phase == Open
    case CloseSweep => s.shutdown.phase == Cancelled
    case CloseReturn => s.shutdown.phase == Swept
    case ParentDone => c.kind == Inbound
  }

  ghost function CloseApply(c: Params, s: State, e: CloseStep): State
    requires CloseEnabled(c, s, e)
  {
    match e
    case CloseCancel => s.(shutdown := Shutdown(true, Cancelled))
    case CloseSweep =>
      s.(pending := map[], pools := s.pools.(failing := s.pools.failing + multiset(s.pending.Values)),
         shutdown := s.shutdown.(phase := Swept))
    case CloseReturn => s.(shutdown := s.shutdown.(phase := Returned))
    case ParentDone => s.(shutdown := s.shutdown.(connDone := true))
  }

  // ---- runs ------------------------------------------------------------------------------

  datatype Step =
    | Call(call: CallStep)
    | Queue(queue: QueueStep)
    | Prepare(prepare: PrepareStep)
    | Transmit(send: SendStep)
    | Settle(settle: FinishStep)
    | Watching(watch: WatchStep)
    | Listen(recv: RecvStep)
    | Respond(route: RouteStep)
    | Close(close: CloseStep)

  ghost predicate Enabled(c: Params, s: State, e: Step) {
    match e
    case Call(x) => CallEnabled(s, x)
    case Queue(x) => QueueEnabled(c, s, x)
    case Prepare(x) => PrepareEnabled(c, s, x)
    case Transmit(x) => SendEnabled(c, s, x)
    case Settle(x) => FinishEnabled(s, x)
    case Watching(x) => WatchEnabled(s, x)
    case Listen(x) => RecvEnabled(s, x)
    case Respond(x) => RouteEnabled(s, x)
    case Close(x) => CloseEnabled(c, s, x)
  }

  ghost function Apply(c: Params, s: State, e: Step): State
    requires Enabled(c, s, e)
  {
    match e
    case Call(x) => CallApply(s, x)
    case Queue(x) => QueueApply(c, s, x)
    case Prepare(x) => PrepareApply(c, s, x)
    case Transmit(x) => SendApply(c, s, x)
    case Settle(x) => FinishApply(s, x)
    case Watching(x) => WatchApply(s, x)
    case Listen(x) => RecvApply(c, s, x)
    case Respond(x) => RouteApply(c, s, x)
    case Close(x) => CloseApply(c, s, x)
  }

  /** The steps lead from s to t. */
  ghost predicate Run(c: Params, s: State, steps: seq<Step>, t: State) {
    if steps == [] then s == t
    else
      var n := |steps| - 1;
      exists m :: Run(c, s, steps[..n], m) && Enabled(c, m, steps[n]) && t == Apply(c, m, steps[n])
  }

  ghost predicate Reachable(c: Params, s: State) {
    exists steps :: Run(c, Init(c), steps, s)
  }
}

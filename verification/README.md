# Gorums: a verified model of its runtime core

Gorums is a runtime for quorum calls: a client sends a request to a set of nodes and combines
their replies. This project models the concurrent machinery under such a call, and proves what
every interleaving of it keeps.

- **The per-node channel** (`Channel.dfy` and the `Channel*.dfy` files about it) is a step machine.
  Callers of `Enqueue`, the sender, the receiver, the cancel watchers, the requeue goroutines and
  `Close` interleave freely; each section under one lock and each channel operation is one step.
  `Router.dfy` is the pending-call table, with the loops that empty it. The main results are that
  every request has exactly one owner at all times, that it gets at most one answer however often
  it is sent again, that the wire follows the order of acceptance, exactly which channels shut down
  without leaving a request behind and when they come to rest at all, and exactly which steps can
  leave a waiting call or the receiver behind. Beside these stand the laws that something does happen:
  a response reaches its call, a swept call is tried again, a taken request goes out, a one-way request
  is confirmed exactly if it was sent, and a broken stream is given up. Laws about what lies between
  two steps of a run are stated on traces (`ChannelTraces.dfy`). `RouterSteps.dfy` shows that the
  sections under the router's lock are the methods of the router class.
  `SharedRouter.dfy` puts any number of channels over one router, as a peer that reconnects does.
- **Dispatch** (`Dispatch.dfy`, `EndToEnd.dfy`) is the receive loop of a server stream with its
  mutex and once-only release functions. Handlers start first in, first out until release, and
  composed with the channel they start in the order in which the client's send queue accepted.
- **Call order** (`ChannelCallers.dfy`, `CallOrder.dfy`) is a caller that makes one call after the
  other, each dispatched once by a loop over the nodes that blocks in `Enqueue`, while channels,
  in-process handlers and other callers run. Composed with dispatch it gives the order of the
  caller's calls at the handlers of every node.
- **Demultiplexing** (`Demux.dfy`) is two endpoints that share one bidirectional stream and tell
  requests from responses by the high bit of the message ID.
- **Membership** (`Membership.dfy`, `Waiters.dfy`) is the manager of connected peers: a step machine
  over its lock sections, which follows the history of accepted and cleaned-up streams in every
  interleaving, a class whose methods are those steps, and the waiters that are woken when a
  configuration is installed.
- **The call layer** (`QuorumCall.dfy`, `Multicast.dfy`, `Responses.dfy`, `Iterators.dfy`,
  `Correctables.dfy`) composes a call with one channel machine per node, and covers the loop of a
  waiting multicast, thresholds, push iterators with early exit and progressive watchers.
- **The replicated store and the statistics** (`Storage.dfy`, `Statistics.dfy`, `Quorums.dfy`).

Several properties that the comments suggest do not hold of the code in general. The model keeps
the code as it is and proves exactly when they hold:

- A channel can leave a request behind at shutdown. `drainSendQ` is said to catch every request
  that slips past the check in `Enqueue`; that is so exactly for outbound channels without a send
  buffer (`ShutdownCompleteIff`).
- The goroutines of a closed, outbound, unbuffered channel come to rest exactly if no response waits
  for room on a full response channel whose context is alive (`FinishesIff`, with the run
  `NeverFinishes`).
- A call that waits on a broken stream is swept out of the router for another try as long as the
  receiver reads the stream it was sent on. A step breaks this exactly if it replaces an open stream
  under a waiting call or under the receiver, because the connection is not ready:
  `ensureConnectedNodeStream` neither requeues nor cancels the old stream (`TendedStepIff`). Two
  runs show what is left behind: a call on a stream that is no longer current (`Forgotten`), and a
  call on a stream that nobody reads (`Unread`).
- Calls are taken up by the nodes in call order exactly if the earlier one is sent when it is made;
  a call that is sent by the first reader of its replies can be overtaken (`InOrderIff`).
- A waiting multicast is said to block until the messages were sent to all nodes. Once its nodes are
  at rest and its context is alive, it waits exactly if a node had no channel, or has the request in
  the buffer of a closed channel (`AllRepliesIff`, `WaitForSends`). On a given configuration every
  multicast at rest has returned exactly if each node has a channel and no channel has a send buffer
  (`AlwaysReturnsIff`, with the runs of `SilentRun`).
- `AcceptPeer` looks a node up in one lock section and uses it in the next. A stream can find the
  node gone, on which the source dereferences nil, exactly if it advertises an ID that clients are
  given (`NodeGoneIff`, with the run `NodeGone`).
- Two successful `Majority` calls share a node that both counted, but skipped nodes count. Given their
  numbers of answers they always share a node that answered both exactly if these numbers together
  exceed the configuration (`AlwaysShareIff`, `SkippedInCommon`); without skipped nodes they always do.
- A majority read returns a majority write exactly if its timestamp is after the Unix epoch,
  because a replica without the key answers with the epoch (`ReadsBackIffAfterEpoch`).
- Replicas that processed the same writes agree exactly if no key has two newest writes with
  different values (`ConvergentIff`).
- `Threshold` counts skipped nodes and `Correctable` does not. For one threshold they agree exactly
  if `Correctable` succeeds or no node was skipped (`SameVerdictIff`), and for all thresholds exactly
  if no node was skipped (`SameVerdictsIff`).
- Message IDs tell requests from responses and calls from each other exactly below 2^63
  (`ToldApartIff`, `DistinctIDsIff`).
- The benchmark reports the sample variance, except that it reports zero for two different samples
  (`VarianceReportedIff`).
- A channel from `Correctable.Watch` that is obtained after completion, for a level that was not
  reached, is never closed (`LateWatch`).

## Model

| member | source | states |
|---|---|---|
| Router.SweepPartition | internal/stream/router.go:251-265 | emptying the table hands every entry to exactly one of the two groups: retryable if it does not stream, cancelled if it does |
| Router.MessageRouter.Register | internal/stream/router.go:161-166 | the entry is stored under its own message ID and nothing else changes |
| Router.MessageRouter.DeliverPending | internal/stream/router.go:196-211 | finds exactly the registered call; removes it unless it streams, so that a second response finds nothing |
| Router.MessageRouter.CancelPending | internal/stream/router.go:234-243 | empties the table and returns every entry exactly once, in whatever order it is iterated |
| Router.MessageRouter.RequeuePending | internal/stream/router.go:251-265 | empties the table and returns an exact partition of it into retryable and cancelled entries |
| RouterSteps.Register | internal/stream/channel.go:431-435 | the sender's registration in the machine is Register of the router |
| RouterSteps.Route | internal/stream/router.go:196-211 | routing in the machine finds and removes what deliverPending finds and removes |
| RouterSteps.Sweep | internal/stream/channel.go:348-369 | a sweep in the machine hands out exactly the two groups that RequeuePending returns |
| RouterSteps.Cancel | internal/stream/channel.go:339-343 | the sweep of Close fails exactly the calls that CancelPending returns |
| ChannelOwnership.NoOverwrite | internal/stream/channel.go:431-435 | registering a request never overwrites an entry of the router |
| ChannelOwnership.StepOwners | internal/stream/channel.go:305-509 | no step of any goroutine changes the number of owners of a request; only issuing it adds one |
| ChannelOwnership.StepSettles | internal/stream/channel.go:54-73 | no step gives a request more final answers than completions, and exactly as many if its response channel has room |
| ChannelOwnership.OwnershipStep | internal/stream/channel.go:305-509 | every step of the machine keeps the ownership invariant |
| ChannelOwnership.OwnershipRun | internal/stream/channel.go:305-509 | every run keeps the ownership invariant |
| ChannelOwnership.ExactlyOneOwner | internal/stream/channel.go:305-469 | in every reachable state an issued request has exactly one owner: never lost, never duplicated |
| ChannelOwnership.AtMostOneAnswer | internal/stream/channel.go:305-509 | a non-streaming call gets at most one answer and a streaming call at most one channel-generated error, however often it is sent; a call that ended has exactly one if there is room |
| ChannelDelivery.ResponseReaches | internal/stream/router.go:156-211 | from every reachable state with a reading receiver, a response to a pending call can be delivered: it adds one reply to that call and to no other, and ends it unless it streams |
| ChannelDelivery.UnknownIgnored | internal/stream/router.go:196-211 | a message whose ID is not pending changes nothing |
| ChannelDelivery.RoutedIsDelivered | internal/stream/channel.go:489-508 | in every run each message routed to a pending call is delivered to it by the receiver's next step, or is still in delivery; it is given up only on a full response channel of a done context |
| ChannelDelivery.RepliesWereReceived | internal/stream/channel.go:489-508 | in every run each reply to a call that waits for a response answers a received message of its own with that call's ID |
| ChannelOneWay.ConfirmedIffSent | internal/stream/channel.go:441-467 | a one-way request is confirmed only if it was sent and gets an error only if it was not; when it has ended it has exactly the right one of the two, if there is room |
| ChannelSending.TakenGoesOut | internal/stream/channel.go:416-460 | a request that the sender has taken, with a live stream and a live context, can be sent on that stream and then waits in the router if it wants a response |
| SharedRouter.NeverOverwrites | node.go:167-172 | with several channels over one router, no channel overwrites an entry of the router, whichever channel registered it |
| SharedRouter.StepOk | node.go:167-179 | every step of any of the channels, of attaching another one and of a context that ends keeps the common account |
| SharedRouter.OneOwnerOverall | node.go:160-179 | however often a peer reconnects, each issued request has exactly one owner on all its channels and the router together |
| SharedRouter.OneAnswerOverall | node.go:160-179 | all these channels together give a request at most one final answer, and exactly one if it ended and its response channel has room |
| SharedRouter.OldChannelAnswers | node.go:167-172 | a run in which the Close of a replaced channel sweeps the common router and answers a call of the new channel with an error |
| ChannelStreams.LinkStep | internal/stream/channel.go:219-281 | every step keeps the stream bookkeeping consistent, and an inbound channel without a stream stays without one |
| ChannelStreams.ClearedOnce | internal/stream/channel.go:269-281 | over a whole run clearStream succeeds at most once per stream instance, and the cancelled contexts are exactly those of the cleared instances |
| ChannelStreams.ClearCancelsItsOwn | internal/stream/channel.go:262-281 | clearing cancels the context created with that instance and no other; a stale clear does nothing |
| ChannelClearing.FailedSendGivesUp | internal/stream/channel.go:449-452 | a stream on which a send failed is gone, or the sender is about to clear it |
| ChannelClearing.FailedRecvGivesUp | internal/stream/channel.go:489-497 | in every run, a stream on which Recv failed is gone, or the receiver has done nothing else since and is about to clear it |
| ChannelClearing.GoneForGood | internal/stream/channel.go:242-281 | a stream that is gone is never current again |
| ChannelClearing.CancelledSendIsFreed | internal/stream/channel.go:436-448 | while a Send of a cancelled request is in flight, its callback can start, has started, or the stream is given up and its context cancelled |
| ChannelClearing.ArmedOnlyAroundSend | internal/stream/channel.go:444-462 | the cancel callback runs only for a request whose Send is in flight or has just returned |
| ChannelOrder.SoundStep | internal/stream/channel.go:305-509 | every step keeps ownership, order and single admission of streaming requests together |
| ChannelOrder.WireFollowsAcceptance | internal/stream/channel.go:400-469 | sends happen in the order in which the send queue accepted the requests |
| ChannelOrder.StreamingSentOnce | internal/stream/channel.go:348-369 | a streaming request is handed to Send at most once, whatever happens to the streams |
| ChannelShutdown.ClosingStep | internal/stream/channel.go:150-159 | after the router was swept by Close, an outbound channel has pending entries only while its sender is about to sweep again |
| ChannelShutdown.DrainedAtExit | internal/stream/channel.go:377-387 | the sender leaves only when it has drained the send queue |
| ChannelShutdown.ShutdownAccounts | internal/stream/channel.go:150-159 | after the shutdown of an outbound channel the router is empty and each request is either finished or stranded in the buffer |
| ChannelShutdown.ShutdownAnswersAll | internal/stream/channel.go:305-387 | with the default unbuffered queue, every request is finished and has exactly one answer if its response channel has room |
| ChannelShutdown.StrandedInBuffer | internal/stream/channel.go:320-335 | with a buffer there is a run in which a caller deposits a request after the queue was drained, and nobody answers it |
| ChannelShutdown.StrandedInRouter | internal/stream/channel.go:123-131 | on an inbound channel there is a run in which a send after Close succeeds and its entry stays in the router |
| ChannelShutdown.ShutdownCompleteIff | internal/stream/channel.go:371-387 | shutdown is complete in every run exactly for outbound channels with an unbuffered queue |
| ChannelProgress.StepWork | internal/stream/channel.go:150-159 | once the channel is being closed, every step of its own goroutines leaves less work, whatever it does |
| ChannelProgress.RunsEnd | internal/stream/channel.go:371-387 | no run of them is longer than the work there was |
| ChannelProgress.Next | internal/stream/channel.go:377-509 | unless all goroutines have finished or a response is stuck, one of them can go on |
| ChannelProgress.LongestRunFinishes | internal/stream/channel.go:150-159 | a run that cannot go on has finished all goroutines |
| ChannelProgress.FinishesIff | internal/stream/channel.go:51-73 | after Close an outbound channel with an unbuffered queue can come to rest exactly if no response waits for room on a full response channel of a live context |
| ChannelProgress.NeverFinishes | internal/stream/channel.go:51-66 | a run to a channel that is being closed and cannot come to rest, because a response waits for room |
| ChannelInbound.CutRun | internal/stream/channel.go:219-226 | every continuation of a run keeps a cut-off inbound channel cut off |
| ChannelInbound.InboundStaysDown | internal/stream/channel.go:416-428 | once an inbound channel has lost its stream it never gets one, hands nothing dequeued afterwards to Send, and answers each such request with an error |
| ChannelRetry.FetchedStep | internal/stream/channel.go:242-281 | the stream in the sender's hand is the current one or its context is cancelled, and a receiver that waits although there is a stream will be signalled, whatever the goroutines do |
| ChannelRetry.NoLostSignal | internal/stream/channel.go:219-237 | in every reachable state of an outbound channel, a receiver that waits although there is a stream has a signal pending or on its way, and it leaves only on shutdown |
| ChannelRetry.TendedStepIff | internal/stream/channel.go:242-253 | as long as every waiting call is on the current stream, in hand or about to be swept, and the receiver reads the current stream or a cancelled one, a step ends this exactly if it replaces an open stream under waiting calls or under the receiver |
| ChannelRetry.NothingForgotten | internal/stream/channel.go:400-509 | in every run without such a replacement, each waiting call was sent on the current stream, is about to be sent, or will be swept for another try, and the receiver reads the current stream or one on which Recv fails |
| ChannelRequeue.OpenStep | internal/stream/channel.go:348-369 | every step keeps that on an open channel only streaming requests are failed outside the sender |
| ChannelRequeue.StepTries | internal/stream/channel.go:362-367 | on an open channel exactly issuing a request, and sweeping a call that does not stream, lead to another try |
| ChannelRequeue.SweptIsTriedAgain | internal/stream/channel.go:345-369 | a waiting call that does not stream and is swept has been accepted by the send queue again, or is on its way there, in every continuation in which the channel stays open |
| ChannelRequeue.SweepComes | internal/stream/channel.go:441-460 | a sweep that is due can always be carried out, with all the calls that wait |
| ChannelRequeue.ErrorHasCause | internal/stream/channel.go:416-428 | while the channel is open, a call that waits for a response and does not stream gets an error only from the sender's own refusal: it had no stream, or the call's context was done |
| ChannelRetry.Forgotten | internal/stream/channel.go:242-253 | a run that replaces a stream under a waiting call and leaves the call behind |
| ChannelRetry.Unread | internal/stream/channel.go:474-509 | a run that replaces a stream under the receiver, after which a call is sent on a stream that nobody reads |
| ChannelCancel.CancelledNeverSent | internal/stream/channel.go:420-423 | a request whose context ended before the sender's check is never handed to Send, in any continuation and however often it is retried |
| ChannelCancel.CancelStopsSends | internal/stream/channel.go:420-423 | the same from the moment the context of the request ends |
| Sequences.PositionsMean | internal/stream/server.go:77-99 | the order that the specification prescribes for handlers: exactly the requests among the received messages, strictly in order of arrival |
| Dispatch.HandlerDiscipline | internal/stream/server.go:86-99 | whatever a handler does, the mutex is unlocked only by the first release of the newest handler, and the discipline is kept |
| Dispatch.LoopStepOk | internal/stream/server.go:73-99 | every step of the receive loop and of its handlers keeps the discipline |
| Dispatch.FifoUntilRelease | internal/stream/server.go:73-99 | in every run the mutex is held at each Recv and never unlocked twice, it is free for the next message exactly when the newest handler is released, at most one handler is unreleased and none that has returned, and handlers start in order of arrival without a gap |
| Dispatch.ServesAll | internal/stream/server.go:77-99 | from every state of the loop all messages can still be received and all requests handled |
| Dispatch.LocalFifo | internal/stream/router.go:129-133 | in-process dispatch meets the same specification: handlers start in the order in which the mutex was acquired, without a gap, all but the newest are released, and the mutex is free exactly when that one is |
| Dispatch.LocalServes | internal/stream/router.go:104-134 | each caller that waits for in-process dispatch can get its request dispatched and its handler started |
| EndToEnd.ArrivalsAscend | internal/stream/server.go:77-82 | a stream instance carries exactly its successful sends, in order |
| EndToEnd.HandlersFollowAcceptance | internal/stream/server.go:77-99 | for one stream instance, handlers on the server start in the order in which the client's send queue accepted the requests |
| ChannelCallers.OriginsStep | internal/stream/channel.go:320-335 | every step keeps that whatever the goroutines hold was accepted, or was refused because the channel is closed |
| ChannelCallers.BeforeStep | internal/stream/channel.go:320-335 | every step keeps the order of two requests among the accepted ones |
| ChannelCallers.AcceptedInCallOrder | internal/stream/channel.go:305-335 | if Enqueue of a request has returned before another is issued, then in every continuation each acceptance of the other follows one of the first; if the first was refused, the other is never accepted |
| ChannelCallers.ClosedRefuses | internal/stream/channel.go:320-335 | once Close has begun or the parent context has ended, no request issued later is ever accepted |
| CallOrder.StepOk | client_interceptor.go:207-244 | every step of the caller, of the dispatch loops, of the readers and of the nodes keeps the order of the eager calls on every node |
| CallOrder.CallsInOrder | async.go:51-66 | however everything interleaves, every node takes up an eager call before every later call |
| CallOrder.DispatchedOnce | client_interceptor.go:62-71 | however many goroutines read its replies, a call enters Enqueue of each node at most once, and exactly once when it is dispatched, unless it reported an error for the node instead |
| CallOrder.CanDispatch | client_interceptor.go:218-244 | from every state the dispatch of a call can be carried through to all remaining nodes, skipping none |
| CallOrder.HandlersInCallOrder | doc/ordering.md:13-40 | on every node, over one stream instance, the handler of an eager call that was not sent again starts before the handlers of all later calls |
| CallOrder.LocalHandlersInCallOrder | internal/stream/router.go:104-134 | in-process, a handler of a later call starts only after one of the eager call has started, unless that call was refused |
| CallOrder.Overtaken | client_interceptor.go:269-273 | a run in which a call that is sent by its first reader is overtaken by a later one |
| CallOrder.InOrderIff | async.go:54-56 | calls are taken up in call order in every run exactly if the earlier one is sent when it is made |
| Demux.BitForms | internal/stream/message_id.go:9-17 | setting and testing bit 63 are the arithmetic forms used by the model |
| Demux.StepOk | internal/stream/router.go:141-189 | every step below the counter bound keeps both endpoints and both directions of the stream proper |
| Demux.NeverMisrouted | internal/stream/router.go:141-189 | with both counters below 2^63, in every run each router holds only IDs of its own half, handlers see only requests of the peer, and a pending call only ever gets a response to that very call |
| Demux.ReceiveMeans | internal/stream/router.go:141-189 | a received request is dispatched and a received response is delivered to its call while that is pending, told by what the message is |
| Demux.HandledAreReceived | internal/stream/router.go:141-189 | in every bounded run the messages dispatched to handlers are exactly the requests received |
| Demux.ResponseDelivered | internal/stream/router.go:196-211 | a response that is received while its call is pending is delivered to that call for good |
| Demux.RoundTrip | handler.go:130-146 | from every proper state a new call can make the round trip: its request is handled, and the response comes back to it |
| Demux.ResendMeans | internal/stream/channel.go:362-367 | a request that is sent again is pending again, and the response to either copy comes back to its call |
| Demux.ToldApartIff | internal/stream/message_id.go:3-17 | both ends tell the request of a call from its response exactly if a server made the call or its number is below 2^63 |
| Demux.DistinctIDsIff | inbound_manager.go:172-174 | the calls of one side up to a number have different IDs exactly if a client makes them or the number is below 2^63 |
| Demux.ClientBeyond | internal/stream/router.go:174-189 | beyond the bound a client's request is never dispatched, and is delivered as a response if the server waits under its ID |
| Demux.ServerBeyond | internal/stream/router.go:174-189 | beyond the bound a server's call takes the place of an older one and is given the response to that |
| Membership.AcceptConnects | inbound_manager.go:243-261 | accepting a stream connects its node and no other |
| Membership.CleanupDisconnects | node.go:167-179 | a cleanup disconnects its node exactly if its stream is still the node's most recent one |
| Membership.SortByID | inbound_manager.go:312-313 | sorts distinct IDs strictly, keeping exactly the same members |
| Membership.ChangesEndInLatest | inbound_manager.go:314-319 | the reported configurations end with the current one and never repeat consecutively |
| Membership.SameHistorySameConfig | inbound_manager.go:298-323 | servers with the same settings and the same history of streams publish the same configurations |
| Membership.TracksRegister | inbound_manager.go:243-261 | attaching a stream to a node keeps the node map equal to what the history prescribes |
| Membership.TracksWelcome | inbound_manager.go:267-292 | so does accepting a client, even one that is given a known ID |
| Membership.TracksCleanup | inbound_manager.go:250-291 | so does any cleanup, however late or repeated |
| Membership.ClientNodes | inbound_manager.go:263-292 | a client has a node exactly while it is connected, unless its ID is also a known or an advertised one |
| Membership.StepOk | inbound_manager.go:194-292 | every lock section keeps this, and a stream between the two lock sections of AcceptPeer finds its node gone only if clients are given its ID |
| Membership.TracksAlways | inbound_manager.go:194-292 | in every interleaving the state follows the history, whatever IDs are known and advertised |
| Membership.NodeGone | inbound_manager.go:222-247 | a run in which a client leaves between the lookup and the use of its node by another stream |
| Membership.NodeGoneIff | inbound_manager.go:222-247 | a stream can find its node gone exactly if it advertises an ID that clients are given |
| Membership.InboundManager.constructor | inbound_manager.go:101-119 | the manager starts with an empty history and configurations that match it |
| Membership.InboundManager.NewConfig | inbound_manager.go:298-313 | a freshly allocated, strictly sorted list of exactly the connected nodes (and the own node) or clients |
| Membership.InboundManager.RebuildConfig | inbound_manager.go:298-323 | installs fresh configurations, reports exactly the changes, and starts a new broadcast generation |
| Membership.InboundManager.Install | inbound_manager.go:243-292 | a changed node map that matches the history is installed together with the configurations that follow from it |
| Membership.InboundManager.IsKnown | inbound_manager.go:194-237 | the first lock section of AcceptPeer: a stream is registered exactly if its ID is in the node map, and else rejected or taken for a client |
| Membership.InboundManager.RegisterPeer | inbound_manager.go:243-261 | the second lock section: attaches a new stream to the node, as the machine does, or finds no node and changes nothing |
| Membership.InboundManager.AcceptClient | inbound_manager.go:267-292 | creates a node as the machine does, with the next client ID, which is new to the map unless it was configured as a known one, or fails without any change when the IDs are exhausted |
| Membership.InboundManager.Cleanup | inbound_manager.go:250-291 | a cleanup may run late and again, and does what the machine does; configurations published before are not written |
| Membership.InboundManager.Config | inbound_manager.go:133-158 | for any known and advertised IDs: a known peer below the client range is listed exactly if it is the own node or the cleanup of its most recent stream has not run, the clients are exactly the nodes of the client range whose most recent stream was not cleaned up, and the last callback argument is the current configuration |
| Membership.InboundManager.AcceptPeer | inbound_manager.go:215-237 | with any cleanups and new clients between its lock sections: which streams are attached to a node, become clients or stay untracked, and that only an ID that clients are given can find no node; published arrays are never written again |
| Waiters.StepOk | inbound_manager.go:298-353 | every step keeps each waiter consistent with the generation it parked on |
| Waiters.NoLostWakeup | inbound_manager.go:327-353 | in every run a waiter that nothing can wake has a condition that is false now; a wait succeeds only on a configuration that met the condition |
| Waiters.WakesAndMeets | inbound_manager.go:339-353 | in every run a parked waiter whose condition holds can be woken, and its next check succeeds on the current configuration |
| Waiters.CloseFreesAll | inbound_manager.go:375-379 | no run in which the manager was closed leaves a waiter without a ready branch, and a parked one can see the stop and return |
| QuorumCall.OneValue | client_interceptor.go:177-265 | a node contributes at most one value to the reply channel, by error report or by delivery |
| QuorumCall.StepOk | client_interceptor.go:177-265 | every step of the caller, of the nodes' channels and of the consumer keeps the account of values |
| QuorumCall.StepValues | client_interceptor.go:177-265 | exactly which steps put a value on the reply channel and which take one off |
| QuorumCall.RoomForEveryReply | client_interceptor.go:82-95 | in every run the reply channel never holds more values than its capacity, so every value put on it finds room |
| QuorumCall.RestedValue | internal/stream/channel.go:54-73 | a node at rest has contributed exactly one value, unless it dropped the request or still has it in its buffer or router |
| QuorumCall.ExactlyOneValue | internal/stream/channel.go:371-387 | once the call is over for a node it has contributed exactly one value, or none if the request was dropped or is in a buffer that nobody empties |
| QuorumCall.AllRepliesIff | multicast.go:30-46 | once all nodes are at rest, one value per node has arrived exactly if no node dropped the request and none still has it in its send buffer or router |
| QuorumCall.NothingMoreArrives | multicast.go:30-46 | once the call is over for every node, no continuation brings another value |
| Multicast.Drain | multicast.go:30-46 | the loop blocks exactly if the values run out before it is done or its context ends, and otherwise reports all errors but those of skipped nodes, in order of arrival |
| Multicast.WaitForSends | multicast.go:21-48 | a multicast with a live context, once its nodes are at rest, waits in every continuation exactly if a node dropped its request or has it in the buffer of a channel whose sender has left |
| Multicast.SilentRun | internal/stream/channel.go:320-335 | for every node without a channel or with a send buffer, a run after which that node stays silent |
| Multicast.AlwaysReturnsIff | multicast.go:7-19 | every multicast on a configuration returns, once its nodes are at rest, exactly if each node has a channel and no channel has a send buffer |
| Responses.CountedInOrder | responses.go:235-242 | the counted replies are those at exactly the positions that count, in order of arrival |
| Responses.ErrorsInOrder | responses.go:235-237 | the errors are those of exactly the other replies, each with its node, in order of arrival |
| Responses.Threshold | responses.go:227-250 | succeeds exactly if enough replies count, pulls nothing after the deciding one, returns the first counted value, and on failure lists every error in order of arrival |
| Responses.CountedPrefix | responses.go:229-250 | what was counted in a prefix is a prefix of what is counted in the whole |
| Responses.MajorityCallsMeet | responses.go:214-219 | two successful Majority calls on one configuration share a node that both counted, answering or skipped |
| Responses.SkippedInCommon | responses.go:235-242 | two successful Majority calls that share only a node that both skipped |
| Responses.AlwaysShareIff | responses.go:235-242 | given their numbers of answers, two successful Majority calls always share a node that answered both exactly if the numbers together exceed the configuration |
| Responses.AnsweredInCommon | responses.go:214-219 | without skipped nodes, two successful Majority calls share a node that answered both |
| Responses.ByNodeLast | responses.go:108-117 | each node that replied is mapped to the value of its last reply |
| Responses.CollectN | responses.go:108-117 | the map of the shortest prefix with n distinct nodes, or of all replies if there is none |
| Iterators.Fusion | responses.go:58-93 | one filtering or mapping stage in front of an early-stopping consumer pulls exactly what is needed for the list-level prefix |
| Iterators.PushRefinesList | client_interceptor.go:198-205 | any chain of IgnoreErrors, Filter and MapResponse shows its consumer exactly a prefix of the list-level result, and pulls no reply past the one that made it stop |
| Iterators.SeesPrefix | responses.go:58-93 | a consumer that stops after n replies has seen the first n of the list-level result, in order |
| Iterators.IgnoreErrorsMeans | responses.go:58-68 | IgnoreErrors passes exactly the successful replies, in their order |
| Iterators.FilterMeans | responses.go:83-93 | Filter passes exactly the replies that the predicate keeps, in their order |
| Iterators.MapMeans | client_interceptor.go:330-351 | MapResponse changes the values of successful replies of the configuration's nodes in place, and nothing else |
| Correctables.ReachedSplit | correctable.go:123-128 | closing the watchers up to a level splits the waiting channels exactly by their level |
| Correctables.Correctable.constructor | correctable.go:67-71 | a new call has no level, no reply and no watcher |
| Correctables.Correctable.Watch | correctable.go:44-54 | returns a new channel, closed at once exactly if its level is reached; every channel is closed exactly when its level was reached since it was registered, or it was registered before completion and the call is complete |
| Correctables.Correctable.Update | correctable.go:107-129 | panics exactly on a completed call and then changes nothing; otherwise installs the new state, for any level, and keeps that equivalence |
| Correctables.LateWatch | correctable.go:43-54 | a channel obtained after completion for a level above the final one is closed by no later call of Watch or update |
| Correctables.Correctable.CloseAll | correctable.go:115-120 | closes every waiting channel, none of them twice |
| Correctables.Correctable.CloseReached | correctable.go:123-128 | closes and forgets exactly the channels whose level is reached, none of them twice |
| Correctables.Climb | correctable.go:86-91 | the update for each successful reply raises the level by one and closes exactly the channels for the levels reached, or all on completion |
| Correctables.Aggregate | correctable.go:73-99 | with any calls of Watch in between: no update panics, the level goes up by one with every successful reply, after each reply exactly the channels for the levels reached are closed, and the call is completed with the value that reached the threshold, or with all errors in order of arrival |
| Correctables.SameErrorsIff | correctable.go:80-84 | Correctable and Threshold list the same errors exactly if no node was skipped |
| Correctables.SameVerdictIff | correctable.go:80-84 | for one threshold Correctable and Threshold have the same outcome exactly if Correctable succeeds or no node was skipped |
| Correctables.SameVerdictsIff | responses.go:235-242 | for all thresholds together they have the same outcome exactly if no node was skipped |
| Storage.LastingWrite | examples/storage/server.go:244-266 | after any sequence of writes, a replica answers with the write of the key that no other one outdates, the last one among equally new ones, or negatively if there is none |
| Storage.StorageServer.Read | examples/storage/server.go:244-253 | the answer is that write among all writes the replica has processed |
| Storage.StorageServer.Write | examples/storage/server.go:256-266 | reports New exactly if no write of the key that the replica processed before is newer, and keeps the state that of the writes processed in order |
| Storage.TimeNeverDecreases | examples/storage/server.go:255-266 | over any sequence of writes the time of a key never decreases and is at least that of each write |
| Storage.HoldsAWrite | examples/storage/server.go:255-266 | what a replica holds is one of the writes it processed |
| Storage.ConvergentIff | examples/storage/server.go:255-266 | replicas that processed the same set of writes, in any order and with duplicates, agree exactly if no key has two newest writes with different values |
| Storage.NewestValue | examples/storage/client.go:29-43 | the loop computes the newest successful reply, the earliest one among equals, and none if all failed |
| Storage.NewestIsMaximum | examples/storage/client.go:27-43 | that reply is a successful one and no successful reply is newer |
| Storage.NewestIsFirst | examples/storage/client.go:35-37 | among equally new replies it is the earliest |
| Storage.NumUpdated | examples/storage/client.go:47-63 | true exactly if more than half of the nodes reported an update |
| Storage.ReadAfterWrite | examples/storage/client.go:29-63 | after a majority stored a write with a time after the epoch, every majority read finds a value at least as new, whatever else was written, even again |
| Storage.ReadsWhatWasReported | examples/storage/client.go:29-63 | if a majority reported a write as New, every later majority read of the servers finds it or a newer one, whatever their logs got in between |
| Storage.WriteThenReadBack | examples/storage/client.go:29-63 | the same for the servers themselves: a write quorum, any other writes, then a read quorum; the write is reported New exactly if a majority processes it and holds nothing newer |
| Storage.HiddenByNotFound | examples/storage/client.go:35-37 | for any earlier timestamp there is a majority read that reports the key missing |
| Storage.ReadsBackIffAfterEpoch | examples/storage/client.go:29-63 | a majority write is seen by every later majority read exactly if its timestamp is after the epoch |
| Quorums.MajoritiesMeet | responses.go:214-219 | two majorities of one set of nodes have a node in common |
| Quorums.MeetIff | responses.go:214-219 | sets of nodes of two given sizes always meet exactly if the sizes together exceed the configuration |
| Statistics.Welford | benchmark/stats.go:55-65 | the streaming update of mean and squared deviation equals the batch definition on the extended sample |
| Statistics.Stats.AddLatency | benchmark/stats.go:55-65 | after every sample, mean and m2 are the mean and the sum of squared deviations of all samples |
| Statistics.Stats.Start | benchmark/stats.go:37-43 | records the start of the measured interval and leaves the samples alone |
| Statistics.Stats.End | benchmark/stats.go:46-52 | records the end of the measured interval and leaves the samples alone |
| Statistics.Advance | benchmark/stats.go:80-81 | the distance between two readings of a 64-bit counter, with wrap-around |
| Statistics.Stats.GetResult | benchmark/stats.go:68-83 | the operations, mean and variance are those of all samples, the time is that between Start and End, and throughput and memory figures are per second and per operation |
| Statistics.Stats.Clear | benchmark/stats.go:86-96 | forgets all samples, times and memory figures |
| Statistics.VarianceReportedIff | benchmark/stats.go:77-79 | the reported variance is the sample variance, except for two different samples |
| Statistics.PoolOrder | benchmark/qspec.go:15-28 | size and sum of the pooled samples do not depend on the order of the replicas |
| Statistics.AddReplies | benchmark/qspec.go:15-27 | whatever order the map is iterated in, the loop accumulates the number and the sum of all samples of all replicas |
| Statistics.CombinedAverage | benchmark/qspec.go:15-28 | the combined average is the mean of all samples of all replicas, for every order in which the map is iterated |

## Left out

- gRPC, TCP, protobuf and metadata: Send, Recv and connection attempts have nondeterministic outcomes. One thing is assumed of them: Send does not succeed on a stream whose context is cancelled.
- Enqueue with both Oneway and Streaming set, which panics in the source, is not issued; message IDs of two-way calls are unique per router.
- The requeue and cancel batches of requeuePendingMsgs are modelled as requests that proceed independently of each other, which allows more interleavings than the source; the order in which requests are retried is not modelled.
- Liveness under repeated stream failure: retries are unbounded.
- That the channels of a multicast come to rest at all is not promised: a Send may block, and a response may wait for room on a full channel.
- ServerSequenceNumber and isServerSequenceNumber are written with arithmetic; BitForms ties them to the bit operations.
- Membership.InboundManager.constructor: the known IDs do not include 0, which node lists reject; a configuration is represented by its node IDs.
- Storage.NewestValue: the replies are given as a sequence; ErrIncomplete is the result None.
- The statistics use exact reals instead of float64; name, throughput, server statistics and the pooled variance of StopServerBenchmarkQF are not part of the model.
- Statistics.Stats.GetResult: without samples the source divides by zero, so at least one sample is required.
- CallOrder.HandlersInCallOrder: speaks of an eager call whose request was accepted once on the node; the source gives no order for requests that are sent again.
- HandleRequest, interceptor chains on the server and MapRequest: short sequential code whose effect on ordering is covered by the release steps of Dispatch.
- CollectAll, Unicast, RPCCall and the comparators by latency or last error: they would only add easy members.
- The moving average of the latency in the router.
- Configuration.Watch, set operations on configurations and node-list builders.
- The code generator, the benchmark driver, the storage REPL, TLS, logging and option plumbing.

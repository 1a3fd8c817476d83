/** The sections of the channel that run under the router's lock are its methods. */
module RouterSteps {
  import opened Requests
  import opened Router
  import opened Channel

  /** The router object holds the pending table of the state. */
  ghost predicate Holds(router: MessageRouter, s: State)
    reads router
  {
    router.pending == s.pending && Keyed(s.pending)
  }

  /** Register, called by the sender for a call that waits for a response. */
  method Register(router: MessageRouter, req: Request, ghost c: Params, ghost s: State)
    requires Holds(router, s) && SendEnabled(c, s, Channel.Register) && req == s.sender.req && req.WantsServerResponse()
    modifies router
    ensures Holds(router, SendApply(c, s, Channel.Register))
  {
    router.Register(req);
  }

  /** deliverPending, called by the receiver: it finds the call that the machine then delivers to, or none. */
  method Route(router: MessageRouter, msgID: nat, ghost c: Params, ghost s: State) returns (found: Option<Request>)
    requires Holds(router, s) && RouteEnabled(s, Channel.Route) && msgID == s.receiver.msgID
    modifies router
    ensures Holds(router, RouteApply(c, s, Channel.Route))
    ensures found == if RouteApply(c, s, Channel.Route).receiver.pc == Delivering
                     then Some(RouteApply(c, s, Channel.Route).receiver.req) else None
  {
    found := router.DeliverPending(msgID);
  }

  /** RequeuePending, called by whoever sweeps: the two groups are those the machine hands out. */
  method Sweep(router: MessageRouter, ghost s: State) returns (requeue: seq<Request>, cancel: seq<Request>)
    requires Holds(router, s)
    modifies router
    ensures router.pending == map[]
    ensures SweepPools(s.pools, s.pending)
            == s.pools.(retrying := s.pools.retrying + multiset(requeue), failing := s.pools.failing + multiset(cancel))
  {
    requeue, cancel := router.RequeuePending();
  }

  /** CancelPending, called by Close: exactly the calls that the machine then fails. */
  method Cancel(router: MessageRouter, ghost c: Params, ghost s: State) returns (reqs: seq<Request>)
    requires Holds(router, s) && CloseEnabled(c, s, CloseSweep)
    modifies router
    ensures Holds(router, CloseApply(c, s, CloseSweep))
    ensures CloseApply(c, s, CloseSweep).pools == s.pools.(failing := s.pools.failing + multiset(reqs))
  {
    reqs := router.CancelPending();
  }
}

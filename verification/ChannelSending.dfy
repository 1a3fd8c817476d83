/** A request that the sender took goes out. */
module ChannelSending {
  import opened Channel
  import opened ChannelRequeue

  /** The current stream is alive, and so is the context of the request in the sender's hand. */
  ghost predicate Sendable(c: Params, s: State) {
    s.link.stream.Some? && ContextAlive(c, s, s.link.stream.value) && s.sender.req !in s.cancelled
  }

  /** The sender checks its stream and the context, and takes the current stream. */
  lemma {:induction false} Prepares(c: Params, s: State) returns (steps: seq<Step>, t: State)
    requires s.sender.pc == Ensuring && Sendable(c, s)
    ensures Run(c, s, steps, t)
    ensures t == s.(sender := s.sender.(pc := Registering, stream := s.link.stream.value), ready := s.ready || c.kind == Outbound)
  {
    steps, t := OneMore(c, s, [], s, Prepare(Ensure(Keep)));
    if c.kind == Outbound {
      steps, t := OneMore(c, s, steps, t, Prepare(Signal));
    }
    steps, t := OneMore(c, s, steps, t, Prepare(CheckCtx));
    steps, t := OneMore(c, s, steps, t, Prepare(Fetch));
  }

  /** It registers a call that waits for a response, and sends. */
  lemma {:induction false} Transmits(c: Params, s: State, steps: seq<Step>, m: State) returns (more: seq<Step>, t: State)
    requires Run(c, s, steps, m) && m.sender.pc == Registering && ContextAlive(c, m, m.sender.stream)
    ensures Run(c, s, more, t)
    ensures var r := m.sender.req;
            && t.log == m.log.(wire := m.log.wire + [WireEvent(LastTaken(m.log), r, m.sender.stream, true)])
            && t.pending == (if r.WantsServerResponse() then m.pending[r.msgID := r] else m.pending)
            && t == m.(sender := m.sender.(pc := Sent, armed := true), log := t.log, pending := t.pending)
  {
    more, t := OneMore(c, s, steps, m, Transmit(Register));
    more, t := OneMore(c, s, more, t, Transmit(Arm));
    more, t := OneMore(c, s, more, t, Transmit(Send(true)));
  }

  /**
   * From every state in which the sender has just taken a request, with a live stream and a live context,
   * the request can be sent on that stream, and waits in the router if it wants a response; nothing else
   * changes.
   */
  lemma {:induction false} TakenGoesOut(c: Params, s: State) returns (steps: seq<Step>, t: State)
    requires s.sender.pc == Ensuring && Sendable(c, s)
    ensures Run(c, s, steps, t) && t.sender.pc == Sent
    ensures var r, st := s.sender.req, s.link.stream.value;
            && t.log == s.log.(wire := s.log.wire + [WireEvent(LastTaken(s.log), r, st, true)])
            && t.pending == (if r.WantsServerResponse() then s.pending[r.msgID := r] else s.pending)
            && t == s.(sender := t.sender, ready := t.ready, log := t.log, pending := t.pending)
  {
    var before, m := Prepares(c, s);
    steps, t := Transmits(c, s, before, m);
  }
}

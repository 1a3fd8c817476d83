/** Stream instances: who may clear one, and whose context that cancels. */
module ChannelStreams {
  import opened Channel

  ghost predicate Distinct<T(!new)>(q: seq<T>) {
    forall i, j :: 0 <= i < j < |q| ==> q[i] != q[j]
  }

  ghost predicate LinkOk(c: Params, l: Link) {
    && (l.stream.Some? ==> l.stream.value < l.nextStream && l.stream.value !in l.cleared)
    && (forall x :: x in l.cleared ==> x < l.nextStream)
    && Distinct(l.cleared)
    && (c.kind == Outbound ==> l.stream.Some? ==> l.cancelOf == l.stream)
    && (c.kind == Outbound ==> forall x :: x in l.dead <==> x in l.cleared)
    && (c.kind == Inbound ==> l.cancelOf.None? && l.dead == {} && l.nextStream == 1)
  }

  /** The only three things that can happen to the link in one step. */
  lemma LinkMoves(c: Params, s: State, e: Step)
    requires Enabled(c, s, e)
    ensures var l := Apply(c, s, e).link;
            || l == s.link
            || (exists stale :: l == Clear(s.link, stale))
            || (exists how :: CanConnect(c, s.link, how) && l == EnsureStream(c, s.link, how))
  {
  }

  lemma LinkStep(c: Params, s: State, e: Step)
    requires LinkOk(c, s.link) && Enabled(c, s, e)
    ensures LinkOk(c, Apply(c, s, e).link)
    ensures c.kind == Inbound && s.link.stream.None? ==> Apply(c, s, e).link.stream.None?
  {
    LinkMoves(c, s, e);
  }

  lemma {:induction false} LinkRun(c: Params, s: State, steps: seq<Step>, t: State)
    requires LinkOk(c, s.link) && Run(c, s, steps, t)
    ensures LinkOk(c, t.link)
    ensures c.kind == Inbound && s.link.stream.None? ==> t.link.stream.None?
  {
    if steps != [] {
      var n := |steps| - 1;
      var m :| Run(c, s, steps[..n], m) && Enabled(c, m, steps[n]) && t == Apply(c, m, steps[n]);
      LinkRun(c, s, steps[..n], m);
      LinkStep(c, m, steps[n]);
    }
  }

  lemma LinkReachable(c: Params, s: State)
    requires Reachable(c, s)
    ensures LinkOk(c, s.link)
  {
    var steps :| Run(c, Init(c), steps, s);
    LinkRun(c, Init(c), steps, s);
  }

  /**
   * Over a whole run clearStream returns true at most once per stream instance, and the contexts
   * it cancelled are exactly those of the cleared instances (none, on an inbound channel).
   */
  lemma ClearedOnce(c: Params, s: State)
    requires Reachable(c, s)
    ensures Distinct(s.link.cleared)
    ensures forall x :: x in s.link.dead <==> c.kind == Outbound && x in s.link.cleared
  {
    LinkReachable(c, s);
  }

  /** A call of clearStream cancels the context created with its argument, or no context at all. */
  lemma ClearCancelsItsOwn(c: Params, s: State, stale: nat)
    requires Reachable(c, s)
    ensures Clear(s.link, stale).dead ==
            s.link.dead + (if c.kind == Outbound && Clears(s.link, stale) then {stale} else {})
    ensures Clears(s.link, stale) ==> stale !in s.link.cleared
    ensures !Clears(s.link, stale) ==> Clear(s.link, stale) == s.link
  {
    LinkReachable(c, s);
  }
}

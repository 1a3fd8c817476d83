/**
 * Several channels over one router. When a peer reconnects, attachStream (node.go) replaces the
 * node's channel by a new one with the same router, and closes the old one; until the goroutines of
 * the old ones have finished, they all work on one pending-call table.
 */
module SharedRouter {
  import opened Requests
  import opened Router
  import opened Channel
  import opened ChannelOwnership

  /** The channels a node ever had, what they share, and the requests issued on any of them. */
  datatype Hub = Hub(
    params: seq<Params>, chans: seq<State>, pending: Pending, cancelled: set<Request>, issued: set<Request>)

  const Empty := Hub([], [], map[], {}, {})

  /** A channel as its own steps see it. */
  function View(h: Hub, i: nat): State
    requires i < |h.chans|
  {
    h.chans[i].(pending := h.pending, cancelled := h.cancelled)
  }

  datatype HubStep =
    | Attach(c: Params)          // a stream is attached: a new channel
    | At(i: nat, e: Step)        // a step of one of the channels
    | Cancelled(r: Request)      // the context of a request ends

  ghost predicate Issues(e: Step) {
    e.Call? && e.call.Issue?
  }

  /** Message IDs are unique over all channels of the node. */
  ghost predicate HubEnabled(h: Hub, e: HubStep) {
    match e
    case Attach(_) => true
    case At(i, x) =>
      && i < |h.chans| == |h.params| && Enabled(h.params[i], View(h, i), x)
      && (Issues(x) ==> Admissible(Log(h.issued, [], 0, []), x.call.r))
    case Cancelled(r) => r in h.issued
  }

  ghost function HubApply(h: Hub, e: HubStep): Hub
    requires HubEnabled(h, e)
  {
    match e
    case Attach(c) => h.(params := h.params + [c], chans := h.chans + [Init(c)])
    case At(i, x) =>
      var t := Apply(h.params[i], View(h, i), x);
      h.(chans := h.chans[i := t], pending := t.pending, cancelled := t.cancelled,
         issued := h.issued + if Issues(x) then {x.call.r} else {})
    case Cancelled(r) => h.(cancelled := h.cancelled + {r})
  }

  ghost predicate HubRun(h: Hub, steps: seq<HubStep>, g: Hub)
    decreases |steps|
  {
    if steps == [] then h == g
    else HubEnabled(h, steps[0]) && HubRun(HubApply(h, steps[0]), steps[1..], g)
  }

  // ---- counting over all channels --------------------------------------------------------

  /** Owners of r in a channel outside the router, its final answers, and whether the channel is done with it. */
  datatype Tally = Tally(owners: nat, answers: nat, finished: nat)

  ghost function TallyOf(s: State, r: Request): Tally {
    Tally(Pooled(s.pools, r) + multiset(s.queue)[r] + Held(s.sender, r) + InDelivery(s.receiver, r),
          FinalAnswers(s, r), s.pools.finished[r])
  }

  ghost function Plus(a: Tally, b: Tally): Tally {
    Tally(a.owners + b.owners, a.answers + b.answers, a.finished + b.finished)
  }

  ghost function Total(ts: seq<Tally>): Tally {
    if ts == [] then Tally(0, 0, 0) else Plus(Total(ts[..|ts| - 1]), ts[|ts| - 1])
  }

  ghost function Tallies(chans: seq<State>, r: Request): seq<Tally> {
    seq(|chans|, i requires 0 <= i < |chans| => TallyOf(chans[i], r))
  }

  ghost function Sum(chans: seq<State>, r: Request): Tally {
    Total(Tallies(chans, r))
  }

  lemma {:induction false} TotalUpdate(ts: seq<Tally>, i: nat, t: Tally)
    requires i < |ts|
    ensures Plus(Total(ts[i := t]), ts[i]) == Plus(Total(ts), t)
    ensures ts[i].owners <= Total(ts).owners
  {
    var n := |ts| - 1;
    if i == n {
      assert ts[i := t][..n] == ts[..n];
    } else {
      assert ts[i := t][..n] == ts[..n][i := t];
      TotalUpdate(ts[..n], i, t);
    }
  }

  lemma SumUpdate(chans: seq<State>, i: nat, s: State, r: Request)
    requires i < |chans|
    ensures Plus(Sum(chans[i := s], r), TallyOf(chans[i], r)) == Plus(Sum(chans, r), TallyOf(s, r))
    ensures TallyOf(chans[i], r).owners <= Sum(chans, r).owners
  {
    assert Tallies(chans[i := s], r) == Tallies(chans, r)[i := TallyOf(s, r)];
    TotalUpdate(Tallies(chans, r), i, TallyOf(s, r));
  }

  lemma SumAttach(chans: seq<State>, c: Params, r: Request)
    ensures Sum(chans + [Init(c)], r) == Sum(chans, r)
  {
    assert Tallies(chans + [Init(c)], r)[..|chans|] == Tallies(chans, r);
  }

  lemma {:induction false} FinishedOwned(ts: seq<Tally>)
    requires forall i :: 0 <= i < |ts| ==> ts[i].finished <= ts[i].owners
    ensures Total(ts).finished <= Total(ts).owners
  {
    if ts != [] {
      FinishedOwned(ts[..|ts| - 1]);
    }
  }

  // ---- the invariant ---------------------------------------------------------------------

  /** One owner on all channels and the router together, and answers and completions in step. */
  ghost predicate Accounted(h: Hub, r: Request) {
    && Sum(h.chans, r).owners + InPending(h.pending, r) == (if r in h.issued then 1 else 0)
    && Sum(h.chans, r).answers <= Sum(h.chans, r).finished
    && (r.hasChan && r.roomy ==> Sum(h.chans, r).answers == Sum(h.chans, r).finished)
  }

  ghost predicate Unique(issued: set<Request>) {
    forall x, y :: x in issued && y in issued && x.WantsServerResponse() && y.WantsServerResponse() && x.msgID == y.msgID ==> x == y
  }

  /** What a channel keeps by itself. */
  ghost predicate ChannelOk(s: State) {
    && (s.receiver.pc == Delivering ==> s.receiver.req.WantsServerResponse())
    && (s.sender.pc == Confirming ==> s.sender.req.WantsSendConfirmation())
  }

  ghost predicate HubOk(h: Hub) {
    && |h.params| == |h.chans| && Keyed(h.pending) && TwoWayOnly(h.pending) && Unique(h.issued)
    && (forall i :: 0 <= i < |h.chans| ==> ChannelOk(h.chans[i]))
    && (forall r :: Accounted(h, r))
  }

  /** No channel overwrites an entry, whichever channel registered it. */
  lemma NeverOverwrites(h: Hub, i: nat, x: Step)
    requires HubOk(h) && HubEnabled(h, At(i, x))
    ensures !Overwrites(View(h, i), x)
  {
    var s := h.chans[i];
    var r := s.sender.req;
    var y := if r.msgID in h.pending then h.pending[r.msgID] else r;
    assert Accounted(h, r) && Accounted(h, y);
    SumUpdate(h.chans, i, s, r);
  }

  /** A step of a channel changes the counts of all channels as it changes its own. */
  lemma StepAccounts(h: Hub, i: nat, x: Step, t: State, r: Request)
    requires HubOk(h) && HubEnabled(h, At(i, x)) && t == Apply(h.params[i], View(h, i), x)
    ensures Accounted(HubApply(h, At(i, x)), r)
  {
    ChannelMoves(h, i, x, t, r);
    SumUpdate(h.chans, i, t, r);
    assert Accounted(h, r);
  }

  /** What the step does to the counts of its channel. */
  lemma ChannelMoves(h: Hub, i: nat, x: Step, t: State, r: Request)
    requires HubOk(h) && HubEnabled(h, At(i, x)) && t == Apply(h.params[i], View(h, i), x)
    ensures var a, b := TallyOf(h.chans[i], r), TallyOf(t, r);
            && b.owners + InPending(t.pending, r) == a.owners + InPending(h.pending, r) + (if x == Call(Issue(r)) then 1 else 0)
            && b.answers + a.finished <= a.answers + b.finished
            && (r.hasChan && r.roomy ==> b.answers + a.finished == a.answers + b.finished)
  {
    var v := View(h, i);
    NeverOverwrites(h, i, x);
    MoveOwners(h.params[i], v, x, r);
    assert WellRouted(v);
    StepSettles(h.params[i], v, x, r);
    TallyMeans(v, h.chans[i], r);
    TallyMeans(t, t, r);
  }

  lemma TallyMeans(v: State, s: State, r: Request)
    requires v == s.(pending := v.pending, cancelled := v.cancelled)
    ensures Owners(v, r) == TallyOf(s, r).owners + InPending(v.pending, r)
    ensures FinalAnswers(v, r) == TallyOf(s, r).answers && v.pools.finished[r] == TallyOf(s, r).finished
  {
  }

  lemma ChannelStepOk(h: Hub, i: nat, x: Step)
    requires HubOk(h) && HubEnabled(h, At(i, x))
    ensures HubOk(HubApply(h, At(i, x)))
  {
    var v := View(h, i);
    var t := Apply(h.params[i], v, x);
    var g := HubApply(h, At(i, x));
    assert WellRouted(v);
    StepRouting(h.params[i], v, x);
    forall r
      ensures Accounted(g, r)
    {
      StepAccounts(h, i, x, t, r);
    }
    assert g.chans == h.chans[i := t] && ChannelOk(t);
  }

  lemma StepOk(h: Hub, e: HubStep)
    requires HubOk(h) && HubEnabled(h, e)
    ensures HubOk(HubApply(h, e))
  {
    match e
    case Attach(c) =>
      forall r
        ensures Accounted(HubApply(h, e), r)
      {
        assert Accounted(h, r);
        SumAttach(h.chans, c, r);
      }
    case At(i, x) => ChannelStepOk(h, i, x);
    case Cancelled(q) =>
      forall r
        ensures Accounted(HubApply(h, e), r)
      {
        assert Accounted(h, r);
      }
  }

  lemma {:induction false} RunOk(h: Hub, steps: seq<HubStep>, g: Hub)
    requires HubOk(h) && HubRun(h, steps, g)
    ensures HubOk(g)
    decreases |steps|
  {
    if steps != [] {
      StepOk(h, steps[0]);
      RunOk(HubApply(h, steps[0]), steps[1..], g);
    }
  }

  /** However often a peer reconnects: on all its channels and the router together, each issued request has one owner. */
  lemma {:induction false} OneOwnerOverall(steps: seq<HubStep>, h: Hub, r: Request)
    requires HubRun(Empty, steps, h)
    ensures Sum(h.chans, r).owners + InPending(h.pending, r) == if r in h.issued then 1 else 0
  {
    RunOk(Empty, steps, h);
    assert Accounted(h, r);
  }

  /** And all its channels together give it at most one final answer, exactly one if it ended and there is room. */
  lemma {:induction false} OneAnswerOverall(steps: seq<HubStep>, h: Hub, r: Request)
    requires HubRun(Empty, steps, h)
    ensures Sum(h.chans, r).answers <= Sum(h.chans, r).finished <= 1
    ensures r.hasChan && r.roomy ==> Sum(h.chans, r).answers == Sum(h.chans, r).finished
  {
    RunOk(Empty, steps, h);
    assert Accounted(h, r);
    FinishedOwned(Tallies(h.chans, r));
  }

  // ---- the old channel answers a call of the new one -------------------------------------

  ghost predicate Reaches(h: Hub, g: Hub) {
    exists steps :: HubRun(h, steps, g)
  }

  lemma {:induction false} HubMore(h: Hub, steps: seq<HubStep>, g: Hub, e: HubStep)
    requires HubRun(h, steps, g) && HubEnabled(g, e)
    ensures HubRun(h, steps + [e], HubApply(g, e))
    decreases |steps|
  {
    if steps == [] {
      assert [] + [e] == [e] && [e][1..] == [];
    } else {
      assert (steps + [e])[1..] == steps[1..] + [e];
      HubMore(HubApply(h, steps[0]), steps[1..], g, e);
    }
  }

  lemma More(h: Hub, e: HubStep) returns (g: Hub)
    requires Reaches(Empty, h) && HubEnabled(h, e)
    ensures g == HubApply(h, e) && Reaches(Empty, g)
  {
    g := HubApply(h, e);
    var steps :| HubRun(Empty, steps, h);
    HubMore(Empty, steps, h, e);
  }

  const Inner := Params(Inbound, 0)
  const Call1 := Request(1, 1, false, false, true, true)

  lemma TwoChannels() returns (h: Hub)
    ensures Reaches(Empty, h) && h == Hub([Inner, Inner], [Init(Inner), Init(Inner)], map[], {}, {})
  {
    assert HubRun(Empty, [], Empty);
    h := More(Empty, Attach(Inner));
    h := More(h, Attach(Inner));
  }

  /** A step of the second channel. */
  lemma Second(h: Hub, x: Step) returns (g: Hub)
    requires Reaches(Empty, h) && |h.chans| == |h.params| == 2 && HubEnabled(h, At(1, x))
    ensures Reaches(Empty, g) && g == HubApply(h, At(1, x))
    ensures g.params == h.params && |g.chans| == 2 && g.chans[0] == h.chans[0]
    ensures g.chans[1] == Apply(h.params[1], View(h, 1), x) && g.pending == g.chans[1].pending && g.cancelled == g.chans[1].cancelled
  {
    g := More(h, At(1, x));
  }

  lemma WaitsOnSecond() returns (h: Hub)
    ensures Reaches(Empty, h) && h.params == [Inner, Inner] && |h.chans| == 2 && h.chans[0] == Init(Inner)
    ensures h.pending == map[] && h.cancelled == {}
    ensures h.chans[1] == Init(Inner).(log := h.chans[1].log, pools := h.chans[1].pools) && Call1 in h.chans[1].pools.waiting
  {
    h := TwoChannels();
    h := Second(h, Call(Issue(Call1)));
    h := Second(h, Call(Pass(Call1)));
  }

  /** The call is issued on the second channel, whose sender takes it. */
  lemma TakenOnSecond() returns (h: Hub)
    ensures Reaches(Empty, h) && h.params == [Inner, Inner] && |h.chans| == 2 && h.chans[0] == Init(Inner)
    ensures h.pending == map[] && h.cancelled == {} && h.chans[1].sender == Sender(Ensuring, Call1, 0, false)
    ensures h.chans[1].link == Init(Inner).link && !h.chans[1].shutdown.connDone
  {
    h := WaitsOnSecond();
    h := Second(h, Prepare(Connect(Keep)));
    h := Second(h, Queue(Handover(Call1)));
  }

  lemma CheckedOnSecond() returns (h: Hub)
    ensures Reaches(Empty, h) && h.params == [Inner, Inner] && |h.chans| == 2 && h.chans[0] == Init(Inner)
    ensures h.pending == map[] && h.chans[1].sender == Sender(Fetching, Call1, 0, false) && h.chans[1].link == Init(Inner).link
  {
    h := TakenOnSecond();
    h := Second(h, Prepare(Ensure(Keep)));
    h := Second(h, Prepare(CheckCtx));
  }

  lemma RegisteredOnSecond() returns (h: Hub)
    ensures Reaches(Empty, h) && h.params == [Inner, Inner] && |h.chans| == 2 && h.chans[0] == Init(Inner)
    ensures h.pending == map[Call1.msgID := Call1]
  {
    h := CheckedOnSecond();
    h := Second(h, Prepare(Fetch));
    h := Second(h, Transmit(Register));
  }

  /**
   * The old channel is closed after the new one has registered a call: Close sweeps the common router,
   * and the old channel answers the new one's call with an error.
   */
  lemma OldChannelAnswers() returns (h: Hub)
    ensures Reaches(Empty, h) && |h.chans| == 2 && h.pending == map[]
    ensures h.chans[0].answers.errors[Call1] == 1 && h.chans[0].log.issued == {}
  {
    h := RegisteredOnSecond();
    h := SweptByFirst(h);
    h := More(h, At(0, Queue(ReplyError(Call1, true))));
  }

  lemma SweptByFirst(h: Hub) returns (g: Hub)
    requires Reaches(Empty, h) && h.params == [Inner, Inner] && |h.chans| == 2 && h.chans[0] == Init(Inner)
    requires h.pending == map[Call1.msgID := Call1]
    ensures Reaches(Empty, g) && g.params == h.params && |g.chans| == 2 && g.pending == map[]
    ensures Call1 in g.chans[0].pools.failing && g.chans[0].answers == Init(Inner).answers && g.chans[0].log.issued == {}
  {
    var closing := More(h, At(0, Close(CloseCancel)));
    g := More(closing, At(0, Close(CloseSweep)));
    assert Call1.msgID in closing.pending && closing.pending[Call1.msgID] == Call1;
    assert Call1 in closing.pending.Values;
  }
}

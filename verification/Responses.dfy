/** Aggregating the replies of a quorum call (responses.go, client_interceptor.go). */
module Responses {
  import opened Requests
  import opened Quorums
  import opened Sequences

  datatype Err = NoError | SkipNode | Other(code: nat)
  datatype NodeResponse<T> = NodeResponse(nodeID: nat, value: T, err: Err)
  datatype NodeError = NodeError(nodeID: nat, cause: Err)

  // ---- Threshold -------------------------------------------------------------------------

  /** Replies that count towards a threshold; Threshold counts skipped nodes, Correctable does not. */
  predicate Counts<T>(r: NodeResponse<T>, skips: bool) {
    r.err.NoError? || (skips && r.err.SkipNode?)
  }

  ghost function Counted<T>(xs: seq<NodeResponse<T>>, skips: bool): seq<NodeResponse<T>> {
    if xs == [] then []
    else Counted(xs[..|xs| - 1], skips) + if Counts(xs[|xs| - 1], skips) then [xs[|xs| - 1]] else []
  }

  /** The errors of the other replies, in order of arrival. */
  ghost function Errors<T>(xs: seq<NodeResponse<T>>, skips: bool): seq<NodeError> {
    if xs == [] then []
    else
      var r := xs[|xs| - 1];
      Errors(xs[..|xs| - 1], skips) + if Counts(r, skips) then [] else [NodeError(r.nodeID, r.err)]
  }

  ghost function FirstValue<T>(xs: seq<NodeResponse<T>>): Option<T> {
    if xs == [] then None else Some(xs[0].value)
  }

  lemma {:induction false} CountedPrefix<T>(xs: seq<NodeResponse<T>>, i: nat, skips: bool)
    requires i <= |xs|
    ensures Counted(xs[..i], skips) <= Counted(xs, skips)
  {
    if i < |xs| {
      var ys := xs[..|xs| - 1];
      assert ys[..i] == xs[..i];
      CountedPrefix(ys, i, skips);
    } else {
      assert xs[..i] == xs;
    }
  }

  /** Which replies count, or which do not. */
  ghost function Flags<T>(xs: seq<NodeResponse<T>>, skips: bool, counted: bool): seq<bool> {
    seq(|xs|, i requires 0 <= i < |xs| => Counts(xs[i], skips) == counted)
  }

  lemma FlagsMore<T>(xs: seq<NodeResponse<T>>, skips: bool, counted: bool)
    requires xs != []
    ensures Flags(xs, skips, counted)
            == Flags(xs[..|xs| - 1], skips, counted) + [Counts(xs[|xs| - 1], skips) == counted]
  {
  }

  /** The counted replies are those at exactly the positions that count, in order of arrival. */
  lemma {:induction false} CountedInOrder<T>(xs: seq<NodeResponse<T>>, skips: bool) returns (p: seq<nat>)
    ensures Extracts(Counted(xs, skips), xs, Flags(xs, skips, true), p)
  {
    if xs == [] {
      p := ExtractsNothing<NodeResponse<T>>();
    } else {
      var n := |xs| - 1;
      var before := xs[..n];
      var q := CountedInOrder(before, skips);
      FlagsMore(xs, skips, true);
      p := ExtractsMore(Counted(before, skips), before, Flags(before, skips, true), q, xs[n], Counts(xs[n], skips),
                        Counted(xs, skips), xs, Flags(xs, skips, true));
    }
  }

  /** The replies as the errors they would be listed as. */
  ghost function AsErrors<T>(xs: seq<NodeResponse<T>>): seq<NodeError> {
    seq(|xs|, i requires 0 <= i < |xs| => NodeError(xs[i].nodeID, xs[i].err))
  }

  /** The errors are those of exactly the other replies, each with its node, in order of arrival. */
  lemma {:induction false} ErrorsInOrder<T>(xs: seq<NodeResponse<T>>, skips: bool) returns (p: seq<nat>)
    ensures Extracts(Errors(xs, skips), AsErrors(xs), Flags(xs, skips, false), p)
  {
    if xs == [] {
      p := ExtractsNothing<NodeError>();
    } else {
      var n := |xs| - 1;
      var before, last := xs[..n], NodeError(xs[n].nodeID, xs[n].err);
      var q := ErrorsInOrder(before, skips);
      FlagsMore(xs, skips, false);
      p := ExtractsMore(Errors(before, skips), AsErrors(before), Flags(before, skips, false), q, last, !Counts(xs[n], skips),
                        Errors(xs, skips), AsErrors(xs), Flags(xs, skips, false));
    }
  }

  /** The number of counted replies to wait for: no threshold is met before the first. */
  function Need(threshold: int): nat {
    if threshold < 1 then 1 else threshold
  }

  /** The outcome of waiting for a threshold: no error if enough replies count, and else all errors. */
  ghost function Verdict<T>(xs: seq<NodeResponse<T>>, threshold: int, skips: bool): Option<seq<NodeError>> {
    if |Counted(xs, skips)| >= Need(threshold) then None else Some(Errors(xs, skips))
  }

  /**
   * Threshold on the replies that arrive: it succeeds exactly if enough of them count, pulls no
   * reply after the one that reaches the threshold, and returns the first counted value; on
   * failure it has pulled everything and lists every error in order of arrival.
   */
  method Threshold<T>(xs: seq<NodeResponse<T>>, threshold: int)
    returns (resp: Option<T>, errs: Option<seq<NodeError>>, pulled: nat)
    ensures errs == Verdict(xs, threshold, true)
    ensures pulled <= |xs| && resp == FirstValue(Counted(xs, true))
    ensures errs.None? ==> pulled > 0 && Counts(xs[pulled - 1], true) && |Counted(xs[..pulled], true)| == Need(threshold)
    ensures errs.Some? ==> pulled == |xs|
  {
    var count, list := 0, [];
    resp, errs, pulled := None, None, 0;
    while pulled < |xs|
      invariant pulled <= |xs|
      invariant count == |Counted(xs[..pulled], true)| < Need(threshold)
      invariant list == Errors(xs[..pulled], true)
      invariant resp == FirstValue(Counted(xs[..pulled], true))
    {
      var r := xs[pulled];
      assert xs[..pulled + 1][..pulled] == xs[..pulled];
      pulled := pulled + 1;
      if r.err.Other? {
        list := list + [NodeError(r.nodeID, r.err)];
        continue;
      }
      if count == 0 {
        resp := Some(r.value);
      }
      count := count + 1;
      if count >= threshold {
        CountedPrefix(xs, pulled, true);
        return;
      }
    }
    assert xs[..pulled] == xs;
    errs := Some(list);
  }

  // ---- two majorities --------------------------------------------------------------------

  ghost predicate OncePerNode<T>(xs: seq<NodeResponse<T>>) {
    forall i, j :: 0 <= i < j < |xs| ==> xs[i].nodeID != xs[j].nodeID
  }

  ghost function Ids<T>(xs: seq<NodeResponse<T>>): set<nat> {
    set r | r in xs :: r.nodeID
  }

  lemma IdsAppend<T>(xs: seq<NodeResponse<T>>, r: NodeResponse<T>)
    ensures Ids(xs + [r]) == Ids(xs) + {r.nodeID}
  {
    assert forall x :: x in xs + [r] <==> x in xs || x == r;
  }

  lemma {:induction false} IdsDistinct<T>(xs: seq<NodeResponse<T>>)
    requires OncePerNode(xs)
    ensures |Ids(xs)| == |xs|
  {
    if xs != [] {
      var ys, r := xs[..|xs| - 1], xs[|xs| - 1];
      assert xs == ys + [r];
      IdsDistinct(ys);
      IdsAppend(ys, r);
    }
  }

  lemma {:induction false} CountedOnce<T>(xs: seq<NodeResponse<T>>, skips: bool)
    requires OncePerNode(xs)
    ensures OncePerNode(Counted(xs, skips))
    ensures forall r :: r in Counted(xs, skips) ==> r in xs && Counts(r, skips)
  {
    if xs != [] {
      var ys, r := xs[..|xs| - 1], xs[|xs| - 1];
      CountedOnce(ys, skips);
      forall k | 0 <= k < |Counted(ys, skips)|
        ensures Counted(ys, skips)[k].nodeID != r.nodeID
      {
        assert Counted(ys, skips)[k] in Counted(ys, skips);
      }
    }
  }

  /** A successful Majority call on the configuration, with the replies that arrived. */
  ghost predicate MajorityCall<T>(config: set<nat>, xs: seq<NodeResponse<T>>) {
    OncePerNode(xs) && Ids(xs) <= config && |Counted(xs, true)| >= |config| / 2 + 1
  }

  /** The nodes whose replies were counted, and those that answered rather than were skipped. */
  ghost function CountedNodes<T>(xs: seq<NodeResponse<T>>): set<nat> {
    Ids(Counted(xs, true))
  }

  ghost function Answering<T>(xs: seq<NodeResponse<T>>): set<nat> {
    Ids(Counted(xs, false))
  }

  lemma CountedIds<T>(config: set<nat>, xs: seq<NodeResponse<T>>, skips: bool)
    requires OncePerNode(xs) && Ids(xs) <= config
    ensures Ids(Counted(xs, skips)) <= config && |Ids(Counted(xs, skips))| == |Counted(xs, skips)|
  {
    CountedOnce(xs, skips);
    IdsDistinct(Counted(xs, skips));
    assert Ids(Counted(xs, skips)) <= Ids(xs);
  }

  /** Two successful Majority calls on one configuration share a node that both counted, answering or skipped. */
  lemma MajorityCallsMeet<T>(config: set<nat>, xs: seq<NodeResponse<T>>, ys: seq<NodeResponse<T>>)
    requires MajorityCall(config, xs) && MajorityCall(config, ys)
    ensures CountedNodes(xs) * CountedNodes(ys) != {}
  {
    CountedIds(config, xs, true);
    CountedIds(config, ys, true);
    MajoritiesMeet(CountedNodes(xs), CountedNodes(ys), config);
  }

  /** They need not share a node that answered: a skipped node counts without having been contacted. */
  lemma SkippedInCommon<T>(v: T)
    ensures var config := {1, 2, 3};
            var xs := [NodeResponse(1, v, NoError), NodeResponse(2, v, SkipNode)];
            var ys := [NodeResponse(3, v, NoError), NodeResponse(2, v, SkipNode)];
            MajorityCall(config, xs) && MajorityCall(config, ys) && Answering(xs) * Answering(ys) == {}
  {
    PairOf(1, v);
    PairOf(3, v);
  }

  lemma PairOf<T>(id: nat, v: T)
    requires id != 2
    ensures var xs := [NodeResponse(id, v, NoError), NodeResponse(2, v, SkipNode)];
            OncePerNode(xs) && Ids(xs) == {id, 2} && Counted(xs, true) == xs && Answering(xs) == {id}
  {
    var one, two := NodeResponse(id, v, NoError), NodeResponse(2, v, SkipNode);
    assert [one, two][..1] == [one] && [one][..0] == [];
    assert Counted([one], true) == [one] && Counted([one], false) == [one];
    assert forall r :: r in [one, two] <==> r == one || r == two;
  }

  lemma OneMoreReply<T>(ys: seq<NodeResponse<T>>, r: NodeResponse<T>)
    requires OncePerNode(ys) && r.nodeID !in Ids(ys) && !r.err.Other?
    ensures OncePerNode(ys + [r]) && Ids(ys + [r]) == Ids(ys) + {r.nodeID}
    ensures Counted(ys + [r], true) == Counted(ys, true) + [r]
    ensures |Counted(ys + [r], false)| == |Counted(ys, false)| + if r.err.NoError? then 1 else 0
    ensures Answering(ys + [r]) == Answering(ys) + if r.err.NoError? then {r.nodeID} else {}
  {
    assert (ys + [r])[..|ys|] == ys;
    IdsAppend(ys, r);
    IdsAppend(Counted(ys, false), r);
    forall k | 0 <= k < |ys|
      ensures ys[k].nodeID != r.nodeID
    {
      assert ys[k].nodeID in Ids(ys);
    }
  }

  /** Each node of `all` has one reply: those of `some` answer, and the others are skipped. */
  ghost predicate Covers<T>(xs: seq<NodeResponse<T>>, all: set<nat>, some: set<nat>) {
    && OncePerNode(xs) && Ids(xs) == all && |Counted(xs, true)| == |all|
    && Answering(xs) == some && |Counted(xs, false)| == |some|
  }

  lemma CoversAnswer<T>(ys: seq<NodeResponse<T>>, all: set<nat>, some: set<nat>, id: nat, v: T)
    requires Covers(ys, all, some) && some <= all && id !in all
    ensures Covers(ys + [NodeResponse(id, v, NoError)], all + {id}, some + {id})
  {
    OneMoreReply(ys, NodeResponse(id, v, NoError));
  }

  lemma CoversSkip<T>(ys: seq<NodeResponse<T>>, all: set<nat>, some: set<nat>, id: nat, v: T)
    requires Covers(ys, all, some) && some <= all && id !in all
    ensures Covers(ys + [NodeResponse(id, v, SkipNode)], all + {id}, some)
  {
    OneMoreReply(ys, NodeResponse(id, v, SkipNode));
  }

  lemma CoversNone<T>(v: T)
    ensures Covers<T>([], {}, {})
  {
  }

  lemma {:induction false} AnswersOf<T>(some: set<nat>, v: T) returns (xs: seq<NodeResponse<T>>)
    ensures Covers(xs, some, some)
    decreases |some|
  {
    if some == {} {
      xs := [];
      CoversNone(v);
    } else {
      var id :| id in some;
      var rest := some - {id};
      var ys := AnswersOf(rest, v);
      xs := ys + [NodeResponse(id, v, NoError)];
      CoversAnswer(ys, rest, rest, id, v);
      assert rest + {id} == some;
    }
  }

  /** The nodes of `some` answer, and the others of `all` are skipped. */
  lemma {:induction false} RepliesOf<T>(all: set<nat>, some: set<nat>, v: T) returns (xs: seq<NodeResponse<T>>)
    requires some <= all
    ensures Covers(xs, all, some)
    decreases |all|
  {
    if all == some {
      xs := AnswersOf(some, v);
    } else {
      var id :| id in all && id !in some;
      var rest := all - {id};
      var ys := RepliesOf(rest, some, v);
      xs := ys + [NodeResponse(id, v, SkipNode)];
      CoversSkip(ys, rest, some, id, v);
      assert rest + {id} == all;
    }
  }

  /** Any two successful Majority calls with a and b answers share a node that answered both. */
  ghost predicate AlwaysShare<T(!new)>(config: set<nat>, a: nat, b: nat) {
    forall xs: seq<NodeResponse<T>>, ys: seq<NodeResponse<T>> ::
      MajorityCall(config, xs) && MajorityCall(config, ys) && |Counted(xs, false)| == a && |Counted(ys, false)| == b
      ==> Answering(xs) * Answering(ys) != {}
  }

  /** Given their numbers of answers, they always share one exactly if the numbers exceed the configuration together. */
  lemma {:induction false} AlwaysShareIff<T(!new)>(config: set<nat>, a: nat, b: nat, v: T)
    requires config != {} && a <= |config| && b <= |config|
    ensures AlwaysShare<T>(config, a, b) <==> a + b > |config|
  {
    if a + b > |config| {
      forall xs: seq<NodeResponse<T>>, ys: seq<NodeResponse<T>>
        | MajorityCall(config, xs) && MajorityCall(config, ys) && |Counted(xs, false)| == a && |Counted(ys, false)| == b
        ensures Answering(xs) * Answering(ys) != {}
      {
        CountedIds(config, xs, false);
        CountedIds(config, ys, false);
        MeetIff(config, a, b);
      }
    } else {
      var x := Choose(config, a);
      assert |config - x| == |config| - a;
      var y := Choose(config - x, b);
      var xs := RepliesOf(config, x, v);
      var ys := RepliesOf(config, y, v);
      assert Answering(xs) * Answering(ys) == {};
    }
  }

  /** Without skipped nodes every counted node answered, so two successful Majority calls always share one that did. */
  lemma AnsweredInCommon<T>(config: set<nat>, xs: seq<NodeResponse<T>>, ys: seq<NodeResponse<T>>)
    requires MajorityCall(config, xs) && MajorityCall(config, ys)
    requires forall r :: r in xs || r in ys ==> !r.err.SkipNode?
    ensures Answering(xs) * Answering(ys) != {}
  {
    SameCounted(xs);
    SameCounted(ys);
    MajorityCallsMeet(config, xs, ys);
  }

  lemma {:induction false} SameCounted<T>(xs: seq<NodeResponse<T>>)
    requires forall r :: r in xs ==> !r.err.SkipNode?
    ensures Counted(xs, false) == Counted(xs, true)
  {
    if xs != [] {
      assert xs[|xs| - 1] in xs;
      SameCounted(xs[..|xs| - 1]);
    }
  }

  // ---- CollectN --------------------------------------------------------------------------

  /** The replies by node ID; a later reply of a node replaces an earlier one. */
  ghost function ByNode<T>(xs: seq<NodeResponse<T>>): map<nat, T> {
    if xs == [] then map[] else ByNode(xs[..|xs| - 1])[xs[|xs| - 1].nodeID := xs[|xs| - 1].value]
  }

  /** Reply i is the last one of its node. */
  ghost predicate LastOfNode<T>(xs: seq<NodeResponse<T>>, i: nat) {
    i < |xs| && forall j :: i < j < |xs| ==> xs[j].nodeID != xs[i].nodeID
  }

  /** Each node that replied is mapped to the value of its last reply. */
  lemma {:induction false} ByNodeLast<T>(xs: seq<NodeResponse<T>>, i: nat)
    requires LastOfNode(xs, i)
    ensures xs[i].nodeID in ByNode(xs) && ByNode(xs)[xs[i].nodeID] == xs[i].value
  {
    var n := |xs| - 1;
    if i < n {
      ByNodeLast(xs[..n], i);
    }
  }

  lemma {:induction false} ByNodeKeys<T>(xs: seq<NodeResponse<T>>)
    ensures ByNode(xs).Keys == Ids(xs) && |ByNode(xs)| == |Ids(xs)|
  {
    if xs != [] {
      ByNodeKeys(xs[..|xs| - 1]);
      assert xs == xs[..|xs| - 1] + [xs[|xs| - 1]];
      IdsAppend(xs[..|xs| - 1], xs[|xs| - 1]);
    }
    assert |ByNode(xs)| == |ByNode(xs).Keys|;
  }

  /** One more reply adds at most one node. */
  lemma PrefixStep<T>(xs: seq<NodeResponse<T>>, i: nat)
    requires i < |xs|
    ensures ByNode(xs[..i + 1]) == ByNode(xs[..i])[xs[i].nodeID := xs[i].value]
    ensures |ByNode(xs[..i + 1])| == |Ids(xs[..i + 1])| <= |Ids(xs[..i])| + 1
  {
    assert xs[..i + 1][..i] == xs[..i] && xs[..i + 1] == xs[..i] + [xs[i]];
    ByNodeKeys(xs[..i + 1]);
    IdsAppend(xs[..i], xs[i]);
  }

  /** CollectN: the map of the shortest prefix with n distinct nodes, or of everything if there is none. */
  method CollectN<T>(xs: seq<NodeResponse<T>>, n: int) returns (replies: map<nat, T>, pulled: nat)
    ensures pulled <= |xs| && replies == ByNode(xs[..pulled])
    ensures |Ids(xs[..pulled])| <= Need(n)
    ensures |Ids(xs[..pulled])| < Need(n) ==> pulled == |xs|
    ensures pulled > 0 ==> |Ids(xs[..pulled - 1])| < Need(n)
  {
    replies, pulled := map[], 0;
    while pulled < |xs|
      invariant pulled <= |xs| && replies == ByNode(xs[..pulled])
      invariant |Ids(xs[..pulled])| < Need(n)
      invariant pulled > 0 ==> |Ids(xs[..pulled - 1])| < Need(n)
    {
      PrefixStep(xs, pulled);
      replies := replies[xs[pulled].nodeID := xs[pulled].value];
      pulled := pulled + 1;
      if |replies| >= n {
        return;
      }
    }
  }
}

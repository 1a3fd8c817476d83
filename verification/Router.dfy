/** The pending-call table of a node (internal/stream/router.go). */
module Router {
  import opened Requests

  type Pending = map<nat, Request>

  /** Every entry is stored under its own message ID. */
  ghost predicate Keyed(p: Pending) {
    forall k :: k in p ==> p[k].msgID == k
  }

  /** How often r occurs in a keyed table: zero or one. */
  ghost function InPending(p: Pending, r: Request): nat {
    if r.msgID in p && p[r.msgID] == r then 1 else 0
  }

  /** The entries that may be sent again on a new stream. */
  ghost function Retryable(p: Pending): set<Request> {
    set k | k in p && !p[k].streaming :: p[k]
  }

  /** The streaming entries, which a broken stream cancels. */
  ghost function Doomed(p: Pending): set<Request> {
    set k | k in p && p[k].streaming :: p[k]
  }

  /** Emptying the table hands each entry to exactly one of the two groups. */
  lemma SweepPartition(p: Pending, r: Request)
    requires Keyed(p)
    ensures multiset(Retryable(p))[r] == (if r.streaming then 0 else InPending(p, r))
    ensures multiset(Doomed(p))[r] == (if r.streaming then InPending(p, r) else 0)
    ensures multiset(Retryable(p))[r] + multiset(Doomed(p))[r] == InPending(p, r) == multiset(p.Values)[r]
  {
    assert r in Retryable(p) <==> !r.streaming && InPending(p, r) == 1;
    assert r in Doomed(p) <==> r.streaming && InPending(p, r) == 1;
    assert r in p.Values <==> InPending(p, r) == 1;
  }

  lemma RemoveOne(p: Pending, k: nat)
    requires Keyed(p) && k in p
    ensures Keyed(p - {k})
    ensures p[k].streaming ==> Retryable(p) == Retryable(p - {k})
    ensures p[k].streaming ==> multiset(Doomed(p)) == multiset(Doomed(p - {k})) + multiset{p[k]}
    ensures !p[k].streaming ==> Doomed(p) == Doomed(p - {k})
    ensures !p[k].streaming ==> multiset(Retryable(p)) == multiset(Retryable(p - {k})) + multiset{p[k]}
    ensures multiset(p.Values) == multiset((p - {k}).Values) + multiset{p[k]}
  {
    var q := p - {k};
    forall r: Request
      ensures InPending(p, r) == InPending(q, r) + (if r == p[k] then 1 else 0)
      ensures multiset(Retryable(p))[r] == multiset(Retryable(q))[r] + (if r == p[k] && !r.streaming then 1 else 0)
      ensures multiset(Doomed(p))[r] == multiset(Doomed(q))[r] + (if r == p[k] && r.streaming then 1 else 0)
      ensures multiset(p.Values)[r] == multiset(q.Values)[r] + (if r == p[k] then 1 else 0)
    {
      SweepPartition(p, r);
      SweepPartition(q, r);
    }
    assert forall r :: r in Retryable(p) <==> multiset(Retryable(p))[r] > 0;
    assert forall r :: r in Retryable(q) <==> multiset(Retryable(q))[r] > 0;
    assert forall r :: r in Doomed(p) <==> multiset(Doomed(p))[r] > 0;
    assert forall r :: r in Doomed(q) <==> multiset(Doomed(q))[r] > 0;
  }

  class MessageRouter {
    var pending: Pending

    constructor ()
      ensures pending == map[]
    {
      pending := map[];
    }

    method Register(req: Request)
      requires Keyed(pending)
      modifies this
      ensures pending == old(pending)[req.msgID := req] && Keyed(pending)
    {
      pending := pending[req.msgID := req];
    }

    /**
     * Looks up the call for a response. A non-streaming entry is removed, so a later response
     * with the same ID finds nothing; a streaming entry stays for further responses.
     */
    method DeliverPending(msgID: nat) returns (found: Option<Request>)
      requires Keyed(pending)
      modifies this
      ensures Keyed(pending)
      ensures found.Some? <==> msgID in old(pending)
      ensures found.Some? ==> found.value == old(pending)[msgID]
      ensures pending == if found.Some? && !found.value.streaming then old(pending) - {msgID} else old(pending)
    {
      if msgID in pending {
        found := Some(pending[msgID]);
        if !pending[msgID].streaming {
          pending := pending - {msgID};
        }
      } else {
        found := None;
      }
    }

    /** Removes all entries and returns each of them once. */
    method CancelPending() returns (reqs: seq<Request>)
      requires Keyed(pending)
      modifies this
      ensures pending == map[]
      ensures multiset(reqs) == multiset(old(pending).Values)
    {
      reqs := [];
      while pending != map[]
        invariant Keyed(pending)
        invariant multiset(reqs) + multiset(pending.Values) == multiset(old(pending).Values)
        decreases |pending|
      {
        var k :| k in pending;
        RemoveOne(pending, k);
        reqs := reqs + [pending[k]];
        ghost var before := pending;
        pending := pending - {k};
        assert pending.Keys == before.Keys - {k};
      }
      assert pending.Values == {};
    }

    /** Removes all entries and splits them exactly into retryable and cancelled ones. */
    method RequeuePending() returns (requeue: seq<Request>, cancel: seq<Request>)
      requires Keyed(pending)
      modifies this
      ensures pending == map[]
      ensures multiset(requeue) == multiset(Retryable(old(pending)))
      ensures multiset(cancel) == multiset(Doomed(old(pending)))
    {
      requeue, cancel := [], [];
      while pending != map[]
        invariant Keyed(pending)
        invariant multiset(requeue) + multiset(Retryable(pending)) == multiset(Retryable(old(pending)))
        invariant multiset(cancel) + multiset(Doomed(pending)) == multiset(Doomed(old(pending)))
        decreases |pending|
      {
        var k :| k in pending;
        RemoveOne(pending, k);
        var req := pending[k];
        ghost var before := pending;
        pending := pending - {k};
        assert pending.Keys == before.Keys - {k};
        if req.streaming {
          cancel := cancel + [req];
        } else {
          requeue := requeue + [req];
        }
      }
      assert Retryable(pending) == {} && Doomed(pending) == {};
    }
  }
}

/** The replicated key-value store (examples/storage): timestamped replicas, majority writes, newest-value reads. */
module Storage {
  import opened Requests
  import opened Quorums

  /** Times are nanoseconds relative to the Unix epoch, which is also what a missing timestamp reads as. */
  datatype Cell = Cell(value: string, time: int)
  datatype Write = Write(key: string, value: string, time: int)
  datatype ReadResponse = ReadResponse(ok: bool, value: string, time: int)

  type Store = map<string, Cell>

  predicate Accepts(s: Store, w: Write) {
    !(w.key in s && s[w.key].time > w.time)
  }

  function Applied(s: Store, w: Write): Store {
    if Accepts(s, w) then s[w.key := Cell(w.value, w.time)] else s
  }

  function ReadOf(s: Store, key: string): ReadResponse {
    if key in s then ReadResponse(true, s[key].value, s[key].time) else ReadResponse(false, "", 0)
  }

  ghost function Final(s: Store, ws: seq<Write>): Store {
    if ws == [] then s else Applied(Final(s, ws[..|ws| - 1]), ws[|ws| - 1])
  }

  // ---- the replica -----------------------------------------------------------------------

  ghost predicate Written(log: seq<Write>, key: string) {
    exists i :: 0 <= i < |log| && log[i].key == key
  }

  /** Write i of the log is the one that lasts: no write of its key is newer, and none as new comes later. */
  ghost predicate Lasts(log: seq<Write>, i: nat)
    requires i < |log|
  {
    && (forall j :: 0 <= j < |log| && log[j].key == log[i].key ==> log[j].time <= log[i].time)
    && (forall j :: i < j < |log| && log[j].key == log[i].key ==> log[j].time < log[i].time)
  }

  /** r is what a client should read after the writes of the log. */
  ghost predicate Answers(log: seq<Write>, key: string, r: ReadResponse) {
    if Written(log, key)
    then r.ok && exists i :: 0 <= i < |log| && log[i] == Write(key, r.value, r.time) && Lasts(log, i)
    else r == ReadResponse(false, "", 0)
  }

  /** Processing the writes one after the other leaves what a client should read. */
  lemma {:induction false} LastingWrite(log: seq<Write>, key: string)
    ensures Answers(log, key, ReadOf(Final(map[], log), key))
  {
    if log != [] {
      var n := |log| - 1;
      var before, last := log[..n], log[n];
      LastingWrite(before, key);
      assert Written(log, key) <==> Written(before, key) || last.key == key;
      if Written(before, key) {
        var r := ReadOf(Final(map[], before), key);
        var i :| 0 <= i < n && before[i] == Write(key, r.value, r.time) && Lasts(before, i);
        LastsOrNot(before, i, last, log);
      } else {
        assert last.key == key ==> Lasts(log, n);
      }
    }
  }

  /** One more write outlasts the one that lasted so far exactly if it is for its key and as new. */
  lemma LastsOrNot(before: seq<Write>, i: nat, last: Write, log: seq<Write>)
    requires i < |before| && Lasts(before, i) && log == before + [last]
    ensures log[i] == before[i] && log[|before|] == last
    ensures if last.key == before[i].key && last.time >= before[i].time then Lasts(log, |before|) else Lasts(log, i)
  {
    assert forall j :: 0 <= j < |before| ==> log[j] == before[j];
  }

  /** No write of its key in the log is newer than w. */
  ghost predicate NoneNewer(log: seq<Write>, w: Write) {
    forall i :: 0 <= i < |log| && log[i].key == w.key ==> log[i].time <= w.time
  }

  class StorageServer {
    var storage: Store
    ghost var log: seq<Write>    // the writes processed so far

    ghost predicate Valid()
      reads this
    {
      storage == Final(map[], log)
    }

    constructor ()
      ensures Valid() && log == []
    {
      storage, log := map[], [];
    }

    method Read(key: string) returns (r: ReadResponse)
      requires Valid()
      ensures Answers(log, key, r)
    {
      LastingWrite(log, key);
      if key !in storage {
        return ReadResponse(false, "", 0);
      }
      var state := storage[key];
      return ReadResponse(true, state.value, state.time);
    }

    /** Reports whether no write of the key processed before is newer. */
    method Write(w: Write) returns (isNew: bool)
      requires Valid()
      modifies this
      ensures Valid() && log == old(log) + [w]
      ensures isNew <==> NoneNewer(old(log), w)
      ensures storage == Applied(old(storage), w)
    {
      LastingWrite(log, w.key);
      assert (log + [w])[..|log|] == log;
      log := log + [w];
      if w.key in storage && storage[w.key].time > w.time {
        return false;
      }
      storage := storage[w.key := Cell(w.value, w.time)];
      return true;
    }
  }

  // ---- one replica over time -------------------------------------------------------------

  /** The time of a key never decreases, and is at least that of every write processed. */
  lemma {:induction false} TimeNeverDecreases(s: Store, ws: seq<Write>, k: string)
    ensures k in s ==> k in Final(s, ws) && Final(s, ws)[k].time >= s[k].time
    ensures forall w :: w in ws && w.key == k ==> k in Final(s, ws) && Final(s, ws)[k].time >= w.time
  {
    if ws != [] {
      TimeNeverDecreases(s, ws[..|ws| - 1], k);
      assert ws == ws[..|ws| - 1] + [ws[|ws| - 1]];
    }
  }

  /** What a fresh replica holds is one of the writes it processed, with the latest time. */
  lemma {:induction false} HoldsAWrite(ws: seq<Write>, k: string)
    ensures k in Final(map[], ws) <==> exists w :: w in ws && w.key == k
    ensures k in Final(map[], ws) ==> Write(k, Final(map[], ws)[k].value, Final(map[], ws)[k].time) in ws
  {
    if ws != [] {
      var last := ws[|ws| - 1];
      HoldsAWrite(ws[..|ws| - 1], k);
      assert ws == ws[..|ws| - 1] + [last];
      assert last in ws;
    }
  }

  // ---- convergence -----------------------------------------------------------------------

  /** On each key, the writes with the latest time carry the same value. */
  ghost predicate NoTies(ws: set<Write>) {
    forall a, b :: a in ws && b in ws && a.key == b.key && a.time == b.time && Newest(a, ws) ==> a.value == b.value
  }

  ghost predicate Newest(a: Write, ws: set<Write>) {
    forall w :: w in ws && w.key == a.key ==> w.time <= a.time
  }

  ghost function Elements(ws: seq<Write>): set<Write> {
    set w | w in ws
  }

  ghost predicate Convergent(ws: set<Write>) {
    forall a, b :: Elements(a) == ws == Elements(b) ==> Final(map[], a) == Final(map[], b)
  }

  lemma SameCell(ws: set<Write>, a: seq<Write>, b: seq<Write>, k: string)
    requires NoTies(ws) && Elements(a) == ws == Elements(b) && k in Final(map[], a)
    ensures k in Final(map[], b) && Final(map[], a)[k] == Final(map[], b)[k]
  {
    HoldsAWrite(a, k);
    HoldsAWrite(b, k);
    TimeNeverDecreases(map[], a, k);
    TimeNeverDecreases(map[], b, k);
    var x := Final(map[], a)[k];
    assert Write(k, x.value, x.time) in Elements(a);
    assert exists w :: w in b && w.key == k by {
      assert Write(k, x.value, x.time) in b;
    }
    var y := Final(map[], b)[k];
    assert Write(k, y.value, y.time) in Elements(b);
    assert Newest(Write(k, x.value, x.time), ws);
  }

  lemma {:induction false} Enumerate(ws: set<Write>) returns (q: seq<Write>)
    ensures Elements(q) == ws
  {
    q := [];
    var rest := ws;
    while rest != {}
      invariant rest <= ws && Elements(q) == ws - rest
      decreases |rest|
    {
      var w :| w in rest;
      assert Elements(q + [w]) == Elements(q) + {w};
      q, rest := q + [w], rest - {w};
    }
  }

  /** Ending with a newest write leaves its value. */
  lemma EndsWith(q: seq<Write>, w: Write)
    requires Newest(w, Elements(q))
    ensures w.key in Final(map[], q + [w]) && Final(map[], q + [w])[w.key].value == w.value
  {
    assert (q + [w])[..|q|] == q;
    HoldsAWrite(q, w.key);
    if w.key in Final(map[], q) {
      var x := Final(map[], q)[w.key];
      assert Write(w.key, x.value, x.time) in Elements(q);
    }
  }

  /**
   * Replicas that processed the same set of writes, in any order and with duplicates, hold the
   * same state exactly when no key has two newest writes with different values.
   */
  lemma ConvergentIff(ws: set<Write>)
    ensures Convergent(ws) <==> NoTies(ws)
  {
    if NoTies(ws) {
      forall a, b | Elements(a) == ws == Elements(b)
        ensures Final(map[], a) == Final(map[], b)
      {
        forall k | k in Final(map[], a) || k in Final(map[], b)
          ensures k in Final(map[], a) && k in Final(map[], b) && Final(map[], a)[k] == Final(map[], b)[k]
        {
          if k in Final(map[], a) {
            SameCell(ws, a, b, k);
          } else {
            SameCell(ws, b, a, k);
          }
        }
      }
    } else {
      var a, b :| a in ws && b in ws && a.key == b.key && a.time == b.time && Newest(a, ws) && a.value != b.value;
      var q := Enumerate(ws);
      EndsWith(q, a);
      EndsWith(q, b);
      assert Elements(q + [a]) == ws == Elements(q + [b]);
    }
  }

  // ---- reading and writing through quorums -----------------------------------------------

  datatype Reply<T> = Reply(node: nat, err: bool, value: T)

  ghost predicate DistinctNodes<T>(rs: seq<Reply<T>>) {
    forall i, j :: 0 <= i < j < |rs| ==> rs[i].node != rs[j].node
  }

  /** newestValue over the first n replies: the earliest of the successful replies with the latest time. */
  ghost function NewestOf(rs: seq<Reply<ReadResponse>>): Option<ReadResponse> {
    if rs == [] then None
    else
      var r, best := rs[|rs| - 1], NewestOf(rs[..|rs| - 1]);
      if r.err then best
      else if best.None? || r.value.time > best.value.time then Some(r.value)
      else best
  }

  method NewestValue(rs: seq<Reply<ReadResponse>>) returns (newest: Option<ReadResponse>)
    ensures newest == NewestOf(rs)
  {
    newest := None;
    for i := 0 to |rs|
      invariant newest == NewestOf(rs[..i])
    {
      assert rs[..i + 1][..i] == rs[..i];
      if rs[i].err {
        continue;
      }
      if newest.None? || rs[i].value.time > newest.value.time {
        newest := Some(rs[i].value);
      }
    }
    assert rs[..|rs|] == rs;
  }

  /** The result is a successful reply, and no successful reply is newer; there is none iff all failed. */
  lemma {:induction false} NewestIsMaximum(rs: seq<Reply<ReadResponse>>)
    ensures NewestOf(rs).None? <==> forall r :: r in rs ==> r.err
    ensures forall r :: r in rs && !r.err ==> NewestOf(rs).Some? && r.value.time <= NewestOf(rs).value.time
    ensures NewestOf(rs).Some? ==> exists r :: r in rs && !r.err && r.value == NewestOf(rs).value
  {
    if rs != [] {
      var last := rs[|rs| - 1];
      NewestIsMaximum(rs[..|rs| - 1]);
      assert rs == rs[..|rs| - 1] + [last];
      assert last in rs;
    }
  }

  /** Among equally new replies the result is the earliest. */
  lemma {:induction false} NewestIsFirst(rs: seq<Reply<ReadResponse>>) returns (i: nat)
    requires NewestOf(rs).Some?
    ensures i < |rs| && !rs[i].err && rs[i].value == NewestOf(rs).value
    ensures forall j :: 0 <= j < i && !rs[j].err ==> rs[j].value.time < rs[i].value.time
  {
    var n := |rs| - 1;
    if NewestOf(rs[..n]).None? {
      NewestIsMaximum(rs[..n]);
      assert forall j :: 0 <= j < n ==> rs[..n][j] in rs[..n] && rs[..n][j] == rs[j];
      i := n;
    } else {
      i := NewestIsFirst(rs[..n]);
      if !rs[n].err && rs[n].value.time > NewestOf(rs[..n]).value.time {
        NewestIsMaximum(rs[..n]);
        assert forall j :: 0 <= j < n ==> rs[..n][j] in rs[..n] && rs[..n][j] == rs[j];
        i := n;
      }
    }
  }

  ghost function Reporting(rs: seq<Reply<bool>>): set<nat> {
    set r | r in rs && !r.err && r.value :: r.node
  }

  /** numUpdated: whether a majority of the nodes reported that they stored the value. */
  method NumUpdated(size: nat, rs: seq<Reply<bool>>) returns (isNew: bool)
    requires DistinctNodes(rs)
    ensures isNew <==> 2 * |Reporting(rs)| > size
  {
    var count := 0;
    for i := 0 to |rs|
      invariant count == |Reporting(rs[..i])|
    {
      assert rs[..i + 1] == rs[..i] + [rs[i]];
      if rs[i].err {
        assert Reporting(rs[..i + 1]) == Reporting(rs[..i]);
        continue;
      }
      if rs[i].value {
        assert rs[i].node !in Reporting(rs[..i]);
        assert Reporting(rs[..i + 1]) == Reporting(rs[..i]) + {rs[i].node};
        count := count + 1;
      } else {
        assert Reporting(rs[..i + 1]) == Reporting(rs[..i]);
      }
    }
    assert rs[..|rs|] == rs;
    return count > size / 2;
  }

  ghost function Answering(rs: seq<Reply<ReadResponse>>): set<nat> {
    set r | r in rs && !r.err :: r.node
  }

  /** A replica: what it held at the start, the writes it processed, and how many of them before the read. */
  datatype Replica = Replica(start: Store, log: seq<Write>, cut: nat)

  ghost function AtRead(x: Replica): Store
    requires x.cut <= |x.log|
  {
    Final(x.start, x.log[..x.cut])
  }

  ghost predicate Stored(x: Replica, w: Write) {
    x.cut <= |x.log| && w in x.log[..x.cut]
  }

  /**
   * A write w reached a majority `wrote` of the replicas before the read, and a majority answered
   * the read; each answer is what that replica held when it processed the read. Replicas may have
   * processed any other writes, and w again, in any order.
   */
  ghost predicate WriteThenRead(w: Write, xs: seq<Replica>, wrote: set<nat>, rs: seq<Reply<ReadResponse>>) {
    && (forall i :: 0 <= i < |xs| ==> xs[i].cut <= |xs[i].log|)
    && wrote <= Nodes(|xs|) && 2 * |wrote| > |xs|
    && (forall i :: i in wrote ==> i < |xs| && Stored(xs[i], w))
    && Answering(rs) <= Nodes(|xs|) && 2 * |Answering(rs)| > |xs|
    && (forall r :: r in rs && !r.err ==> r.node < |xs| && r.value == ReadOf(AtRead(xs[r.node]), w.key))
  }

  lemma ReadAfterWrite(w: Write, xs: seq<Replica>, wrote: set<nat>, rs: seq<Reply<ReadResponse>>)
    requires WriteThenRead(w, xs, wrote, rs) && w.time > 0
    ensures NewestOf(rs).Some? && NewestOf(rs).value.ok && NewestOf(rs).value.time >= w.time
  {
    MajoritiesMeet(wrote, Answering(rs), Nodes(|xs|));
    var i :| i in wrote && i in Answering(rs);
    var r :| r in rs && !r.err && r.node == i;
    TimeNeverDecreases(xs[i].start, xs[i].log[..xs[i].cut], w.key);
    NewestIsMaximum(rs);
    var best :| best in rs && !best.err && best.value == NewestOf(rs).value;
  }

  lemma NotFoundFirst(missing: Reply<ReadResponse>, found: Reply<ReadResponse>)
    requires !missing.err && found.value.time <= missing.value.time
    ensures NewestOf([missing, found]) == Some(missing.value)
  {
    assert [missing, found][..1] == [missing] && [missing][..0] == [];
    assert NewestOf([missing]) == Some(missing.value);
  }

  lemma SingleWrite(w: Write)
    ensures Final(map[], [w][..1]) == map[w.key := Cell(w.value, w.time)]
  {
    assert [w][..1] == [w] && [w][..0] == [];
    assert Final(map[], [w][..0]) == map[];
  }

  /** For a timestamp not after the epoch, an earlier reply "not found" hides the value that was written. */
  lemma HiddenByNotFound(w: Write) returns (xs: seq<Replica>, wrote: set<nat>, rs: seq<Reply<ReadResponse>>)
    requires w.time <= 0
    ensures WriteThenRead(w, xs, wrote, rs) && NewestOf(rs).Some? && !NewestOf(rs).value.ok
  {
    var up, down := Replica(map[], [w], 1), Replica(map[], [], 0);
    xs, wrote := [up, up, down], {0, 1};
    var missing := Reply(2, false, ReadResponse(false, "", 0));
    var found := Reply(1, false, ReadResponse(true, w.value, w.time));
    rs := [missing, found];
    SingleWrite(w);
    NotFoundFirst(missing, found);
    assert AtRead(up) == map[w.key := Cell(w.value, w.time)] && AtRead(down) == map[];
    assert Stored(up, w) by {
      assert up.log[..up.cut][0] == w;
    }
    assert Answering(rs) == {1, 2} by {
      assert forall r :: r in rs <==> r == missing || r == found;
    }
    assert |wrote| == 2 && |Answering(rs)| == 2;
  }

  ghost predicate AlwaysReadsBack(w: Write) {
    forall xs, wrote, rs :: WriteThenRead(w, xs, wrote, rs) ==>
                              NewestOf(rs).Some? && NewestOf(rs).value.ok && NewestOf(rs).value.time >= w.time
  }

  /** A majority write is seen by every later majority read exactly if its timestamp is after the Unix epoch. */
  lemma ReadsBackIffAfterEpoch(w: Write)
    ensures AlwaysReadsBack(w) <==> w.time > 0
  {
    if w.time > 0 {
      forall xs, wrote, rs | WriteThenRead(w, xs, wrote, rs)
        ensures NewestOf(rs).Some? && NewestOf(rs).value.ok && NewestOf(rs).value.time >= w.time
      {
        ReadAfterWrite(w, xs, wrote, rs);
      }
    } else {
      var xs, wrote, rs := HiddenByNotFound(w);
    }
  }

  // ---- servers, write quorum and read quorum together ------------------------------------

  /** An answer given from a log that contains a write is at least as new as the write. */
  lemma AnswerIsNew(log: seq<Write>, w: Write, r: ReadResponse)
    requires w in log && Answers(log, w.key, r)
    ensures r.ok && r.time >= w.time
  {
    var k :| 0 <= k < |log| && log[k] == w;
    assert Written(log, w.key);
    var i :| 0 <= i < |log| && log[i] == Write(w.key, r.value, r.time) && Lasts(log, i);
  }

  ghost predicate AllNodes(n: nat, up: seq<bool>, nodes: set<nat>) {
    |up| == n && forall i: nat :: i in nodes <==> i < n && up[i]
  }

  /** A write reported New by a majority is seen by every later majority read, whatever the logs got in between. */
  lemma ReadsWhatWasReported(w: Write, logs: seq<seq<Write>>, ws: seq<Reply<bool>>, rs: seq<Reply<ReadResponse>>)
    requires 2 * |Reporting(ws)| > |logs| && 2 * |Answering(rs)| > |logs| && w.time > 0
    requires forall i :: i in Reporting(ws) ==> i < |logs| && w in logs[i]
    requires forall r :: r in rs && !r.err ==> r.node < |logs| && Answers(logs[r.node], w.key, r.value)
    ensures NewestOf(rs).Some? && NewestOf(rs).value.ok && NewestOf(rs).value.time >= w.time
  {
    assert Reporting(ws) <= Nodes(|logs|) && Answering(rs) <= Nodes(|logs|);
    MajoritiesMeet(Reporting(ws), Answering(rs), Nodes(|logs|));
    var i :| i in Reporting(ws) && i in Answering(rs);
    var r :| r in rs && !r.err && r.node == i;
    AnswerIsNew(logs[i], w, r.value);
    NewestIsMaximum(rs);
    var best :| best in rs && !best.err && best.value == NewestOf(rs).value;
    assert !best.value.ok ==> best.value.time == 0;
  }

  ghost predicate Servers(servers: seq<StorageServer>)
    reads servers
  {
    && (forall i, j :: 0 <= i < j < |servers| ==> servers[i] != servers[j])
    && (forall i :: 0 <= i < |servers| ==> servers[i].Valid())
  }

  ghost function Logs(servers: seq<StorageServer>): seq<seq<Write>>
    reads servers
  {
    seq(|servers|, i requires 0 <= i < |servers| reads servers => servers[i].log)
  }

  /** The write request at one server. */
  method WriteOne(servers: seq<StorageServer>, n: nat, w: Write, up: bool) returns (r: Reply<bool>)
    requires Servers(servers) && n < |servers|
    modifies servers[n]
    ensures Servers(servers) && r == Reply(n, !up, r.value) && (up ==> (r.value <==> NoneNewer(old(Logs(servers))[n], w)))
    ensures Logs(servers) == old(Logs(servers))[n := old(Logs(servers))[n] + if up then [w] else []]
  {
    if up {
      var isNew := servers[n].Write(w);
      r := Reply(n, false, isNew);
    } else {
      assert Logs(servers)[n] + [] == Logs(servers)[n];
      r := Reply(n, true, false);
    }
  }

  /** WriteQC: the servers that are up process the write, and the others fail. */
  method WriteQC(servers: seq<StorageServer>, w: Write, up: seq<bool>) returns (ws: seq<Reply<bool>>)
    requires Servers(servers) && |up| == |servers|
    modifies servers
    ensures Servers(servers) && DistinctNodes(ws)
    ensures forall i :: 0 <= i < |servers| ==> Logs(servers)[i] == old(Logs(servers))[i] + if up[i] then [w] else []
    ensures |ws| == |servers| && forall i :: 0 <= i < |ws| ==> ws[i] == Reply(i, !up[i], ws[i].value)
    ensures forall i :: 0 <= i < |ws| && up[i] ==> (ws[i].value <==> NoneNewer(old(Logs(servers))[i], w))
  {
    ws := [];
    ghost var logs := Logs(servers);
    for n := 0 to |servers|
      invariant Servers(servers) && |ws| == n
      invariant forall i :: 0 <= i < n ==> ws[i] == Reply(i, !up[i], ws[i].value)
      invariant forall i :: 0 <= i < n && up[i] ==> (ws[i].value <==> NoneNewer(logs[i], w))
      invariant Logs(servers)[n..] == logs[n..]
      invariant forall i :: 0 <= i < n ==> Logs(servers)[i] == logs[i] + if up[i] then [w] else []
    {
      assert Logs(servers)[n..][0] == logs[n..][0];
      var r := WriteOne(servers, n, w, up[n]);
      ws := ws + [r];
    }
  }

  /** Any other writes at any servers. */
  method Meanwhile(servers: seq<StorageServer>, others: seq<(nat, Write)>)
    requires Servers(servers) && forall o :: o in others ==> o.0 < |servers|
    modifies servers
    ensures Servers(servers)
    ensures forall i :: 0 <= i < |servers| ==> old(Logs(servers))[i] <= Logs(servers)[i]
  {
    for n := 0 to |others|
      invariant Servers(servers)
      invariant forall i :: 0 <= i < |servers| ==> old(servers[i].log) <= servers[i].log
    {
      assert others[n] in others;
      var isNew := servers[others[n].0].Write(others[n].1);
    }
  }

  /** ReadQC: the servers that are up answer, and the others fail. */
  method ReadQC(servers: seq<StorageServer>, key: string, up: seq<bool>) returns (rs: seq<Reply<ReadResponse>>)
    requires Servers(servers) && |up| == |servers|
    ensures forall r :: r in rs && !r.err ==> r.node < |servers| && Answers(Logs(servers)[r.node], key, r.value)
    ensures AllNodes(|servers|, up, Answering(rs))
  {
    rs := [];
    for n := 0 to |servers|
      invariant |rs| == n && forall i :: 0 <= i < n ==> rs[i].node == i && rs[i].err == !up[i]
      invariant forall i :: 0 <= i < n && !rs[i].err ==> Answers(servers[i].log, key, rs[i].value)
    {
      if up[n] {
        var r := servers[n].Read(key);
        rs := rs + [Reply(n, false, r)];
      } else {
        rs := rs + [Reply(n, true, ReadResponse(false, "", 0))];
      }
    }
    forall i: nat
      ensures i in Answering(rs) <==> i < |servers| && up[i]
    {
      assert i < |servers| ==> rs[i] in rs;
    }
  }

  /** The servers that process the write and hold nothing newer. */
  ghost predicate Updated(logs: seq<seq<Write>>, w: Write, up: seq<bool>, nodes: set<nat>) {
    |up| == |logs| && forall i: nat :: i in nodes <==> i < |logs| && up[i] && NoneNewer(logs[i], w)
  }

  lemma ReportingMeans(ws: seq<Reply<bool>>, logs: seq<seq<Write>>, w: Write, up: seq<bool>)
    requires |ws| == |logs| == |up| && forall i :: 0 <= i < |ws| ==> ws[i].node == i && ws[i].err == !up[i]
    requires forall i :: 0 <= i < |ws| && up[i] ==> (ws[i].value <==> NoneNewer(logs[i], w))
    ensures Updated(logs, w, up, Reporting(ws))
  {
    forall i: nat
      ensures i in Reporting(ws) <==> i < |logs| && up[i] && NoneNewer(logs[i], w)
    {
      assert i < |ws| ==> ws[i] in ws;
    }
  }

  lemma ReadsBack(w: Write, before: seq<seq<Write>>, up: seq<bool>, logs: seq<seq<Write>>,
                  ws: seq<Reply<bool>>, rs: seq<Reply<ReadResponse>>)
    requires |before| == |logs| && Updated(before, w, up, Reporting(ws)) && w.time > 0
    requires 2 * |Reporting(ws)| > |logs| && 2 * |Answering(rs)| > |logs|
    requires forall i :: 0 <= i < |up| && up[i] ==> w in logs[i]
    requires forall r :: r in rs && !r.err ==> r.node < |logs| && Answers(logs[r.node], w.key, r.value)
    ensures NewestOf(rs).Some? && NewestOf(rs).value.ok && NewestOf(rs).value.time >= w.time
  {
    ReadsWhatWasReported(w, logs, ws, rs);
  }

  lemma StillThere(w: Write, up: seq<bool>, before: seq<seq<Write>>, written: seq<seq<Write>>, logs: seq<seq<Write>>)
    requires |up| == |before| == |written| == |logs|
    requires forall i :: 0 <= i < |up| ==> written[i] == before[i] + if up[i] then [w] else []
    requires forall i :: 0 <= i < |up| ==> written[i] <= logs[i]
    ensures forall i :: 0 <= i < |up| && up[i] ==> w in logs[i]
  {
    forall i | 0 <= i < |up| && up[i]
      ensures w in logs[i]
    {
      assert logs[i][|before[i]|] == written[i][|before[i]|] == w;
    }
  }

  /**
   * A write through one set of servers, other writes anywhere, and a read through another set: if the
   * write was reported New by a majority and a majority answers, the read finds it or a newer one. It is
   * reported New exactly if a majority processes it and holds nothing newer.
   */
  method WriteThenReadBack(
      servers: seq<StorageServer>, w: Write, upForWrite: seq<bool>, others: seq<(nat, Write)>, upForRead: seq<bool>,
      ghost updated: set<nat>, ghost answering: set<nat>)
    returns (isNew: bool, newest: Option<ReadResponse>)
    requires Servers(servers) && |upForWrite| == |servers| && forall o :: o in others ==> o.0 < |servers|
    requires AllNodes(|servers|, upForRead, answering) && 2 * |answering| > |servers|
    requires Updated(Logs(servers), w, upForWrite, updated)
    modifies servers
    ensures isNew <==> 2 * |updated| > |servers|
    ensures isNew && w.time > 0 ==> newest.Some? && newest.value.ok && newest.value.time >= w.time
  {
    ghost var before := Logs(servers);
    var ws := WriteQC(servers, w, upForWrite);
    ReportingMeans(ws, before, w, upForWrite);
    assert Reporting(ws) == updated;
    isNew := NumUpdated(|servers|, ws);
    ghost var written := Logs(servers);
    Meanwhile(servers, others);
    var rs := ReadQC(servers, w.key, upForRead);
    newest := NewestValue(rs);
    ghost var logs := Logs(servers);
    assert Answering(rs) == answering;
    if isNew && w.time > 0 {
      StillThere(w, upForWrite, before, written, logs);
      ReadsBack(w, before, upForWrite, logs, ws, rs);
    }
  }
}

/** Which peers a server regards as connected (inbound_manager.go, attachStream of node.go). */
module Membership {
  import opened Requests

  const CLIENT_ID_START: nat := 0x10_0000
  const MAX_ID: nat := 0xFFFF_FFFF

  // ---- histories -------------------------------------------------------------------------

  /** A stream was accepted for a node, or the cleanup function returned with that stream has run. */
  datatype Event = Accepted(id: nat, stream: nat) | CleanedUp(id: nat, stream: nat)

  ghost function MostRecentStream(h: seq<Event>, id: nat): Option<nat> {
    if h == [] then None
    else
      var e := h[|h| - 1];
      if e.Accepted? && e.id == id then Some(e.stream) else MostRecentStream(h[..|h| - 1], id)
  }

  /** The node's most recently accepted stream has not been cleaned up. */
  ghost predicate Connected(h: seq<Event>, id: nat) {
    var last := MostRecentStream(h, id);
    last.Some? && CleanedUp(id, last.value) !in h
  }

  /** Streams are numbered as they are accepted, and only accepted streams are cleaned up. */
  ghost predicate Chronicle(h: seq<Event>, nextStream: nat) {
    && (forall e :: e in h ==> e.stream < nextStream)
    && (forall id, t :: CleanedUp(id, t) in h ==> Accepted(id, t) in h)
  }

  lemma Append(h: seq<Event>, e: Event, id: nat)
    ensures MostRecentStream(h + [e], id) == if e.Accepted? && e.id == id then Some(e.stream) else MostRecentStream(h, id)
  {
    assert (h + [e])[..|h|] == h;
  }

  /** Accepting a stream connects its node and no other. */
  lemma AcceptConnects(h: seq<Event>, id: nat, t: nat, x: nat)
    requires Chronicle(h, t)
    ensures var g := h + [Accepted(id, t)];
            && Chronicle(g, t + 1)
            && MostRecentStream(g, x) == (if x == id then Some(t) else MostRecentStream(h, x))
            && (Connected(g, x) <==> x == id || Connected(h, x))
  {
    Append(h, Accepted(id, t), x);
  }

  /** A cleanup disconnects its node iff the stream is still the node's most recent one. */
  lemma CleanupDisconnects(h: seq<Event>, id: nat, t: nat, n: nat, x: nat)
    requires Chronicle(h, n) && Accepted(id, t) in h
    ensures var g := h + [CleanedUp(id, t)];
            && Chronicle(g, n) && MostRecentStream(g, x) == MostRecentStream(h, x)
            && (Connected(g, x) <==> Connected(h, x) && !(x == id && MostRecentStream(h, id) == Some(t)))
  {
    Append(h, CleanedUp(id, t), x);
  }

  // ---- sorted configurations -------------------------------------------------------------

  ghost predicate StrictlySorted(s: seq<nat>) {
    forall i, j :: 0 <= i < j < |s| ==> s[i] < s[j]
  }

  /** A strictly sorted sequence is determined by its elements. */
  lemma {:induction false} SortedUnique(a: seq<nat>, b: seq<nat>)
    requires StrictlySorted(a) && StrictlySorted(b)
    requires forall x :: x in a <==> x in b
    ensures a == b
    decreases |a|
  {
    if a == [] {
      var x := if b == [] then 0 else b[0];
      assert b != [] ==> x in b;
    } else {
      assert a[0] in a && a[0] in b;
      assert b[0] in b && b[0] in a;
      assert a[0] == b[0];
      assert forall x :: x in a[1..] <==> x in a && x != a[0];
      assert forall x :: x in b[1..] <==> x in b && x != b[0];
      SortedUnique(a[1..], b[1..]);
    }
  }

  /** Inserts a new element into a strictly sorted sequence. */
  method Insert(s: seq<nat>, x: nat) returns (t: seq<nat>)
    requires StrictlySorted(s) && x !in s
    ensures StrictlySorted(t)
    ensures forall y :: y in t <==> y in s || y == x
  {
    var k := 0;
    while k < |s| && s[k] < x
      invariant 0 <= k <= |s|
      invariant forall i :: 0 <= i < k ==> s[i] < x
    {
      k := k + 1;
    }
    assert k < |s| ==> s[k] in s && s[k] != x;
    t := s[..k] + [x] + s[k..];
    Inserted(s, k, x, t);
  }

  lemma Inserted(s: seq<nat>, k: nat, x: nat, t: seq<nat>)
    requires StrictlySorted(s) && k <= |s| && t == s[..k] + [x] + s[k..]
    requires (forall i :: 0 <= i < k ==> s[i] < x) && (k < |s| ==> x < s[k])
    ensures StrictlySorted(t)
    ensures forall y :: y in t <==> y in s || y == x
  {
    assert forall j :: 0 <= j < |t| ==> t[j] == if j < k then s[j] else if j == k then x else s[j - 1];
    forall y
      ensures y in t <==> y in s || y == x
    {
      if y in s {
        var i :| 0 <= i < |s| && s[i] == y;
        assert t[if i < k then i else i + 1] == y;
      }
      assert t[k] == x;
    }
  }

  /** slices.SortFunc with the comparator ID, on distinct IDs. */
  method SortByID(ids: seq<nat>) returns (s: seq<nat>)
    requires forall i, j :: 0 <= i < j < |ids| ==> ids[i] != ids[j]
    ensures StrictlySorted(s)
    ensures forall x :: x in s <==> x in ids
  {
    s := [];
    for n := 0 to |ids|
      invariant StrictlySorted(s)
      invariant forall x :: x in s <==> x in ids[..n]
    {
      assert ids[n] !in ids[..n];
      s := Insert(s, ids[n]);
      assert ids[..n + 1] == ids[..n] + [ids[n]];
    }
    assert ids[..|ids|] == ids;
  }

  // ---- callbacks -------------------------------------------------------------------------

  /** A history of configurations, starting from the empty one, without consecutive repeats. */
  ghost function Changes(p: seq<seq<nat>>): seq<seq<nat>> {
    if p == [] then []
    else
      var n := |p| - 1;
      Changes(p[..n]) + if p[n] != Latest(p[..n]) then [p[n]] else []
  }

  /** No two neighbours are equal. */
  ghost predicate NoRepeats(p: seq<seq<nat>>) {
    forall i, j :: 0 <= i < j < |p| && j == i + 1 ==> p[i] != p[j]
  }

  /** The last element, or the empty configuration before there is one. */
  ghost function Latest(p: seq<seq<nat>>): seq<nat> {
    if p == [] then [] else p[|p| - 1]
  }

  lemma {:induction false} ChangesAppend(p: seq<seq<nat>>, c: seq<nat>)
    ensures Latest(p + [c]) == c
    ensures Changes(p + [c]) == if c != Latest(p) then Changes(p) + [c] else Changes(p)
  {
    assert (p + [c])[..|p|] == p;
  }

  /** The configuration is the latest one, and the callback was called for exactly the changes. */
  ghost predicate Reported(published: seq<seq<nat>>, calls: seq<seq<nat>>, notifies: bool, config: seq<nat>) {
    Latest(published) == config && calls == if notifies then Changes(published) else []
  }

  lemma ReportedAppend(published: seq<seq<nat>>, calls: seq<seq<nat>>, notifies: bool, was: seq<nat>, ids: seq<nat>)
    requires Reported(published, calls, notifies, was)
    ensures Reported(published + [ids], if was != ids && notifies then calls + [ids] else calls, notifies, ids)
  {
    ChangesAppend(published, ids);
  }

  /** The reported changes end with the current configuration, and no two neighbours are equal. */
  lemma {:induction false} ChangesEndInLatest(p: seq<seq<nat>>)
    ensures Latest(Changes(p)) == Latest(p) && NoRepeats(Changes(p))
    ensures Changes(p) != [] ==> Changes(p)[0] != []
  {
    if p != [] {
      ChangesEndInLatest(p[..|p| - 1]);
    }
  }

  // ---- the manager -----------------------------------------------------------------------

  /** What a node's channel pointer holds. */
  datatype Attachment = Detached | Local | Attached(stream: nat)

  /** NoNode: the node is gone when registerPeer looks it up, and the source dereferences nil. */
  datatype Admission = Untracked | Exhausted | Peer(id: nat, stream: nat) | NoNode

  type Nodes = map<nat, Attachment>

  /** A cleanup function, as returned with a stream; `client` if it is the one of acceptClient. */
  datatype Handle = Handle(id: nat, stream: nat, client: bool)

  /**
   * The state under the manager's lock. `hosts` are the nodes that run the own handler in-process,
   * `orphans` the streams still attached to nodes that are no longer in the map, and `handed` the
   * cleanup functions returned so far.
   */
  datatype Manager = Manager(
    known: set<nat>, hosts: set<nat>, nodes: Nodes, orphans: set<nat>, handed: seq<Handle>,
    nextClientID: nat, nextStream: nat, history: seq<Event>)

  /** Attaches a new stream to a node, replacing whatever was attached. */
  ghost function Registered(m: Manager, id: nat): Manager {
    m.(nodes := m.nodes[id := Attached(m.nextStream)], handed := m.handed + [Handle(id, m.nextStream, false)],
       nextStream := m.nextStream + 1, history := m.history + [Accepted(id, m.nextStream)])
  }

  /** The stream a new node for the ID leaves behind on the node whose place it takes. */
  function Ousted(nodes: Nodes, id: nat): set<nat> {
    if id in nodes && nodes[id].Attached? then {nodes[id].stream} else {}
  }

  /** Creates a node with the next client ID. */
  ghost function Welcomed(m: Manager): Manager {
    var id := m.nextClientID;
    m.(nodes := m.nodes[id := Attached(m.nextStream)], orphans := m.orphans + Ousted(m.nodes, id),
       handed := m.handed + [Handle(id, m.nextStream, true)],
       nextClientID := id + 1, nextStream := m.nextStream + 1, history := m.history + [Accepted(id, m.nextStream)])
  }

  /** The node map after a cleanup: a client's own cleanup removes its node. */
  function AfterCleanup(nodes: Nodes, h: Handle): Nodes {
    if h.id in nodes && nodes[h.id] == Attached(h.stream)
    then if h.client then nodes - {h.id} else nodes[h.id := Detached]
    else nodes
  }

  /** Detaches a stream if it is still attached to its node; the node may be in the map or not. */
  ghost function Cleaned(m: Manager, h: Handle): Manager {
    m.(nodes := AfterCleanup(m.nodes, h), orphans := if h.id in m.nodes then m.orphans - {h.stream} else m.orphans,
       history := m.history + [CleanedUp(h.id, h.stream)])
  }

  // ---- the node map follows the history --------------------------------------------------

  /**
   * What the history prescribes for a node: the channel of its most recent stream until that is
   * cleaned up; the in-process channel, on a node that hosts the own handler, until a stream comes.
   */
  ghost function ChannelOf(h: seq<Event>, id: nat, hosts: bool): Attachment {
    if Connected(h, id) then Attached(MostRecentStream(h, id).value)
    else if hosts && MostRecentStream(h, id).None? then Local
    else Detached
  }

  /** The ID was given to a client. */
  ghost predicate Given(m: Manager, id: nat) {
    CLIENT_ID_START <= id < m.nextClientID
  }

  /** Nodes that must be in the map: known ones whose ID no client was given, or without a stream so far. */
  ghost predicate Permanent(m: Manager, id: nat) {
    id in m.known && (!Given(m, id) || MostRecentStream(m.history, id).None?)
  }

  ghost predicate NodesOk(m: Manager) {
    && (forall id :: id in m.nodes ==> (id in m.known || Given(m, id)) && m.nodes[id] == ChannelOf(m.history, id, id in m.hosts))
    && (forall id :: Connected(m.history, id) || Permanent(m, id) ==> id in m.nodes)
    && (forall id :: id in m.nodes && m.nodes[id] == Detached ==> id in m.known || Advertised(m.handed, id))
  }

  /** A stream was attached to the node because it advertised its ID. */
  ghost predicate Advertised(handed: seq<Handle>, id: nat) {
    exists h :: h in handed && h.id == id && !h.client
  }

  lemma AdvertisedMore(handed: seq<Handle>, h: Handle, id: nat)
    ensures Advertised(handed + [h], id) <==> Advertised(handed, id) || (h.id == id && !h.client)
  {
    assert forall x :: x in handed + [h] <==> x in handed || x == h;
  }

  ghost predicate HandedOk(m: Manager) {
    forall h :: h in m.handed ==> Accepted(h.id, h.stream) in m.history && (h.client ==> Given(m, h.id))
  }

  /** The node map reflects the history. */
  ghost predicate Tracks(m: Manager) {
    && 0 !in m.known && m.hosts <= m.known && CLIENT_ID_START <= m.nextClientID <= MAX_ID
    && Chronicle(m.history, m.nextStream) && NodesOk(m) && HandedOk(m)
    && (forall e :: e in m.history ==> e.id in m.known || Given(m, e.id))
  }

  lemma TracksRegister(m: Manager, id: nat)
    requires Tracks(m) && id in m.nodes
    ensures Tracks(Registered(m, id))
  {
    forall x: nat {
      AcceptConnects(m.history, id, m.nextStream, x);
    }
    forall x: nat {
      AdvertisedMore(m.handed, Handle(id, m.nextStream, false), x);
    }
  }

  lemma TracksWelcome(m: Manager)
    requires Tracks(m) && m.nextClientID < MAX_ID
    ensures Tracks(Welcomed(m))
  {
    forall x: nat {
      AcceptConnects(m.history, m.nextClientID, m.nextStream, x);
    }
    forall x: nat {
      AdvertisedMore(m.handed, Handle(m.nextClientID, m.nextStream, true), x);
    }
  }

  lemma TracksCleanup(m: Manager, h: Handle)
    requires Tracks(m) && h in m.handed
    ensures Tracks(Cleaned(m, h))
  {
    forall x: nat {
      CleanupDisconnects(m.history, h.id, h.stream, m.nextStream, x);
    }
    AcceptedBefore(m.history, h.id, h.stream);
  }

  lemma {:induction false} AcceptedBefore(h: seq<Event>, id: nat, stream: nat)
    requires Accepted(id, stream) in h
    ensures MostRecentStream(h, id).Some?
  {
    var n := |h| - 1;
    if h[n] != Accepted(id, stream) {
      AcceptedBefore(h[..n], id, stream);
    }
  }

  /** A client has a node exactly while it is connected, unless its ID is also a known or an advertised one. */
  lemma ClientNodes(m: Manager, id: nat)
    requires Tracks(m) && id !in m.known && !Advertised(m.handed, id)
    ensures id in m.nodes <==> Connected(m.history, id)
  {
  }

  lemma TracksMembers(m: Manager, id: nat)
    requires Tracks(m)
    ensures id in m.nodes && m.nodes[id] != Detached
            <==> Connected(m.history, id) || (id in m.hosts && MostRecentStream(m.history, id).None?)
    ensures id < CLIENT_ID_START ==> (id in m.nodes <==> id in m.known)
    ensures Connected(m.history, id) && id < CLIENT_ID_START ==> id in m.known
  {
    assert id in m.hosts && MostRecentStream(m.history, id).None? ==> Permanent(m, id);
    assert id in m.known && id < CLIENT_ID_START ==> Permanent(m, id);
  }

  // ---- AcceptPeer, in two lock sections --------------------------------------------------

  /** What AcceptPeer does after its first lock section. */
  datatype Decision = Register | Reject | Welcome

  function Decide(nodes: Nodes, id: nat, hasMetadata: bool): Decision {
    if id != 0 && id in nodes then Register
    else if id != 0 || !hasMetadata then Reject
    else Welcome
  }

  /** `checked` are the streams between isKnown and registerPeer, `crashed` the ID whose node was gone. */
  datatype World = World(m: Manager, checked: multiset<nat>, crashed: Option<nat>)

  datatype Step =
    | Check(id: nat)              // AcceptPeer: isKnown, for a stream that advertises id
    | Attach(id: nat)             // AcceptPeer: registerPeer
    | NewClient                   // AcceptPeer: acceptClient
    | CleanUp(h: Handle)          // a cleanup function runs, possibly late or again

  function Nothing(known: set<nat>, hosts: set<nat>): Manager {
    Manager(known, hosts, map id | id in known :: if id in hosts then Local else Detached, {}, [], CLIENT_ID_START, 0, [])
  }

  function Start(known: set<nat>, hosts: set<nat>): World {
    World(Nothing(known, hosts), multiset{}, None)
  }

  ghost predicate Enabled(w: World, e: Step) {
    && w.crashed.None?
    && match e
       case Check(id) => Decide(w.m.nodes, id, true) == Register
       case Attach(id) => id in w.checked
       case NewClient => w.m.nextClientID < MAX_ID
       case CleanUp(h) => h in w.m.handed
  }

  ghost function Apply(w: World, e: Step): World
    requires Enabled(w, e)
  {
    match e
    case Check(id) => w.(checked := w.checked + multiset{id})
    case Attach(id) =>
      if id in w.m.nodes then w.(m := Registered(w.m, id), checked := w.checked - multiset{id})
      else w.(crashed := Some(id))
    case NewClient => w.(m := Welcomed(w.m))
    case CleanUp(h) => w.(m := Cleaned(w.m, h))
  }

  ghost predicate Run(w: World, steps: seq<Step>, v: World) {
    if steps == [] then w == v
    else
      var n := |steps| - 1;
      exists u :: Run(w, steps[..n], u) && Enabled(u, steps[n]) && v == Apply(u, steps[n])
  }

  ghost predicate Reachable(known: set<nat>, hosts: set<nat>, w: World) {
    exists steps :: Run(Start(known, hosts), steps, w)
  }

  ghost predicate WorldOk(w: World) {
    && Tracks(w.m)
    && (forall id :: id in w.checked ==> id in w.m.known || Given(w.m, id))
    && (w.crashed.Some? ==> Given(w.m, w.crashed.value))
  }

  lemma StepOk(w: World, e: Step)
    requires WorldOk(w) && Enabled(w, e)
    ensures WorldOk(Apply(w, e))
  {
    match e
    case Check(_) =>
    case Attach(id) =>
      if id in w.m.nodes {
        TracksRegister(w.m, id);
      } else {
        assert !Permanent(w.m, id);
      }
    case NewClient => TracksWelcome(w.m);
    case CleanUp(h) => TracksCleanup(w.m, h);
  }

  lemma {:induction false} RunOk(w: World, steps: seq<Step>, v: World)
    requires WorldOk(w) && Run(w, steps, v)
    ensures WorldOk(v)
  {
    if steps != [] {
      var n := |steps| - 1;
      var u :| Run(w, steps[..n], u) && Enabled(u, steps[n]) && v == Apply(u, steps[n]);
      RunOk(w, steps[..n], u);
      StepOk(u, steps[n]);
    }
  }

  lemma StartOk(known: set<nat>, hosts: set<nat>)
    requires 0 !in known && hosts <= known
    ensures WorldOk(Start(known, hosts))
  {
  }

  lemma Extend(known: set<nat>, hosts: set<nat>, w: World, e: Step) returns (v: World)
    requires Reachable(known, hosts, w) && Enabled(w, e)
    ensures v == Apply(w, e) && Reachable(known, hosts, v)
  {
    v := Apply(w, e);
    var steps :| Run(Start(known, hosts), steps, w);
    RunMore(Start(known, hosts), steps, w, e);
  }

  lemma {:induction false} RunMore(w: World, steps: seq<Step>, v: World, e: Step)
    requires Run(w, steps, v) && Enabled(v, e)
    ensures Run(w, steps + [e], Apply(v, e))
  {
    var all := steps + [e];
    assert all[..|all| - 1] == steps && all[|all| - 1] == e;
  }

  /** Clients are given one ID after the other. */
  lemma {:induction false} UpTo(known: set<nat>, hosts: set<nat>, id: nat) returns (w: World)
    requires CLIENT_ID_START <= id <= MAX_ID
    ensures Reachable(known, hosts, w) && w.m.nextClientID == id && w.crashed.None? && w.checked == multiset{}
    decreases id
  {
    if id == CLIENT_ID_START {
      w := Start(known, hosts);
      assert Run(w, [], w);
    } else {
      w := UpTo(known, hosts, id - 1);
      w := Extend(known, hosts, w, NewClient);
    }
  }

  /** A client's ID is advertised by another stream, and the client leaves between the two lock sections. */
  lemma {:induction false} NodeGone(known: set<nat>, hosts: set<nat>, id: nat) returns (w: World)
    requires CLIENT_ID_START <= id < MAX_ID
    ensures Reachable(known, hosts, w) && w.crashed == Some(id)
  {
    w := UpTo(known, hosts, id);
    var h := Handle(id, w.m.nextStream, true);
    w := Extend(known, hosts, w, NewClient);
    w := Extend(known, hosts, w, Check(id));
    assert w.m.handed[|w.m.handed| - 1] == h;
    w := Extend(known, hosts, w, CleanUp(h));
    w := Extend(known, hosts, w, Attach(id));
  }

  /** In every interleaving the state follows the history, whatever IDs are known and advertised. */
  lemma TracksAlways(known: set<nat>, hosts: set<nat>, w: World)
    requires 0 !in known && hosts <= known && Reachable(known, hosts, w)
    ensures Tracks(w.m)
  {
    StartOk(known, hosts);
    var steps :| Run(Start(known, hosts), steps, w);
    RunOk(Start(known, hosts), steps, w);
  }

  /** A stream can find its node gone exactly if it advertises an ID that clients are given. */
  lemma {:induction false} NodeGoneIff(known: set<nat>, hosts: set<nat>, id: nat)
    requires 0 !in known && hosts <= known
    ensures (exists w :: Reachable(known, hosts, w) && w.crashed == Some(id)) <==> CLIENT_ID_START <= id < MAX_ID
  {
    if CLIENT_ID_START <= id < MAX_ID {
      var w := NodeGone(known, hosts, id);
    } else if w :| Reachable(known, hosts, w) && w.crashed == Some(id) {
      StartOk(known, hosts);
      var steps :| Run(Start(known, hosts), steps, w);
      RunOk(Start(known, hosts), steps, w);
    }
  }

  // ---- configurations of a node map ------------------------------------------------------

  /** The node belongs to the configuration of clients, or to that of known peers. */
  predicate Member(nodes: Nodes, myID: nat, clients: bool, id: nat) {
    && id in nodes && clients == (id >= CLIENT_ID_START)
    && (nodes[id] != Detached || (!clients && id == myID))
  }

  ghost predicate Lists(nodes: Nodes, myID: nat, clients: bool, ids: seq<nat>) {
    StrictlySorted(ids) && forall id :: id in ids <==> Member(nodes, myID, clients, id)
  }

  /** The members of the configurations, as a function of the history alone. */
  ghost predicate InConfig(m: Manager, myID: nat, id: nat) {
    id < CLIENT_ID_START && id in m.known && (id == myID || Connected(m.history, id))
  }

  ghost predicate InClientConfig(m: Manager, id: nat) {
    id >= CLIENT_ID_START && (Connected(m.history, id) || (id in m.hosts && MostRecentStream(m.history, id).None?))
  }

  lemma ConfigMeans(m: Manager, myID: nat, config: seq<nat>, clients: seq<nat>)
    requires Tracks(m) && m.hosts <= {myID} && Lists(m.nodes, myID, false, config) && Lists(m.nodes, myID, true, clients)
    ensures forall id :: id in config <==> InConfig(m, myID, id)
    ensures forall id :: id in clients <==> InClientConfig(m, id)
  {
    forall id: nat
      ensures id in config <==> InConfig(m, myID, id)
      ensures id in clients <==> InClientConfig(m, id)
    {
      TracksMembers(m, id);
    }
  }

  // ---- the manager's methods -------------------------------------------------------------

  class InboundManager {
    const myID: nat
    const known: set<nat>
    const notifies: bool               // onConfigChange is set
    const hosted: bool                 // a handler is set
    var nodes: Nodes
    var orphans: set<nat>
    var handed: seq<Handle>
    var config: array<nat>
    var clientConfig: array<nat>
    var nextClientID: nat
    var nextStream: nat
    var generation: nat                // how often configCh was closed and replaced
    var calls: seq<seq<nat>>           // arguments of onConfigChange so far
    ghost var history: seq<Event>
    ghost var published: seq<seq<nat>> // every configuration installed so far

    /** The nodes that run the own handler in-process: the own one, if it is known. */
    function Hosts(): set<nat> {
      if hosted && myID in known then {myID} else {}
    }

    ghost function Model(): Manager
      reads this
    {
      Manager(known, Hosts(), nodes, orphans, handed, nextClientID, nextStream, history)
    }

    /** The configurations and callbacks reflect the node map. */
    ghost predicate Published()
      reads this, config, clientConfig
    {
      && Lists(nodes, myID, false, config[..]) && Lists(nodes, myID, true, clientConfig[..])
      && published != [] && Reported(published, calls, notifies, config[..])
    }

    ghost predicate Valid()
      reads this, config, clientConfig
    {
      Tracks(Model()) && Published()
    }

    /** Node lists do not admit the ID 0. */
    constructor (myID: nat, known: set<nat>, notifies: bool, hosted: bool)
      requires 0 !in known
      ensures Valid() && this.known == known && this.myID == myID && this.hosted == hosted
      ensures Model() == Nothing(known, Hosts())
      ensures fresh(config) && fresh(clientConfig)
    {
      this.myID, this.known, this.notifies, this.hosted := myID, known, notifies, hosted;
      nodes := map id | id in known :: if id == myID && hosted then Local else Detached;
      config, clientConfig := new nat[0], new nat[0];
      nextClientID, nextStream, generation := CLIENT_ID_START, 0, 0;
      orphans, handed, calls, history, published := {}, [], [], [], [];
      new;
      assert Model() == Nothing(known, Hosts());
      StartOk(known, Hosts());
      RebuildConfig();
      assert Model() == Nothing(known, Hosts());
    }

    /** Lists the IDs of the nodes that belong to one of the two configurations. */
    method ListNodes(clients: bool) returns (ids: seq<nat>)
      ensures forall i, j :: 0 <= i < j < |ids| ==> ids[i] != ids[j]
      ensures forall id :: id in ids <==> Member(nodes, myID, clients, id)
    {
      ids := [];
      var rest := nodes.Keys;
      while rest != {}
        invariant rest <= nodes.Keys
        invariant forall i, j :: 0 <= i < j < |ids| ==> ids[i] != ids[j]
        invariant forall id :: id in ids <==> id !in rest && Member(nodes, myID, clients, id)
      {
        var id :| id in rest;
        rest := rest - {id};
        if Member(nodes, myID, clients, id) {
          ids := ids + [id];
        }
      }
    }

    /** A freshly allocated, sorted configuration. */
    method NewConfig(clients: bool) returns (cfg: array<nat>)
      ensures fresh(cfg) && Lists(nodes, myID, clients, cfg[..])
    {
      var ids := ListNodes(clients);
      var sorted := SortByID(ids);
      cfg := new nat[|sorted|](i requires 0 <= i < |sorted| => sorted[i]);
      assert cfg[..] == sorted;
    }

    /** Installs freshly built configurations, reports a change, and wakes all waiters. */
    method RebuildConfig()
      requires Reported(published, calls, notifies, config[..])
      modifies this`config, this`clientConfig, this`generation, this`calls, this`published
      ensures Published() && fresh(config) && fresh(clientConfig)
      ensures generation == old(generation) + 1
      ensures published == old(published) + [config[..]]
    {
      var cfg := NewConfig(false);
      var clientCfg := NewConfig(true);
      var was, ids := config[..], cfg[..];
      ReportedAppend(published, calls, notifies, was, ids);
      if was != ids && notifies {
        calls := calls + [ids];
      }
      published := published + [ids];
      config, clientConfig := cfg, clientCfg;
      generation := generation + 1;
    }

    /** Installs a changed node map and the configurations that follow from it. */
    method Install(map': Nodes, orphans': set<nat>, handed': seq<Handle>, clientID: nat, stream: nat, ghost e: Event)
      requires Published()
      requires Tracks(Manager(known, Hosts(), map', orphans', handed', clientID, stream, history + [e]))
      modifies this
      ensures Valid() && Model() == Manager(known, Hosts(), map', orphans', handed', clientID, stream, old(history) + [e])
      ensures generation == old(generation) + 1 && fresh(config) && fresh(clientConfig)
    {
      nodes, orphans, handed, nextClientID, nextStream := map', orphans', handed', clientID, stream;
      history := history + [e];
      ghost var m := Model();
      RebuildConfig();
      assert Model() == m;
    }

    /** The first lock section of AcceptPeer, and what it decides. Without peer metadata the ID is 0. */
    method IsKnown(id: nat, hasMetadata: bool) returns (d: Decision)
      requires Valid() && (!hasMetadata ==> id == 0)
      ensures d == Decide(nodes, id, hasMetadata)
      ensures d == Register <==> id in nodes
    {
      if id != 0 && id in nodes {
        return Register;
      }
      if id != 0 || !hasMetadata {
        return Reject;
      }
      return Welcome;
    }

    /** The second lock section of AcceptPeer for a known peer: the node may be gone by now. */
    method RegisterPeer(id: nat) returns (a: Admission)
      requires Valid()
      modifies this
      ensures Valid() && a == if id in old(nodes) then Peer(id, old(nextStream)) else NoNode
      ensures a.NoNode? ==> unchanged(this)
      ensures a.Peer? ==> Model() == Registered(old(Model()), id) && generation == old(generation) + 1
      ensures a.Peer? ==> fresh(config) && fresh(clientConfig)
    {
      if id !in nodes {
        return NoNode;
      }
      var stream := nextStream;
      TracksRegister(Model(), id);
      Install(nodes[id := Attached(stream)], orphans, handed + [Handle(id, stream, false)], nextClientID, stream + 1,
              Accepted(id, stream));
      a := Peer(id, stream);
    }

    /**
     * Creates a node with the next client ID, unless the ID space is exhausted. The ID is new to the
     * map unless it was configured as a known one; then the client takes the place of that node.
     */
    method AcceptClient() returns (a: Admission)
      requires Valid()
      modifies this
      ensures Valid()
      ensures a == if old(nextClientID) == MAX_ID then Exhausted else Peer(old(nextClientID), old(nextStream))
      ensures a.Exhausted? ==> unchanged(this)
      ensures a.Peer? ==> Model() == Welcomed(old(Model())) && (a.id !in old(nodes) || a.id in known)
      ensures a.Peer? ==> generation == old(generation) + 1 && fresh(config) && fresh(clientConfig)
    {
      if nextClientID == MAX_ID {
        return Exhausted;
      }
      var id, stream := nextClientID, nextStream;
      TracksWelcome(Model());
      Install(nodes[id := Attached(stream)], orphans + Ousted(nodes, id), handed + [Handle(id, stream, true)], id + 1,
              stream + 1, Accepted(id, stream));
      a := Peer(id, stream);
    }

    /**
     * A cleanup function: it may run late, and again. It detaches the stream only if it is still the
     * attached one; the one of acceptClient also removes the node.
     */
    method Cleanup(h: Handle)
      requires Valid() && h in handed
      modifies this
      ensures Valid() && Model() == Cleaned(old(Model()), h)
      ensures old(config)[..] == old(config[..]) && old(clientConfig)[..] == old(clientConfig[..])
      ensures generation == old(generation)
                + if h.id in old(nodes) && (old(nodes)[h.id] == Attached(h.stream) || h.stream in old(orphans)) then 1 else 0
      ensures generation == old(generation) ==> config == old(config)
    {
      TracksCleanup(Model(), h);
      if h.id in nodes && (nodes[h.id] == Attached(h.stream) || h.stream in orphans) {
        Install(AfterCleanup(nodes, h), orphans - {h.stream}, handed, nextClientID, nextStream, CleanedUp(h.id, h.stream));
      } else {
        assert h.id in nodes ==> orphans - {h.stream} == orphans;
        history := history + [CleanedUp(h.id, h.stream)];
      }
    }

    /** The published configurations, as a function of the history alone. */
    method Config() returns (known': array<nat>, clients: array<nat>)
      requires Valid()
      ensures known' == config && clients == clientConfig
      ensures StrictlySorted(known'[..]) && StrictlySorted(clients[..])
      ensures forall id :: id in known'[..] <==> InConfig(Model(), myID, id)
      ensures forall id :: id in clients[..] <==> InClientConfig(Model(), id)
      ensures notifies ==> Latest(calls) == known'[..] && NoRepeats(calls)
    {
      ChangesEndInLatest(published);
      ConfigMeans(Model(), myID, config[..], clientConfig[..]);
      return config, clientConfig;
    }

    /**
     * AcceptPeer, with any cleanups and new clients of other goroutines between its two lock sections.
     * Only an ID that clients are given can find its node gone.
     */
    method AcceptPeer(id: nat, hasMetadata: bool, between: seq<Option<Handle>>) returns (a: Admission)
      requires Valid() && (!hasMetadata ==> id == 0) && forall h :: Some(h) in between ==> h in handed
      modifies this
      ensures Valid()
      ensures id in old(nodes) ==> a.NoNode? || (a.Peer? && a.id == id)
      ensures a.NoNode? ==> CLIENT_ID_START <= id < MAX_ID
      ensures id !in old(nodes) && (id != 0 || !hasMetadata) <==> a == Untracked
      ensures id == 0 && hasMetadata ==> a.Exhausted? || (a.Peer? && a.id >= old(nextClientID))
      ensures a.Peer? ==> Accepted(a.id, a.stream) in history && fresh(config) && fresh(clientConfig)
      ensures old(config)[..] == old(config[..]) && old(clientConfig)[..] == old(clientConfig[..])
    {
      var d := IsKnown(id, hasMetadata);
      Others(between);
      match d
      case Register =>
        assert id !in nodes ==> !Permanent(Model(), id);
        a := RegisterPeer(id);
      case Reject => a := Untracked;
      case Welcome => a := AcceptClient();
    }

    /** Other goroutines: each entry is a cleanup that runs, or None for a new client. */
    method Others(ops: seq<Option<Handle>>)
      requires Valid() && forall h :: Some(h) in ops ==> h in handed
      modifies this
      ensures Valid() && nextClientID >= old(nextClientID)
      ensures old(config)[..] == old(config[..]) && old(clientConfig)[..] == old(clientConfig[..])
    {
      for i := 0 to |ops|
        invariant Valid() && nextClientID >= old(nextClientID)
        invariant forall h :: Some(h) in ops ==> h in handed
        invariant old(config)[..] == old(config[..]) && old(clientConfig)[..] == old(clientConfig[..])
      {
        if ops[i].Some? {
          Cleanup(ops[i].value);
        } else {
          var a := AcceptClient();
        }
      }
    }
  }

  /** Servers with the same settings and the same history of streams publish the same configurations. */
  lemma SameHistorySameConfig(a: InboundManager, b: InboundManager)
    requires a.Valid() && b.Valid() && a.history == b.history
    requires a.known == b.known && a.myID == b.myID && a.hosted == b.hosted
    ensures a.config[..] == b.config[..] && a.clientConfig[..] == b.clientConfig[..]
  {
    forall id: nat
      ensures id in a.config[..] <==> id in b.config[..]
      ensures id in a.clientConfig[..] <==> id in b.clientConfig[..]
    {
      ConfigMeans(a.Model(), a.myID, a.config[..], a.clientConfig[..]);
      ConfigMeans(b.Model(), b.myID, b.config[..], b.clientConfig[..]);
    }
    SortedUnique(a.config[..], b.config[..]);
    SortedUnique(a.clientConfig[..], b.clientConfig[..]);
  }
}

/**
 The proxy's connection tables: one vector of sockets, and five structures whose entries hold indices
 into it and are renumbered whenever a socket is closed.
 */
module ConnectionModel {

  /** A service node by its key, or any other connection by number. */
  datatype ConnId = Node(pubkey: string) | Remote(id: int)

  /** A table entry that refers to the socket at `index`. */
  datatype Ref<T> = Ref(index: nat, item: T)

  datatype Peer = Peer(id: ConnId, route: string, lastActivity: int, idleExpiry: int)

  datatype PendingConnect = PendingConnect(id: int, deadline: int)

  /** A connect callback handed to a job. */
  datatype Callback = Connected(id: int, conn: ConnId) | Failed(id: int)

  /** Sockets are told apart by the order in which they were created. */
  datatype Tables = Tables(
    sockets: seq<nat>,
    ids: seq<ConnId>,
    peers: seq<Ref<Peer>>,
    pending: seq<Ref<PendingConnect>>,
    binds: seq<Ref<string>>,
    incoming: seq<Ref<ConnId>>,
    active: set<string>,
    created: nat,
    used: set<int>,
    called: seq<Callback>)

  /** Outgoing connections never have a route, incoming ones always do. */
  predicate Outgoing(r: Ref<Peer>) {
    r.item.route == ""
  }

  /** The listeners are the same sockets, at the same indices, with the same entries. */
  predicate SameListeners(t: Tables, u: Tables) {
    && u.binds == t.binds && u.incoming == t.incoming
    && |t.binds| <= |t.sockets| && |t.binds| <= |u.sockets| && u.sockets[..|t.binds|] == t.sockets[..|t.binds|]
  }

  // ----- closing -----

  function RemoveAt<T>(s: seq<T>, i: nat): (r: seq<T>)
    requires i < |s|
    ensures |r| == |s| - 1
    ensures forall k | 0 <= k < |r| :: r[k] == s[if k < i then k else k + 1]
  {
    s[..i] + s[i + 1..]
  }

  function InsertAt<T>(s: seq<T>, at: nat, x: T): seq<T> {
    if at <= |s| then s[..at] + [x] + s[at..] else s + [x]
  }

  function Shifted<T>(r: Ref<T>, i: nat): Ref<T> {
    if r.index > i then r.(index := r.index - 1) else r
  }

  /** Drops the entries for socket `i` and lets the others follow their sockets down. */
  function Renumber<T>(c: seq<Ref<T>>, i: nat): seq<Ref<T>> {
    if c == [] then []
    else if c[0].index == i then Renumber(c[1..], i)
    else [Shifted(c[0], i)] + Renumber(c[1..], i)
  }

  function Close(t: Tables, i: nat): Tables
    requires i < |t.sockets| && i < |t.ids|
  {
    t.(sockets := RemoveAt(t.sockets, i), ids := RemoveAt(t.ids, i), peers := Renumber(t.peers, i),
       pending := Renumber(t.pending, i), binds := Renumber(t.binds, i), incoming := Renumber(t.incoming, i))
  }

  // ----- opening -----

  /** A new socket with its id and its one peer entry; the peer table keeps no particular order. */
  function Open(t: Tables, peer: Peer, at: nat): Tables {
    t.(sockets := t.sockets + [t.created], created := t.created + 1, ids := t.ids + [peer.id],
       peers := InsertAt(t.peers, at, Ref(|t.sockets|, peer)))
  }

  /** The first connection to `id` that the caller's restrictions allow. */
  function FirstUsable(peers: seq<Ref<Peer>>, id: ConnId, incomingOnly: bool, outgoingOnly: bool, k: nat): (n: nat)
    requires k <= |peers|
    ensures k <= n <= |peers|
    ensures n < |peers| ==> peers[n].item.id == id
    decreases |peers| - k
  {
    if k == |peers| then k
    else if peers[k].item.id == id && !(incomingOnly && Outgoing(peers[k])) && !(outgoingOnly && !Outgoing(peers[k])) then k
    else FirstUsable(peers, id, incomingOnly, outgoingOnly, k + 1)
  }

  /** Use of an outgoing connection restarts its idle time and can lengthen its limit. */
  function Touch(p: Peer, keepAlive: int, now: int): Peer {
    p.(lastActivity := now, idleExpiry := if p.idleExpiry < keepAlive then keepAlive else p.idleExpiry)
  }

  function ConnectSn(t: Tables, pubkey: string, optional: bool, incomingOnly: bool, outgoingOnly: bool, reachable: bool,
                     keepAlive: int, now: int, at: nat): Tables
  {
    var n := FirstUsable(t.peers, Node(pubkey), incomingOnly, outgoingOnly, 0);
    if n < |t.peers| then
      if Outgoing(t.peers[n]) then t.(peers := t.peers[n := Ref(t.peers[n].index, Touch(t.peers[n].item, keepAlive, now))])
      else t
    else if optional || incomingOnly || !reachable then t
    else Open(t, Peer(Node(pubkey), "", now, keepAlive), at)
  }

  const FOREVER: int := 10 * 365 * 24 * 3600 * 1000

  function ConnectRemote(t: Tables, id: int, reachable: bool, timeout: int, now: int, at: nat): Tables {
    var u := t.(used := t.used + {id});
    if !reachable then u.(called := t.called + [Failed(id)])
    else
      Open(u, Peer(Remote(id), "", now, FOREVER), at)
      .(pending := t.pending + [Ref(|t.sockets|, PendingConnect(id, now + timeout))])
  }

  /** A service node's message on listener `i` gets a peer entry unless that route has one. */
  function Incoming(t: Tables, i: nat, pubkey: string, route: string, now: int, at: nat): Tables {
    if exists k | 0 <= k < |t.peers| ::
         t.peers[k].item.id == Node(pubkey) && t.peers[k].index == i && t.peers[k].item.route == route then t
    else t.(peers := InsertAt(t.peers, at, Ref(i, Peer(Node(pubkey), route, now, 0))))
  }

  // ----- handshake and goodbye -----

  function FindIndex<T>(c: seq<Ref<T>>, i: nat, k: nat): (n: nat)
    requires k <= |c|
    ensures k <= n <= |c|
    ensures n < |c| ==> c[n].index == i
    ensures forall j | k <= j < n :: c[j].index != i
    decreases |c| - k
  {
    if k == |c| || c[k].index == i then k else FindIndex(c, i, k + 1)
  }

  predicate HasPeer(t: Tables, id: ConnId) {
    exists k | 0 <= k < |t.peers| :: t.peers[k].item.id == id
  }

  /** HELLO on an outgoing connection completes its pending connect, if it has one. */
  function Hello(t: Tables, i: nat): Tables
    requires i < |t.ids|
  {
    var n := FindIndex(t.pending, i, 0);
    if n == |t.pending| || !HasPeer(t, Remote(t.pending[n].item.id)) then t
    else t.(called := t.called + [Connected(t.pending[n].item.id, t.ids[i])], pending := RemoveAt(t.pending, n))
  }

  /** The first outgoing connection to `id`. */
  function FirstOutgoing(peers: seq<Ref<Peer>>, id: ConnId, k: nat): (n: nat)
    requires k <= |peers|
    ensures k <= n <= |peers|
    ensures n < |peers| ==> peers[n].item.id == id && Outgoing(peers[n])
    ensures forall j | k <= j < n :: !(peers[j].item.id == id && Outgoing(peers[j]))
    decreases |peers| - k
  {
    if k == |peers| || (peers[k].item.id == id && Outgoing(peers[k])) then k else FirstOutgoing(peers, id, k + 1)
  }

  predicate IndicesValid(t: Tables) {
    && |t.ids| == |t.sockets|
    && (forall k | 0 <= k < |t.peers| :: t.peers[k].index < |t.sockets|)
    && (forall k | 0 <= k < |t.pending| :: t.pending[k].index < |t.sockets|)
  }

  function Disconnect(t: Tables, id: ConnId): Tables
    requires IndicesValid(t)
  {
    var n := FirstOutgoing(t.peers, id, 0);
    if n == |t.peers| then t else Close(t, t.peers[n].index)
  }
}

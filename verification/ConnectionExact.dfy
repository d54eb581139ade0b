/** Exactly when a connection is used, opened, noted or closed, and what else changes then: nothing. */
module ConnectionExact {
  import opened ConnectionModel
  import opened ConnectionInvariant
  import opened ConnectionSteps
  import opened ConnectionSweeps

  // ----- connecting to a service node -----

  /** The entry is one of `id` that the caller's restrictions allow. */
  predicate Allowed(r: Ref<Peer>, id: ConnId, incomingOnly: bool, outgoingOnly: bool) {
    && r.item.id == id
    && (incomingOnly ==> r.item.route != "")
    && (outgoingOnly ==> r.item.route == "")
  }

  predicate HasUsable(t: Tables, id: ConnId, incomingOnly: bool, outgoingOnly: bool) {
    exists k :: 0 <= k < |t.peers| && Allowed(t.peers[k], id, incomingOnly, outgoingOnly)
  }

  /** Entry `k` is the first that is allowed. */
  predicate IsFirst(t: Tables, id: ConnId, incomingOnly: bool, outgoingOnly: bool, k: nat) {
    && k < |t.peers| && Allowed(t.peers[k], id, incomingOnly, outgoingOnly)
    && forall j | 0 <= j < k :: !Allowed(t.peers[j], id, incomingOnly, outgoingOnly)
  }

  lemma {:induction false} FirstAllowed(peers: seq<Ref<Peer>>, id: ConnId, incomingOnly: bool, outgoingOnly: bool, k: nat)
    requires k <= |peers|
    ensures var n := FirstUsable(peers, id, incomingOnly, outgoingOnly, k);
            && (n < |peers| ==> Allowed(peers[n], id, incomingOnly, outgoingOnly))
            && forall j | k <= j < n :: !Allowed(peers[j], id, incomingOnly, outgoingOnly)
    decreases |peers| - k
  {
    if k < |peers| { FirstAllowed(peers, id, incomingOnly, outgoingOnly, k + 1); }
  }

  /** `u` has one socket more than `t`, with its id and its peer entry; its other tables are the same. */
  predicate OneOpened(t: Tables, u: Tables, peer: Peer) {
    && u == t.(sockets := t.sockets + [t.created], created := t.created + 1, ids := t.ids + [peer.id], peers := u.peers)
    && multiset(u.peers) == multiset(t.peers) + multiset{Ref(|t.sockets|, peer)}
  }

  /** What using a connection leaves of its entry: an outgoing one starts idling anew, for the longer of both times. */
  predicate TouchedBy(p: Peer, q: Peer, keepAlive: int, now: int) {
    && q.id == p.id && q.route == p.route
    && if p.route == "" then q.lastActivity == now && q.idleExpiry >= p.idleExpiry && q.idleExpiry >= keepAlive
                             && q.idleExpiry in {p.idleExpiry, keepAlive}
       else q == p
  }

  lemma InsertBag<T>(s: seq<T>, at: nat, x: T)
    ensures multiset(InsertAt(s, at, x)) == multiset(s) + multiset{x}
  {
    if at <= |s| { assert s == s[..at] + s[at..]; }
  }

  /**
   A connection that the restrictions allow is used, the first there is. If there is none, one is opened exactly when
   the caller did not ask for an existing one and the node can be reached. Nothing else changes.
   */
  lemma ConnectSnExact(t: Tables, pubkey: string, optional: bool, incomingOnly: bool, outgoingOnly: bool, reachable: bool,
                       keepAlive: int, now: int, at: nat)
    ensures var u := ConnectSn(t, pubkey, optional, incomingOnly, outgoingOnly, reachable, keepAlive, now, at);
            if HasUsable(t, Node(pubkey), incomingOnly, outgoingOnly) then
              exists k: nat :: && IsFirst(t, Node(pubkey), incomingOnly, outgoingOnly, k)
                               && |u.peers| == |t.peers| && u == t.(peers := t.peers[k := Ref(t.peers[k].index, u.peers[k].item)])
                               && TouchedBy(t.peers[k].item, u.peers[k].item, keepAlive, now)
            else if optional || incomingOnly || !reachable then u == t
            else OneOpened(t, u, Peer(Node(pubkey), "", now, keepAlive))
  {
    var n := FirstUsable(t.peers, Node(pubkey), incomingOnly, outgoingOnly, 0);
    FirstAllowed(t.peers, Node(pubkey), incomingOnly, outgoingOnly, 0);
    hide FirstUsable, InsertAt;
    if n < |t.peers| {
      UsesFirst(t, pubkey, optional, incomingOnly, outgoingOnly, reachable, keepAlive, now, at, n);
    } else {
      InsertBag(t.peers, at, Ref(|t.sockets|, Peer(Node(pubkey), "", now, keepAlive)));
    }
  }

  lemma UsesFirst(t: Tables, pubkey: string, optional: bool, incomingOnly: bool, outgoingOnly: bool, reachable: bool,
                  keepAlive: int, now: int, at: nat, n: nat)
    requires n == FirstUsable(t.peers, Node(pubkey), incomingOnly, outgoingOnly, 0) < |t.peers|
    requires IsFirst(t, Node(pubkey), incomingOnly, outgoingOnly, n)
    ensures var u := ConnectSn(t, pubkey, optional, incomingOnly, outgoingOnly, reachable, keepAlive, now, at);
            && |u.peers| == |t.peers| && u == t.(peers := t.peers[n := Ref(t.peers[n].index, u.peers[n].item)])
            && TouchedBy(t.peers[n].item, u.peers[n].item, keepAlive, now)
  {
    hide FirstUsable, IsFirst;
    assert t.peers[n := Ref(t.peers[n].index, t.peers[n].item)] == t.peers;
  }

  /** A socket is opened, and then one, if and only if none can be used, one may be opened, and the node is reachable. */
  lemma OpensExactly(t: Tables, pubkey: string, optional: bool, incomingOnly: bool, outgoingOnly: bool, reachable: bool,
                     keepAlive: int, now: int, at: nat)
    ensures var u := ConnectSn(t, pubkey, optional, incomingOnly, outgoingOnly, reachable, keepAlive, now, at);
            |u.sockets| == |t.sockets|
            + if !HasUsable(t, Node(pubkey), incomingOnly, outgoingOnly) && !optional && !incomingOnly && reachable then 1 else 0
  {
    ConnectSnExact(t, pubkey, optional, incomingOnly, outgoingOnly, reachable, keepAlive, now, at);
    hide ConnectSn;
  }

  // ----- connecting to anything else -----

  /** Any other connection is opened with its connect pending until the time is up, or its callback is told of the failure. */
  lemma ConnectRemoteExact(t: Tables, id: int, reachable: bool, timeout: int, now: int, at: nat)
    ensures var u := ConnectRemote(t, id, reachable, timeout, now, at);
            if reachable then
              && OneOpened(t, u.(pending := t.pending, used := t.used), Peer(Remote(id), "", now, FOREVER))
              && u.pending == t.pending + [Ref(|t.sockets|, PendingConnect(id, now + timeout))] && u.used == t.used + {id}
            else u == t.(called := t.called + [Failed(id)], used := t.used + {id})
  {
    InsertBag(t.peers, at, Ref(|t.sockets|, Peer(Remote(id), "", now, FOREVER)));
    hide InsertAt;
  }

  // ----- incoming messages of service nodes -----

  predicate HasRoute(t: Tables, i: nat, pubkey: string, route: string) {
    exists k :: 0 <= k < |t.peers| && OfRoute(t.peers[k], i, pubkey, route)
  }

  predicate OfRoute(r: Ref<Peer>, i: nat, pubkey: string, route: string) {
    r.index == i && r.item.id == Node(pubkey) && r.item.route == route
  }

  /** A route is noted once: the first message adds an entry, and later ones change nothing. */
  lemma IncomingExact(t: Tables, i: nat, pubkey: string, route: string, now: int, at: nat)
    ensures var u := Incoming(t, i, pubkey, route, now, at);
            && HasRoute(u, i, pubkey, route)
            && if HasRoute(t, i, pubkey, route) then u == t
               else && u == t.(peers := u.peers)
                    && multiset(u.peers) == multiset(t.peers) + multiset{Ref(i, Peer(Node(pubkey), route, now, 0))}
  {
    var x := Ref(i, Peer(Node(pubkey), route, now, 0));
    var u := Incoming(t, i, pubkey, route, now, at);
    if HasRoute(t, i, pubkey, route) {
      var k :| 0 <= k < |t.peers| && OfRoute(t.peers[k], i, pubkey, route);
    } else {
      NoneOfRoute(t, i, pubkey, route);
      InsertBag(t.peers, at, x);
      hide InsertAt;
      assert x in multiset(u.peers);
      var k :| 0 <= k < |u.peers| && u.peers[k] == x;
      assert OfRoute(u.peers[k], i, pubkey, route);
    }
  }

  lemma NoneOfRoute(t: Tables, i: nat, pubkey: string, route: string)
    requires !HasRoute(t, i, pubkey, route)
    ensures forall k | 0 <= k < |t.peers| ::
              !(t.peers[k].item.id == Node(pubkey) && t.peers[k].index == i && t.peers[k].item.route == route)
  {
    forall k | 0 <= k < |t.peers|
      ensures !(t.peers[k].item.id == Node(pubkey) && t.peers[k].index == i && t.peers[k].item.route == route)
    {
      assert !OfRoute(t.peers[k], i, pubkey, route);
    }
  }

  // ----- disconnecting -----

  /** Disconnecting closes the outgoing connection to `id` and no other; without one it does nothing. */
  lemma DisconnectExact(t: Tables, id: ConnId)
    requires TablesOk(t)
    ensures IndicesValid(t) && TablesOk(Disconnect(t, id))
    ensures var u := Disconnect(t, id);
            if exists k :: 0 <= k < |t.peers| && Outgoing(t.peers[k]) && t.peers[k].item.id == id then
              exists k: nat :: && k < |t.peers| && Outgoing(t.peers[k]) && t.peers[k].item.id == id
                               && PeerView(u) == RemoveAt(PeerView(t), k)
                               && t.peers[k].index < |t.sockets| && u.sockets == RemoveAt(t.sockets, t.peers[k].index)
            else u == t
  {
    DisconnectKeeps(t, id);
    var n := FirstOutgoing(t.peers, id, 0);
    if n < |t.peers| {
      PickedView(t, n);
      hide TablesOk, PeerView;
      assert Outgoing(t.peers[n]) && t.peers[n].item.id == id;
    }
  }
}

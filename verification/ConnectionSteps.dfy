/** Every operation on the connection tables keeps them in agreement, over whole runs. */
module ConnectionSteps {
  import opened ConnectionModel
  import opened ConnectionInvariant

  // ----- opening -----

  lemma {:induction false} InsertMembers<T>(s: seq<T>, at: nat, x: T, k: nat)
    requires k < |InsertAt(s, at, x)|
    ensures InsertAt(s, at, x)[k] == x || InsertAt(s, at, x)[k] in s
  {
    var n := if at <= |s| then at else |s|;
    if k > n { assert InsertAt(s, at, x)[k] == s[k - 1]; }
  }

  lemma OpenKeepsPeers(t: Tables, peer: Peer, at: nat)
    requires TablesOk(t) && peer.route == ""
    ensures PeersOk(Open(t, peer, at))
  {
    var u := Open(t, peer, at);
    var x := Ref(|t.sockets|, peer);
    forall k | 0 <= k < |u.peers| ensures PeerOk(u, u.peers[k]) {
      InsertMembers(t.peers, at, x, k);
      if u.peers[k] != x {
        var j :| 0 <= j < |t.peers| && t.peers[j] == u.peers[k];
        assert PeerOk(t, t.peers[j]);
      }
    }
    forall i: nat | |u.binds| <= i < |u.sockets| ensures CountIndex(u.peers, i) == 1 {
      CountInsert(t.peers, at, x, i);
      if i == |t.sockets| { NoneBeyond(t.peers, i); }
    }
  }

  lemma OpenKeeps(t: Tables, peer: Peer, at: nat)
    requires TablesOk(t) && peer.route == "" && peer.id !in t.ids && (peer.id.Remote? ==> peer.id.id in t.used)
    ensures TablesOk(Open(t, peer, at))
  {
    OpenKeepsPeers(t, peer, at);
    hide InsertAt, PeersOk;
    assert CountIndex(t.pending, |t.sockets|) == 0 by { NoneBeyond(t.pending, |t.sockets|); }
  }

  lemma {:induction false} NoneBeyond<T>(c: seq<Ref<T>>, i: nat)
    requires forall k | 0 <= k < |c| :: c[k].index < i
    ensures CountIndex(c, i) == 0
  {
    if c != [] {
      NoneBeyond(c[1..], i);
    }
  }

  // ----- connecting to a service node -----

  /** Nothing is skipped on the way to the first usable connection. */
  lemma {:induction false} UsableSkips(peers: seq<Ref<Peer>>, id: ConnId, incomingOnly: bool, outgoingOnly: bool, k: nat, j: nat)
    requires k <= |peers| && k <= j < FirstUsable(peers, id, incomingOnly, outgoingOnly, k)
    ensures peers[j].item.id == id ==> (incomingOnly && Outgoing(peers[j])) || (outgoingOnly && !Outgoing(peers[j]))
    decreases |peers| - k
  {
    if k < j { UsableSkips(peers, id, incomingOnly, outgoingOnly, k + 1, j); }
  }

  /** A second outgoing connection to a node is never opened. */
  lemma NewNode(t: Tables, pubkey: string, outgoingOnly: bool)
    requires TablesOk(t) && FirstUsable(t.peers, Node(pubkey), false, outgoingOnly, 0) == |t.peers|
    ensures Node(pubkey) !in t.ids
  {
    if Node(pubkey) in t.ids {
      var i :| 0 <= i < |t.ids| && t.ids[i] == Node(pubkey);
      var j := CountSome(t.peers, i);
      assert PeerOk(t, t.peers[j]);
      UsableSkips(t.peers, Node(pubkey), false, outgoingOnly, 0, j);
    }
  }

  lemma TouchKeeps(t: Tables, n: nat, keepAlive: int, now: int)
    requires TablesOk(t) && n < |t.peers|
    ensures TablesOk(t.(peers := t.peers[n := Ref(t.peers[n].index, Touch(t.peers[n].item, keepAlive, now))]))
  {
    var x := Ref(t.peers[n].index, Touch(t.peers[n].item, keepAlive, now));
    var u := t.(peers := t.peers[n := x]);
    forall k | 0 <= k < |u.peers| ensures PeerOk(u, u.peers[k]) {
      assert PeerOk(t, t.peers[k]);
    }
    forall i: nat | |u.binds| <= i < |u.sockets| ensures CountIndex(u.peers, i) == 1 {
      CountReplace(t.peers, n, x, i);
    }
  }

  lemma ConnectSnKeeps(t: Tables, pubkey: string, optional: bool, incomingOnly: bool, outgoingOnly: bool, reachable: bool,
                       keepAlive: int, now: int, at: nat)
    requires TablesOk(t)
    ensures TablesOk(ConnectSn(t, pubkey, optional, incomingOnly, outgoingOnly, reachable, keepAlive, now, at))
    ensures SameListeners(t, ConnectSn(t, pubkey, optional, incomingOnly, outgoingOnly, reachable, keepAlive, now, at))
  {
    assert |t.binds| <= |t.sockets|;
    hide TablesOk, InsertAt;
    var n := FirstUsable(t.peers, Node(pubkey), incomingOnly, outgoingOnly, 0);
    if n < |t.peers| {
      TouchKeeps(t, n, keepAlive, now);
    } else if !incomingOnly {
      NewNode(t, pubkey, outgoingOnly);
      OpenKeeps(t, Peer(Node(pubkey), "", now, keepAlive), at);
    }
  }

  // ----- connecting to anything else -----

  lemma ConnectRemoteKeeps(t: Tables, id: int, reachable: bool, timeout: int, now: int, at: nat)
    requires TablesOk(t) && id !in t.used
    ensures TablesOk(ConnectRemote(t, id, reachable, timeout, now, at))
    ensures SameListeners(t, ConnectRemote(t, id, reachable, timeout, now, at))
  {
    var u := t.(used := t.used + {id});
    assert TablesOk(u) by { MoreUsed(t, id); }
    if reachable {
      assert Remote(id) !in t.ids;
      var v := Open(u, Peer(Remote(id), "", now, FOREVER), at);
      OpenKeeps(u, Peer(Remote(id), "", now, FOREVER), at);
      PendingNotCalled(t, id);
      NoneBeyond(t.pending, |t.sockets|);
      hide TablesOk;
      AddPending(v, id, now + timeout);
    } else {
      AddCall(u, Failed(id));
    }
  }

  lemma MoreUsed(t: Tables, id: int)
    requires TablesOk(t)
    ensures TablesOk(t.(used := t.used + {id}))
  {
    hide CountIndex;
    assert forall k | 0 <= k < |t.peers| :: PeerOk(t, t.peers[k]);
    forall k | 0 <= k < |t.peers| ensures PeerOk(t.(used := t.used + {id}), t.peers[k]) { }
  }

  lemma PendingNotCalled(t: Tables, id: int)
    requires TablesOk(t) && id !in t.used
    ensures forall k | 0 <= k < |t.called| :: t.called[k].id != id
  {
  }

  lemma AddPending(v: Tables, id: int, deadline: int)
    requires TablesOk(v) && |v.sockets| > |v.binds| && v.ids[|v.ids| - 1] == Remote(id)
    requires CountIndex(v.pending, |v.sockets| - 1) == 0 && forall k | 0 <= k < |v.called| :: v.called[k].id != id
    ensures TablesOk(v.(pending := v.pending + [Ref(|v.sockets| - 1, PendingConnect(id, deadline))]))
  {
    var x := Ref(|v.sockets| - 1, PendingConnect(id, deadline));
    var u := v.(pending := v.pending + [x]);
    forall i: nat | i < |u.sockets| ensures CountIndex(u.pending, i) <= 1 {
      CountConcat(v.pending, [x], i);
      assert [x][1..] == [];
    }
    assert forall k | 0 <= k < |u.peers| :: PeerOk(v, u.peers[k]);
    forall k | 0 <= k < |u.peers| ensures PeerOk(u, u.peers[k]) { }
  }

  lemma AddCall(t: Tables, c: Callback)
    requires TablesOk(t) && c.id in t.used && (c.Connected? ==> c.conn == Remote(c.id))
    requires (forall k | 0 <= k < |t.called| :: t.called[k].id != c.id)
    requires (forall k | 0 <= k < |t.pending| :: t.pending[k].item.id != c.id)
    ensures TablesOk(t.(called := t.called + [c]))
  {
    var u := t.(called := t.called + [c]);
    hide CountIndex;
    assert forall k | 0 <= k < |t.peers| :: PeerOk(t, t.peers[k]);
    forall k | 0 <= k < |u.peers| ensures PeerOk(u, u.peers[k]) { }
  }

  // ----- messages -----

  lemma IncomingKeeps(t: Tables, i: nat, pubkey: string, route: string, now: int, at: nat)
    requires TablesOk(t) && i < |t.binds| && route != "" && pubkey in t.active
    ensures TablesOk(Incoming(t, i, pubkey, route, now, at)) && SameListeners(t, Incoming(t, i, pubkey, route, now, at))
  {
    var x := Ref(i, Peer(Node(pubkey), route, now, 0));
    AddIncoming(t, x, at);
    hide TablesOk, InsertAt;
  }

  lemma AddIncoming(t: Tables, x: Ref<Peer>, at: nat)
    requires TablesOk(t) && PeerOk(t, x) && !Outgoing(x)
    ensures TablesOk(t.(peers := InsertAt(t.peers, at, x)))
  {
    var u := t.(peers := InsertAt(t.peers, at, x));
    forall k | 0 <= k < |u.peers| ensures PeerOk(u, u.peers[k]) {
      InsertMembers(t.peers, at, x, k);
      if u.peers[k] != x {
        var j :| 0 <= j < |t.peers| && t.peers[j] == u.peers[k];
        assert PeerOk(t, t.peers[j]);
      }
    }
    forall j: nat | |u.binds| <= j < |u.sockets| ensures CountIndex(u.peers, j) == 1 {
      CountInsert(t.peers, at, x, j);
    }
  }

  /** Forgets an incoming peer, as when its route is found dead. */
  function DropPeer(t: Tables, k: nat): Tables
    requires k < |t.peers|
  {
    t.(peers := RemoveAt(t.peers, k))
  }

  lemma DropPeerKeeps(t: Tables, k: nat)
    requires TablesOk(t) && k < |t.peers| && !Outgoing(t.peers[k])
    ensures TablesOk(DropPeer(t, k)) && SameListeners(t, DropPeer(t, k))
  {
    var u := DropPeer(t, k);
    forall j | 0 <= j < |u.peers| ensures PeerOk(u, u.peers[j]) {
      assert PeerOk(t, t.peers[Before(j, k)]);
    }
    forall j: nat | |u.binds| <= j < |u.sockets| ensures CountIndex(u.peers, j) == 1 {
      assert PeerOk(t, t.peers[k]);
      CountRemove(t.peers, k, j);
    }
  }

  /** Every outgoing connection has its peer entry, so a HELLO for a pending connect always completes it. */
  lemma PeerExists(t: Tables, i: nat)
    requires TablesOk(t) && |t.binds| <= i < |t.sockets|
    ensures HasPeer(t, t.ids[i])
  {
    var k := CountSome(t.peers, i);
    assert PeerOk(t, t.peers[k]);
  }

  lemma PendingIdsDiffer(t: Tables, j: nat, k: nat)
    requires TablesOk(t) && j < |t.pending| && k < |t.pending| && t.pending[j].item.id == t.pending[k].item.id
    ensures j == k
  {
    assert t.pending[j].index == t.pending[k].index;
    CountOne(t.pending, j, k, t.pending[j].index);
  }

  lemma RemovePending(t: Tables, n: nat)
    requires TablesOk(t) && n < |t.pending|
    ensures TablesOk(t.(pending := RemoveAt(t.pending, n)))
    ensures forall k | 0 <= k < |t.pending| - 1 :: RemoveAt(t.pending, n)[k].item.id != t.pending[n].item.id
  {
    var u := t.(pending := RemoveAt(t.pending, n));
    forall i: nat | i < |u.sockets| ensures CountIndex(u.pending, i) <= 1 {
      CountRemove(t.pending, n, i);
    }
    forall k | 0 <= k < |u.peers| ensures PeerOk(u, u.peers[k]) { assert PeerOk(t, t.peers[k]); }
    forall k | 0 <= k < |t.pending| - 1 ensures u.pending[k].item.id != t.pending[n].item.id {
      if u.pending[k].item.id == t.pending[n].item.id { PendingIdsDiffer(t, Before(k, n), n); }
    }
  }

  lemma HelloKeeps(t: Tables, i: nat)
    requires TablesOk(t) && |t.binds| <= i < |t.sockets|
    ensures TablesOk(Hello(t, i)) && SameListeners(t, Hello(t, i))
    ensures CountIndex(t.pending, i) == 1 ==> |Hello(t, i).called| == |t.called| + 1 && CountIndex(Hello(t, i).pending, i) == 0
  {
    var n := FindIndex(t.pending, i, 0);
    if n < |t.pending| {
      var id := t.pending[n].item.id;
      PeerExists(t, i);
      RemovePending(t, n);
      AddCall(t.(pending := RemoveAt(t.pending, n)), Connected(id, t.ids[i]));
      CountRemove(t.pending, n, i);
    } else if CountIndex(t.pending, i) == 1 {
      var k := CountSome(t.pending, i);
    }
  }

  lemma OkIsValid(t: Tables)
    requires TablesOk(t)
    ensures IndicesValid(t)
  {
    forall k | 0 <= k < |t.peers| ensures t.peers[k].index < |t.sockets| { assert PeerOk(t, t.peers[k]); }
  }

  lemma DisconnectKeeps(t: Tables, id: ConnId)
    requires TablesOk(t)
    ensures IndicesValid(t) && TablesOk(Disconnect(t, id))
    ensures forall k | 0 <= k < |Disconnect(t, id).peers| ::
              !(Outgoing(Disconnect(t, id).peers[k]) && Disconnect(t, id).peers[k].item.id == id)
  {
    OkIsValid(t);
    var n := FirstOutgoing(t.peers, id, 0);
    if n < |t.peers| {
      var i := t.peers[n].index;
      assert PeerOk(t, t.peers[n]);
      CloseKeeps(t, i);
      var u := Close(t, i);
      forall k | 0 <= k < |u.peers| ensures !(Outgoing(u.peers[k]) && u.peers[k].item.id == id) {
        var j := RenumberFrom(t.peers, i, k);
        if Outgoing(t.peers[j]) && t.peers[j].item.id == id { OneOutgoing(t, j, n); }
      }
    }
  }

  /** A service node, or any other remote, has at most one outgoing peer entry. */
  lemma OneOutgoing(t: Tables, j: nat, k: nat)
    requires TablesOk(t) && j < |t.peers| && k < |t.peers| && Outgoing(t.peers[j]) && Outgoing(t.peers[k])
    requires t.peers[j].item.id == t.peers[k].item.id
    ensures j == k
  {
    assert PeerOk(t, t.peers[j]) && PeerOk(t, t.peers[k]);
    CountOne(t.peers, j, k, t.peers[j].index);
  }
}

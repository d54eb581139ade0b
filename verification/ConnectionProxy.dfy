/** The connection tables as the proxy keeps them: fields updated in place, walked with an index as iterator. */
module ConnectionProxy {
  import opened ConnectionModel
  import opened ConnectionInvariant
  import opened ConnectionSteps
  import opened ConnectionSweeps
  import opened ConnectionExact
  import opened ConnectionRuns
  import opened ActiveNodes

  /** Drops every entry for `index` and moves the higher indices down by one. */
  method UpdateConnectionIndices<T>(c: seq<Ref<T>>, index: nat) returns (r: seq<Ref<T>>)
    ensures r == Renumber(c, index)
  {
    r := c;
    var it := 0;
    while it < |r|
      invariant 0 <= it <= |r| && r[..it] + Renumber(r[it..], index) == Renumber(c, index)
      decreases |r| - it
    {
      ghost var before, rest := r[..it], r[it..];
      var i := r[it].index;
      if i == index {
        r := r[..it] + r[it + 1..];
        assert r[..it] == before && r[it..] == rest[1..];
      } else {
        if i > index {
          r := r[it := r[it].(index := i - 1)];
        }
        it := it + 1;
        assert r[..it] == before + [Shifted(rest[0], index)] && r[it..] == rest[1..];
      }
    }
    assert r[it..] == [] && r[..it] == r;
  }

  class Proxy {
    var connections: seq<nat>
    var connIndexToId: seq<ConnId>
    var peers: seq<Ref<Peer>>
    var pendingConnects: seq<Ref<PendingConnect>>
    var bind: seq<Ref<string>>
    var incomingConnIndex: seq<Ref<ConnId>>
    var activeServiceNodes: set<string>
    var created: nat
    var used: set<int>
    var called: seq<Callback>

    function View(): Tables
      reads this
    {
      Tables(connections, connIndexToId, peers, pendingConnects, bind, incomingConnIndex, activeServiceNodes, created, used, called)
    }

    /** Opens the listeners, in the order of the bind addresses. */
    constructor Start(addresses: seq<string>, first: int)
      ensures View() == Startup(addresses, first)
    {
      connections, connIndexToId, peers, pendingConnects, incomingConnIndex := [], [], [], [], [];
      activeServiceNodes, created, used, called := {}, 0, {}, [];
      bind := seq(|addresses|, i requires 0 <= i < |addresses| => Ref(0, addresses[i]));
      new;
      var next := first;
      assert addresses[..0] == [];
      for i := 0 to |addresses|
        invariant |bind| == |addresses| && (forall j | i <= j < |bind| :: bind[j] == Ref(0, addresses[j]))
        invariant Bound(i) == Startup(addresses[..i], first) && next == first + i
      {
        hide Listen;
        assert addresses[..i + 1][..i] == addresses[..i];
        OpenListener(i, next);
        next := next + 1;
      }
      assert addresses[..|addresses|] == addresses && bind[..|addresses|] == bind;
    }

    /** The tables with only the first `i` bind addresses taken up. */
    function Bound(i: nat): Tables
      requires i <= |bind|
      reads this
    {
      View().(binds := bind[..i])
    }

    method OpenListener(i: nat, connId: int)
      requires i < |bind|
      modifies this
      ensures |bind| == |old(bind)| && bind[i + 1..] == old(bind)[i + 1..]
      ensures Bound(i + 1) == Listen(old(Bound(i)), old(bind)[i].item, connId)
    {
      connections := connections + [created];
      created := created + 1;
      used := used + {connId};
      connIndexToId := connIndexToId + [Remote(connId)];
      incomingConnIndex := incomingConnIndex + [Ref(|connections| - 1, Remote(connId))];
      bind := bind[i := bind[i].(index := |connections| - 1)];
      assert bind[..i + 1] == old(bind)[..i] + [bind[i]];
    }

    method CloseConnection(index: nat)
      requires index < |connections| == |connIndexToId|
      modifies this
      ensures View() == Close(old(View()), index)
    {
      connections := RemoveAt(connections, index);
      peers := UpdateConnectionIndices(peers, index);
      pendingConnects := UpdateConnectionIndices(pendingConnects, index);
      bind := UpdateConnectionIndices(bind, index);
      incomingConnIndex := UpdateConnectionIndices(incomingConnIndex, index);
      connIndexToId := RemoveAt(connIndexToId, index);
    }

    method FindUsable(id: ConnId, incomingOnly: bool, outgoingOnly: bool) returns (it: nat)
      ensures it == FirstUsable(peers, id, incomingOnly, outgoingOnly, 0)
      ensures it < |peers| ==> !(incomingOnly && Outgoing(peers[it])) && !(outgoingOnly && !Outgoing(peers[it]))
    {
      it := 0;
      while it < |peers|
        invariant 0 <= it <= |peers|
        invariant FirstUsable(peers, id, incomingOnly, outgoingOnly, it) == FirstUsable(peers, id, incomingOnly, outgoingOnly, 0)
      {
        if peers[it].item.id != id || (incomingOnly && Outgoing(peers[it])) || (outgoingOnly && !Outgoing(peers[it])) {
          it := it + 1;
          continue;
        }
        break;
      }
    }

    /** A new outgoing socket with its id and its peer entry. */
    method OpenSocket(peer: Peer, at: nat)
      modifies this
      ensures View() == Open(old(View()), peer, at)
      ensures exists k | 0 <= k < |peers| :: peers[k] == Ref(|connections| - 1, peer)
    {
      var p := Ref(|connections|, peer);
      ghost var k := InsertHas(peers, at, p);
      connIndexToId := connIndexToId + [peer.id];
      peers := InsertAt(peers, at, p);
      connections := connections + [created];
      created := created + 1;
      assert peers[k] == p;
    }

    /** Uses or opens a connection to a service node; the result is the socket's index and the route. */
    method ConnectServiceNode(pubkey: string, optional: bool, incomingOnly: bool, outgoingOnly: bool, reachable: bool,
                              keepAlive: int, now: int, at: nat) returns (found: bool, index: nat, route: string)
      requires TablesOk(View())
      modifies this
      ensures View() == ConnectSn(old(View()), pubkey, optional, incomingOnly, outgoingOnly, reachable, keepAlive, now, at)
      ensures found ==> index < |connections| && exists k | 0 <= k < |peers| :: Reaches(peers[k], index, Node(pubkey), route)
      ensures found ==> !(incomingOnly && route == "") && !(outgoingOnly && route != "")
      ensures found <==> HasUsable(old(View()), Node(pubkey), incomingOnly, outgoingOnly) || (!optional && !incomingOnly && reachable)
    {
      OkIsValid(View());
      FirstAllowed(peers, Node(pubkey), incomingOnly, outgoingOnly, 0);
      hide TablesOk, InsertAt, Open, FirstUsable;
      var it := FindUsable(Node(pubkey), incomingOnly, outgoingOnly);
      if it < |peers| {
        index, route := peers[it].index, peers[it].item.route;
        if Outgoing(peers[it]) {
          peers := peers[it := Ref(index, Touch(peers[it].item, keepAlive, now))];
        }
        assert Reaches(peers[it], index, Node(pubkey), route);
        return true, index, route;
      } else if optional || incomingOnly {
        return false, 0, "";
      }
      if !reachable {
        return false, 0, "";
      }
      var p := Peer(Node(pubkey), "", now, keepAlive);
      OpenSocket(p, at);
      ghost var k :| 0 <= k < |peers| && peers[k] == Ref(|connections| - 1, p);
      assert Reaches(peers[k], |connections| - 1, Node(pubkey), "");
      OpenGrows(old(View()), p, at);
      return true, |connections| - 1, "";
    }

    method ConnectToRemote(id: int, reachable: bool, timeout: int, now: int, at: nat)
      modifies this
      ensures View() == ConnectRemote(old(View()), id, reachable, timeout, now, at)
    {
      used := used + {id};
      if !reachable {
        called := called + [Failed(id)];
        return;
      }
      pendingConnects := pendingConnects + [Ref(|connections|, PendingConnect(id, now + timeout))];
      OpenSocket(Peer(Remote(id), "", now, FOREVER), at);
    }

    /** A message from an active service node on listener `index`: its route gets a peer entry if it has none. */
    method NoteIncoming(index: nat, pubkey: string, route: string, now: int, at: nat)
      modifies this
      ensures View() == Incoming(old(View()), index, pubkey, route, now, at)
    {
      for it := 0 to |peers|
        invariant View() == old(View())
        invariant forall k | 0 <= k < it ::
                    !(peers[k].item.id == Node(pubkey) && peers[k].index == index && peers[k].item.route == route)
      {
        if peers[it].item.id == Node(pubkey) && peers[it].index == index && peers[it].item.route == route {
          return;
        }
      }
      peers := InsertAt(peers, at, Ref(index, Peer(Node(pubkey), route, now, 0)));
    }

    method HandleHello(index: nat)
      requires TablesOk(View()) && |bind| <= index < |connections|
      modifies this
      ensures View() == Hello(old(View()), index)
    {
      var it := 0;
      while it < |pendingConnects| && pendingConnects[it].index != index
        invariant 0 <= it <= |pendingConnects| && FindIndex(pendingConnects, index, it) == FindIndex(pendingConnects, index, 0)
      {
        it := it + 1;
      }
      if it == |pendingConnects| {
        return;
      }
      PeerExists(View(), index);
      called := called + [Connected(pendingConnects[it].item.id, connIndexToId[index])];
      pendingConnects := RemoveAt(pendingConnects, it);
    }

    method DisconnectFrom(id: ConnId)
      requires IndicesValid(View())
      modifies this
      ensures View() == Disconnect(old(View()), id)
    {
      var it := 0;
      while it < |peers|
        invariant 0 <= it <= |peers| && FirstOutgoing(peers, id, it) == FirstOutgoing(peers, id, 0) && View() == old(View())
      {
        if peers[it].item.id == id && Outgoing(peers[it]) {
          CloseConnection(peers[it].index);
          return;
        }
        it := it + 1;
      }
    }

    /** The iterator moves on before the connection is closed, so it stays where the next entry comes to be. */
    method ExpireIdlePeers(now: int)
      requires TablesOk(View())
      modifies this
      ensures View() == ExpireIdle(old(View()), now)
    {
      hide TablesOk, Close;
      var it := 0;
      while it < |peers|
        invariant TablesOk(View()) && 0 <= it <= |peers|
        invariant Sweep(View(), it, IdleAt(now)) == Sweep(old(View()), 0, IdleAt(now))
        decreases |peers| - it
      {
        if Outgoing(peers[it]) && now - peers[it].item.lastActivity > peers[it].item.idleExpiry {
          PickedKeeps(View(), it);
          CloseConnection(peers[it].index);
        } else {
          it := it + 1;
        }
      }
    }

    method CleanupConnects(now: int)
      requires TablesOk(View())
      modifies this
      ensures View() == CleanPending(old(View()), 0, now)
    {
      hide TablesOk;
      var it := 0;
      while it < |pendingConnects|
        invariant TablesOk(View()) && 0 <= it <= |pendingConnects|
        invariant CleanPending(View(), it, now) == CleanPending(old(View()), 0, now)
        decreases |pendingConnects| - it
      {
        if pendingConnects[it].item.deadline < now {
          TimedOutKeeps(View(), it);
          RenumberErased(pendingConnects, it);
          var index := pendingConnects[it].index;
          called := called + [Failed(pendingConnects[it].item.id)];
          pendingConnects := RemoveAt(pendingConnects, it);
          CloseConnection(index);
        } else {
          it := it + 1;
        }
      }
    }

    /** Forgets one node: its active entry, its peers and its outgoing connection. */
    method ForgetNode(pubkey: string)
      requires TablesOk(View())
      modifies this
      ensures View() == RemoveNode(old(View()), pubkey)
    {
      hide TablesOk;
      ghost var was := activeServiceNodes;
      activeServiceNodes := activeServiceNodes - {pubkey};
      var it := 0;
      assert View().(active := was) == old(View());
      while it < |peers|
        invariant activeServiceNodes == was - {pubkey} && TablesOk(View().(active := was)) && 0 <= it <= |peers|
        invariant Sweep(View().(active := was), it, OfNode(pubkey)) == Sweep(old(View()), 0, OfNode(pubkey))
        decreases |peers| - it
      {
        if peers[it].item.id != Node(pubkey) {
          it := it + 1;
          continue;
        }
        PickedKeeps(View().(active := was), it);
        RenumberErased(peers, it);
        var outgoing, index := Outgoing(peers[it]), peers[it].index;
        peers := RemoveAt(peers, it);
        if outgoing {
          CloseConnection(index);
        }
      }
      SweepLeavesActive(old(View()), 0, OfNode(pubkey));
    }

    method UpdateNodesClean(added: set<string>, removed: set<string>) returns (ghost order: seq<string>)
      requires TablesOk(View())
      modifies this
      ensures Elements(order) == removed && View() == Step(old(View()), NodesUpdate(added, order))
      ensures TablesOk(View()) && activeServiceNodes == (old(activeServiceNodes) - removed) + added
      ensures forall k | k in removed :: !HasPeer(View(), Node(k))
    {
      hide TablesOk, RemoveNode, HasPeer;
      ghost var start := View();
      order := [];
      var left := removed;
      while left != {}
        invariant TablesOk(View()) && left <= removed && Elements(order) == removed - left
        invariant View() == RemoveNodes(start, order)
      {
        var pk :| pk in left;
        RemoveLast(start, order, pk);
        assert Elements(order + [pk]) == Elements(order) + {pk};
        RemoveNodeKeeps(View(), pk);
        ForgetNode(pk);
        order := order + [pk];
        left := left - {pk};
      }
      activeServiceNodes := activeServiceNodes + added;
      StepKeeps(start, NodesUpdate(added, order));
      UpdateActive(start, added, order);
    }

    /** The well-formed keys, and which of them are new. */
    method FilterKeys(pubkeys: set<string>) returns (wanted: set<string>, added: set<string>)
      ensures wanted == Valid(pubkeys) && added == wanted - activeServiceNodes
    {
      wanted, added := pubkeys, {};
      var todo := pubkeys;
      while todo != {}
        invariant todo <= pubkeys && wanted == Valid(pubkeys - todo) + todo
        invariant added == Valid(pubkeys - todo) - activeServiceNodes
      {
        var pk :| pk in todo;
        assert pubkeys - (todo - {pk}) == pubkeys - todo + {pk};
        todo := todo - {pk};
        if |pk| != 32 {
          wanted := wanted - {pk};
          continue;
        }
        if pk !in activeServiceNodes {
          added := added + {pk};
        }
      }
      assert pubkeys - todo == pubkeys;
    }

    /** The active nodes that are no longer wanted; the search stops as soon as the sizes balance. */
    method FindRemoved(wanted: set<string>, added: set<string>) returns (removed: set<string>)
      requires added == wanted - activeServiceNodes
      ensures removed == activeServiceNodes - wanted
    {
      removed := {};
      var rest := activeServiceNodes;
      while rest != {}
        invariant rest <= activeServiceNodes && removed == (activeServiceNodes - rest) - wanted
      {
        var pk :| pk in rest;
        rest := rest - {pk};
        if pk !in wanted {
          removed := removed + {pk};
        }
        if |activeServiceNodes| + |added| - |removed| == |wanted| {
          EarlyExit(activeServiceNodes, wanted, removed);
          return;
        }
      }
      assert activeServiceNodes - rest == activeServiceNodes;
    }

    /** The active set becomes the well-formed keys of `pubkeys`; every node that is no longer in it loses its peers. */
    method SetActiveNodes(pubkeys: set<string>)
      requires TablesOk(View())
      modifies this
      ensures TablesOk(View()) && activeServiceNodes == Valid(pubkeys)
      ensures forall k | k in old(activeServiceNodes) - Valid(pubkeys) :: !HasPeer(View(), Node(k))
    {
      hide TablesOk, HasPeer;
      var wanted, added := FilterKeys(pubkeys);
      if added == {} && |activeServiceNodes| == |wanted| {
        Unchanged(activeServiceNodes, wanted);
        return;
      }
      var removed := FindRemoved(wanted, added);
      ghost var order := UpdateNodesClean(added, removed);
    }

    /** Removals that are not additions go, well-formed additions come; every removed node loses its peers. */
    method UpdateActiveNodes(add: set<string>, remove: set<string>)
      requires TablesOk(View()) && Valid(activeServiceNodes) == activeServiceNodes
      modifies this
      ensures TablesOk(View()) && activeServiceNodes == (old(activeServiceNodes) - (remove - add)) + Valid(add)
      ensures Valid(activeServiceNodes) == activeServiceNodes
      ensures forall k | k in old(activeServiceNodes) - activeServiceNodes :: !HasPeer(View(), Node(k))
    {
      var removed, todo := remove, remove;
      while todo != {}
        invariant todo <= remove && View() == old(View())
        invariant removed == (Valid(remove - todo) * activeServiceNodes - add) + todo
      {
        var pk :| pk in todo;
        assert remove - (todo - {pk}) == remove - todo + {pk};
        todo := todo - {pk};
        if |pk| != 32 {
          removed := removed - {pk};
        } else if pk !in activeServiceNodes || pk in add {
          removed := removed - {pk};
        }
      }
      assert remove - todo == remove;
      var added := add;
      todo := add;
      while todo != {}
        invariant todo <= add && View() == old(View())
        invariant added == (Valid(add - todo) - activeServiceNodes) + todo
      {
        var pk :| pk in todo;
        assert add - (todo - {pk}) == add - todo + {pk};
        todo := todo - {pk};
        if |pk| != 32 {
          added := added - {pk};
        } else if pk in activeServiceNodes {
          added := added - {pk};
        }
      }
      assert add - todo == add;
      ghost var order := UpdateNodesClean(added, removed);
    }
  }

  /** The entry stands for the socket at `index`, used with `route`. */
  predicate Reaches(r: Ref<Peer>, index: nat, id: ConnId, route: string) {
    r.index == index && r.item.id == id && r.item.route == route
  }

  lemma OpenGrows(t: Tables, peer: Peer, at: nat)
    ensures |Open(t, peer, at).sockets| == |t.sockets| + 1
  {
  }

  lemma InsertHas<T>(s: seq<T>, at: nat, x: T) returns (k: nat)
    ensures k < |InsertAt(s, at, x)| && InsertAt(s, at, x)[k] == x
  {
    k := if at <= |s| then at else |s|;
  }

  lemma {:induction false} RemoveLast(t: Tables, order: seq<string>, pubkey: string)
    requires TablesOk(t)
    ensures RemoveNodes(t, order + [pubkey]) == RemoveNode(RemoveNodes(t, order), pubkey)
    decreases |order|
  {
    if order == [] {
      assert (order + [pubkey])[1..] == [];
      RemoveNodeKeeps(t, pubkey);
    } else {
      assert (order + [pubkey])[1..] == order[1..] + [pubkey];
      RemoveNodeKeeps(t, order[0]);
      RemoveLast(RemoveNode(t, order[0]), order[1..], pubkey);
    }
  }
}

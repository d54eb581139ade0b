/** Whole runs of connection events, from startup on. */
module ConnectionRuns {
  import opened ConnectionModel
  import opened ConnectionInvariant
  import opened ConnectionSteps
  import opened ConnectionSweeps

  // ----- startup -----

  const EMPTY := Tables([], [], [], [], [], [], {}, 0, {}, [])

  /** One more listener, under a fresh connection number. */
  function Listen(t: Tables, address: string, id: int): Tables {
    var n := |t.sockets|;
    t.(sockets := t.sockets + [t.created], created := t.created + 1, ids := t.ids + [Remote(id)], used := t.used + {id},
       binds := t.binds + [Ref(n, address)], incoming := t.incoming + [Ref(n, Remote(id))])
  }

  function Startup(addresses: seq<string>, first: int): Tables {
    if addresses == [] then EMPTY
    else
      var n := |addresses| - 1;
      Listen(Startup(addresses[..n], first), addresses[n], first + n)
  }

  predicate OnlyListeners(t: Tables) {
    |t.binds| == |t.sockets| && t.peers == [] && t.pending == [] && t.called == []
  }

  lemma ListenKeeps(t: Tables, address: string, id: int)
    requires TablesOk(t) && OnlyListeners(t) && id !in t.used
    ensures TablesOk(Listen(t, address, id)) && OnlyListeners(Listen(t, address, id))
    ensures Listen(t, address, id).binds == t.binds + [Ref(|t.binds|, address)]
    ensures Listen(t, address, id).used == t.used + {id}
    ensures Listen(t, address, id).ids == t.ids + [Remote(id)]
  {
  }

  lemma EmptyKeeps()
    ensures TablesOk(EMPTY) && OnlyListeners(EMPTY) && EMPTY.binds == [] && EMPTY.used == {}
  {
  }

  lemma {:induction false} StartupKeeps(addresses: seq<string>, first: int)
    ensures TablesOk(Startup(addresses, first)) && OnlyListeners(Startup(addresses, first))
    ensures |Startup(addresses, first).binds| == |addresses|
    ensures forall i | 0 <= i < |addresses| :: Startup(addresses, first).binds[i] == Ref(i, addresses[i])
    ensures forall id | id in Startup(addresses, first).used :: first <= id < first + |addresses|
    ensures |Startup(addresses, first).ids| == |addresses|
    ensures forall i | 0 <= i < |addresses| :: Startup(addresses, first).ids[i] == Remote(first + i)
  {
    hide TablesOk, Listen, OnlyListeners;
    if addresses == [] {
      EmptyKeeps();
    } else {
      var n := |addresses| - 1;
      StartupKeeps(addresses[..n], first);
      ListenKeeps(Startup(addresses[..n], first), addresses[n], first + n);
    }
  }

  // ----- events -----

  datatype Event =
    | SnConnect(pubkey: string, optional: bool, incomingOnly: bool, outgoingOnly: bool, reachable: bool,
                keepAlive: int, now: int, at: nat)
    | RemoteConnect(id: int, reachable: bool, timeout: int, now: int, at: nat)
    | NodeMessage(index: nat, pubkey: string, route: string, now: int, at: nat)
    | RouteDied(entry: nat)
    | HelloMessage(index: nat)
    | ByeMessage(index: nat)
    | Cleanup(now: int)
    | DisconnectRequest(conn: ConnId)
    | NodesUpdate(added: set<string>, removed: seq<string>)

  /** Connection numbers are handed out once; messages arrive on open sockets; routes exist on listeners only. */
  predicate Enabled(t: Tables, e: Event) {
    match e
    case RemoteConnect(id, _, _, _, _) => id !in t.used
    case NodeMessage(index, pubkey, route, _, _) => index < |t.binds| && route != "" && pubkey in t.active
    case RouteDied(entry) => entry < |t.peers| && !Outgoing(t.peers[entry])
    case HelloMessage(index) => index < |t.sockets|
    case ByeMessage(index) => index < |t.sockets|
    case _ => true
  }

  function RemoveNodes(t: Tables, removed: seq<string>): (u: Tables)
    requires TablesOk(t)
    ensures TablesOk(u) && SameListeners(t, u)
    decreases |removed|
  {
    if removed == [] then t
    else
      RemoveNodeKeeps(t, removed[0]);
      RemoveNodes(RemoveNode(t, removed[0]), removed[1..])
  }

  function Step(t: Tables, e: Event): Tables
    requires TablesOk(t) && Enabled(t, e)
  {
    match e
    case SnConnect(pubkey, optional, incomingOnly, outgoingOnly, reachable, keepAlive, now, at) =>
      ConnectSn(t, pubkey, optional, incomingOnly, outgoingOnly, reachable, keepAlive, now, at)
    case RemoteConnect(id, reachable, timeout, now, at) => ConnectRemote(t, id, reachable, timeout, now, at)
    case NodeMessage(index, pubkey, route, now, at) => Incoming(t, index, pubkey, route, now, at)
    case RouteDied(entry) => DropPeer(t, entry)
    case HelloMessage(index) => if index < |t.binds| then t else Hello(t, index)
    case ByeMessage(index) => if index < |t.binds| then t else Close(t, index)
    case Cleanup(now) => CleanPending(ExpireIdle(t, now), 0, now)
    case DisconnectRequest(conn) =>
      DisconnectKeeps(t, conn);
      Disconnect(t, conn)
    case NodesUpdate(added, removed) =>
      var u := RemoveNodes(t, removed);
      u.(active := u.active + added)
  }

  lemma MoreActive(t: Tables, added: set<string>)
    requires TablesOk(t)
    ensures TablesOk(t.(active := t.active + added))
  {
    var u := t.(active := t.active + added);
    hide CountIndex;
    forall k | 0 <= k < |u.peers| ensures PeerOk(u, u.peers[k]) { assert PeerOk(t, t.peers[k]); }
  }

  lemma StepKeeps(t: Tables, e: Event)
    requires TablesOk(t) && Enabled(t, e)
    ensures TablesOk(Step(t, e)) && SameListeners(t, Step(t, e))
  {
    assert |t.binds| <= |t.sockets| == |t.ids|;
    hide TablesOk, Close, ConnectSn, ConnectRemote, Incoming, DropPeer, Hello, ExpireIdle, CleanPending, Disconnect, RemoveNodes;
    match e {
      case SnConnect(pubkey, optional, incomingOnly, outgoingOnly, reachable, keepAlive, now, at) =>
        ConnectSnKeeps(t, pubkey, optional, incomingOnly, outgoingOnly, reachable, keepAlive, now, at);
      case RemoteConnect(id, reachable, timeout, now, at) => ConnectRemoteKeeps(t, id, reachable, timeout, now, at);
      case NodeMessage(index, pubkey, route, now, at) => IncomingKeeps(t, index, pubkey, route, now, at);
      case RouteDied(entry) => DropPeerKeeps(t, entry);
      case HelloMessage(index) => if index >= |t.binds| { HelloKeeps(t, index); }
      case ByeMessage(index) => if index >= |t.binds| { CloseKeeps(t, index); }
      case Cleanup(now) => ExpireIdleKeeps(t, now);
      case DisconnectRequest(conn) => DisconnectListeners(t, conn);
      case NodesUpdate(added, removed) => MoreActive(RemoveNodes(t, removed), added);
    }
  }

  lemma DisconnectListeners(t: Tables, conn: ConnId)
    requires TablesOk(t)
    ensures IndicesValid(t) && TablesOk(Disconnect(t, conn)) && SameListeners(t, Disconnect(t, conn))
  {
    DisconnectKeeps(t, conn);
    var n := FirstOutgoing(t.peers, conn, 0);
    if n < |t.peers| {
      assert PeerOk(t, t.peers[n]);
      CloseKeeps(t, t.peers[n].index);
    }
  }

  /** A run is the tables after each event, one enabled step at a time; that `Step` is defined all along is `RunKeeps`. */
  predicate IsRun(run: seq<Tables>, events: seq<Event>) {
    && |run| == |events| + 1
    && forall i | 0 <= i < |events| ::
         TablesOk(run[i]) ==> Enabled(run[i], events[i]) && run[i + 1] == Step(run[i], events[i])
  }

  /** From startup on the tables always agree, and the listeners stay where startup put them. */
  lemma {:induction false} RunKeeps(addresses: seq<string>, first: int, run: seq<Tables>, events: seq<Event>, n: nat)
    requires IsRun(run, events) && run[0] == Startup(addresses, first) && n < |run|
    ensures TablesOk(run[n]) && SameListeners(run[0], run[n]) && |run[n].binds| == |addresses|
  {
    hide TablesOk, Step, Startup;
    if n == 0 {
      StartupKeeps(addresses, first);
      StartupListens(addresses, first);
    } else {
      RunKeeps(addresses, first, run, events, n - 1);
      StepKeeps(run[n - 1], events[n - 1]);
    }
  }

  lemma StartupListens(addresses: seq<string>, first: int)
    ensures SameListeners(Startup(addresses, first), Startup(addresses, first))
  {
    StartupKeeps(addresses, first);
    hide Startup;
  }

  /** In any state of a run, each outgoing connection has exactly one peer, under the connection's own id. */
  lemma OutgoingPeers(addresses: seq<string>, first: int, run: seq<Tables>, events: seq<Event>, n: nat, i: nat)
    requires IsRun(run, events) && run[0] == Startup(addresses, first) && n < |run|
    requires |addresses| <= i < |run[n].sockets|
    ensures |run[n].ids| == |run[n].sockets|
    ensures exists k :: 0 <= k < |run[n].peers| && OnlyPeer(run[n], i, k)
    ensures forall j, k | 0 <= j < |run[n].peers| && 0 <= k < |run[n].peers| &&
                          Outgoing(run[n].peers[j]) && Outgoing(run[n].peers[k]) &&
                          run[n].peers[j].item.id == run[n].peers[k].item.id :: j == k
  {
    RunKeeps(addresses, first, run, events, n);
    var t := run[n];
    hide IsRun, Startup;
    var k := CountSome(t.peers, i);
    assert PeerOk(t, t.peers[k]);
    forall j | 0 <= j < |t.peers| && t.peers[j].index == i ensures j == k { CountOne(t.peers, j, k, i); }
    assert OnlyPeer(t, i, k);
    forall j, k | 0 <= j < |t.peers| && 0 <= k < |t.peers| && Outgoing(t.peers[j]) && Outgoing(t.peers[k]) &&
                  t.peers[j].item.id == t.peers[k].item.id ensures j == k {
      OneOutgoing(t, j, k);
    }
  }

  predicate OnlyPeer(t: Tables, i: nat, k: nat)
    requires k < |t.peers|
  {
    && t.peers[k].index == i < |t.ids| && Outgoing(t.peers[k]) && t.peers[k].item.id == t.ids[i]
    && forall j | 0 <= j < |t.peers| && t.peers[j].index == i :: j == k
  }

  /** No connect callback is ever called twice, and none whose connect is still pending. */
  lemma CallbacksOnce(addresses: seq<string>, first: int, run: seq<Tables>, events: seq<Event>, n: nat)
    requires IsRun(run, events) && run[0] == Startup(addresses, first) && n < |run|
    ensures forall j, k | 0 <= j < k < |run[n].called| :: run[n].called[j].id != run[n].called[k].id
    ensures forall j, k | 0 <= j < |run[n].pending| && 0 <= k < |run[n].called| ::
              run[n].pending[j].item.id != run[n].called[k].id
    ensures forall k | 0 <= k < |run[n].called| && run[n].called[k].Connected? ::
              run[n].called[k].conn == Remote(run[n].called[k].id)
  {
    RunKeeps(addresses, first, run, events, n);
    hide IsRun, Startup;
  }
}

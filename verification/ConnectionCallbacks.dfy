/** What becomes of every connect callback: it stays pending, it is called, or its connection is closed first. */
module ConnectionCallbacks {
  import opened Basics
  import opened ConnectionModel
  import opened ConnectionInvariant
  import opened ConnectionSteps
  import opened ConnectionSweeps
  import opened ConnectionRuns

  predicate IsPending(t: Tables, id: int) {
    exists k :: 0 <= k < |t.pending| && t.pending[k].item.id == id
  }

  predicate IsCalled(t: Tables, id: int) {
    exists k :: 0 <= k < |t.called| && t.called[k].id == id
  }

  /** The connection of `id` is closed by its own end: goodbye, disconnect, or idleness. */
  predicate Drops(t: Tables, e: Event, id: int) {
    match e
    case ByeMessage(index) => |t.binds| <= index < |t.ids| && t.ids[index] == Remote(id)
    case DisconnectRequest(conn) => conn == Remote(id)
    case Cleanup(now) => HasIdle(t, id, now)
    case _ => false
  }

  predicate HasIdle(t: Tables, id: int, now: int) {
    exists k :: 0 <= k < |t.peers| && t.peers[k].item.id == Remote(id) && Idle(t.peers[k].item, now)
  }

  // ----- closing a connection -----

  lemma {:induction false} RenumberTo<T>(c: seq<Ref<T>>, i: nat, j: nat) returns (k: nat)
    requires j < |c| && c[j].index != i
    ensures k < |Renumber(c, i)| && Renumber(c, i)[k] == Shifted(c[j], i)
  {
    if j == 0 {
      k := 0;
    } else {
      k := RenumberTo(c[1..], i, j - 1);
      k := if c[0].index == i then k else k + 1;
    }
  }

  /** A connect stays pending exactly as long as its connection is there. */
  ghost predicate FollowsSocket(t: Tables, u: Tables, id: int) {
    && (IsPending(u, id) <==> IsPending(t, id) && Remote(id) in u.ids)
    && u.called == t.called && u.used == t.used
    && (Remote(id) in u.ids ==> Remote(id) in t.ids)
  }

  lemma ClosedIds(t: Tables, i: nat, x: ConnId)
    requires TablesOk(t) && i < |t.sockets|
    ensures x in Close(t, i).ids <==> x in t.ids && x != t.ids[i]
  {
    hide PeersOk, PendingOk, CalledOk;
    var r := Close(t, i).ids;
    if x in r {
      var k :| 0 <= k < |r| && r[k] == x;
      assert r[k] == t.ids[if k < i then k else k + 1];
    }
    if x in t.ids && x != t.ids[i] {
      var k :| 0 <= k < |t.ids| && t.ids[k] == x;
      assert r[if k < i then k else k - 1] == x;
    }
  }

  lemma ClosePending(t: Tables, i: nat, id: int)
    requires TablesOk(t) && i < |t.sockets|
    ensures FollowsSocket(t, Close(t, i), id)
    ensures Remote(id) in Close(t, i).ids <==> Remote(id) in t.ids && t.ids[i] != Remote(id)
  {
    ClosedIds(t, i, Remote(id));
    var u := Close(t, i);
    hide PeersOk, CalledOk, Renumber;
    if IsPending(u, id) {
      var k :| 0 <= k < |u.pending| && u.pending[k].item.id == id;
      var j := RenumberFrom(t.pending, i, k);
    }
    if IsPending(t, id) && t.ids[i] != Remote(id) {
      var j :| 0 <= j < |t.pending| && t.pending[j].item.id == id;
      var k := RenumberTo(t.pending, i, j);
    }
  }

  // ----- the passes that close connections -----

  lemma {:induction false} SweepPending(t: Tables, k: nat, drop: Peer -> bool, id: int)
    requires TablesOk(t) && k <= |t.peers|
    ensures FollowsSocket(t, Sweep(t, k, drop), id)
    decreases |t.peers| - k
  {
    PendingHasSocket(t, id);
    hide TablesOk, FollowsSocket, Picked, IsPending;
    if k == |t.peers| {
      Same(t, id);
    } else if drop(t.peers[k].item) {
      PickedKeeps(t, k);
      PickedPending(t, k, id);
      SweepPending(Picked(t, k), k, drop, id);
      Chain(t, Picked(t, k), Sweep(t, k, drop), id);
    } else {
      SweepPending(t, k + 1, drop, id);
    }
  }

  lemma PendingHasSocket(t: Tables, id: int)
    requires TablesOk(t)
    ensures IsPending(t, id) ==> Remote(id) in t.ids && id in t.used && !IsCalled(t, id)
  {
    if IsPending(t, id) {
      var k :| 0 <= k < |t.pending| && t.pending[k].item.id == id;
      hide CountIndex, PeersOk;
      assert t.ids[t.pending[k].index] == Remote(id);
    }
  }

  lemma Same(t: Tables, id: int)
    requires IsPending(t, id) ==> Remote(id) in t.ids
    ensures FollowsSocket(t, t, id)
  {
  }

  lemma Chain(t: Tables, m: Tables, u: Tables, id: int)
    requires FollowsSocket(t, m, id) && FollowsSocket(m, u, id)
    ensures FollowsSocket(t, u, id)
  {
  }

  lemma PickedPending(t: Tables, k: nat, id: int)
    requires TablesOk(t) && k < |t.peers|
    ensures Outgoing(t.peers[k]) ==> t.peers[k].index < |t.sockets| == |t.ids|
    ensures FollowsSocket(t, Picked(t, k), id)
  {
    PickedKeeps(t, k);
    PendingHasSocket(t, id);
    hide TablesOk;
    if Outgoing(t.peers[k]) {
      ClosePending(t, t.peers[k].index, id);
    } else {
      assert DropPeer(t, k).pending == t.pending && DropPeer(t, k).ids == t.ids;
    }
  }

  lemma {:induction false} KeptMember(s: seq<(nat, Peer)>, drop: Peer -> bool, x: (nat, Peer))
    ensures x in Kept(s, drop) <==> x in s && !drop(x.1)
  {
    if s != [] {
      KeptMember(s[1..], drop, x);
      assert s == [s[0]] + s[1..];
    }
  }

  /** A remote connection's socket is there exactly when its peer entry is. */
  lemma SocketHasPeer(t: Tables, id: int)
    requires TablesOk(t) && (forall i | 0 <= i < |t.binds| :: t.ids[i] != Remote(id))
    ensures Remote(id) in t.ids <==> HasPeer(t, Remote(id))
  {
    if Remote(id) in t.ids {
      var i :| 0 <= i < |t.ids| && t.ids[i] == Remote(id);
      PeerExists(t, i);
    }
    if HasPeer(t, Remote(id)) {
      var k :| 0 <= k < |t.peers| && t.peers[k].item.id == Remote(id);
      assert PeerOk(t, t.peers[k]);
    }
  }

  lemma NoListener(t: Tables, u: Tables, id: int)
    requires TablesOk(t) && TablesOk(u) && SameListeners(t, u) && IsPending(t, id)
    ensures forall i | 0 <= i < |t.binds| :: t.ids[i] != Remote(id)
    ensures |u.binds| == |t.binds| && forall i | 0 <= i < |u.binds| :: u.ids[i] != Remote(id)
  {
    hide PeersOk, CountIndex;
    var k :| 0 <= k < |t.pending| && t.pending[k].item.id == id;
    assert t.ids[t.pending[k].index] == Remote(id);
    forall i | 0 <= i < |u.binds| ensures t.ids[i] == u.ids[i] {
      assert t.incoming[i] == u.incoming[i];
    }
  }

  /** Idle expiry takes a pending connect away exactly when its own peer is idle. */
  lemma ExpirePending(t: Tables, now: int, id: int)
    requires TablesOk(t)
    ensures TablesOk(ExpireIdle(t, now))
    ensures FollowsSocket(t, ExpireIdle(t, now), id)
    ensures IsPending(t, id) ==> (Remote(id) in ExpireIdle(t, now).ids <==> !HasIdle(t, id, now))
  {
    var u := ExpireIdle(t, now);
    ExpireIdleKeeps(t, now);
    SweepPending(t, 0, IdleAt(now), id);
    if IsPending(t, id) {
      NoListener(t, u, id);
      SocketHasPeer(u, id);
      SocketHasPeer(t, id);
      PendingHasSocket(t, id);
      hide FollowsSocket;
      PeerSurvives(t, u, now, id);
    }
  }

  lemma PeerSurvives(t: Tables, u: Tables, now: int, id: int)
    requires TablesOk(t) && TablesOk(u) && PeerView(u) == Kept(PeerView(t), IdleAt(now)) && HasPeer(t, Remote(id))
    ensures HasPeer(u, Remote(id)) <==> !HasIdle(t, id, now)
  {
    ViewAt(t);
    ViewAt(u);
    OnePeer(t, id);
    hide TablesOk, PeerView, Kept;
    var k :| 0 <= k < |t.peers| && t.peers[k].item.id == Remote(id);
    var x := PeerView(t)[k];
    KeptMember(PeerView(t), IdleAt(now), x);
    if HasPeer(u, Remote(id)) {
      var j :| 0 <= j < |u.peers| && u.peers[j].item.id == Remote(id);
      KeptMember(PeerView(t), IdleAt(now), PeerView(u)[j]);
      var m :| 0 <= m < |t.peers| && PeerView(t)[m] == PeerView(u)[j];
    }
    if !Idle(x.1, now) {
      var j :| 0 <= j < |u.peers| && PeerView(u)[j] == x;
      assert u.peers[j].item.id == Remote(id);
    }
  }

  lemma OnePeer(t: Tables, id: int)
    requires TablesOk(t)
    ensures forall j, k | 0 <= j < |t.peers| && 0 <= k < |t.peers| &&
                          t.peers[j].item.id == Remote(id) && t.peers[k].item.id == Remote(id) :: j == k
  {
    forall j, k | 0 <= j < |t.peers| && 0 <= k < |t.peers| &&
                  t.peers[j].item.id == Remote(id) && t.peers[k].item.id == Remote(id) ensures j == k {
      assert PeerOk(t, t.peers[j]) && PeerOk(t, t.peers[k]);
      OneOutgoing(t, j, k);
    }
  }

  // ----- timeouts -----

  predicate Live(t: Tables, id: int) {
    IsPending(t, id) || IsCalled(t, id)
  }

  /** A connect that runs out of time is called back. */
  lemma TimedOutPending(t: Tables, k: nat, id: int)
    requires TablesOk(t) && k < |t.pending|
    ensures |t.binds| <= t.pending[k].index < |t.sockets| == |t.ids|
    ensures IsCalled(TimedOut(t, k), id) <==> IsCalled(t, id) || t.pending[k].item.id == id
    ensures IsPending(TimedOut(t, k), id) ==> IsPending(t, id)
    ensures IsPending(t, id) && t.pending[k].item.id != id ==> IsPending(TimedOut(t, k), id)
    ensures TimedOut(t, k).used == t.used
  {
    TimedOutKeeps(t, k);
    var u := TimedOut(t, k);
    assert u.used == t.used;
    hide TablesOk, TimedOut;
    assert u.called[|t.called|].id == t.pending[k].item.id && u.called[..|t.called|] == t.called;
    hide IsPending, IsCalled;
    PrefixCalled(t, u, id);
    LessPending(t, u, k, id);
  }

  lemma {:induction false} CleanPendingLive(t: Tables, k: nat, now: int, id: int)
    requires TablesOk(t) && k <= |t.pending|
    ensures var u := CleanPending(t, k, now);
            && (Live(u, id) <==> Live(t, id)) && (IsCalled(t, id) ==> IsCalled(u, id)) && u.used == t.used
            && (IsPending(u, id) ==> IsPending(t, id))
    decreases |t.pending| - k
  {
    hide TablesOk, TimedOut, IsPending, IsCalled;
    if k < |t.pending| {
      if t.pending[k].item.deadline >= now {
        CleanPendingLive(t, k + 1, now, id);
      } else {
        TimedOutKeeps(t, k);
        TimedOutPending(t, k, id);
        PendingAt(t, k);
        CleanPendingLive(TimedOut(t, k), k, now, id);
      }
    }
  }

  lemma PendingAt(t: Tables, k: nat)
    requires k < |t.pending|
    ensures IsPending(t, t.pending[k].item.id)
  {
  }

  // ----- one event -----

  predicate Requests(e: Event, id: int) {
    e.RemoteConnect? && e.id == id
  }

  /** What an event does to the callback of `id`. */
  ghost predicate Accounted(t: Tables, e: Event, u: Tables, id: int) {
    && (id in t.used ==> id in u.used) && (Requests(e, id) ==> id in u.used)
    && (IsCalled(t, id) ==> IsCalled(u, id))
    && (Requests(e, id) ==> Live(u, id))
    && (!Live(t, id) && !Requests(e, id) ==> !Live(u, id))
    && (IsPending(t, id) ==> (!Live(u, id) <==> Drops(t, e, id)))
  }

  lemma Untouched(t: Tables, e: Event, u: Tables, id: int)
    requires u.pending == t.pending && u.called == t.called && t.used <= u.used && !Requests(e, id)
    requires IsPending(t, id) ==> !Drops(t, e, id)
    ensures Accounted(t, e, u, id)
  {
  }

  lemma Followed(t: Tables, e: Event, u: Tables, id: int)
    requires FollowsSocket(t, u, id) && !Requests(e, id) && (IsPending(t, id) ==> !IsCalled(t, id))
    requires IsPending(t, id) ==> (Remote(id) in u.ids <==> !Drops(t, e, id))
    ensures Accounted(t, e, u, id)
  {
  }

  lemma RequestAccounted(t: Tables, e: Event, id: int)
    requires TablesOk(t) && e.RemoteConnect? && e.id !in t.used
    ensures Accounted(t, e, ConnectRemote(t, e.id, e.reachable, e.timeout, e.now, e.at), id)
  {
    PendingHasSocket(t, id);
    hide TablesOk, InsertAt;
    var u := ConnectRemote(t, e.id, e.reachable, e.timeout, e.now, e.at);
    if e.reachable {
      assert u.pending[|t.pending|].item.id == e.id && u.pending[..|t.pending|] == t.pending && u.called == t.called;
      PrefixPending(t, u, id);
    } else {
      assert u.called[|t.called|].id == e.id && u.called[..|t.called|] == t.called && u.pending == t.pending;
      PrefixCalled(t, u, id);
    }
  }

  lemma PrefixPending(t: Tables, u: Tables, id: int)
    requires |u.pending| == |t.pending| + 1 && u.pending[..|t.pending|] == t.pending
    ensures IsPending(u, id) <==> IsPending(t, id) || u.pending[|t.pending|].item.id == id
  {
    forall k | 0 <= k < |t.pending| ensures u.pending[k] == t.pending[k] { assert u.pending[..|t.pending|][k] == u.pending[k]; }
  }

  lemma PrefixCalled(t: Tables, u: Tables, id: int)
    requires |u.called| == |t.called| + 1 && u.called[..|t.called|] == t.called
    ensures IsCalled(u, id) <==> IsCalled(t, id) || u.called[|t.called|].id == id
  {
    forall k | 0 <= k < |t.called| ensures u.called[k] == t.called[k] { assert u.called[..|t.called|][k] == u.called[k]; }
  }

  /** A HELLO turns a pending connect into a call. */
  lemma HelloAccounted(t: Tables, i: nat, id: int)
    requires TablesOk(t) && |t.binds| <= i < |t.ids|
    ensures Accounted(t, HelloMessage(i), Hello(t, i), id)
  {
    hide TablesOk, HasPeer;
    var n, u := FindIndex(t.pending, i, 0), Hello(t, i);
    if n == |t.pending| || !HasPeer(t, Remote(t.pending[n].item.id)) {
      Untouched(t, HelloMessage(i), u, id);
    } else {
      assert u.called[|t.called|].id == t.pending[n].item.id && u.called[..|t.called|] == t.called;
      PrefixCalled(t, u, id);
      LessPending(t, u, n, id);
    }
  }

  lemma LessPending(t: Tables, u: Tables, n: nat, id: int)
    requires n < |t.pending| && |u.pending| == |t.pending| - 1
    requires forall j | 0 <= j < |u.pending| :: u.pending[j].item == t.pending[Before(j, n)].item
    ensures IsPending(u, id) ==> IsPending(t, id)
    ensures IsPending(t, id) && t.pending[n].item.id != id ==> IsPending(u, id)
    ensures t.pending[n].item.id == id ==> IsPending(t, id)
  {
    if IsPending(u, id) {
      var j :| 0 <= j < |u.pending| && u.pending[j].item.id == id;
      assert t.pending[Before(j, n)].item.id == id;
    }
    if IsPending(t, id) && t.pending[n].item.id != id {
      var j :| 0 <= j < |t.pending| && t.pending[j].item.id == id;
      assert u.pending[if j < n then j else j - 1].item == t.pending[j].item;
    }
  }

  lemma DisconnectAccounted(t: Tables, conn: ConnId, id: int)
    requires TablesOk(t)
    ensures IndicesValid(t) && Accounted(t, DisconnectRequest(conn), Disconnect(t, conn), id)
  {
    OkIsValid(t);
    PendingHasSocket(t, id);
    var n := FirstOutgoing(t.peers, conn, 0);
    if n < |t.peers| {
      assert PeerOk(t, t.peers[n]);
      ClosePending(t, t.peers[n].index, id);
      hide TablesOk, FollowsSocket, Close;
      Followed(t, DisconnectRequest(conn), Close(t, t.peers[n].index), id);
    } else {
      if IsPending(t, id) && conn == Remote(id) { PendingPeer(t, id); }
      hide TablesOk;
      Untouched(t, DisconnectRequest(conn), t, id);
    }
  }

  lemma PendingPeer(t: Tables, id: int)
    requires TablesOk(t) && IsPending(t, id)
    ensures exists k :: 0 <= k < |t.peers| && t.peers[k].item.id == Remote(id) && Outgoing(t.peers[k])
  {
    var j :| 0 <= j < |t.pending| && t.pending[j].item.id == id;
    var k := CountSome(t.peers, t.pending[j].index);
    assert PeerOk(t, t.peers[k]);
  }

  lemma CleanupAccounted(t: Tables, now: int, id: int)
    requires TablesOk(t)
    ensures TablesOk(ExpireIdle(t, now)) && Accounted(t, Cleanup(now), CleanPending(ExpireIdle(t, now), 0, now), id)
  {
    PendingHasSocket(t, id);
    ExpirePending(t, now, id);
    var m := ExpireIdle(t, now);
    hide TablesOk, ExpireIdle, CleanPending, IsPending;
    CleanPendingLive(m, 0, now, id);
  }

  /** Taking nodes off the active set touches no connect of a numbered connection. */
  lemma {:induction false} RemoveNodesPending(t: Tables, removed: seq<string>, id: int)
    requires TablesOk(t)
    ensures FollowsSocket(t, RemoveNodes(t, removed), id)
    ensures IsPending(t, id) ==> Remote(id) in RemoveNodes(t, removed).ids
    decreases |removed|
  {
    PendingHasSocket(t, id);
    if removed == [] {
      Same(t, id);
    } else {
      hide TablesOk, FollowsSocket, IsPending, RemoveNode;
      var m := RemoveNode(t, removed[0]);
      RemoveNodeKeeps(t, removed[0]);
      RemoveNodePending(t, removed[0], id);
      RemoveNodesPending(m, removed[1..], id);
      Chain(t, m, RemoveNodes(t, removed), id);
    }
  }

  lemma RemoveNodePending(t: Tables, pubkey: string, id: int)
    requires TablesOk(t)
    ensures FollowsSocket(t, RemoveNode(t, pubkey), id)
    ensures IsPending(t, id) ==> Remote(id) in RemoveNode(t, pubkey).ids && IsPending(RemoveNode(t, pubkey), id)
  {
    var u := RemoveNode(t, pubkey);
    RemoveNodeKeeps(t, pubkey);
    SweepPending(t, 0, OfNode(pubkey), id);
    assert FollowsSocket(t, u, id);
    if IsPending(t, id) {
      NoListener(t, u, id);
      PendingPeer(t, id);
      SocketHasPeer(u, id);
      ViewAt(t);
      ViewAt(u);
      hide TablesOk, PeerView, Kept, RemoveNode, FollowsSocket;
      var k :| 0 <= k < |t.peers| && t.peers[k].item.id == Remote(id) && Outgoing(t.peers[k]);
      KeptMember(PeerView(t), OfNode(pubkey), PeerView(t)[k]);
      var j :| 0 <= j < |u.peers| && PeerView(u)[j] == PeerView(t)[k];
      assert u.peers[j].item.id == Remote(id);
    }
  }

  /** No event but a goodbye, a disconnect or idle expiry takes a pending connect away without calling it back. */
  lemma StepAccounted(t: Tables, e: Event, id: int)
    requires TablesOk(t) && Enabled(t, e)
    ensures Accounted(t, e, Step(t, e), id)
  {
    PendingHasSocket(t, id);
    assert |t.binds| <= |t.sockets| == |t.ids|;
    hide TablesOk, Accounted, ConnectRemote, Hello, Close, ExpireIdle, CleanPending, Disconnect, RemoveNodes, FollowsSocket, IsPending, IsCalled;
    match e {
      case RemoteConnect(_, _, _, _, _) => RequestAccounted(t, e, id);
      case HelloMessage(index) => if index < |t.binds| { Untouched(t, e, t, id); } else { HelloAccounted(t, index, id); }
      case ByeMessage(index) =>
        if index < |t.binds| {
          Untouched(t, e, t, id);
        } else {
          ClosePending(t, index, id);
          Followed(t, e, Close(t, index), id);
        }
      case Cleanup(now) => CleanupAccounted(t, now, id);
      case DisconnectRequest(conn) => DisconnectAccounted(t, conn, id);
      case NodesUpdate(added, removed) =>
        RemoveNodesPending(t, removed, id);
        NodesAccounted(t, added, removed, id);
      case SnConnect(_, _, _, _, _, _, _, _) => Untouched(t, e, Step(t, e), id);
      case NodeMessage(_, _, _, _, _) => Untouched(t, e, Step(t, e), id);
      case RouteDied(_) => Untouched(t, e, Step(t, e), id);
    }
  }

  lemma NodesAccounted(t: Tables, added: set<string>, removed: seq<string>, id: int)
    requires TablesOk(t) && FollowsSocket(t, RemoveNodes(t, removed), id)
    requires IsPending(t, id) ==> Remote(id) in RemoveNodes(t, removed).ids
    ensures Accounted(t, NodesUpdate(added, removed), Step(t, NodesUpdate(added, removed)), id)
  {
    PendingHasSocket(t, id);
    hide TablesOk, RemoveNodes;
  }

  // ----- runs -----

  predicate Requested(events: seq<Event>, n: nat, id: int)
    requires n <= |events|
  {
    exists j :: 0 <= j < n && Requests(events[j], id)
  }

  ghost predicate Dropped(run: seq<Tables>, events: seq<Event>, n: nat, id: int)
    requires n <= |events| < |run|
  {
    exists j :: 0 <= j < n && IsPending(run[j], id) && Drops(run[j], events[j], id)
  }

  /**
   At any point of a run, a connection number was requested exactly if its connect is pending, its callback
   has been called, or its connection was closed by a goodbye, a disconnect or idle expiry while it was pending;
   and these three exclude each other.
   */
  lemma {:induction false} CallbacksAccounted(addresses: seq<string>, first: int, run: seq<Tables>, events: seq<Event>,
                                              n: nat, id: int)
    requires IsRun(run, events) && |run| == |events| + 1 && run[0] == Startup(addresses, first) && n <= |events|
    ensures Requested(events, n, id) <==> Live(run[n], id) || Dropped(run, events, n, id)
    ensures !(IsPending(run[n], id) && IsCalled(run[n], id)) && !(Live(run[n], id) && Dropped(run, events, n, id))
    ensures Requested(events, n, id) ==> id in run[n].used
  {
    RunKeeps(addresses, first, run, events, n);
    PendingHasSocket(run[n], id);
    if n == 0 {
      StartupKeeps(addresses, first);
      hide Startup, TablesOk;
    } else {
      hide TablesOk, Startup, Step, Enabled, Live, Accounted, Requests, Drops, IsPending;
      CallbacksAccounted(addresses, first, run, events, n - 1, id);
      RunKeeps(addresses, first, run, events, n - 1);
      StepAccounted(run[n - 1], events[n - 1], id);
      OneMore(run, events, n, id);
    }
  }

  lemma OneMore(run: seq<Tables>, events: seq<Event>, n: nat, id: int)
    requires 0 < n <= |events| < |run|
    requires Enabled(run[n - 1], events[n - 1]) && Accounted(run[n - 1], events[n - 1], run[n], id)
    requires Requested(events, n - 1, id) <==> Live(run[n - 1], id) || Dropped(run, events, n - 1, id)
    requires !(IsPending(run[n - 1], id) && IsCalled(run[n - 1], id))
    requires !(Live(run[n - 1], id) && Dropped(run, events, n - 1, id))
    requires Requested(events, n - 1, id) ==> id in run[n - 1].used
    ensures Requested(events, n, id) <==> Live(run[n], id) || Dropped(run, events, n, id)
    ensures !(Live(run[n], id) && Dropped(run, events, n, id))
    ensures Requested(events, n, id) ==> id in run[n].used
  {
    var t, e := run[n - 1], events[n - 1];
    assert Requested(events, n, id) <==> Requested(events, n - 1, id) || Requests(e, id);
    assert Dropped(run, events, n, id) <==> Dropped(run, events, n - 1, id) || (IsPending(t, id) && Drops(t, e, id));
    hide Requested, Dropped, Drops, IsPending, IsCalled;
  }
}

/** How every connect callback is called: with success on a HELLO, with failure on a failed or late connect. */
module ConnectionOutcomes {
  import opened ConnectionModel
  import opened ConnectionInvariant
  import opened ConnectionSteps
  import opened ConnectionSweeps
  import opened ConnectionRuns
  import opened ConnectionCallbacks

  predicate Waits(t: Tables, x: PendingConnect) {
    exists k :: 0 <= k < |t.pending| && t.pending[k].item == x
  }

  /** The pending connect of the connection at `index`. */
  predicate WaitsAt(t: Tables, index: nat, x: PendingConnect) {
    exists k :: 0 <= k < |t.pending| && t.pending[k] == Ref(index, x)
  }

  /** The event calls `c` back. */
  ghost predicate Calls(t: Tables, e: Event, c: Callback) {
    match e
    case RemoteConnect(id, reachable, _, _, _) => !reachable && c == Failed(id)
    case HelloMessage(index) =>
      |t.binds| <= index < |t.ids| && exists x :: WaitsAt(t, index, x) && c == Connected(x.id, t.ids[index])
    case Cleanup(now) => exists x :: Waits(t, x) && x.deadline < now && !HasIdle(t, x.id, now) && c == Failed(x.id)
    case _ => false
  }

  /** The event makes `x` pending. */
  predicate Begins(e: Event, x: PendingConnect) {
    e.RemoteConnect? && e.reachable && x == PendingConnect(e.id, e.now + e.timeout)
  }

  // ----- pending connects are only ever removed -----

  lemma CloseWaits(t: Tables, i: nat, x: PendingConnect)
    requires i < |t.sockets| && i < |t.ids| && Waits(Close(t, i), x)
    ensures Waits(t, x)
  {
    var u := Close(t, i);
    var k :| 0 <= k < |u.pending| && u.pending[k].item == x;
    var j := RenumberFrom(t.pending, i, k);
    assert t.pending[j].item == x;
  }

  lemma PickedWaits(t: Tables, k: nat, x: PendingConnect)
    requires k < |t.peers| && (Outgoing(t.peers[k]) ==> t.peers[k].index < |t.sockets| == |t.ids|) && Waits(Picked(t, k), x)
    ensures Waits(t, x)
  {
    if Outgoing(t.peers[k]) { CloseWaits(t, t.peers[k].index, x); }
  }

  lemma {:induction false} SweepWaits(t: Tables, k: nat, drop: Peer -> bool, x: PendingConnect)
    requires TablesOk(t) && k <= |t.peers| && Waits(Sweep(t, k, drop), x)
    ensures Waits(t, x)
    decreases |t.peers| - k
  {
    hide TablesOk, Waits, Picked;
    if k < |t.peers| {
      if drop(t.peers[k].item) {
        PickedKeeps(t, k);
        SweepWaits(Picked(t, k), k, drop, x);
        PickedWaits(t, k, x);
      } else {
        SweepWaits(t, k + 1, drop, x);
      }
    }
  }

  lemma {:induction false} RemoveNodesWaits(t: Tables, removed: seq<string>, x: PendingConnect)
    requires TablesOk(t) && Waits(RemoveNodes(t, removed), x)
    ensures Waits(t, x)
    decreases |removed|
  {
    hide TablesOk;
    if removed != [] {
      RemoveNodeKeeps(t, removed[0]);
      RemoveNodesWaits(RemoveNode(t, removed[0]), removed[1..], x);
      assert Waits(Sweep(t, 0, OfNode(removed[0])), x);
      SweepWaits(t, 0, OfNode(removed[0]), x);
    }
  }

  lemma PendingIsWaiting(t: Tables, id: int)
    ensures IsPending(t, id) <==> exists x :: Waits(t, x) && x.id == id
  {
    if IsPending(t, id) {
      var k :| 0 <= k < |t.pending| && t.pending[k].item.id == id;
      assert Waits(t, t.pending[k].item);
    }
    if x :| Waits(t, x) && x.id == id {
      var k :| 0 <= k < |t.pending| && t.pending[k].item == x;
    }
  }

  lemma OneWaits(t: Tables, x: PendingConnect, y: PendingConnect)
    requires TablesOk(t) && Waits(t, x) && Waits(t, y) && x.id == y.id
    ensures x == y
  {
    var j :| 0 <= j < |t.pending| && t.pending[j].item == x;
    var k :| 0 <= k < |t.pending| && t.pending[k].item == y;
    PendingIdsDiffer(t, j, k);
  }

  // ----- cleaning up -----

  /** Expiry spares exactly the incoming peers and those whose idle time has not passed yet. */
  lemma ExpiresExactly(t: Tables, now: int, x: (nat, Peer))
    requires TablesOk(t)
    ensures TablesOk(ExpireIdle(t, now))
    ensures x in PeerView(ExpireIdle(t, now)) <==> x in PeerView(t) && (x.1.route != "" || now <= x.1.lastActivity + x.1.idleExpiry)
  {
    ExpireIdleKeeps(t, now);
    hide TablesOk, PeerView, ExpireIdle, Kept;
    KeptMember(PeerView(t), IdleAt(now), x);
  }

  /** Idle expiry leaves exactly the connects whose own peer is not idle. */
  lemma ExpireWaits(t: Tables, now: int, x: PendingConnect)
    requires TablesOk(t)
    ensures TablesOk(ExpireIdle(t, now))
    ensures Waits(ExpireIdle(t, now), x) <==> Waits(t, x) && !HasIdle(t, x.id, now)
    ensures ExpireIdle(t, now).called == t.called
  {
    var u := ExpireIdle(t, now);
    ExpirePending(t, now, x.id);
    PendingIsWaiting(t, x.id);
    PendingIsWaiting(u, x.id);
    hide TablesOk, HasIdle, IsPending;
    if Waits(u, x) {
      SweepWaits(t, 0, IdleAt(now), x);
    }
    if Waits(t, x) && !HasIdle(t, x.id, now) {
      var y :| Waits(u, y) && y.id == x.id;
      SweepWaits(t, 0, IdleAt(now), y);
      OneWaits(t, x, y);
    }
  }

  lemma {:induction false} FailuresMember(q: seq<PendingConnect>, now: int, c: Callback)
    ensures c in Failures(q, now) <==> exists x :: x in q && x.deadline < now && c == Failed(x.id)
  {
    if q != [] {
      FailuresMember(q[1..], now, c);
      assert q == [q[0]] + q[1..];
    }
  }

  lemma {:induction false} WaitingMember(q: seq<PendingConnect>, now: int, x: PendingConnect)
    ensures x in Waiting(q, now) ==> x in q
  {
    if q != [] { WaitingMember(q[1..], now, x); }
  }

  lemma ItemsMember(t: Tables, x: PendingConnect)
    ensures x in Items(t.pending) <==> Waits(t, x)
  {
    var q := Items(t.pending);
    if Waits(t, x) {
      var k :| 0 <= k < |t.pending| && t.pending[k].item == x;
      assert q[k] == x;
    }
  }

  lemma CleanupCalls(t: Tables, now: int, c: Callback)
    requires TablesOk(t)
    ensures TablesOk(ExpireIdle(t, now))
    ensures c in CleanPending(ExpireIdle(t, now), 0, now).called <==> c in t.called || Calls(t, Cleanup(now), c)
  {
    hide TablesOk, CleanPending, Failures, Waiting, Items, ExpireIdle, HasIdle, Waits, PeerView;
    ExpireIdleKeeps(t, now);
    var m := ExpireIdle(t, now);
    ExpireWaits(t, now, PendingConnect(0, 0));
    CleanPendingExact(m, 0, now);
    var q := Items(m.pending);
    assert q[0..] == q;
    FailuresMember(q, now, c);
    if x :| x in q && x.deadline < now && c == Failed(x.id) {
      ItemsMember(m, x);
      ExpireWaits(t, now, x);
    }
    if x :| Waits(t, x) && x.deadline < now && !HasIdle(t, x.id, now) && c == Failed(x.id) {
      ItemsMember(m, x);
      ExpireWaits(t, now, x);
    }
  }

  lemma CleanupWaits(t: Tables, now: int, x: PendingConnect)
    requires TablesOk(t) && TablesOk(ExpireIdle(t, now)) && Waits(CleanPending(ExpireIdle(t, now), 0, now), x)
    ensures Waits(t, x)
  {
    var m := ExpireIdle(t, now);
    CleanPendingExact(m, 0, now);
    var q, u := Items(m.pending), CleanPending(m, 0, now);
    assert q[0..] == q && q[..0] == [];
    hide TablesOk, CleanPending, Waiting, Items, Waits;
    ItemsMember(u, x);
    WaitingMember(q, now, x);
    ItemsMember(m, x);
    SweepWaits(t, 0, IdleAt(now), x);
  }

  // ----- HELLO -----

  lemma HelloCalls(t: Tables, i: nat, c: Callback, x: PendingConnect)
    requires TablesOk(t) && |t.binds| <= i < |t.ids|
    ensures c in Hello(t, i).called <==> c in t.called || Calls(t, HelloMessage(i), c)
    ensures Waits(Hello(t, i), x) ==> Waits(t, x)
  {
    var n, u := FindIndex(t.pending, i, 0), Hello(t, i);
    if n < |t.pending| {
      PeerExists(t, i);
      assert t.ids[i] == Remote(t.pending[n].item.id);
      assert t.pending[n] == Ref(i, t.pending[n].item);
      OneAt(t, i, n);
      hide TablesOk;
      assert WaitsAt(t, i, t.pending[n].item);
      if Waits(u, x) {
        var k :| 0 <= k < |u.pending| && u.pending[k].item == x;
        assert u.pending[k] == t.pending[if k < n then k else k + 1];
      }
    }
  }

  lemma OneAt(t: Tables, i: nat, n: nat)
    requires TablesOk(t) && n < |t.pending| && t.pending[n].index == i
    ensures forall y | WaitsAt(t, i, y) :: y == t.pending[n].item
  {
    forall y | WaitsAt(t, i, y) ensures y == t.pending[n].item {
      var k :| 0 <= k < |t.pending| && t.pending[k] == Ref(i, y);
      CountOne(t.pending, k, n, i);
    }
  }

  // ----- every event -----

  lemma StepCalls(t: Tables, e: Event, c: Callback, x: PendingConnect)
    requires TablesOk(t) && Enabled(t, e)
    ensures c in Step(t, e).called <==> c in t.called || Calls(t, e, c)
    ensures Waits(Step(t, e), x) ==> Waits(t, x) || Begins(e, x)
  {
    assert |t.binds| <= |t.sockets| == |t.ids|;
    hide TablesOk, ConnectSn, Hello, Close, ExpireIdle, CleanPending, Disconnect, RemoveNodes, HasIdle, Incoming;
    var u := Step(t, e);
    match e {
      case RemoteConnect(id, reachable, timeout, now, at) => RemoteCalls(t, id, reachable, timeout, now, at, c, x);
      case HelloMessage(index) => if index >= |t.binds| { HelloCalls(t, index, c, x); }
      case ByeMessage(index) => if index >= |t.binds| { ByeCalls(t, index, x); }
      case Cleanup(now) =>
        CleanupCalls(t, now, c);
        if Waits(u, x) { CleanupWaits(t, now, x); }
      case DisconnectRequest(conn) => DisconnectCalls(t, conn, x);
      case NodesUpdate(added, removed) => NodesCalls(t, added, removed, x);
      case SnConnect(pubkey, optional, incomingOnly, outgoingOnly, reachable, keepAlive, now, at) =>
        SnCalls(t, pubkey, optional, incomingOnly, outgoingOnly, reachable, keepAlive, now, at);
      case NodeMessage(index, pubkey, route, now, at) => IncomingCalls(t, index, pubkey, route, now, at);
      case RouteDied(_) =>
    }
  }

  lemma RemoteCalls(t: Tables, id: int, reachable: bool, timeout: int, now: int, at: nat, c: Callback, x: PendingConnect)
    ensures var u, e := ConnectRemote(t, id, reachable, timeout, now, at), RemoteConnect(id, reachable, timeout, now, at);
            && (c in u.called <==> c in t.called || Calls(t, e, c))
            && (Waits(u, x) ==> Waits(t, x) || Begins(e, x))
  {
    hide InsertAt;
    var u := ConnectRemote(t, id, reachable, timeout, now, at);
    if Waits(u, x) {
      var k :| 0 <= k < |u.pending| && u.pending[k].item == x;
      assert k < |t.pending| ==> u.pending[k] == t.pending[k];
    }
  }

  lemma ByeCalls(t: Tables, i: nat, x: PendingConnect)
    requires i < |t.sockets| && i < |t.ids|
    ensures Close(t, i).called == t.called && (Waits(Close(t, i), x) ==> Waits(t, x))
  {
    if Waits(Close(t, i), x) { CloseWaits(t, i, x); }
  }

  lemma DisconnectCalls(t: Tables, conn: ConnId, x: PendingConnect)
    requires TablesOk(t)
    ensures IndicesValid(t) && Disconnect(t, conn).called == t.called && (Waits(Disconnect(t, conn), x) ==> Waits(t, x))
  {
    OkIsValid(t);
    hide TablesOk;
    var n := FirstOutgoing(t.peers, conn, 0);
    if n < |t.peers| { ByeCalls(t, t.peers[n].index, x); }
  }

  lemma NodesCalls(t: Tables, added: set<string>, removed: seq<string>, x: PendingConnect)
    requires TablesOk(t)
    ensures var u := Step(t, NodesUpdate(added, removed)); u.called == t.called && (Waits(u, x) ==> Waits(t, x))
  {
    RemoveNodesPending(t, removed, x.id);
    hide TablesOk, RemoveNodes;
    var u := Step(t, NodesUpdate(added, removed));
    if Waits(u, x) {
      assert Waits(RemoveNodes(t, removed), x);
      RemoveNodesWaits(t, removed, x);
    }
  }

  lemma SnCalls(t: Tables, pubkey: string, optional: bool, incomingOnly: bool, outgoingOnly: bool, reachable: bool,
                keepAlive: int, now: int, at: nat)
    ensures var u := ConnectSn(t, pubkey, optional, incomingOnly, outgoingOnly, reachable, keepAlive, now, at);
            u.called == t.called && u.pending == t.pending
  {
    hide FirstUsable, InsertAt;
  }

  lemma IncomingCalls(t: Tables, i: nat, pubkey: string, route: string, now: int, at: nat)
    ensures var u := Incoming(t, i, pubkey, route, now, at); u.called == t.called && u.pending == t.pending
  {
    hide InsertAt;
  }

  // ----- runs -----

  ghost predicate CalledBy(run: seq<Tables>, events: seq<Event>, n: nat, c: Callback)
    requires n <= |events| < |run|
  {
    exists j :: 0 <= j < n && Calls(run[j], events[j], c)
  }

  /**
   Over any run a connect succeeds exactly on a HELLO of its connection while it is pending, and fails exactly when its
   connection cannot be opened or a cleanup finds it late; there are no other calls.
   */
  lemma {:induction false} CallsOverRuns(addresses: seq<string>, first: int, run: seq<Tables>, events: seq<Event>, n: nat, c: Callback)
    requires IsRun(run, events) && |run| == |events| + 1 && run[0] == Startup(addresses, first) && n <= |events|
    ensures c in run[n].called <==> CalledBy(run, events, n, c)
  {
    hide TablesOk, Startup, Step, Enabled, Calls;
    if n == 0 {
      StartupKeeps(addresses, first);
      NoCalls(addresses, first);
    } else {
      RunKeeps(addresses, first, run, events, n - 1);
      CallsOverRuns(addresses, first, run, events, n - 1, c);
      StepCalls(run[n - 1], events[n - 1], c, PendingConnect(0, 0));
      assert CalledBy(run, events, n, c) <==> CalledBy(run, events, n - 1, c) || Calls(run[n - 1], events[n - 1], c);
    }
  }

  lemma NoCalls(addresses: seq<string>, first: int)
    ensures Startup(addresses, first).called == [] && Startup(addresses, first).pending == []
  {
    StartupKeeps(addresses, first);
    hide Startup, TablesOk;
  }

  ghost predicate BegunBy(events: seq<Event>, n: nat, x: PendingConnect)
    requires n <= |events|
  {
    exists j :: 0 <= j < n && Begins(events[j], x)
  }

  /** What is pending was requested, and has until the time it was given. */
  lemma {:induction false} WaitsOverRuns(addresses: seq<string>, first: int, run: seq<Tables>, events: seq<Event>, n: nat, x: PendingConnect)
    requires IsRun(run, events) && |run| == |events| + 1 && run[0] == Startup(addresses, first) && n <= |events| && Waits(run[n], x)
    ensures BegunBy(events, n, x)
  {
    hide TablesOk, Startup, Step, Enabled, Waits, Begins;
    if n == 0 {
      NoneWaits(addresses, first, x);
    } else {
      RunKeeps(addresses, first, run, events, n - 1);
      StepCalls(run[n - 1], events[n - 1], Failed(0), x);
      if Waits(run[n - 1], x) { WaitsOverRuns(addresses, first, run, events, n - 1, x); }
    }
  }

  lemma NoneWaits(addresses: seq<string>, first: int, x: PendingConnect)
    ensures !Waits(Startup(addresses, first), x)
  {
    NoCalls(addresses, first);
    hide Startup;
  }
}

/** The passes that walk a table while closing connections: idle peers, removed nodes, connect timeouts. */
module ConnectionSweeps {
  import opened ConnectionModel
  import opened ConnectionInvariant
  import opened ConnectionSteps

  // ----- peers -----

  /**
   Walks the peers from `k` on. One that `drop` picks loses its entry, and its connection if it is an
   outgoing one; the walk then goes on with the entry that has moved into its place.
   */
  function Sweep(t: Tables, k: nat, drop: Peer -> bool): (u: Tables)
    requires TablesOk(t) && k <= |t.peers|
    ensures TablesOk(u) && SameListeners(t, u)
    decreases |t.peers| - k
  {
    if k == |t.peers| then t
    else if !drop(t.peers[k].item) then Sweep(t, k + 1, drop)
    else
      PickedKeeps(t, k);
      Sweep(Picked(t, k), k, drop)
  }

  /** Entry `k` is gone, and so is its connection if that was an outgoing one. */
  function Picked(t: Tables, k: nat): Tables
    requires k < |t.peers| && (Outgoing(t.peers[k]) ==> t.peers[k].index < |t.sockets| == |t.ids|)
  {
    if Outgoing(t.peers[k]) then Close(t, t.peers[k].index) else DropPeer(t, k)
  }

  lemma PickedKeeps(t: Tables, k: nat)
    requires TablesOk(t) && k < |t.peers|
    ensures Outgoing(t.peers[k]) ==> |t.binds| <= t.peers[k].index < |t.sockets| == |t.ids|
    ensures TablesOk(Picked(t, k)) && |Picked(t, k).peers| == |t.peers| - 1
    ensures SameListeners(t, Picked(t, k))
  {
    assert PeerOk(t, t.peers[k]);
    if Outgoing(t.peers[k]) {
      CloseKeeps(t, t.peers[k].index);
      OnlyOneErased(t.peers, k);
    } else {
      DropPeerKeeps(t, k);
    }
  }

  predicate Idle(p: Peer, now: int) {
    p.route == "" && now - p.lastActivity > p.idleExpiry
  }

  function IdleAt(now: int): Peer -> bool {
    p => Idle(p, now)
  }

  function OfNode(pubkey: string): Peer -> bool {
    (p: Peer) => p.id == Node(pubkey)
  }

  /** Closes the outgoing connections that have been idle for too long. */
  function ExpireIdle(t: Tables, now: int): Tables
    requires TablesOk(t)
  {
    Sweep(t, 0, IdleAt(now))
  }

  /** Takes a node off the active set, with all its peer entries. */
  function RemoveNode(t: Tables, pubkey: string): Tables
    requires TablesOk(t)
  {
    var u := Sweep(t, 0, OfNode(pubkey));
    u.(active := t.active - {pubkey})
  }

  /** Every peer with the socket it is reached through. */
  function PeerView(t: Tables): seq<(nat, Peer)>
    requires TablesOk(t)
  {
    OkIsValid(t);
    Resolve(t.sockets, t.peers)
  }

  function Kept(s: seq<(nat, Peer)>, drop: Peer -> bool): seq<(nat, Peer)> {
    if s == [] then [] else if drop(s[0].1) then Kept(s[1..], drop) else [s[0]] + Kept(s[1..], drop)
  }

  lemma PickedView(t: Tables, k: nat)
    requires TablesOk(t) && k < |t.peers|
    ensures Outgoing(t.peers[k]) ==> |t.binds| <= t.peers[k].index < |t.sockets| == |t.ids|
    ensures TablesOk(Picked(t, k)) && PeerView(Picked(t, k)) == RemoveAt(PeerView(t), k)
  {
    PickedKeeps(t, k);
    assert PeerOk(t, t.peers[k]);
    if Outgoing(t.peers[k]) {
      OnlyOneErased(t.peers, k);
      ShiftedNames(t, k);
    }
  }

  lemma ShiftedNames(t: Tables, k: nat)
    requires TablesOk(t) && k < |t.peers| && t.peers[k].index < |t.sockets| && CountIndex(t.peers, t.peers[k].index) == 1
    requires TablesOk(Close(t, t.peers[k].index))
    ensures PeerView(Close(t, t.peers[k].index)) == RemoveAt(PeerView(t), k)
  {
    hide TablesOk, Renumber;
    var i := t.peers[k].index;
    OnlyOneErased(t.peers, k);
    OkIsValid(t);
    OkIsValid(Close(t, i));
    ResolveShift(t.sockets, t.peers, k, Close(t, i).peers);
  }

  lemma ResolveShift<T>(sockets: seq<nat>, c: seq<Ref<T>>, k: nat, r: seq<Ref<T>>)
    requires k < |c| && |r| == |c| - 1 && (forall j | 0 <= j < |c| :: c[j].index < |sockets|)
    requires forall j | 0 <= j < |r| :: r[j] == Shifted(c[Before(j, k)], c[k].index) && c[Before(j, k)].index != c[k].index
    ensures forall j | 0 <= j < |r| :: r[j].index < |sockets| - 1
    ensures Resolve(RemoveAt(sockets, c[k].index), r) == RemoveAt(Resolve(sockets, c), k)
  {
    var i := c[k].index;
    var rest := RemoveAt(sockets, i);
    forall j | 0 <= j < |r| ensures r[j].index < |rest| && rest[r[j].index] == sockets[c[Before(j, k)].index] {
      assert r[j] == Shifted(c[Before(j, k)], i);
    }
    var a, b := Resolve(rest, r), RemoveAt(Resolve(sockets, c), k);
    forall j | 0 <= j < |a| ensures a[j] == b[j] {
      assert r[j] == Shifted(c[Before(j, k)], i);
    }
  }

  lemma ViewAt(t: Tables)
    requires TablesOk(t)
    ensures |PeerView(t)| == |t.peers| && forall k | 0 <= k < |t.peers| :: PeerView(t)[k].1 == t.peers[k].item
  {
    hide TablesOk;
  }

  /** A sweep keeps exactly the peers it does not pick, in order, each on the socket it had. */
  lemma {:induction false} SweepExact(t: Tables, k: nat, drop: Peer -> bool)
    requires TablesOk(t) && k <= |t.peers|
    ensures PeerView(Sweep(t, k, drop)) == PeerView(t)[..k] + Kept(PeerView(t)[k..], drop)
    decreases |t.peers| - k
  {
    hide TablesOk, Picked, PeerView;
    var v := PeerView(t);
    ViewAt(t);
    if k == |t.peers| {
      assert v[..k] == v && v[k..] == [];
    } else {
      assert v[k..][0] == v[k] && v[k..][1..] == v[k + 1..];
      if drop(t.peers[k].item) {
        PickedKeeps(t, k);
        PickedView(t, k);
        SweepExact(Picked(t, k), k, drop);
        assert RemoveAt(v, k)[..k] == v[..k] && RemoveAt(v, k)[k..] == v[k + 1..];
      } else {
        SweepExact(t, k + 1, drop);
        assert v[..k + 1] == v[..k] + [v[k]];
      }
    }
  }

  lemma {:induction false} KeptClean(s: seq<(nat, Peer)>, drop: Peer -> bool, k: nat)
    requires k < |Kept(s, drop)|
    ensures !drop(Kept(s, drop)[k].1) && Kept(s, drop)[k] in s
  {
    if drop(s[0].1) {
      KeptClean(s[1..], drop, k);
    } else if k > 0 {
      KeptClean(s[1..], drop, k - 1);
    }
  }

  /** Expiry closes exactly the idle outgoing connections; every other peer keeps its socket. */
  lemma ExpireIdleKeeps(t: Tables, now: int)
    requires TablesOk(t)
    ensures TablesOk(ExpireIdle(t, now)) && SameListeners(t, ExpireIdle(t, now))
    ensures PeerView(ExpireIdle(t, now)) == Kept(PeerView(t), IdleAt(now))
  {
    SweepExact(t, 0, IdleAt(now));
    assert PeerView(t)[0..] == PeerView(t);
  }

  lemma SweepLeavesActive(t: Tables, k: nat, drop: Peer -> bool)
    requires TablesOk(t) && k <= |t.peers|
    ensures Sweep(t, k, drop).active == t.active && Sweep(t, k, drop).used == t.used
    decreases |t.peers| - k
  {
    if k < |t.peers| {
      if drop(t.peers[k].item) {
        PickedKeeps(t, k);
        SweepLeavesActive(Picked(t, k), k, drop);
      } else {
        SweepLeavesActive(t, k + 1, drop);
      }
    }
  }

  /** No peer entry of a removed node survives, and no other node's entry is touched. */
  lemma RemoveNodeKeeps(t: Tables, pubkey: string)
    requires TablesOk(t)
    ensures TablesOk(RemoveNode(t, pubkey)) && SameListeners(t, RemoveNode(t, pubkey))
    ensures PeerView(RemoveNode(t, pubkey)) == Kept(PeerView(t), OfNode(pubkey))
    ensures !HasPeer(RemoveNode(t, pubkey), Node(pubkey))
  {
    hide TablesOk, Sweep, Kept;
    var drop := OfNode(pubkey);
    var u := Sweep(t, 0, drop);
    SweepExact(t, 0, drop);
    SweepLeavesActive(t, 0, drop);
    assert PeerView(t)[0..] == PeerView(t);
    forall k | 0 <= k < |u.peers| ensures u.peers[k].item.id != Node(pubkey) {
      KeptClean(PeerView(t), drop, k);
      assert PeerView(u)[k].1 == u.peers[k].item;
    }
    LessActive(u, pubkey);
  }

  lemma LessActive(u: Tables, pubkey: string)
    requires TablesOk(u) && forall k | 0 <= k < |u.peers| :: u.peers[k].item.id != Node(pubkey)
    ensures TablesOk(u.(active := u.active - {pubkey}))
  {
    var v := u.(active := u.active - {pubkey});
    hide CountIndex;
    forall k | 0 <= k < |v.peers| ensures PeerOk(v, v.peers[k]) { assert PeerOk(u, u.peers[k]); }
  }

  // ----- connect timeouts -----

  /** Fails and closes the pending connects whose time has run out. */
  function CleanPending(t: Tables, k: nat, now: int): (u: Tables)
    requires TablesOk(t) && k <= |t.pending|
    ensures TablesOk(u) && SameListeners(t, u)
    decreases |t.pending| - k
  {
    if k == |t.pending| then t
    else if t.pending[k].item.deadline >= now then CleanPending(t, k + 1, now)
    else
      TimedOutKeeps(t, k);
      CleanPending(TimedOut(t, k), k, now)
  }

  function TimedOut(t: Tables, k: nat): Tables
    requires k < |t.pending| && t.pending[k].index < |t.sockets| == |t.ids|
  {
    Close(t, t.pending[k].index).(called := t.called + [Failed(t.pending[k].item.id)])
  }

  lemma TimedOutKeeps(t: Tables, k: nat)
    requires TablesOk(t) && k < |t.pending|
    ensures |t.binds| <= t.pending[k].index < |t.sockets| == |t.ids|
    ensures TablesOk(TimedOut(t, k)) && |TimedOut(t, k).pending| == |t.pending| - 1
    ensures SameListeners(t, TimedOut(t, k))
    ensures forall j | 0 <= j < |t.pending| - 1 :: TimedOut(t, k).pending[j].item == t.pending[Before(j, k)].item
    ensures TimedOut(t, k).called == t.called + [Failed(t.pending[k].item.id)]
  {
    var i, id := t.pending[k].index, t.pending[k].item.id;
    CloseKeeps(t, i);
    CountIn(t.pending, k, i);
    OnlyOneErased(t.pending, k);
    var u := Close(t, i);
    forall j | 0 <= j < |u.pending| ensures u.pending[j].item.id != id {
      if t.pending[Before(j, k)].item.id == id { PendingIdsDiffer(t, Before(j, k), k); }
    }
    assert t.ids[i] == Remote(id);
    AddCall(u, Failed(id));
  }

  function Items(c: seq<Ref<PendingConnect>>): seq<PendingConnect> {
    seq(|c|, k requires 0 <= k < |c| => c[k].item)
  }

  function Waiting(s: seq<PendingConnect>, now: int): seq<PendingConnect> {
    if s == [] then [] else if s[0].deadline < now then Waiting(s[1..], now) else [s[0]] + Waiting(s[1..], now)
  }

  function Failures(s: seq<PendingConnect>, now: int): seq<Callback> {
    if s == [] then [] else if s[0].deadline < now then [Failed(s[0].id)] + Failures(s[1..], now) else Failures(s[1..], now)
  }

  /** Exactly the overdue connects fail, each once and in order; the others go on waiting. */
  lemma {:induction false} CleanPendingExact(t: Tables, k: nat, now: int)
    requires TablesOk(t) && k <= |t.pending|
    ensures var u, s := CleanPending(t, k, now), Items(t.pending);
            Items(u.pending) == s[..k] + Waiting(s[k..], now) && u.called == t.called + Failures(s[k..], now)
    decreases |t.pending| - k
  {
    hide TablesOk, TimedOut;
    var s := Items(t.pending);
    if k == |t.pending| {
      assert s[..k] == s && s[k..] == [];
    } else {
      assert s[k..][0] == s[k] && s[k..][1..] == s[k + 1..];
      if t.pending[k].item.deadline >= now {
        CleanPendingExact(t, k + 1, now);
        assert s[..k + 1] == s[..k] + [s[k]];
      } else {
        TimedOutKeeps(t, k);
        CleanPendingExact(TimedOut(t, k), k, now);
        var r := Items(TimedOut(t, k).pending);
        assert r[..k] == s[..k] && r[k..] == s[k + 1..];
        var f, more := [Failed(s[k].id)], Failures(s[k + 1..], now);
        assert t.called + f + more == t.called + (f + more);
      }
    }
  }
}

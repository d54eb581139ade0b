/** What every table agrees on, and that closing a socket keeps the agreement. */
module ConnectionInvariant {
  import opened Basics
  import opened ConnectionModel

  // ----- counting entries -----

  function CountIndex<T>(c: seq<Ref<T>>, i: nat): nat {
    if c == [] then 0 else (if c[0].index == i then 1 else 0) + CountIndex(c[1..], i)
  }

  lemma {:induction false} CountConcat<T>(a: seq<Ref<T>>, b: seq<Ref<T>>, i: nat)
    ensures CountIndex(a + b, i) == CountIndex(a, i) + CountIndex(b, i)
    decreases |a|
  {
    if a == [] {
      assert a + b == b;
    } else {
      assert (a + b)[1..] == a[1..] + b;
      CountConcat(a[1..], b, i);
    }
  }

  lemma CountAt<T>(c: seq<Ref<T>>, k: nat, i: nat)
    requires k < |c|
    ensures CountIndex(c, i) == CountIndex(c[..k], i) + (if c[k].index == i then 1 else 0) + CountIndex(c[k + 1..], i)
  {
    assert c == c[..k] + c[k..];
    CountConcat(c[..k], c[k..], i);
    assert c[k..][1..] == c[k + 1..];
  }

  lemma CountInsert<T>(c: seq<Ref<T>>, at: nat, x: Ref<T>, i: nat)
    ensures CountIndex(InsertAt(c, at, x), i) == CountIndex(c, i) + if x.index == i then 1 else 0
  {
    var n := if at <= |c| then at else |c|;
    assert InsertAt(c, at, x) == c[..n] + ([x] + c[n..]) && c == c[..n] + c[n..];
    CountConcat(c[..n], [x] + c[n..], i);
    CountConcat(c[..n], c[n..], i);
    assert ([x] + c[n..])[1..] == c[n..];
  }

  lemma CountRemove<T>(c: seq<Ref<T>>, k: nat, i: nat)
    requires k < |c|
    ensures CountIndex(RemoveAt(c, k), i) == CountIndex(c, i) - if c[k].index == i then 1 else 0
  {
    CountAt(c, k, i);
    CountConcat(c[..k], c[k + 1..], i);
  }

  lemma CountReplace<T>(c: seq<Ref<T>>, k: nat, x: Ref<T>, i: nat)
    requires k < |c| && c[k].index == x.index
    ensures CountIndex(c[k := x], i) == CountIndex(c, i)
  {
    CountAt(c, k, i);
    CountAt(c[k := x], k, i);
    assert c[k := x][..k] == c[..k] && c[k := x][k + 1..] == c[k + 1..];
  }

  lemma {:induction false} CountSome<T>(c: seq<Ref<T>>, i: nat) returns (k: nat)
    requires CountIndex(c, i) > 0
    ensures k < |c| && c[k].index == i
  {
    if c[0].index == i {
      k := 0;
    } else {
      k := CountSome(c[1..], i);
      k := k + 1;
    }
  }

  /** At most one entry for `i` means two such entries are the same one. */
  lemma CountOne<T>(c: seq<Ref<T>>, j: nat, k: nat, i: nat)
    requires CountIndex(c, i) <= 1 && j < |c| && k < |c| && c[j].index == i && c[k].index == i
    ensures j == k
  {
    CountAt(c, j, i);
    if k < j { CountAt(c[..j], k, i); }
    if k > j { CountAt(c[j + 1..], k - j - 1, i); }
  }

  lemma CountIn<T>(c: seq<Ref<T>>, k: nat, i: nat)
    requires k < |c| && c[k].index == i
    ensures CountIndex(c, i) > 0
  {
    CountAt(c, k, i);
  }

  // ----- renumbering -----

  function Before(k: nat, i: nat): nat {
    if k < i then k else k + 1
  }

  lemma {:induction false} CountRenumber<T>(c: seq<Ref<T>>, i: nat, k: nat)
    ensures CountIndex(Renumber(c, i), k) == CountIndex(c, Before(k, i))
  {
    if c != [] {
      CountRenumber(c[1..], i, k);
      assert c[0].index != i ==> Renumber(c, i)[1..] == Renumber(c[1..], i);
    }
  }

  /** Every entry that stays is an old one, shifted. */
  lemma {:induction false} RenumberFrom<T>(c: seq<Ref<T>>, i: nat, k: nat) returns (j: nat)
    requires k < |Renumber(c, i)|
    ensures j < |c| && c[j].index != i && Renumber(c, i)[k] == Shifted(c[j], i)
  {
    if c[0].index == i {
      j := RenumberFrom(c[1..], i, k);
      j := j + 1;
    } else if k == 0 {
      j := 0;
    } else {
      j := RenumberFrom(c[1..], i, k - 1);
      j := j + 1;
    }
  }

  lemma {:induction false} RenumberNone<T>(c: seq<Ref<T>>, i: nat)
    requires forall k | 0 <= k < |c| :: c[k].index < i
    ensures Renumber(c, i) == c
  {
    if c != [] {
      RenumberNone(c[1..], i);
    }
  }

  /** Erasing an entry for `i` first makes no difference to what is left. */
  lemma {:induction false} RenumberErased<T>(c: seq<Ref<T>>, k: nat)
    requires k < |c|
    ensures Renumber(RemoveAt(c, k), c[k].index) == Renumber(c, c[k].index)
    decreases k
  {
    var d := RemoveAt(c, k);
    if k == 0 {
      assert d == c[1..];
    } else {
      assert d[0] == c[0] && d[1..] == RemoveAt(c[1..], k - 1);
      RenumberErased(c[1..], k - 1);
    }
  }

  lemma {:induction false} RenumberKeepsAll<T>(c: seq<Ref<T>>, i: nat)
    requires CountIndex(c, i) == 0
    ensures |Renumber(c, i)| == |c| && forall k | 0 <= k < |c| :: Renumber(c, i)[k] == Shifted(c[k], i)
  {
    if c != [] {
      RenumberKeepsAll(c[1..], i);
    }
  }

  /**
   An iterator past entry `k` stays valid: of this table nothing else is erased, and the entries after
   `k` move up by one place.
   */
  lemma OnlyOneErased<T>(c: seq<Ref<T>>, k: nat)
    requires k < |c| && CountIndex(c, c[k].index) == 1
    ensures var r := Renumber(c, c[k].index);
            && |r| == |c| - 1
            && forall j | 0 <= j < |r| :: r[j] == Shifted(c[Before(j, k)], c[k].index) && c[Before(j, k)].index != c[k].index
  {
    var i := c[k].index;
    forall j | 0 <= j < |c| - 1 ensures c[Before(j, k)].index != i {
      if c[Before(j, k)].index == i { CountOne(c, Before(j, k), k, i); }
    }
    RenumberErased(c, k);
    CountRemove(c, k, i);
    RenumberKeepsAll(RemoveAt(c, k), i);
  }

  // ----- what a reference names -----

  /** Each entry with the socket its index names. */
  function Resolve<T>(sockets: seq<nat>, c: seq<Ref<T>>): seq<(nat, T)>
    requires forall k | 0 <= k < |c| :: c[k].index < |sockets|
  {
    seq(|c|, k requires 0 <= k < |c| => (sockets[c[k].index], c[k].item))
  }

  function Without<T>(s: seq<(nat, T)>, socket: nat): seq<(nat, T)> {
    if s == [] then [] else if s[0].0 == socket then Without(s[1..], socket) else [s[0]] + Without(s[1..], socket)
  }

  lemma RenumberBounded<T>(c: seq<Ref<T>>, i: nat, n: nat)
    requires i < n && forall k | 0 <= k < |c| :: c[k].index < n
    ensures forall k | 0 <= k < |Renumber(c, i)| :: Renumber(c, i)[k].index < n - 1
  {
    forall k | 0 <= k < |Renumber(c, i)| ensures Renumber(c, i)[k].index < n - 1 {
      var j := RenumberFrom(c, i, k);
    }
  }

  /**
   Closing removes exactly the references to the closed socket, and every other entry still names the
   socket it named before.
   */
  lemma {:induction false} CloseResolves<T>(sockets: seq<nat>, c: seq<Ref<T>>, i: nat)
    requires i < |sockets| && NoDup(sockets) && forall k | 0 <= k < |c| :: c[k].index < |sockets|
    ensures forall k | 0 <= k < |Renumber(c, i)| :: Renumber(c, i)[k].index < |sockets| - 1
    ensures Resolve(RemoveAt(sockets, i), Renumber(c, i)) == Without(Resolve(sockets, c), sockets[i])
  {
    RenumberBounded(c, i, |sockets|);
    if c != [] {
      var rest := Renumber(c[1..], i);
      RenumberBounded(c[1..], i, |sockets|);
      CloseResolves(sockets, c[1..], i);
      ResolveCons(sockets, c[0], c[1..]);
      assert [c[0]] + c[1..] == c;
      var v := (sockets[c[0].index], c[0].item);
      assert ([v] + Resolve(sockets, c[1..]))[1..] == Resolve(sockets, c[1..]);
      hide Resolve;
      if c[0].index != i {
        ResolveCons(RemoveAt(sockets, i), Shifted(c[0], i), rest);
      }
    }
  }

  lemma ResolveCons<T>(sockets: seq<nat>, r: Ref<T>, rest: seq<Ref<T>>)
    requires r.index < |sockets| && forall k | 0 <= k < |rest| :: rest[k].index < |sockets|
    ensures forall k | 0 <= k < |rest| + 1 :: ([r] + rest)[k].index < |sockets|
    ensures Resolve(sockets, [r] + rest) == [(sockets[r.index], r.item)] + Resolve(sockets, rest)
  {
  }

  // ----- the invariant -----

  /** The listeners: the lowest indices, in order, each with its own entry in the incoming map. */
  predicate ListenersOk(t: Tables) {
    && |t.ids| == |t.sockets| && |t.binds| <= |t.sockets| && |t.incoming| == |t.binds|
    && (forall i | 0 <= i < |t.binds| :: t.binds[i].index == i && t.incoming[i] == Ref(i, t.ids[i]) && t.ids[i].Remote?)
  }

  predicate SocketsOk(t: Tables) {
    && NoDup(t.sockets) && (forall i | 0 <= i < |t.sockets| :: t.sockets[i] < t.created)
    && NoDup(t.ids) && (forall i | 0 <= i < |t.ids| :: t.ids[i].Remote? ==> t.ids[i].id in t.used)
  }

  /** An outgoing peer belongs to the connection it points at; an incoming one to an active service node. */
  predicate PeerOk(t: Tables, r: Ref<Peer>)
    requires |t.ids| == |t.sockets|
  {
    && r.index < |t.sockets| && (Outgoing(r) <==> r.index >= |t.binds|)
    && (Outgoing(r) ==> r.item.id == t.ids[r.index])
    && (!Outgoing(r) ==> r.item.id.Node? && r.item.id.pubkey in t.active)
  }

  predicate PeersOk(t: Tables)
    requires |t.ids| == |t.sockets|
  {
    && (forall k | 0 <= k < |t.peers| :: PeerOk(t, t.peers[k]))
    && (forall i: nat | |t.binds| <= i < |t.sockets| :: CountIndex(t.peers, i) == 1)
  }

  predicate PendingOk(t: Tables)
    requires |t.ids| == |t.sockets|
  {
    && (forall k | 0 <= k < |t.pending| ::
          |t.binds| <= t.pending[k].index < |t.sockets| && t.ids[t.pending[k].index] == Remote(t.pending[k].item.id))
    && (forall i: nat | i < |t.sockets| :: CountIndex(t.pending, i) <= 1)
  }

  /** Every connection number is called back at most once, and not while its connect is pending. */
  predicate CalledOk(t: Tables) {
    && (forall k | 0 <= k < |t.called| :: t.called[k].id in t.used)
    && (forall k | 0 <= k < |t.called| :: t.called[k].Connected? ==> t.called[k].conn == Remote(t.called[k].id))
    && (forall j, k | 0 <= j < k < |t.called| :: t.called[j].id != t.called[k].id)
    && (forall j, k | 0 <= j < |t.pending| && 0 <= k < |t.called| :: t.pending[j].item.id != t.called[k].id)
  }

  predicate TablesOk(t: Tables) {
    ListenersOk(t) && SocketsOk(t) && PeersOk(t) && PendingOk(t) && CalledOk(t)
  }

  // ----- closing keeps it -----

  lemma CloseKeepsListeners(t: Tables, i: nat)
    requires ListenersOk(t) && |t.binds| <= i < |t.sockets|
    ensures ListenersOk(Close(t, i)) && SameListeners(t, Close(t, i))
  {
    RenumberNone(t.binds, i);
    RenumberNone(t.incoming, i);
  }

  lemma CloseKeepsPeers(t: Tables, i: nat)
    requires ListenersOk(t) && PeersOk(t) && |t.binds| <= i < |t.sockets|
    ensures ListenersOk(Close(t, i)) && PeersOk(Close(t, i))
  {
    CloseKeepsListeners(t, i);
    var u := Close(t, i);
    forall k | 0 <= k < |u.peers| ensures PeerOk(u, u.peers[k]) {
      var j := RenumberFrom(t.peers, i, k);
      assert PeerOk(t, t.peers[j]);
    }
    forall j: nat | |u.binds| <= j < |u.sockets| ensures CountIndex(u.peers, j) == 1 {
      CountRenumber(t.peers, i, j);
    }
  }

  lemma CloseKeepsPending(t: Tables, i: nat)
    requires ListenersOk(t) && PendingOk(t) && CalledOk(t) && |t.binds| <= i < |t.sockets|
    ensures ListenersOk(Close(t, i)) && PendingOk(Close(t, i)) && CalledOk(Close(t, i))
  {
    CloseKeepsListeners(t, i);
    var u := Close(t, i);
    forall k | 0 <= k < |u.pending|
      ensures |u.binds| <= u.pending[k].index < |u.sockets| && u.ids[u.pending[k].index] == Remote(u.pending[k].item.id)
      ensures exists j :: 0 <= j < |t.pending| && t.pending[j].item == u.pending[k].item
    {
      var j := RenumberFrom(t.pending, i, k);
      assert t.pending[j].item == u.pending[k].item;
    }
    forall j: nat | j < |u.sockets| ensures CountIndex(u.pending, j) <= 1 {
      CountRenumber(t.pending, i, j);
    }
  }

  /** Closing any outgoing connection keeps every table in agreement, and the listeners where they are. */
  lemma CloseKeeps(t: Tables, i: nat)
    requires TablesOk(t) && |t.binds| <= i < |t.sockets|
    ensures TablesOk(Close(t, i)) && SameListeners(t, Close(t, i))
  {
    CloseKeepsListeners(t, i);
    CloseKeepsPeers(t, i);
    CloseKeepsPending(t, i);
    hide PeersOk, PendingOk, ListenersOk, CalledOk;
    CloseKeepsSockets(t, i);
  }

  lemma CloseKeepsSockets(t: Tables, i: nat)
    requires SocketsOk(t) && i < |t.sockets| && i < |t.ids|
    ensures SocketsOk(Close(t, i))
  {
    hide Renumber;
    DistinctRemove(t.sockets, i);
    DistinctRemove(t.ids, i);
  }

  lemma DistinctRemove<T>(s: seq<T>, i: nat)
    requires NoDup(s) && i < |s|
    ensures NoDup(RemoveAt(s, i))
  {
  }
}

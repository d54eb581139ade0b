/** The set of active service nodes: what its two updates leave, and that removed nodes leave no peers. */
module ActiveNodes {
  import opened ConnectionModel
  import opened ConnectionInvariant
  import opened ConnectionSweeps
  import opened ConnectionRuns

  /** Keys of the right length. */
  function Valid(keys: set<string>): set<string> {
    set k | k in keys && |k| == 32
  }

  function Elements(s: seq<string>): set<string> {
    set k | k in s
  }

  // ----- cardinalities -----

  lemma SubsetSize(a: set<string>, b: set<string>)
    requires a <= b
    ensures |a| <= |b| && (|a| == |b| ==> a == b)
  {
    assert b == a + (b - a);
    assert |b| == |a| + |b - a|;
  }

  /** Both ways of counting two sets together. */
  lemma UnionSize(a: set<string>, b: set<string>)
    ensures |a| + |b - a| == |b| + |a - b|
  {
    assert a + (b - a) == b + (a - b);
  }

  /** Nothing new and as many as before: the sets are the same. */
  lemma Unchanged(active: set<string>, wanted: set<string>)
    requires wanted - active == {} && |active| == |wanted|
    ensures active == wanted
  {
    forall k | k in wanted ensures k in active { assert k !in wanted - active; }
    SubsetSize(wanted, active);
  }

  /** Once the sizes balance, everything that must go has been found. */
  lemma EarlyExit(active: set<string>, wanted: set<string>, removed: set<string>)
    requires removed <= active - wanted && |active| + |wanted - active| - |removed| == |wanted|
    ensures removed == active - wanted
  {
    UnionSize(active, wanted);
    SubsetSize(removed, active - wanted);
  }

  // ----- peers of removed nodes -----

  lemma KeptPeers(t: Tables, pubkey: string, id: ConnId)
    requires TablesOk(t) && TablesOk(RemoveNode(t, pubkey)) && HasPeer(RemoveNode(t, pubkey), id)
    ensures HasPeer(t, id)
  {
    RemoveNodeKeeps(t, pubkey);
    hide TablesOk, RemoveNode, Kept;
    var u := RemoveNode(t, pubkey);
    var k :| 0 <= k < |u.peers| && u.peers[k].item.id == id;
    assert PeerView(u)[k].1 == u.peers[k].item;
    KeptClean(PeerView(t), OfNode(pubkey), k);
    var j :| 0 <= j < |PeerView(t)| && PeerView(t)[j] == PeerView(u)[k];
    assert PeerView(t)[j].1 == t.peers[j].item;
  }

  lemma {:induction false} RemovedPeersGone(t: Tables, removed: seq<string>)
    requires TablesOk(t)
    ensures RemoveNodes(t, removed).active == t.active - Elements(removed)
    ensures forall id | HasPeer(RemoveNodes(t, removed), id) :: HasPeer(t, id)
    ensures forall k | k in removed :: !HasPeer(RemoveNodes(t, removed), Node(k))
    decreases |removed|
  {
    if removed != [] {
      var pubkey := removed[0];
      var u := RemoveNode(t, pubkey);
      RemoveNodeKeeps(t, pubkey);
      RemovedPeersGone(u, removed[1..]);
      hide TablesOk, RemoveNode, HasPeer;
      assert RemoveNode(t, pubkey).active == t.active - {pubkey} by { RemovedOne(t, pubkey); }
      assert Elements(removed) == {pubkey} + Elements(removed[1..]);
      forall id | HasPeer(RemoveNodes(t, removed), id) ensures HasPeer(t, id) {
        KeptPeers(t, pubkey, id);
      }
      assert forall k | k in removed :: k == pubkey || k in removed[1..];
    }
  }

  lemma RemovedOne(t: Tables, pubkey: string)
    requires TablesOk(t)
    ensures RemoveNode(t, pubkey).active == t.active - {pubkey}
  {
  }

  /** After an update the active set is what is left of it plus what was added. */
  lemma UpdateActive(t: Tables, added: set<string>, removed: seq<string>)
    requires TablesOk(t)
    ensures var u := Step(t, NodesUpdate(added, removed));
            && u.active == (t.active - Elements(removed)) + added
            && forall k | k in removed :: !HasPeer(u, Node(k))
  {
    RemovedPeersGone(t, removed);
    hide TablesOk, RemoveNodes;
  }
}

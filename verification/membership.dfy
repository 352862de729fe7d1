/** The membership store (the unit's key/value data: `bind_address`, `zk_id`,
    `zk_nodes`, `num_peers`), the identity a unit derives from its name, and the
    full rebuild of the node list from the joined peers. */
module Membership {
  import opened Wrappers

  /** A Juju unit name `app/N`, already split at the slash. */
  datatype UnitName = UnitName(app: string, ordinal: nat)

  /** The ZooKeeper server id of unit `app/N`: `N + 1`. */
  function ServerId(u: UnitName): (id: int)
    ensures id >= 1
    ensures id - 1 == u.ordinal
  {
    u.ordinal + 1
  }

  /** One `{'host': ..., 'zk_id': ...}` entry of `zk_nodes`. Either field holds
      `None` when it was read from a store key that was never written. */
  datatype Node = Node(host: Option<string>, zkId: Option<int>)

  /** The stored keys; `None` is a key never written. */
  datatype Store = Store(
    bindAddress: Option<string>,
    zkId: Option<int>,
    zkNodes: Option<seq<Node>>,
    numPeers: Option<nat>)

  const EmptyStore := Store(None, None, None, None)

  /** `KV.get('zk_nodes', [])`'s length: the node count the status line shows. */
  function NodeCount(s: Store): nat {
    match s.zkNodes
    case None => 0
    case Some(nodes) => |nodes|
  }

  /** The relation-data key holding a peer's address. */
  const PrivateAddress := "private-address"

  /** A joined peer unit: its name and the relation data it has published,
      `None` while none has arrived. */
  datatype Peer = Peer(name: UnitName, data: Option<map<string, string>>)

  /** The store after `bind_address_zk_nodesavailable` runs for unit `self`
      with ingress address `ip`: the address, the unit's id, and a node list
      holding just this unit. */
  function Bind(s: Store, self: UnitName, ip: string): (r: Store)
    ensures r.bindAddress == Some(ip)
    ensures r.zkId.Some? && r.zkId.value >= 1 && r.zkId.value - 1 == self.ordinal
    ensures r.zkNodes == Some([Node(r.bindAddress, r.zkId)])
    ensures r.numPeers == s.numPeers
  {
    var id := ServerId(self);
    s.(bindAddress := Some(ip), zkNodes := Some([Node(Some(ip), Some(id))]), zkId := Some(id))
  }

  /** The entry the rebuild writes for a peer whose data holds its address. */
  function PeerNode(p: Peer): Node
    requires HasAddress(p)
  {
    Node(Some(p.data.value[PrivateAddress]), Some(ServerId(p.name)))
  }

  /** The entry the rebuild writes for this unit, from the stored keys. */
  function SelfNode(s: Store): Node {
    Node(s.bindAddress, s.zkId)
  }

  predicate HasData(p: Peer) {
    p.data.Some?
  }

  /** The peer's data is present and names its address. */
  predicate HasAddress(p: Peer) {
    p.data.Some? && PrivateAddress in p.data.value
  }

  /** The peer's data is present but lacks its address, so indexing it raises. */
  predicate LacksAddress(p: Peer) {
    p.data.Some? && PrivateAddress !in p.data.value
  }

  /** What `update_unitdata_kv_with_curent_peers` does to the store. */
  datatype Rebuild =
    | Unchanged
    | Replaced(nodes: seq<Node>, numPeers: nat)
    | Raises(error: string)

  /** Some peer has published data (the gate the rebuild passes through). */
  predicate AnyData(peers: seq<Peer>) {
    exists i :: 0 <= i < |peers| && HasData(peers[i])
  }

  /** The entries for `peers`, in join order. */
  function PeerNodes(peers: seq<Peer>): (r: seq<Node>)
    requires forall i :: 0 <= i < |peers| ==> HasAddress(peers[i])
    ensures |r| == |peers|
    ensures forall i :: 0 <= i < |peers| ==> r[i] == PeerNode(peers[i])
  {
    if peers == [] then [] else [PeerNode(peers[0])] + PeerNodes(peers[1..])
  }

  /** The rebuild from the snapshot `peers` of joined units. The gate builds the
      list of every present address first, so a present record without an
      address raises before anything is written; past the gate each peer's
      data is indexed, so a peer without data raises there. */
  function RebuildPeers(peers: seq<Peer>, s: Store): (r: Rebuild)
    ensures r.Raises? <==>
              || (exists i :: 0 <= i < |peers| && LacksAddress(peers[i]))
              || (AnyData(peers) && exists i :: 0 <= i < |peers| && !HasData(peers[i]))
    ensures r == Unchanged <==>
              && (forall i :: 0 <= i < |peers| ==> !HasData(peers[i]))
    ensures r.Replaced? ==>
              && |r.nodes| == |peers| + 1
              && r.numPeers == |peers|
              && (forall i :: 0 <= i < |peers| ==> r.nodes[i] == PeerNode(peers[i]))
              && r.nodes[|peers|] == SelfNode(s)
  {
    if exists i :: 0 <= i < |peers| && LacksAddress(peers[i]) then
      Raises("KeyError: 'private-address'")
    else if !AnyData(peers) then
      Unchanged
    else if exists i :: 0 <= i < |peers| && !HasData(peers[i]) then
      Raises("TypeError: 'NoneType' object is not subscriptable")
    else
      Replaced(PeerNodes(peers) + [SelfNode(s)], |peers|)
  }

  /** The store after a rebuild that did not raise. */
  function ApplyRebuild(s: Store, r: Rebuild): Store {
    match r
    case Replaced(nodes, n) => s.(zkNodes := Some(nodes), numPeers := Some(n))
    case _ => s
  }

  /** The rebuild reads only the stored address and id, which it never
      writes: rebuilding a second time from the same snapshot yields the same
      node list and peer count. */
  lemma RebuildIdempotent(peers: seq<Peer>, s: Store)
    ensures RebuildPeers(peers, ApplyRebuild(s, RebuildPeers(peers, s))) == RebuildPeers(peers, s)
  {
  }

  /** A rebuild that replaces the list never changes the stored identity. */
  lemma RebuildKeepsIdentity(peers: seq<Peer>, s: Store)
    ensures ApplyRebuild(s, RebuildPeers(peers, s)).bindAddress == s.bindAddress
    ensures ApplyRebuild(s, RebuildPeers(peers, s)).zkId == s.zkId
  {
  }

  /** No two peers share an ordinal. */
  predicate DistinctOrdinals(peers: seq<Peer>) {
    forall i, j :: 0 <= i < j < |peers| ==> peers[i].name.ordinal != peers[j].name.ordinal
  }

  /** Peers with distinct ordinals get distinct ids, none equal to this unit's
      own when its ordinal differs from all of theirs. */
  lemma RebuildIdsDistinct(peers: seq<Peer>, self: UnitName, ip: string, s: Store)
    requires DistinctOrdinals(peers)
    requires forall i :: 0 <= i < |peers| ==> peers[i].name.ordinal != self.ordinal
    requires RebuildPeers(peers, Bind(s, self, ip)).Replaced?
    ensures var nodes := RebuildPeers(peers, Bind(s, self, ip)).nodes;
            forall i, j :: 0 <= i < j < |nodes| ==> nodes[i].zkId != nodes[j].zkId
  {
    var nodes := RebuildPeers(peers, Bind(s, self, ip)).nodes;
    forall i, j | 0 <= i < j < |nodes|
      ensures nodes[i].zkId != nodes[j].zkId
    {
      assert nodes[i] == PeerNode(peers[i]);
      if j < |peers| {
        assert nodes[j] == PeerNode(peers[j]);
      } else {
        assert nodes[j] == Node(Some(ip), Some(ServerId(self)));
      }
    }
  }

  /** After the bind step, the entry a rebuild appends for this unit is the
      very entry the bind step stored as the singleton list. */
  lemma RebuildAppendsBoundSelf(peers: seq<Peer>, self: UnitName, ip: string, s: Store)
    requires RebuildPeers(peers, Bind(s, self, ip)).Replaced?
    ensures var nodes := RebuildPeers(peers, Bind(s, self, ip)).nodes;
            nodes[|nodes| - 1] == Bind(s, self, ip).zkNodes.value[0] == Node(Some(ip), Some(self.ordinal + 1))
  {
  }
}

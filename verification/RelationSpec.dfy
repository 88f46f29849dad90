/**
 Which descriptor relations a snapshot has, stated without any iteration order:
 the specification of `build_ipc_relations` (src/http_server/analysis/relations.rs).
 */
module RelationSpec {
  import opened Basics
  import opened Descriptors

  datatype Address = Address(ip: nat, port: nat, unspecified: bool)

  datatype Info = Info(tcpOrUdp: bool, tcp: bool, listen: bool, local: Option<Address>,
                       remote: Option<Address>, peer: Option<nat>)

  /** Lists in endpoint order, the observed sockets by inode, and their network namespaces. */
  datatype World = World(owners: Owners, infos: map<nat, Info>, spaces: map<nat, nat>)

  /** `Between` is unordered, as the two ends are sorted before they are joined. */
  datatype Id = External(end: End) | Between(ends: set<End>)

  datatype Match = Match(peer: Endpoint, candidate: bool, shared: bool)

  datatype Relation = Relation(id: Id, endpoint: Endpoint, peer: Option<Endpoint>, candidate: bool, shared: bool)

  datatype Tuple = Tuple(space: Option<nat>, tcp: bool, local: Address, remote: Address)

  predicate ConnectedRemote(i: Info) {
    i.remote.Some? && i.remote.value.port != 0 && !i.remote.value.unspecified
  }

  /** `SocketEndpoint::network_peer`. */
  predicate NetworkPeer(i: Info) { i.tcpOrUdp && !i.listen && ConnectedRemote(i) }

  function SpaceOf(spaces: map<nat, nat>, inode: nat): Option<nat> {
    if inode in spaces then Some(spaces[inode]) else None
  }

  /** The tuple under which a connected network socket can be found by its peer. */
  function TupleOf(infos: map<nat, Info>, spaces: map<nat, nat>, inode: nat): Option<Tuple>
    requires inode in infos
  {
    var i := infos[inode];
    if i.tcpOrUdp && i.local.Some? && ConnectedRemote(i) && !i.listen
    then Some(Tuple(SpaceOf(spaces, inode), i.tcp, i.local.value, i.remote.value))
    else None
  }

  /** The tuple a socket looks for. */
  function SoughtTuple(infos: map<nat, Info>, spaces: map<nat, nat>, inode: nat): Option<Tuple>
    requires inode in infos
  {
    var i := infos[inode];
    if i.peer.None? && i.tcpOrUdp && i.local.Some? && i.remote.Some?
    then Some(Tuple(SpaceOf(spaces, inode), i.tcp, i.remote.value, i.local.value))
    else None
  }

  /** `p` is at the other end of socket `inode`; a candidate when only the addresses say so. */
  predicate PeerInode(w: World, inode: nat, p: nat, candidate: bool) {
    inode in w.infos &&
    if w.infos[inode].peer.Some? then p == w.infos[inode].peer.value && !candidate
    else
      && candidate && p != inode && p in w.infos && SoughtTuple(w.infos, w.spaces, inode).Some?
      && TupleOf(w.infos, w.spaces, p) == SoughtTuple(w.infos, w.spaces, inode)
  }

  predicate Shares(a: Endpoint, b: Endpoint) { a.resource.socket || !Opposite(a.access, b.access) }

  /** Holder `j` of a list matches holder `i`: they communicate, or share through the first one. */
  predicate OwnPair(list: seq<Endpoint>, i: nat, j: nat)
    requires i < |list| && j < |list|
  {
    EndOf(list[i]) != EndOf(list[j]) && (!Shares(list[i], list[j]) || i == 0 || j == 0)
  }

  predicate OwnMatch(list: seq<Endpoint>, i: nat, m: Match)
    requires i < |list|
  {
    exists j: nat | j < |list| :: OwnPair(list, i, j) && m == Match(list[j], false, Shares(list[i], list[j]))
  }

  /** An endpoint of the socket at the other end. */
  predicate RemoteMatch(w: World, k: Resource, m: Match) {
    && k.socket && !m.shared
    && exists l | l in w.owners :: l.socket && PeerInode(w, k.inode, l.inode, m.candidate) && m.peer in w.owners[l]
  }

  predicate Matched(w: World, k: Resource, i: nat, m: Match)
    requires k in w.owners && i < |w.owners[k]|
  {
    OwnMatch(w.owners[k], i, m) || RemoteMatch(w, k, m)
  }

  ghost predicate Communicates(w: World, k: Resource, i: nat)
    requires k in w.owners && i < |w.owners[k]|
  {
    exists m :: Matched(w, k, i, m) && !m.shared
  }

  ghost predicate Lonely(w: World, k: Resource, i: nat)
    requires k in w.owners && i < |w.owners[k]|
  {
    forall m :: !Matched(w, k, i, m)
  }

  predicate OnNetwork(w: World, k: Resource) { k.socket && k.inode in w.infos && NetworkPeer(w.infos[k.inode]) }

  /** The endpoint has an external relation. */
  ghost predicate IsExternal(w: World, k: Resource, i: nat)
    requires k in w.owners && i < |w.owners[k]|
  {
    Lonely(w, k, i) || (OnNetwork(w, k) && !Communicates(w, k, i))
  }

  function PairId(a: Endpoint, b: Endpoint): Id { Between({EndOf(a), EndOf(b)}) }

  /** The ids that endpoint `i` of resource `k` gives rise to. */
  ghost predicate GivesId(w: World, k: Resource, i: nat, id: Id)
    requires k in w.owners && i < |w.owners[k]|
  {
    (id == External(EndOf(w.owners[k][i])) && IsExternal(w, k, i))
    || exists m :: Matched(w, k, i, m) && id == PairId(w.owners[k][i], m.peer)
  }

  ghost predicate InRelations(w: World, id: Id) {
    exists k, i: nat | k in w.owners && i < |w.owners[k]| :: GivesId(w, k, i, id)
  }

  ghost predicate Ordered(list: seq<Endpoint>) {
    forall i, j | 0 <= i < j < |list| :: Less(EndOf(list[i]), EndOf(list[j]))
  }

  /** Coalesced lists in endpoint order, with no inode used by two socket resources. */
  ghost predicate ValidWorld(w: World) {
    && Coalesced(w.owners)
    && (forall k | k in w.owners :: Ordered(w.owners[k]))
    && (forall k, l | k in w.owners && l in w.owners && k.socket && l.socket && k.inode == l.inode :: k == l)
  }

  /** A socket that is its own peer is the only way for holders of one socket to communicate. */
  ghost predicate OwnPeer(w: World, k: Resource) { k.socket && exists c :: PeerInode(w, k.inode, k.inode, c) }

  lemma LeastIsPaired(w: World, k: Resource, j: nat)
    requires ValidWorld(w) && k in w.owners && k.socket && 0 < j < |w.owners[k]|
    ensures GivesId(w, k, 0, PairId(w.owners[k][0], w.owners[k][j]))
  {
    var list := w.owners[k];
    assert OwnPair(list, 0, j);
    assert OwnMatch(list, 0, Match(list[j], false, Shares(list[0], list[j])));
    assert Matched(w, k, 0, Match(list[j], false, Shares(list[0], list[j])));
  }

  lemma OnlyLeastPairs(list: seq<Endpoint>, i: nat, x: nat)
    requires i < |list| && x < |list| && OwnPair(list, i, x) && list[i].resource.socket
    ensures exists y: nat | 0 < y < |list| :: PairId(list[i], list[x]) == PairId(list[0], list[y])
  {
    var other: nat := if i == 0 then x else i;
    assert other > 0 && (i == 0 || x == 0);
    assert PairId(list[i], list[x]) == PairId(list[0], list[other]);
  }

  lemma RemotePeerIsElsewhere(w: World, k: Resource, m: Match, j: nat)
    requires Coalesced(w.owners) && k in w.owners && j < |w.owners[k]| && !OwnPeer(w, k) && RemoteMatch(w, k, m)
    ensures EndOf(m.peer) != EndOf(w.owners[k][j])
  {
    var l :| l in w.owners && l.socket && PeerInode(w, k.inode, l.inode, m.candidate) && m.peer in w.owners[l];
    assert w.owners[k][j] in w.owners[k];
    assert l != k;
  }

  lemma SameSetOther(a: End, b: End, c: End)
    requires {a, b} == {a, c}
    ensures b == c
  {
    assert b in {a, c} && c in {a, b};
  }
}

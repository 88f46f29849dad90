/** What relates descriptors, told from the fields of the observed sockets, and the relations of small snapshots. */
module RelationMeaning {
  import opened Basics
  import opened Descriptors
  import opened RelationSpec
  import opened Relations

  predicate CanRead(a: Access) { a == Read || a == ReadWrite }
  predicate CanWrite(a: Access) { a == Write || a == ReadWrite }

  /** Accesses are opposite exactly when one can write what the other can read. */
  lemma OppositeMeans(a: Access, b: Access)
    ensures Opposite(a, b) <==> (CanRead(a) && CanWrite(b)) || (CanWrite(a) && CanRead(b))
  {
  }

  predicate SameSpace(w: World, a: nat, b: nat) {
    (a in w.spaces <==> b in w.spaces) && (a in w.spaces && b in w.spaces ==> w.spaces[a] == w.spaces[b])
  }

  /** The socket is connected to a definite address over TCP or UDP. */
  predicate ConnectedTo(i: Info, a: Address) {
    i.tcpOrUdp && !i.listen && i.remote == Some(a) && a.port > 0 && !a.unspecified
  }

  /**
   A known peer is the only one.  Without one, the candidates are the other sockets of the same
   protocol and namespace that are connected to this socket's address from its remote one.
   */
  lemma PeerMeans(w: World, inode: nat, p: nat)
    requires inode in w.infos && p in w.infos
    ensures PeerInode(w, inode, p, false) <==> w.infos[inode].peer == Some(p)
    ensures var i, j := w.infos[inode], w.infos[p];
            PeerInode(w, inode, p, true) <==>
            && i.peer.None? && p != inode && i.tcpOrUdp && i.tcp == j.tcp && SameSpace(w, inode, p)
            && i.local.Some? && i.remote.Some? && j.local == i.remote && ConnectedTo(j, i.local.value)
  {
  }

  /** A socket counts as one on the network exactly when it is connected to a definite address. */
  lemma NetworkMeans(w: World, k: Resource)
    ensures OnNetwork(w, k) <==> k.socket && k.inode in w.infos && exists a :: ConnectedTo(w.infos[k.inode], a)
  {
    if OnNetwork(w, k) {
      assert ConnectedTo(w.infos[k.inode], w.infos[k.inode].remote.value);
    }
  }

  /** The holder a star is around has the least process number, then the earliest start, then the least descriptor. */
  lemma FirstIsLeast(w: World, k: Resource, j: nat)
    requires ValidWorld(w) && k in w.owners && 0 < j < |w.owners[k]|
    ensures var a, b := w.owners[k][0], w.owners[k][j];
            && a.process.pid <= b.process.pid
            && (a.process.pid == b.process.pid ==> a.process.start <= b.process.start)
            && (a.process == b.process ==> a.fd < b.fd)
  {
    assert Less(EndOf(w.owners[k][0]), EndOf(w.owners[k][j]));
  }

  /******* A pipe *******/

  /** Two holders of a pipe have one relation, in which they communicate exactly when one can write to the other. */
  lemma PipeHoldersAreRelated(k: Resource, x: Endpoint, y: Endpoint, id: Id)
    requires !k.socket && x.resource == k && y.resource == k && EndOf(x) != EndOf(y)
    ensures var w := World(map[k := [x, y]], map[], map[]);
            && (forall m :: Matched(w, k, 0, m) <==> m == Match(y, false, !Opposite(x.access, y.access)))
            && (InRelations(w, id) <==> id == PairId(x, y))
  {
    var w, list := World(map[k := [x, y]], map[], map[]), [x, y];
    OppositeMeans(x.access, y.access);
    OppositeMeans(y.access, x.access);
    HoldersMatch(w, k, x, y);
    assert PairId(x, y) == PairId(y, x);
    var m := Match(y, false, !Opposite(x.access, y.access));
    assert Matched(w, k, 0, m);
    assert GivesId(w, k, 0, PairId(x, y));
    if InRelations(w, id) {
      var l, i: nat :| l in w.owners && i < |w.owners[l]| && GivesId(w, l, i, id);
      assert l == k && (i == 0 || i == 1);
      assert Matched(w, k, 1, Match(x, false, !Opposite(x.access, y.access)));
    }
  }

  lemma HoldersMatch(w: World, k: Resource, x: Endpoint, y: Endpoint)
    requires !k.socket && w.owners == map[k := [x, y]] && x.resource == k && y.resource == k && EndOf(x) != EndOf(y)
    requires Opposite(x.access, y.access) == Opposite(y.access, x.access)
    ensures forall m :: Matched(w, k, 0, m) <==> m == Match(y, false, !Opposite(x.access, y.access))
    ensures forall m :: Matched(w, k, 1, m) <==> m == Match(x, false, !Opposite(x.access, y.access))
  {
    var list := [x, y];
    assert OwnPair(list, 0, 1) && OwnPair(list, 1, 0) && !OwnPair(list, 0, 0) && !OwnPair(list, 1, 1);
  }

  /******* Two sockets *******/

  /** A snapshot with two sockets, one holder each. */
  function TwoSockets(k: Resource, l: Resource, x: Endpoint, y: Endpoint, i: Info, j: Info, spaces: map<nat, nat>): World {
    World(map[k := [x], l := [y]], map[k.inode := i, l.inode := j], spaces)
  }

  lemma SocketMatches(w: World, k: Resource, l: Resource, x: Endpoint, y: Endpoint, m: Match)
    requires k.socket && l.socket && k != l && k.inode != l.inode && w.owners == map[k := [x], l := [y]]
    requires !PeerInode(w, k.inode, k.inode, m.candidate)
    ensures Matched(w, k, 0, m) <==> m == Match(y, m.candidate, false) && PeerInode(w, k.inode, l.inode, m.candidate)
  {
    assert !OwnPair([x], 0, 0);
    if PeerInode(w, k.inode, l.inode, m.candidate) && m == Match(y, m.candidate, false) {
      assert RemoteMatch(w, k, m);
    }
  }

  /**
   Two connected sockets of one protocol whose addresses are each other's: in one namespace they
   are related, in two they are both external.
   */
  lemma ConnectedSocketsAreRelated(k: Resource, l: Resource, x: Endpoint, y: Endpoint, tcp: bool, a: Address, b: Address,
                                   spaces: map<nat, nat>, id: Id)
    requires k.socket && l.socket && k != l && k.inode != l.inode && EndOf(x) != EndOf(y)
    requires a.port > 0 && !a.unspecified && b.port > 0 && !b.unspecified
    ensures var w := TwoSockets(k, l, x, y, Info(true, tcp, false, Some(a), Some(b), None), Info(true, tcp, false, Some(b), Some(a), None), spaces);
            InRelations(w, id) <==>
            if SameSpace(w, k.inode, l.inode) then id == PairId(x, y) else id == External(EndOf(x)) || id == External(EndOf(y))
  {
    var w := TwoSockets(k, l, x, y, Info(true, tcp, false, Some(a), Some(b), None), Info(true, tcp, false, Some(b), Some(a), None), spaces);
    PeerMeans(w, k.inode, l.inode);
    PeerMeans(w, l.inode, k.inode);
    forall m
      ensures Matched(w, k, 0, m) <==> m == Match(y, true, false) && SameSpace(w, k.inode, l.inode)
      ensures Matched(w, l, 0, m) <==> m == Match(x, true, false) && SameSpace(w, k.inode, l.inode)
    {
      PeerMeans(w, k.inode, k.inode);
      PeerMeans(w, l.inode, l.inode);
      SocketMatches(w, k, l, x, y, m);
      assert w.owners == map[l := [y], k := [x]];
      SocketMatches(w, l, k, y, x, m);
    }
    TwoPlaces(w, k, l, x, y, id);
    if SameSpace(w, k.inode, l.inode) {
      OneMatchGives(w, k, Match(y, true, false), id);
      OneMatchGives(w, l, Match(x, true, false), id);
      assert PairId(x, y) == PairId(y, x);
    } else {
      NoMatchGives(w, k, id);
      NoMatchGives(w, l, id);
    }
  }

  lemma OneMatchGives(w: World, k: Resource, m: Match, id: Id)
    requires k in w.owners && |w.owners[k]| > 0 && !m.shared && forall n :: Matched(w, k, 0, n) <==> n == m
    ensures GivesId(w, k, 0, id) <==> id == PairId(w.owners[k][0], m.peer)
  {
    assert Matched(w, k, 0, m);
  }

  lemma NoMatchGives(w: World, k: Resource, id: Id)
    requires k in w.owners && |w.owners[k]| > 0 && forall n :: !Matched(w, k, 0, n)
    ensures GivesId(w, k, 0, id) <==> id == External(EndOf(w.owners[k][0]))
  {
  }

  /** The ids of a snapshot with two sockets are those of its two endpoints. */
  lemma TwoPlaces(w: World, k: Resource, l: Resource, x: Endpoint, y: Endpoint, id: Id)
    requires k != l && w.owners == map[k := [x], l := [y]]
    ensures InRelations(w, id) <==> GivesId(w, k, 0, id) || GivesId(w, l, 0, id)
  {
    if InRelations(w, id) {
      var r, i: nat :| r in w.owners && i < |w.owners[r]| && GivesId(w, r, i, id);
      assert i == 0 && (r == k || r == l);
    }
  }
}

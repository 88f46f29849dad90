/** What the relation list of an untruncated snapshot says about its endpoints. */
module RelationProofs {
  import opened Basics
  import opened Descriptors
  import opened RelationSpec
  import opened Relations

  /** The outcome of `Build` without truncation. */
  ghost predicate Complete(w: World, rs: seq<Relation>) {
    && ValidWorld(w)
    && (forall r | r in rs :: Formed(w, r))
    && (forall id :: id in Ids(rs) <==> InRelations(w, id))
  }

  lemma RelationWithId(w: World, rs: seq<Relation>, k: Resource, i: nat, id: Id) returns (r: Relation)
    requires Complete(w, rs) && IsPlace(w, (k, i)) && GivesId(w, k, i, id)
    ensures r in rs && r.id == id && Formed(w, r)
  {
    assert InRelations(w, id);
    r :| r in rs && r.id == id;
  }

  lemma SamePlace(w: World, p: Place, q: Place)
    requires ValidWorld(w) && IsPlace(w, p) && IsPlace(w, q)
    requires EndOf(w.owners[p.0][p.1]) == EndOf(w.owners[q.0][q.1])
    ensures p == q
  {
    if p != q {
      PlacesDiffer(w, p, q);
    }
  }

  predicate Touches(r: Relation, e: Endpoint) {
    EndOf(r.endpoint) == EndOf(e) || (r.peer.Some? && EndOf(r.peer.value) == EndOf(e))
  }

  /** Every endpoint appears in some relation. */
  lemma EveryEndpointAppears(w: World, rs: seq<Relation>, k: Resource, i: nat)
    requires Complete(w, rs) && IsPlace(w, (k, i))
    ensures exists r | r in rs :: Touches(r, w.owners[k][i])
  {
    if IsExternal(w, k, i) {
      ExternalAppears(w, rs, k, i);
    } else {
      var m :| Matched(w, k, i, m);
      MatchAppears(w, rs, k, i, m);
    }
  }

  lemma ExternalAppears(w: World, rs: seq<Relation>, k: Resource, i: nat)
    requires Complete(w, rs) && IsPlace(w, (k, i)) && IsExternal(w, k, i)
    ensures exists r | r in rs :: Touches(r, w.owners[k][i])
  {
    var r := RelationWithId(w, rs, k, i, External(EndOf(w.owners[k][i])));
    assert Touches(r, w.owners[k][i]);
  }

  lemma MatchAppears(w: World, rs: seq<Relation>, k: Resource, i: nat, m: Match)
    requires Complete(w, rs) && IsPlace(w, (k, i)) && Matched(w, k, i, m)
    ensures exists r | r in rs :: Touches(r, w.owners[k][i])
  {
    var e := w.owners[k][i];
    assert GivesId(w, k, i, PairId(e, m.peer));
    var r := RelationWithId(w, rs, k, i, PairId(e, m.peer));
    PairTouches(w, r, e, m.peer);
  }

  lemma PairTouches(w: World, r: Relation, e: Endpoint, p: Endpoint)
    requires Formed(w, r) && r.id == PairId(e, p)
    ensures Touches(r, e)
  {
    FormedEnds(w, r);
    assert EndOf(e) in r.id.ends;
  }

  /** The id of a relation between two endpoints names exactly these. */
  lemma FormedEnds(w: World, r: Relation)
    requires Formed(w, r) && r.id.Between?
    ensures r.peer.Some? && r.id.ends == {EndOf(r.endpoint), EndOf(r.peer.value)}
  {
    var k, i: nat :| k in w.owners && i < |w.owners[k]| && Belongs(w, k, i, r);
  }

  /**
   An endpoint has an external relation exactly when it matches nothing, or is a connected
   network socket without a communicating peer on this host.
   */
  lemma ExternalExactlyWhen(w: World, rs: seq<Relation>, k: Resource, i: nat)
    requires Complete(w, rs) && IsPlace(w, (k, i))
    ensures (exists r | r in rs :: r.peer.None? && r.endpoint == w.owners[k][i])
            <==> Lonely(w, k, i) || (OnNetwork(w, k) && !Communicates(w, k, i))
    ensures OnNetwork(w, k) ==>
              ((exists r | r in rs :: r.peer.None? && r.endpoint == w.owners[k][i]) <==> !Communicates(w, k, i))
  {
    if IsExternal(w, k, i) {
      ExternalIsThere(w, rs, k, i);
    }
    if r :| r in rs && r.peer.None? && r.endpoint == w.owners[k][i] {
      OnlyExternalIsThere(w, r, k, i);
    }
  }

  lemma ExternalIsThere(w: World, rs: seq<Relation>, k: Resource, i: nat)
    requires Complete(w, rs) && IsPlace(w, (k, i)) && IsExternal(w, k, i)
    ensures exists r | r in rs :: r.peer.None? && r.endpoint == w.owners[k][i]
  {
    var e := w.owners[k][i];
    var r := RelationWithId(w, rs, k, i, External(EndOf(e)));
    var l, j: nat :| l in w.owners && j < |w.owners[l]| && Belongs(w, l, j, r);
    SamePlace(w, (l, j), (k, i));
    assert r.peer.None? && r.endpoint == e;
  }

  lemma OnlyExternalIsThere(w: World, r: Relation, k: Resource, i: nat)
    requires ValidWorld(w) && Formed(w, r) && IsPlace(w, (k, i)) && r.peer.None? && r.endpoint == w.owners[k][i]
    ensures IsExternal(w, k, i)
  {
    var l, j: nat :| l in w.owners && j < |w.owners[l]| && Belongs(w, l, j, r);
    SamePlace(w, (l, j), (k, i));
  }

  /** A shared relation joins two holders of one resource, one of them its least endpoint. */
  lemma SharedTouchesLeast(w: World, r: Relation)
    requires ValidWorld(w) && Formed(w, r) && r.shared
    ensures r.peer.Some?
    ensures exists k, i: nat, j: nat | k in w.owners && i < |w.owners[k]| && j < |w.owners[k]| ::
              r.endpoint == w.owners[k][i] && r.peer == Some(w.owners[k][j]) && i != j && (i == 0 || j == 0)
  {
    var k, i: nat :| k in w.owners && i < |w.owners[k]| && Belongs(w, k, i, r);
    var list, m := w.owners[k], Match(r.peer.value, r.candidate, r.shared);
    assert OwnMatch(list, i, m);
    var j: nat :| j < |list| && OwnPair(list, i, j) && m == Match(list[j], false, Shares(list[i], list[j]));
    assert i != j && (i == 0 || j == 0);
  }

  ghost function Spokes(list: seq<Endpoint>, n: nat): set<Id>
    requires n <= |list|
  {
    set j: nat | 0 < j < n :: PairId(list[0], list[j])
  }

  /** The star of a socket with n holders has n - 1 relations. */
  lemma {:induction false} StarSize(list: seq<Endpoint>, n: nat)
    requires UniqueEnds(list) && 0 < n <= |list|
    ensures |Spokes(list, n)| == n - 1
    decreases n
  {
    if n > 1 {
      StarSize(list, n - 1);
      var last := PairId(list[0], list[n - 1]);
      assert Spokes(list, n) == Spokes(list, n - 1) + {last};
      if last in Spokes(list, n - 1) {
        var j: nat :| 0 < j < n - 1 && last == PairId(list[0], list[j]);
        SameSetOther(EndOf(list[0]), EndOf(list[j]), EndOf(list[n - 1]));
      }
    } else {
      assert Spokes(list, n) == {};
    }
  }

  ghost predicate IsHolder(list: seq<Endpoint>, e: Endpoint) { exists i: nat | i < |list| :: EndOf(list[i]) == EndOf(e) }

  /** The relation is one between two holders of `k`. */
  ghost predicate AmongHolders(w: World, k: Resource, r: Relation)
    requires k in w.owners
  {
    r.peer.Some? && IsHolder(w.owners[k], r.endpoint) && IsHolder(w.owners[k], r.peer.value)
  }

  /** A well-formed relation between holders of `k` is one that a holder of `k` has. */
  lemma AmongBelongs(w: World, k: Resource, r: Relation) returns (i: nat)
    requires ValidWorld(w) && k in w.owners && Formed(w, r) && AmongHolders(w, k, r)
    ensures i < |w.owners[k]| && Belongs(w, k, i, r)
  {
    var l, x: nat :| l in w.owners && x < |w.owners[l]| && Belongs(w, l, x, r);
    i :| i < |w.owners[k]| && EndOf(w.owners[k][i]) == EndOf(r.endpoint);
    SamePlace(w, (l, x), (k, i));
  }

  /** Holders of a socket that is not its own peer only share it. */
  lemma AmongIsSpoke(w: World, k: Resource, r: Relation)
    requires ValidWorld(w) && k in w.owners && k.socket && !OwnPeer(w, k) && Formed(w, r) && AmongHolders(w, k, r)
    ensures r.shared && r.id in Spokes(w.owners[k], |w.owners[k]|)
  {
    var list := w.owners[k];
    var i := AmongBelongs(w, k, r);
    var m := Match(r.peer.value, r.candidate, r.shared);
    HoldersMatchAtHome(w, k, i, m);
    var x: nat :| x < |list| && OwnPair(list, i, x) && m == Match(list[x], false, Shares(list[i], list[x]));
    assert list[i] in list;
    OnlyLeastPairs(list, i, x);
  }

  /** A match with a holder of the same socket is not one with the other end. */
  lemma HoldersMatchAtHome(w: World, k: Resource, i: nat, m: Match)
    requires ValidWorld(w) && k in w.owners && !OwnPeer(w, k) && i < |w.owners[k]|
    requires Matched(w, k, i, m) && IsHolder(w.owners[k], m.peer)
    ensures OwnMatch(w.owners[k], i, m)
  {
    var j: nat :| j < |w.owners[k]| && EndOf(w.owners[k][j]) == EndOf(m.peer);
    if RemoteMatch(w, k, m) {
      RemotePeerIsElsewhere(w, k, m, j);
    }
  }

  /** Every spoke is the id of a relation between holders. */
  lemma SpokeIsAmong(w: World, rs: seq<Relation>, k: Resource, j: nat) returns (r: Relation)
    requires Complete(w, rs) && k in w.owners && k.socket && 0 < j < |w.owners[k]|
    ensures r in rs && r.id == PairId(w.owners[k][0], w.owners[k][j]) && AmongHolders(w, k, r)
  {
    var list := w.owners[k];
    LeastIsPaired(w, k, j);
    r := RelationWithId(w, rs, k, 0, PairId(list[0], list[j]));
    FormedEnds(w, r);
    EndsAreHolders(list, 0, j, r);
  }

  lemma EndsAreHolders(list: seq<Endpoint>, i: nat, j: nat, r: Relation)
    requires i < |list| && j < |list| && r.peer.Some?
    requires {EndOf(r.endpoint), EndOf(r.peer.value)} == {EndOf(list[i]), EndOf(list[j])}
    ensures IsHolder(list, r.endpoint) && IsHolder(list, r.peer.value)
  {
    assert EndOf(r.endpoint) in {EndOf(list[i]), EndOf(list[j])} && EndOf(r.peer.value) in {EndOf(list[i]), EndOf(list[j])};
  }

  lemma {:induction false} SameSizeById(rs: set<Relation>, ids: set<Id>)
    requires (forall r, q | r in rs && q in rs && r.id == q.id :: r == q) && ids == set r | r in rs :: r.id
    ensures |rs| == |ids|
    decreases rs
  {
    if rs != {} {
      var r :| r in rs;
      assert ids - {r.id} == set q | q in rs - {r} :: q.id;
      SameSizeById(rs - {r}, ids - {r.id});
    }
  }

  ghost function Among(w: World, rs: seq<Relation>, k: Resource): set<Relation>
    requires k in w.owners
  {
    set r | r in rs && AmongHolders(w, k, r)
  }

  /**
   In an untruncated snapshot, the relations between the holders of a socket that is not its own
   peer are all shared, they are the star around the least holder, and there are n - 1 of them.
   */
  lemma HoldersHaveAStar(w: World, rs: seq<Relation>, k: Resource)
    requires Complete(w, rs) && (forall a, b | 0 <= a < b < |rs| :: rs[a].id != rs[b].id)
    requires k in w.owners && k.socket && !OwnPeer(w, k) && w.owners[k] != []
    ensures forall r | r in rs && AmongHolders(w, k, r) :: r.shared
    ensures (set r | r in Among(w, rs, k) :: r.id) == Spokes(w.owners[k], |w.owners[k]|)
    ensures |Among(w, rs, k)| == |w.owners[k]| - 1
  {
    AmongIds(w, rs, k);
    SameSizeById(Among(w, rs, k), Spokes(w.owners[k], |w.owners[k]|));
    StarSize(w.owners[k], |w.owners[k]|);
  }

  lemma AmongIds(w: World, rs: seq<Relation>, k: Resource)
    requires Complete(w, rs) && k in w.owners && k.socket && !OwnPeer(w, k)
    ensures forall r | r in rs && AmongHolders(w, k, r) :: r.shared
    ensures (set r | r in Among(w, rs, k) :: r.id) == Spokes(w.owners[k], |w.owners[k]|)
  {
    var ids := set r | r in Among(w, rs, k) :: r.id;
    forall r | r in rs && AmongHolders(w, k, r)
      ensures r.shared && r.id in Spokes(w.owners[k], |w.owners[k]|)
    {
      AmongIsSpoke(w, k, r);
    }
    SpokesAreAmong(w, rs, k);
    assert ids <= Spokes(w.owners[k], |w.owners[k]|);
  }

  lemma SpokesAreAmong(w: World, rs: seq<Relation>, k: Resource)
    requires Complete(w, rs) && k in w.owners && k.socket
    ensures Spokes(w.owners[k], |w.owners[k]|) <= set r | r in Among(w, rs, k) :: r.id
  {
    var list := w.owners[k];
    forall id | id in Spokes(list, |list|)
      ensures id in set r | r in Among(w, rs, k) :: r.id
    {
      var j: nat :| 0 < j < |list| && id == PairId(list[0], list[j]);
      var r := SpokeIsAmong(w, rs, k, j);
      assert r in Among(w, rs, k);
    }
  }

  /******* Candidates *******/

  /** At most one socket is a candidate for the other end. */
  ghost predicate OneCandidate(w: World, inode: nat) {
    forall p, q | PeerInode(w, inode, p, true) && PeerInode(w, inode, q, true) :: p == q
  }

  function Listed(reverse: map<Tuple, seq<nat>>, t: Tuple): seq<nat> { if t in reverse then reverse[t] else [] }

  /**
   The candidate of a socket is unique exactly when its sought tuple has at most one entry in the
   table besides the socket itself, which is listed there only if it is connected to itself.
   */
  lemma CandidateUniqueExactlyWhen(w: World, reverse: map<Tuple, seq<nat>>, inode: nat)
    requires ReverseOf(w.infos, w.spaces, reverse, {}) && inode in w.infos && SoughtTuple(w.infos, w.spaces, inode).Some?
    ensures var ids := Listed(reverse, SoughtTuple(w.infos, w.spaces, inode).value);
            OneCandidate(w, inode) <==> |ids| <= if inode in ids then 2 else 1
  {
    var ids := Listed(reverse, SoughtTuple(w.infos, w.spaces, inode).value);
    CandidatesAreListed(w, reverse, inode);
    if |ids| > if inode in ids then 2 else 1 {
      var p, q := TwoOthers(ids, inode);
      assert PeerInode(w, inode, p, true) && PeerInode(w, inode, q, true);
    } else {
      forall p, q | PeerInode(w, inode, p, true) && PeerInode(w, inode, q, true)
        ensures p == q
      {
        OneOther(ids, inode, p, q);
      }
    }
  }

  lemma CandidatesAreListed(w: World, reverse: map<Tuple, seq<nat>>, inode: nat)
    requires ReverseOf(w.infos, w.spaces, reverse, {}) && inode in w.infos && SoughtTuple(w.infos, w.spaces, inode).Some?
    ensures var ids := Listed(reverse, SoughtTuple(w.infos, w.spaces, inode).value);
            NoRepeats(ids) && forall p: nat :: PeerInode(w, inode, p, true) <==> p != inode && p in ids
  {
    var t := SoughtTuple(w.infos, w.spaces, inode).value;
    forall p: nat
      ensures PeerInode(w, inode, p, true) <==> p != inode && p in Listed(reverse, t)
    {
      assert p in Listed(reverse, t) <==> p in w.infos && TupleOf(w.infos, w.spaces, p) == Some(t);
    }
  }

  lemma TwoOthers(ids: seq<nat>, x: nat) returns (p: nat, q: nat)
    requires NoRepeats(ids) && |ids| > if x in ids then 2 else 1
    ensures p in ids && q in ids && p != q && p != x && q != x
  {
    var i := if ids[0] == x then 1 else 0;
    var j := if ids[i + 1] == x then i + 2 else i + 1;
    p, q := ids[i], ids[j];
  }

  lemma OneOther(ids: seq<nat>, x: nat, p: nat, q: nat)
    requires |ids| <= (if x in ids then 2 else 1) && p in ids && q in ids && p != x && q != x
    ensures p == q
  {
    var i: nat :| i < |ids| && ids[i] == p;
    var j: nat :| j < |ids| && ids[j] == q;
  }

  /** Two sockets bound to one address and connected to the same peer are both candidates for it. */
  lemma SeveralCandidates(a: Address, b: Address)
    requires a.port != 0 && !a.unspecified && b.port != 0 && !b.unspecified
    ensures var near, far := Info(true, false, false, Some(a), Some(b), None), Info(true, false, false, Some(b), Some(a), None);
            var w := World(map[], map[1 := near, 2 := far, 3 := far], map[]);
            PeerInode(w, 1, 2, true) && PeerInode(w, 1, 3, true) && !OneCandidate(w, 1)
  {
    var near, far := Info(true, false, false, Some(a), Some(b), None), Info(true, false, false, Some(b), Some(a), None);
    var w := World(map[], map[1 := near, 2 := far, 3 := far], map[]);
    assert PeerInode(w, 1, 2, true) && PeerInode(w, 1, 3, true);
  }
}

/**
 `build_ipc_relations` (src/http_server/analysis/relations.rs): the loops over hash maps in
 whatever order they yield their entries, the caps, and the list of relations they build.
 */
module Relations {
  import opened Basics
  import opened Descriptors
  import opened RelationSpec

  const MATCH_LIMIT: nat := 64
  const RELATION_LIMIT: nat := 20_000

  /******* Endpoint order *******/

  function InsertEnd(list: seq<Endpoint>, e: Endpoint): seq<Endpoint> {
    if list == [] || Less(EndOf(e), EndOf(list[0])) then [e] + list
    else [list[0]] + InsertEnd(list[1..], e)
  }

  /** The stable sort by pid, start time and descriptor. */
  function SortEnds(list: seq<Endpoint>): seq<Endpoint> {
    if list == [] then [] else InsertEnd(SortEnds(list[1..]), list[0])
  }

  lemma {:induction false} InsertEndMembers(list: seq<Endpoint>, e: Endpoint)
    ensures forall x :: x in InsertEnd(list, e) <==> x in list || x == e
    decreases |list|
  {
    if list != [] {
      assert list == [list[0]] + list[1..];
      InsertEndMembers(list[1..], e);
    }
  }

  lemma OrderedCons(h: Endpoint, t: seq<Endpoint>)
    requires Ordered(t) && forall x | x in t :: Less(EndOf(h), EndOf(x))
    ensures Ordered([h] + t)
  {
  }

  lemma OrderedTail(list: seq<Endpoint>)
    requires Ordered(list) && list != []
    ensures Ordered(list[1..]) && forall x | x in list[1..] :: x in list && Less(EndOf(list[0]), EndOf(x))
  {
  }

  lemma {:induction false} InsertEndKeeps(list: seq<Endpoint>, e: Endpoint)
    requires Ordered(list) && forall x | x in list :: EndOf(x) != EndOf(e)
    ensures Ordered(InsertEnd(list, e))
    ensures forall x :: x in InsertEnd(list, e) <==> x in list || x == e
    decreases |list|
  {
    InsertEndMembers(list, e);
    if list != [] {
      OrderedTail(list);
      assert list[0] in list && list == [list[0]] + list[1..];
      if Less(EndOf(e), EndOf(list[0])) {
        OrderedCons(e, list);
      } else {
        InsertEndKeeps(list[1..], e);
        OrderedCons(list[0], InsertEnd(list[1..], e));
      }
    }
  }

  lemma {:induction false} SortEndsKeeps(list: seq<Endpoint>)
    requires UniqueEnds(list)
    ensures Ordered(SortEnds(list))
    ensures forall x :: x in SortEnds(list) <==> x in list
    decreases |list|
  {
    if list != [] {
      SortEndsKeeps(list[1..]);
      assert list == [list[0]] + list[1..];
      InsertEndKeeps(SortEnds(list[1..]), list[0]);
    }
  }

  function WorldOf(owners: Owners, infos: map<nat, Info>, spaces: map<nat, nat>): World {
    World(map k | k in owners :: SortEnds(owners[k]), infos, spaces)
  }

  ghost predicate UniqueInodes(owners: Owners) {
    forall k, l | k in owners && l in owners && k.socket && l.socket && k.inode == l.inode :: k == l
  }

  lemma WorldIsValid(owners: Owners, infos: map<nat, Info>, spaces: map<nat, nat>)
    requires Coalesced(owners) && UniqueInodes(owners)
    ensures ValidWorld(WorldOf(owners, infos, spaces))
  {
    var w := WorldOf(owners, infos, spaces);
    forall k | k in owners
      ensures Ordered(w.owners[k]) && forall x :: x in w.owners[k] <==> x in owners[k]
    {
      SortEndsKeeps(owners[k]);
    }
    forall k, i, j | k in w.owners && 0 <= i < j < |w.owners[k]|
      ensures EndOf(w.owners[k][i]) != EndOf(w.owners[k][j])
    {
      assert Less(EndOf(w.owners[k][i]), EndOf(w.owners[k][j]));
    }
  }

  /******* The lookup tables *******/

  ghost predicate ReverseOf(infos: map<nat, Info>, spaces: map<nat, nat>, reverse: map<Tuple, seq<nat>>, left: set<nat>) {
    && (forall t, v :: (t in reverse && v in reverse[t]) <==> (v in infos && v !in left && TupleOf(infos, spaces, v) == Some(t)))
    && (forall t | t in reverse :: NoRepeats(reverse[t]))
  }

  method BuildReverse(infos: map<nat, Info>, spaces: map<nat, nat>) returns (reverse: map<Tuple, seq<nat>>)
    ensures ReverseOf(infos, spaces, reverse, {})
  {
    reverse := map[];
    var left := infos.Keys;
    while left != {}
      invariant left <= infos.Keys && ReverseOf(infos, spaces, reverse, left)
      decreases left
    {
      var inode :| inode in left;
      var t := TupleOf(infos, spaces, inode);
      if t.Some? {
        var known := if t.value in reverse then reverse[t.value] else [];
        reverse := reverse[t.value := known + [inode]];
      }
      left := left - {inode};
    }
  }

  ghost predicate ByInodeOf(owners: Owners, byInode: map<nat, Resource>, left: set<Resource>) {
    && (forall n | n in byInode :: byInode[n] in owners && byInode[n].socket && byInode[n].inode == n)
    && (forall k | k in owners && k !in left && k.socket :: k.inode in byInode)
  }

  method BuildByInode(owners: Owners) returns (byInode: map<nat, Resource>)
    ensures ByInodeOf(owners, byInode, {})
  {
    byInode := map[];
    var left := owners.Keys;
    while left != {}
      invariant left <= owners.Keys && ByInodeOf(owners, byInode, left)
      decreases left
    {
      var k :| k in left;
      if k.socket {
        byInode := byInode[k.inode := k];
      }
      left := left - {k};
    }
  }

  /******* Matches of one endpoint *******/

  method OwnMatches(list: seq<Endpoint>, i: nat) returns (ms: seq<Match>)
    requires i < |list|
    ensures forall m :: m in ms <==> OwnMatch(list, i, m)
    ensures UniqueEnds(list) ==> NoRepeats(ms)
  {
    ms := [];
    var j: nat := 0;
    while j < |list|
      invariant j <= |list|
      invariant forall m :: m in ms <==> exists x: nat | x < j :: OwnPair(list, i, x) && m == Match(list[x], false, Shares(list[i], list[x]))
      invariant UniqueEnds(list) ==> NoRepeats(ms)
    {
      ghost var before := ms;
      if EndOf(list[i]) != EndOf(list[j]) {
        var shared := list[i].resource.socket || !Opposite(list[i].access, list[j].access);
        if !(shared && i != 0 && j != 0) {
          assert UniqueEnds(list) ==> Match(list[j], false, shared) !in ms;
          AppendedNoRepeats(ms, Match(list[j], false, shared));
          ms := ms + [Match(list[j], false, shared)];
        }
      }
      assert forall m :: m in ms <==> m in before || (OwnPair(list, i, j) && m == Match(list[j], false, Shares(list[i], list[j])));
      j := j + 1;
    }
  }

  method PeerInodes(w: World, reverse: map<Tuple, seq<nat>>, inode: nat) returns (ps: seq<(nat, bool)>)
    requires ReverseOf(w.infos, w.spaces, reverse, {}) && inode in w.infos
    ensures forall p: nat, c :: (p, c) in ps <==> PeerInode(w, inode, p, c)
    ensures NoRepeats(ps)
  {
    ps := [];
    var info := w.infos[inode];
    if info.peer.Some? {
      ps := [(info.peer.value, false)];
    } else if info.tcpOrUdp && info.local.Some? && info.remote.Some? {
      var t := Tuple(SpaceOf(w.spaces, inode), info.tcp, info.remote.value, info.local.value);
      if t in reverse {
        var ids, n: nat := reverse[t], 0;
        while n < |ids|
          invariant n <= |ids|
          invariant forall p, c :: (p, c) in ps <==> c && p != inode && p in ids[..n]
          invariant NoRepeats(ps)
        {
          if ids[n] != inode {
            assert (ids[n], true) !in ps;
            ps := ps + [(ids[n], true)];
          }
          assert ids[..n + 1] == ids[..n] + [ids[n]];
          n := n + 1;
        }
        assert ids[..n] == ids;
      }
    }
  }

  /** An endpoint of one of the first `n` peer sockets. */
  ghost predicate FromPeers(w: World, ps: seq<(nat, bool)>, n: nat, m: Match)
    requires n <= |ps|
  {
    !m.shared && exists x: nat, l | x < n && l in w.owners :: l.socket && ps[x] == (l.inode, m.candidate) && m.peer in w.owners[l]
  }

  function AsMatches(list: seq<Endpoint>, candidate: bool): (r: seq<Match>)
    ensures forall m :: m in r <==> m.peer in list && m.candidate == candidate && !m.shared
    ensures NoRepeats(list) ==> NoRepeats(r)
  {
    if list == [] then []
    else
      assert list == list[..|list| - 1] + [list[|list| - 1]];
      AsMatches(list[..|list| - 1], candidate) + [Match(list[|list| - 1], candidate, false)]
  }

  method RemoteMatches(w: World, reverse: map<Tuple, seq<nat>>, byInode: map<nat, Resource>, k: Resource) returns (ms: seq<Match>)
    requires ValidWorld(w) && ReverseOf(w.infos, w.spaces, reverse, {}) && ByInodeOf(w.owners, byInode, {}) && k in w.owners
    ensures (forall m :: m in ms <==> RemoteMatch(w, k, m)) && NoRepeats(ms)
  {
    ms := [];
    if k.socket && k.inode in w.infos {
      var ps := PeerInodes(w, reverse, k.inode);
      var n: nat := 0;
      while n < |ps|
        invariant n <= |ps|
        invariant (forall m :: m in ms <==> FromPeers(w, ps, n, m)) && NoRepeats(ms)
      {
        var (p, candidate) := ps[n];
        var more: seq<Match> := if p in byInode then AsMatches(w.owners[byInode[p]], candidate) else [];
        PeerStep(w, byInode, ps, n, more);
        PeersApart(w, byInode, ps, n, ms, more);
        ms := ms + more;
        n := n + 1;
      }
      forall m
        ensures FromPeers(w, ps, |ps|, m) <==> RemoteMatch(w, k, m)
      {
        AllPeers(w, ps, k, m);
      }
    }
  }

  /** Another peer socket has other endpoints. */
  lemma PeersApart(w: World, byInode: map<nat, Resource>, ps: seq<(nat, bool)>, n: nat, ms: seq<Match>, more: seq<Match>)
    requires ValidWorld(w) && ByInodeOf(w.owners, byInode, {}) && n < |ps| && NoRepeats(ps)
    requires (forall m :: m in ms <==> FromPeers(w, ps, n, m)) && NoRepeats(ms)
    requires more == if ps[n].0 in byInode then AsMatches(w.owners[byInode[ps[n].0]], ps[n].1) else []
    ensures NoRepeats(ms + more)
  {
    forall m | m in ms
      ensures m !in more
    {
      NewPeerIsApart(w, byInode, ps, n, more, m);
    }
    if ps[n].0 in byInode {
      UniqueIsNoRepeats(w.owners[byInode[ps[n].0]]);
    }
    JoinedNoRepeats(ms, more);
  }

  lemma NewPeerIsApart(w: World, byInode: map<nat, Resource>, ps: seq<(nat, bool)>, n: nat, more: seq<Match>, m: Match)
    requires ValidWorld(w) && ByInodeOf(w.owners, byInode, {}) && n < |ps| && NoRepeats(ps) && FromPeers(w, ps, n, m)
    requires more == if ps[n].0 in byInode then AsMatches(w.owners[byInode[ps[n].0]], ps[n].1) else []
    ensures m !in more
  {
    var x: nat, l :| x < n && l in w.owners && l.socket && ps[x] == (l.inode, m.candidate) && m.peer in w.owners[l];
    assert ps[x] != ps[n];
    if ps[n].0 in byInode {
      var other := byInode[ps[n].0];
      assert other == l ==> m.candidate != ps[n].1;
      assert other != l ==> m.peer !in w.owners[other];
    }
  }

  lemma UniqueIsNoRepeats(list: seq<Endpoint>)
    requires UniqueEnds(list)
    ensures NoRepeats(list)
  {
  }

  lemma AppendedNoRepeats<T>(a: seq<T>, x: T)
    ensures NoRepeats(a) && x !in a ==> NoRepeats(a + [x])
  {
  }

  lemma JoinedNoRepeats<T>(a: seq<T>, b: seq<T>)
    requires NoRepeats(a) && NoRepeats(b) && forall x | x in a :: x !in b
    ensures NoRepeats(a + b)
  {
    forall i, j | 0 <= i < j < |a + b|
      ensures (a + b)[i] != (a + b)[j]
    {
      if i < |a| <= j {
        assert a[i] in a && b[j - |a|] in b;
      }
    }
  }

  lemma PeerStep(w: World, byInode: map<nat, Resource>, ps: seq<(nat, bool)>, n: nat, more: seq<Match>)
    requires ValidWorld(w) && ByInodeOf(w.owners, byInode, {}) && n < |ps|
    requires more == if ps[n].0 in byInode then AsMatches(w.owners[byInode[ps[n].0]], ps[n].1) else []
    ensures forall m :: FromPeers(w, ps, n + 1, m) <==> FromPeers(w, ps, n, m) || m in more
  {
    forall m
      ensures FromPeers(w, ps, n + 1, m) <==> FromPeers(w, ps, n, m) || m in more
    {
      PeerStepFor(w, byInode, ps, n, more, m);
    }
  }

  lemma PeerStepFor(w: World, byInode: map<nat, Resource>, ps: seq<(nat, bool)>, n: nat, more: seq<Match>, m: Match)
    requires ValidWorld(w) && ByInodeOf(w.owners, byInode, {}) && n < |ps|
    requires more == if ps[n].0 in byInode then AsMatches(w.owners[byInode[ps[n].0]], ps[n].1) else []
    ensures FromPeers(w, ps, n + 1, m) <==> FromPeers(w, ps, n, m) || m in more
  {
    if m in more {
      var l := byInode[ps[n].0];
      assert l in w.owners && ps[n] == (l.inode, m.candidate);
    }
  }

  lemma AllPeers(w: World, ps: seq<(nat, bool)>, k: Resource, m: Match)
    requires k.socket && forall p: nat, c :: (p, c) in ps <==> PeerInode(w, k.inode, p, c)
    ensures FromPeers(w, ps, |ps|, m) <==> RemoteMatch(w, k, m)
  {
    if RemoteMatch(w, k, m) {
      var l :| l in w.owners && l.socket && PeerInode(w, k.inode, l.inode, m.candidate) && m.peer in w.owners[l];
      assert (l.inode, m.candidate) in ps;
      var x: nat :| x < |ps| && ps[x] == (l.inode, m.candidate);
    }
    if FromPeers(w, ps, |ps|, m) {
      var x: nat, l :| x < |ps| && l in w.owners && l.socket && ps[x] == (l.inode, m.candidate) && m.peer in w.owners[l];
      assert (l.inode, m.candidate) in ps;
    }
  }

  method MatchesOf(w: World, reverse: map<Tuple, seq<nat>>, byInode: map<nat, Resource>, k: Resource, i: nat) returns (ms: seq<Match>)
    requires ValidWorld(w) && ReverseOf(w.infos, w.spaces, reverse, {}) && ByInodeOf(w.owners, byInode, {})
    requires k in w.owners && i < |w.owners[k]|
    ensures (forall m :: m in ms <==> Matched(w, k, i, m)) && NoRepeats(ms)
  {
    var own := OwnMatches(w.owners[k], i);
    var remote := RemoteMatches(w, reverse, byInode, k);
    assert w.owners[k][i] in w.owners[k];
    assert forall m | m in own :: m !in remote;
    JoinedNoRepeats(own, remote);
    ms := own + remote;
  }

  /** What an endpoint matches, as a set. */
  ghost function MatchSet(w: World, k: Resource, i: nat): (r: set<Match>)
    requires k in w.owners && i < |w.owners[k]|
    ensures forall m :: m in r <==> Matched(w, k, i, m)
  {
    set l, e, candidate, shared | l in w.owners && e in w.owners[l] && Matched(w, k, i, Match(e, candidate, shared)) ::
      Match(e, candidate, shared)
  }

  /******* Relations of one endpoint *******/

  ghost function Ids(rs: seq<Relation>): set<Id> { set r | r in rs :: r.id }

  /** The relation is one that endpoint `i` of resource `k` has. */
  ghost predicate Belongs(w: World, k: Resource, i: nat, r: Relation)
    requires k in w.owners && i < |w.owners[k]|
  {
    && r.endpoint == w.owners[k][i]
    && match r.peer
       case None => r.id == External(EndOf(r.endpoint)) && !r.candidate && !r.shared && IsExternal(w, k, i)
       case Some(p) => r.id == PairId(r.endpoint, p) && Matched(w, k, i, Match(p, r.candidate, r.shared))
  }

  ghost predicate Formed(w: World, r: Relation) {
    exists k, i: nat | k in w.owners && i < |w.owners[k]| :: Belongs(w, k, i, r)
  }

  /** Well-formed relations with distinct ids; `seen` holds the ids between two endpoints. */
  ghost predicate Good(w: World, rs: seq<Relation>, seen: set<Id>) {
    && (forall r | r in rs :: Formed(w, r))
    && (forall a, b | 0 <= a < b < |rs| :: rs[a].id != rs[b].id)
    && (forall id :: id in seen <==> id in Ids(rs) && id.Between?)
  }

  lemma Push(w: World, rs: seq<Relation>, seen: set<Id>, r: Relation)
    requires Good(w, rs, seen) && Formed(w, r) && r.id !in Ids(rs)
    ensures Good(w, rs + [r], if r.id.Between? then seen + {r.id} else seen)
    ensures Ids(rs + [r]) == Ids(rs) + {r.id}
  {
    forall id
      ensures id in Ids(rs + [r]) <==> id in Ids(rs) || id == r.id
    {
      if id in Ids(rs) {
        var x :| x in rs && x.id == id;
        assert x in rs + [r];
      }
      if id == r.id {
        assert r in rs + [r];
      }
    }
    forall a | 0 <= a < |rs|
      ensures rs[a].id != r.id
    {
      assert rs[a] in rs && rs[a].id in Ids(rs);
    }
  }

  /** Matches that communicate before those that only share, each in their order. */
  function ByShared(ms: seq<Match>): (r: seq<Match>)
    ensures |r| == |ms| && forall m :: m in r <==> m in ms
  {
    var first, last := Filter(ms, false), Filter(ms, true);
    FilterSizes(ms);
    first + last
  }

  function Filter(ms: seq<Match>, shared: bool): (r: seq<Match>)
    ensures forall m :: m in r <==> m in ms && m.shared == shared
  {
    if ms == [] then []
    else
      assert ms == [ms[0]] + ms[1..];
      if ms[0].shared == shared then [ms[0]] + Filter(ms[1..], shared) else Filter(ms[1..], shared)
  }

  lemma {:induction false} FilterNoRepeats(ms: seq<Match>, shared: bool)
    requires NoRepeats(ms)
    ensures NoRepeats(Filter(ms, shared))
    decreases |ms|
  {
    if ms != [] {
      FilterNoRepeats(ms[1..], shared);
      assert ms[0] !in ms[1..];
    }
  }

  /** Communicating matches come first, and nothing is repeated. */
  lemma BySharedSorts(ms: seq<Match>)
    requires NoRepeats(ms)
    ensures NoRepeats(ByShared(ms))
    ensures forall i, j | 0 <= i < j < |ms| && ByShared(ms)[i].shared :: ByShared(ms)[j].shared
  {
    var first, last := Filter(ms, false), Filter(ms, true);
    FilterNoRepeats(ms, false);
    FilterNoRepeats(ms, true);
    JoinedNoRepeats(first, last);
    assert forall i | 0 <= i < |first| :: first[i] in first;
    assert forall i | 0 <= i < |last| :: last[i] in last;
  }

  /** At most 64 matches are taken, and none that is shared while one that communicates is left. */
  ghost predicate Takes(w: World, k: Resource, i: nat, taken: seq<Match>)
    requires k in w.owners && i < |w.owners[k]|
  {
    && NoRepeats(taken) && |taken| == (if |MatchSet(w, k, i)| > 64 then 64 else |MatchSet(w, k, i)|)
    && (forall m | m in taken :: Matched(w, k, i, m))
    && (forall m, n | m in taken && m.shared && Matched(w, k, i, n) && !n.shared :: n in taken)
  }

  lemma PrefixTakes(w: World, k: Resource, i: nat, ms: seq<Match>, taken: seq<Match>)
    requires k in w.owners && i < |w.owners[k]| && NoRepeats(ms) && forall m :: m in ms <==> Matched(w, k, i, m)
    requires taken == if |ms| > 64 then ByShared(ms)[..64] else ByShared(ms)
    ensures |ms| == |MatchSet(w, k, i)| && Takes(w, k, i, taken)
    ensures |ms| <= 64 ==> forall m | Matched(w, k, i, m) :: m in taken
  {
    NoRepeatsSize(ms, MatchSet(w, k, i));
    BySharedSorts(ms);
    var sorted := ByShared(ms);
    forall m, n | m in taken && m.shared && Matched(w, k, i, n) && !n.shared
      ensures n in taken
    {
      var a :| 0 <= a < |taken| && taken[a] == m;
      assert n in sorted;
      var b :| 0 <= b < |sorted| && sorted[b] == n;
      assert b < a && taken[b] == n;
    }
    assert forall m | m in taken :: m in sorted;
  }

  lemma {:induction false} FilterSizes(ms: seq<Match>)
    ensures |Filter(ms, false)| + |Filter(ms, true)| == |ms|
    decreases |ms|
  {
    if ms != [] {
      FilterSizes(ms[1..]);
    }
  }

  ghost function Taken(e: Endpoint, ms: seq<Match>): set<Id> { set m | m in ms :: PairId(e, m.peer) }

  /** What one endpoint adds: its external relation, then at most 64 matches not seen before. */
  method AddExternal(w: World, k: Resource, i: nat, ms: seq<Match>, rs: seq<Relation>, ghost seen: set<Id>) returns (r: seq<Relation>)
    requires ValidWorld(w) && k in w.owners && i < |w.owners[k]| && forall m :: m in ms <==> Matched(w, k, i, m)
    requires Good(w, rs, seen) && External(EndOf(w.owners[k][i])) !in Ids(rs)
    ensures Good(w, r, seen) && rs <= r && |r| <= |rs| + 1
    ensures Ids(r) == Ids(rs) + if IsExternal(w, k, i) then {External(EndOf(w.owners[k][i]))} else {}
  {
    var e := w.owners[k][i];
    r := rs;
    if ms == [] || (OnNetwork(w, k) && Filter(ms, false) == []) {
      ExternalWhen(w, k, i, ms);
      var x := Relation(External(EndOf(e)), e, None, false, false);
      assert Belongs(w, k, i, x);
      Push(w, rs, seen, x);
      r := rs + [x];
    } else {
      ExternalWhen(w, k, i, ms);
    }
  }

  lemma ExternalWhen(w: World, k: Resource, i: nat, ms: seq<Match>)
    requires k in w.owners && i < |w.owners[k]| && forall m :: m in ms <==> Matched(w, k, i, m)
    ensures IsExternal(w, k, i) <==> ms == [] || (OnNetwork(w, k) && Filter(ms, false) == [])
  {
    if ms != [] {
      assert ms[0] in ms;
    }
    if Filter(ms, false) != [] {
      assert Filter(ms, false)[0] in Filter(ms, false);
    }
  }

  method AddMatches(w: World, k: Resource, i: nat, ms: seq<Match>, rs: seq<Relation>, seen: set<Id>)
      returns (r: seq<Relation>, seen': set<Id>)
    requires ValidWorld(w) && k in w.owners && i < |w.owners[k]| && forall m | m in ms :: Matched(w, k, i, m)
    requires Good(w, rs, seen)
    ensures Good(w, r, seen') && rs <= r && |r| <= |rs| + |ms|
    ensures Ids(r) == Ids(rs) + Taken(w.owners[k][i], ms)
  {
    var e := w.owners[k][i];
    r, seen' := rs, seen;
    ghost var added: set<Id> := {};
    var n: nat := 0;
    while n < |ms|
      invariant n <= |ms| && Good(w, r, seen') && rs <= r && |r| <= |rs| + n
      invariant added == Taken(e, ms[..n]) && Ids(r) == Ids(rs) + added
    {
      assert ms[n] in ms;
      TakenStep(e, ms, n);
      JoinOne(Ids(rs), added, PairId(e, ms[n].peer));
      r, seen' := AddMatch(w, k, i, ms[n], r, seen');
      added := added + {PairId(e, ms[n].peer)};
      n := n + 1;
    }
    assert ms[..n] == ms;
  }

  method AddMatch(w: World, k: Resource, i: nat, m: Match, rs: seq<Relation>, seen: set<Id>)
      returns (r: seq<Relation>, seen': set<Id>)
    requires k in w.owners && i < |w.owners[k]| && Matched(w, k, i, m) && Good(w, rs, seen)
    ensures Good(w, r, seen') && rs <= r && |r| <= |rs| + 1
    ensures Ids(r) == Ids(rs) + {PairId(w.owners[k][i], m.peer)}
  {
    var e := w.owners[k][i];
    var id := PairId(e, m.peer);
    r, seen' := rs, seen;
    if id !in seen {
      var x := Relation(id, e, Some(m.peer), m.candidate, m.shared);
      assert Belongs(w, k, i, x);
      Push(w, rs, seen, x);
      r, seen' := rs + [x], seen + {id};
    }
  }

  lemma JoinOne(a: set<Id>, b: set<Id>, id: Id)
    ensures a + b + {id} == a + (b + {id})
  {
  }

  lemma TakenStep(e: Endpoint, ms: seq<Match>, n: nat)
    requires n < |ms|
    ensures Taken(e, ms[..n + 1]) == Taken(e, ms[..n]) + {PairId(e, ms[n].peer)}
  {
    assert ms[..n + 1] == ms[..n] + [ms[n]];
  }

  /** One endpoint of the loop. */
  method AddEndpointRelations(w: World, reverse: map<Tuple, seq<nat>>, byInode: map<nat, Resource>, k: Resource, i: nat,
                              rs: seq<Relation>, seen: set<Id>)
      returns (r: seq<Relation>, seen': set<Id>, cut: bool, ghost taken: seq<Match>)
    requires ValidWorld(w) && ReverseOf(w.infos, w.spaces, reverse, {}) && ByInodeOf(w.owners, byInode, {})
    requires k in w.owners && i < |w.owners[k]|
    requires Good(w, rs, seen) && External(EndOf(w.owners[k][i])) !in Ids(rs)
    ensures Good(w, r, seen') && rs <= r && |r| <= |rs| + 65 && Ids(rs) <= Ids(r)
    ensures (cut <==> |MatchSet(w, k, i)| > 64) && Takes(w, k, i, taken)
    ensures Ids(r) == Ids(rs) + (if IsExternal(w, k, i) then {External(EndOf(w.owners[k][i]))} else {}) + Taken(w.owners[k][i], taken)
    ensures forall id | id in Ids(r) :: id in Ids(rs) || GivesId(w, k, i, id)
    ensures !cut ==> forall id | GivesId(w, k, i, id) :: id in Ids(r)
  {
    var ms := MatchesOf(w, reverse, byInode, k, i);
    r := AddExternal(w, k, i, ms, rs, seen);
    var sorted := ByShared(ms);
    cut := |sorted| > MATCH_LIMIT;
    var first := if cut then sorted[..MATCH_LIMIT] else sorted;
    taken := first;
    PrefixTakes(w, k, i, ms, taken);
    ghost var external := r;
    r, seen' := AddMatches(w, k, i, first, r, seen);
    AddedIds(w, k, i, Ids(rs), Ids(external), Ids(r), taken);
  }

  /** The ids of an endpoint are its external one and those of its matches. */
  lemma AddedIds(w: World, k: Resource, i: nat, before: set<Id>, external: set<Id>, after: set<Id>, taken: seq<Match>)
    requires k in w.owners && i < |w.owners[k]| && forall m | m in taken :: Matched(w, k, i, m)
    requires external == before + if IsExternal(w, k, i) then {External(EndOf(w.owners[k][i]))} else {}
    requires after == external + Taken(w.owners[k][i], taken)
    ensures before <= after
    ensures forall id | id in after :: id in before || GivesId(w, k, i, id)
    ensures (forall m :: Matched(w, k, i, m) ==> m in taken) ==> forall id | GivesId(w, k, i, id) :: id in after
  {
    var e := w.owners[k][i];
    forall id | id in after
      ensures id in before || GivesId(w, k, i, id)
    {
      if id !in external {
        var m :| m in taken && id == PairId(e, m.peer);
        assert Matched(w, k, i, m);
      }
    }
    forall id | GivesId(w, k, i, id) && (forall m :: Matched(w, k, i, m) ==> m in taken)
      ensures id in after
    {
      if id !in external {
        var m :| Matched(w, k, i, m) && id == PairId(e, m.peer);
        assert m in taken;
      }
    }
  }

  /******* The whole loop *******/

  type Place = (Resource, nat)

  ghost predicate IsPlace(w: World, p: Place) { p.0 in w.owners && p.1 < |w.owners[p.0]| }

  /** Only visited endpoints have given ids, and all of theirs are there unless something was cut. */
  ghost predicate Reflects(w: World, rs: seq<Relation>, visited: set<Place>, cut: bool) {
    && (forall p | p in visited :: IsPlace(w, p))
    && (forall id | id in Ids(rs) :: exists p | p in visited :: GivesId(w, p.0, p.1, id))
    && (!cut ==> forall p, id | p in visited && GivesId(w, p.0, p.1, id) :: id in Ids(rs))
  }

  lemma NewPlaceIsFresh(w: World, rs: seq<Relation>, visited: set<Place>, cut: bool, k: Resource, i: nat)
    requires ValidWorld(w) && Reflects(w, rs, visited, cut) && IsPlace(w, (k, i)) && (k, i) !in visited
    ensures External(EndOf(w.owners[k][i])) !in Ids(rs)
  {
    forall p | p in visited
      ensures EndOf(w.owners[p.0][p.1]) != EndOf(w.owners[k][i])
    {
      PlacesDiffer(w, p, (k, i));
    }
  }

  lemma PlacesDiffer(w: World, p: Place, q: Place)
    requires ValidWorld(w) && IsPlace(w, p) && IsPlace(w, q) && p != q
    ensures EndOf(w.owners[p.0][p.1]) != EndOf(w.owners[q.0][q.1])
  {
    assert w.owners[p.0][p.1] in w.owners[p.0] && w.owners[q.0][q.1] in w.owners[q.0];
    assert p.0 != q.0 || p.1 != q.1;
  }

  lemma VisitOne(w: World, rs: seq<Relation>, r: seq<Relation>, visited: set<Place>, cut: bool, cutNow: bool, k: Resource, i: nat)
    requires Reflects(w, rs, visited, cut) && IsPlace(w, (k, i)) && Ids(rs) <= Ids(r)
    requires forall id | id in Ids(r) :: id in Ids(rs) || GivesId(w, k, i, id)
    requires !cutNow ==> forall id | GivesId(w, k, i, id) :: id in Ids(r)
    ensures Reflects(w, r, visited + {(k, i)}, cut || cutNow)
  {
    var all := visited + {(k, i)};
    forall id | id in Ids(r)
      ensures exists p | p in all :: GivesId(w, p.0, p.1, id)
    {
      if id in Ids(rs) {
        var p :| p in visited && GivesId(w, p.0, p.1, id);
        assert p in all;
      } else {
        assert (k, i) in all && GivesId(w, (k, i).0, (k, i).1, id);
      }
    }
  }

  /** An endpoint with more matches than are taken. */
  ghost predicate Crowded(w: World, p: Place) { IsPlace(w, p) && |MatchSet(w, p.0, p.1)| > 64 }

  /** Something was cut exactly when a visited endpoint is crowded. */
  ghost predicate CutRight(w: World, visited: set<Place>, cut: bool) { cut <==> exists p | p in visited :: Crowded(w, p) }

  lemma CrowdedNow(w: World, visited: set<Place>, cut: bool, q: Place)
    requires CutRight(w, visited, cut)
    ensures CutRight(w, visited + {q}, cut || Crowded(w, q))
  {
    if p :| p in visited && Crowded(w, p) {
      assert p in visited + {q};
    }
    if Crowded(w, q) {
      assert q in visited + {q};
    }
  }

  /** All ids of the specification, as a set. */
  ghost function AllIds(w: World): set<Id> {
    var ends := set k, e | k in w.owners && e in w.owners[k] :: EndOf(e);
    set id | id in (set a | a in ends :: External(a)) + (set a, b | a in ends && b in ends :: Between({a, b})) && InRelations(w, id)
  }

  lemma AllIdsAre(w: World, id: Id)
    ensures id in AllIds(w) <==> InRelations(w, id)
  {
    if InRelations(w, id) {
      var k, i: nat :| k in w.owners && i < |w.owners[k]| && GivesId(w, k, i, id);
      var e := w.owners[k][i];
      var ends := set l, x | l in w.owners && x in w.owners[l] :: EndOf(x);
      assert EndOf(e) in ends;
      if m :| Matched(w, k, i, m) && id == PairId(e, m.peer) {
        assert m in MatchSet(w, k, i);
        PeerIsOwned(w, k, i, m);
      }
    }
  }

  lemma PeerIsOwned(w: World, k: Resource, i: nat, m: Match)
    requires k in w.owners && i < |w.owners[k]| && Matched(w, k, i, m)
    ensures exists l | l in w.owners :: m.peer in w.owners[l]
  {
  }

  /** The relations are no more than the ids of the specification, and as many when complete. */
  lemma CountIds(w: World, rs: seq<Relation>)
    requires (forall a, b | 0 <= a < b < |rs| :: rs[a].id != rs[b].id) && forall id | id in Ids(rs) :: InRelations(w, id)
    ensures |rs| <= |AllIds(w)|
    ensures (forall id | InRelations(w, id) :: id in Ids(rs)) ==> |rs| == |AllIds(w)|
  {
    var ids := seq(|rs|, i requires 0 <= i < |rs| => rs[i].id);
    forall id
      ensures id in ids <==> id in Ids(rs)
    {
      if id in Ids(rs) {
        var r :| r in rs && r.id == id;
        var i :| 0 <= i < |rs| && rs[i] == r;
        assert ids[i] == id;
      }
    }
    NoRepeatsSize(ids, Ids(rs));
    forall id
      ensures id in AllIds(w) <==> InRelations(w, id)
    {
      AllIdsAre(w, id);
    }
    assert Ids(rs) <= AllIds(w);
    SubsetSize(Ids(rs), AllIds(w));
    if forall id | InRelations(w, id) :: id in Ids(rs) {
      assert Ids(rs) == AllIds(w);
    }
  }

  /** One round of the inner loop. */
  method VisitEndpoint(w: World, reverse: map<Tuple, seq<nat>>, byInode: map<nat, Resource>, k: Resource, i: nat,
                       rs: seq<Relation>, seen: set<Id>, cut: bool, ghost visited: set<Place>)
      returns (r: seq<Relation>, seen': set<Id>, cut': bool)
    requires ValidWorld(w) && ReverseOf(w.infos, w.spaces, reverse, {}) && ByInodeOf(w.owners, byInode, {})
    requires IsPlace(w, (k, i)) && (k, i) !in visited
    requires Good(w, rs, seen) && Reflects(w, rs, visited, cut) && CutRight(w, visited, cut)
    ensures Good(w, r, seen') && |r| <= |rs| + 65
    ensures Reflects(w, r, visited + {(k, i)}, cut') && CutRight(w, visited + {(k, i)}, cut')
  {
    NewPlaceIsFresh(w, rs, visited, cut, k, i);
    var c;
    ghost var taken;
    r, seen', c, taken := AddEndpointRelations(w, reverse, byInode, k, i, rs, seen);
    VisitOne(w, rs, r, visited, cut, c, k, i);
    CrowdedNow(w, visited, cut, (k, i));
    cut' := cut || c;
  }

  /** The endpoints of one resource; `full` ends the whole loop. */
  method AddResource(w: World, reverse: map<Tuple, seq<nat>>, byInode: map<nat, Resource>, k: Resource,
                     rs: seq<Relation>, seen: set<Id>, cut: bool, ghost visited: set<Place>)
      returns (r: seq<Relation>, seen': set<Id>, cut': bool, full: bool, ghost visited': set<Place>)
    requires ValidWorld(w) && ReverseOf(w.infos, w.spaces, reverse, {}) && ByInodeOf(w.owners, byInode, {})
    requires k in w.owners && forall i | (k, i) in visited :: false
    requires Good(w, rs, seen) && Reflects(w, rs, visited, cut) && |rs| < 20_000
    requires CutRight(w, visited, cut)
    ensures Good(w, r, seen') && Reflects(w, r, visited', cut')
    ensures if full then cut' && 20_000 <= |r| <= 20_064 else |r| < 20_000
    ensures !full ==> CutRight(w, visited', cut')
    ensures !full ==> forall p :: p in visited' <==> p in visited || (p.0 == k && p.1 < |w.owners[k]|)
  {
    r, seen', cut', full, visited' := rs, seen, cut, false, visited;
    var i: nat := 0;
    while i < |w.owners[k]|
      invariant i <= |w.owners[k]| && |r| < 20_000
      invariant CutRight(w, visited', cut')
      invariant Good(w, r, seen') && Reflects(w, r, visited', cut')
      invariant forall p :: p in visited' <==> p in visited || (p.0 == k && p.1 < i)
    {
      assert (k, i) !in visited';
      r, seen', cut' := VisitEndpoint(w, reverse, byInode, k, i, r, seen', cut', visited');
      visited' := visited' + {(k, i)};
      if |r| >= RELATION_LIMIT {
        return r, seen', true, true, visited';
      }
      i := i + 1;
    }
  }

  /**
   The relations of a snapshot.  They are well-formed and their ids distinct in every case;
   without truncation their ids are exactly those of the order-free specification.  Truncation is
   reported exactly when an endpoint has more than 64 matches or there are 20,000 ids or more.
   */
  method Build(owners: Owners, infos: map<nat, Info>, spaces: map<nat, nat>) returns (rs: seq<Relation>, truncated: bool)
    requires Coalesced(owners) && UniqueInodes(owners)
    ensures var w := WorldOf(owners, infos, spaces);
            && ValidWorld(w) && (forall r | r in rs :: Formed(w, r))
            && (forall a, b | 0 <= a < b < |rs| :: rs[a].id != rs[b].id)
            && |rs| <= 20_064
            && (truncated <==> (exists p :: Crowded(w, p)) || |AllIds(w)| >= 20_000)
            && (forall id | id in Ids(rs) :: InRelations(w, id))
            && (!truncated ==> forall id :: id in Ids(rs) <==> InRelations(w, id))
  {
    var w := WorldOf(owners, infos, spaces);
    WorldIsValid(owners, infos, spaces);
    var reverse := BuildReverse(infos, spaces);
    var byInode := BuildByInode(w.owners);
    var seen: set<Id> := {};
    ghost var visited: set<Place> := {};
    rs, truncated := [], false;
    var left := w.owners.Keys;
    while left != {}
      invariant left <= w.owners.Keys && Good(w, rs, seen) && |rs| < 20_000
      invariant Reflects(w, rs, visited, truncated)
      invariant CutRight(w, visited, truncated)
      invariant forall p :: p in visited <==> IsPlace(w, p) && p.0 !in left
      decreases left
    {
      var k :| k in left;
      var full;
      rs, seen, truncated, full, visited := AddResource(w, reverse, byInode, k, rs, seen, truncated, visited);
      if full {
        Visited(w, rs, visited, truncated);
        CountIds(w, rs);
        return;
      }
      left := left - {k};
    }
    Visited(w, rs, visited, truncated);
    AllVisited(w, rs, visited, truncated);
    CountIds(w, rs);
    AllCounted(w, visited, truncated);
  }

  lemma AllCounted(w: World, visited: set<Place>, cut: bool)
    requires CutRight(w, visited, cut) && forall p :: p in visited <==> IsPlace(w, p)
    ensures cut <==> exists p :: Crowded(w, p)
  {
    if p :| Crowded(w, p) {
      assert p in visited;
    }
  }

  lemma Visited(w: World, rs: seq<Relation>, visited: set<Place>, cut: bool)
    requires Reflects(w, rs, visited, cut)
    ensures forall id | id in Ids(rs) :: InRelations(w, id)
  {
    forall id | id in Ids(rs)
      ensures InRelations(w, id)
    {
      var p :| p in visited && GivesId(w, p.0, p.1, id);
    }
  }

  lemma AllVisited(w: World, rs: seq<Relation>, visited: set<Place>, cut: bool)
    requires Reflects(w, rs, visited, cut)
    requires forall p :: p in visited <==> IsPlace(w, p)
    ensures !cut ==> forall id | InRelations(w, id) :: id in Ids(rs)
  {
    if !cut {
      forall id | InRelations(w, id)
        ensures id in Ids(rs)
      {
        var k, i: nat :| k in w.owners && i < |w.owners[k]| && GivesId(w, k, i, id);
        assert (k, i) in visited && GivesId(w, (k, i).0, (k, i).1, id);
      }
    }
  }
}

/**
 Cross-host correlation (src/http_server/hosts/correlate.rs): which external connections of
 two hosts are the two ends of one connection.
 */
module Correlate {
  import opened Basics
  import opened LinkOrder

  datatype Address = Address(ip: nat, port: nat, unspecified: bool, loopback: bool)
  datatype Socket = Socket(kind: string, local: Option<Address>, remote: Option<Address>, networkPeer: bool)
  datatype FdRelation = FdRelation(id: string, hasPeer: bool, shared: bool, socket: Option<Socket>)

  datatype Cm = Cm(source: Option<string>, destination: Option<string>)
  datatype RdmaRelation = RdmaRelation(id: string, device: string, port: Option<nat>, qpn: nat, kind: string, hasPeer: bool,
                                       remoteQpn: Option<nat>, cm: Option<Cm>, remoteGid: Option<string>)
  datatype RdmaPort = RdmaPort(device: string, port: nat, linkLayer: Option<string>, gid: Option<string>)

  datatype Host = Host(name: string, fds: seq<FdRelation>, rdma: seq<RdmaRelation>, ports: seq<RdmaPort>)

  predicate Routable(a: Address) { a.port != 0 && !a.unspecified && !a.loopback }

  /******* Mutually unique partners *******/

  /**
   Both kinds of links come from a list of external ends and a partner relation on its
   indices.  Two ends are linked when each is the only partner of the other.
   */
  ghost predicate OnlyPartner(n: nat, partner: (nat, nat) -> bool, i: nat, j: nat) {
    j < n && partner(i, j) && forall k | 0 <= k < n && partner(i, k) :: k == j
  }

  ghost predicate Mutual(n: nat, partner: (nat, nat) -> bool, i: nat, j: nat) {
    i < n && OnlyPartner(n, partner, i, j) && OnlyPartner(n, partner, j, i)
  }

  /** Mutually unique partners form a matching. */
  lemma MutualIsMatching(n: nat, partner: (nat, nat) -> bool, i: nat, j: nat, k: nat)
    requires Mutual(n, partner, i, j) && (Mutual(n, partner, i, k) || Mutual(n, partner, k, i))
    ensures j == k
  {
  }

  /******* Sockets *******/

  datatype Tuple = Tuple(kind: string, local: Address, remote: Address)
  datatype Offer = Offer(end: LinkEnd, tuple: Tuple)

  function Reversed(t: Tuple): Tuple { Tuple(t.kind, t.remote, t.local) }

  /** The tuple of a relation whose other end may be on another host. */
  function OfferOf(host: string, r: FdRelation): Option<Offer> {
    if r.socket.Some? && !r.hasPeer && !r.shared && r.socket.value.networkPeer
       && r.socket.value.local.Some? && r.socket.value.remote.Some?
       && Routable(r.socket.value.local.value) && Routable(r.socket.value.remote.value)
    then Some(Offer(LinkEnd(host, r.id), Tuple(r.socket.value.kind, r.socket.value.local.value, r.socket.value.remote.value)))
    else None
  }

  function HostOffers(host: string, rs: seq<FdRelation>): seq<Offer> {
    if rs == [] then []
    else
      var front, last := HostOffers(host, rs[..|rs| - 1]), OfferOf(host, rs[|rs| - 1]);
      if last.Some? then front + [last.value] else front
  }

  /** All external network ends, in the order of the hosts and their relations. */
  function Offers(hosts: seq<Host>): seq<Offer> {
    if hosts == [] then []
    else Offers(hosts[..|hosts| - 1]) + HostOffers(hosts[|hosts| - 1].name, hosts[|hosts| - 1].fds)
  }

  function EndsAt(os: seq<Offer>, t: Tuple): seq<LinkEnd> {
    if os == [] then []
    else
      var front, last := EndsAt(os[..|os| - 1], t), os[|os| - 1];
      if last.tuple == t then front + [last.end] else front
  }

  ghost predicate Groups(m: map<Tuple, seq<LinkEnd>>, os: seq<Offer>) {
    && (forall t | t in m :: m[t] == EndsAt(os, t))
    && (forall t :: t in m <==> EndsAt(os, t) != [])
  }

  lemma GroupsStep(m: map<Tuple, seq<LinkEnd>>, os: seq<Offer>, o: Offer)
    requires Groups(m, os)
    ensures Groups(m[o.tuple := (if o.tuple in m then m[o.tuple] else []) + [o.end]], os + [o])
  {
    assert (os + [o])[..|os|] == os;
  }

  method GroupHost(m: map<Tuple, seq<LinkEnd>>, ghost os: seq<Offer>, h: Host) returns (r: map<Tuple, seq<LinkEnd>>)
    requires Groups(m, os)
    ensures Groups(r, os + HostOffers(h.name, h.fds))
  {
    r := m;
    assert os + HostOffers(h.name, h.fds[..0]) == os;
    for i := 0 to |h.fds|
      invariant Groups(r, os + HostOffers(h.name, h.fds[..i]))
    {
      var o := OfferOf(h.name, h.fds[i]);
      assert h.fds[..i + 1][..i] == h.fds[..i];
      if o.Some? {
        GroupsStep(r, os + HostOffers(h.name, h.fds[..i]), o.value);
        assert os + HostOffers(h.name, h.fds[..i]) + [o.value] == os + HostOffers(h.name, h.fds[..i + 1]);
        r := r[o.value.tuple := (if o.value.tuple in r then r[o.value.tuple] else []) + [o.value.end]];
      }
    }
    assert h.fds[..|h.fds|] == h.fds;
  }

  method GroupOffers(hosts: seq<Host>) returns (m: map<Tuple, seq<LinkEnd>>)
    ensures Groups(m, Offers(hosts))
  {
    m := map[];
    for i := 0 to |hosts|
      invariant Groups(m, Offers(hosts[..i]))
    {
      m := GroupHost(m, Offers(hosts[..i]), hosts[i]);
      assert hosts[..i + 1][..i] == hosts[..i];
    }
    assert hosts[..|hosts|] == hosts;
  }

  ghost function Facing(os: seq<Offer>): (nat, nat) -> bool {
    (i: nat, j: nat) => i < |os| && j < |os| && os[j].tuple == Reversed(os[i].tuple)
  }

  /** Two ends are linked: unique reversed tuples on two hosts, listed from the smaller end. */
  ghost predicate SocketLinked(os: seq<Offer>, i: nat, j: nat) {
    i < |os| && j < |os| && Mutual(|os|, Facing(os), i, j) && os[i].end.host != os[j].end.host && EndBefore(os[i].end, os[j].end)
  }

  ghost predicate IsSocketLink(os: seq<Offer>, l: Link<()>) {
    exists i: nat, j: nat | i < |os| && j < |os| :: SocketLinked(os, i, j) && l == Link(os[i].end, os[j].end, ())
  }

  ghost predicate DistinctEnds(os: seq<Offer>) {
    forall i, j | 0 <= i < j < |os| :: os[i].end != os[j].end
  }

  /** A tuple with a single end is offered at a single index. */
  lemma {:induction false} SingleEnd(os: seq<Offer>, t: Tuple) returns (i: nat)
    requires |EndsAt(os, t)| == 1
    ensures i < |os| && os[i].tuple == t && EndsAt(os, t) == [os[i].end]
    ensures forall k | 0 <= k < |os| && os[k].tuple == t :: k == i
    decreases |os|
  {
    var front, last := os[..|os| - 1], os[|os| - 1];
    if last.tuple == t {
      i := |os| - 1;
      NoEnd(front, t);
    } else {
      i := SingleEnd(front, t);
    }
  }

  lemma {:induction false} NoEnd(os: seq<Offer>, t: Tuple)
    ensures EndsAt(os, t) == [] <==> forall k | 0 <= k < |os| :: os[k].tuple != t
    decreases |os|
  {
    if os != [] {
      NoEnd(os[..|os| - 1], t);
    }
  }

  lemma {:induction false} SoleOffer(os: seq<Offer>, i: nat)
    requires i < |os| && forall k | 0 <= k < |os| && os[k].tuple == os[i].tuple :: k == i
    ensures EndsAt(os, os[i].tuple) == [os[i].end]
    decreases |os|
  {
    var front, last := os[..|os| - 1], os[|os| - 1];
    if i < |os| - 1 {
      SoleOffer(front, i);
    } else {
      NoEnd(front, last.tuple);
    }
  }

  /** The link a tuple gives rise to. */
  function TupleLink(m: map<Tuple, seq<LinkEnd>>, t: Tuple): Option<Link<()>>
    requires t in m
  {
    if Reversed(t) !in m then None
    else
      var ends, reverse := m[t], m[Reversed(t)];
      if |ends| != 1 || |reverse| != 1 || !EndBefore(ends[0], reverse[0]) then None
      else if ends[0].host == reverse[0].host then None
      else Some(Link(ends[0], reverse[0], ()))
  }

  lemma TupleLinkSound(m: map<Tuple, seq<LinkEnd>>, os: seq<Offer>, t: Tuple) returns (i: nat, j: nat)
    requires Groups(m, os) && t in m && TupleLink(m, t).Some?
    ensures i < |os| && j < |os| && os[i].tuple == t && SocketLinked(os, i, j)
    ensures TupleLink(m, t).value == Link(os[i].end, os[j].end, ())
  {
    i := SingleEnd(os, t);
    j := SingleEnd(os, Reversed(t));
  }

  lemma TupleLinkComplete(m: map<Tuple, seq<LinkEnd>>, os: seq<Offer>, i: nat, j: nat)
    requires Groups(m, os) && i < |os| && j < |os| && SocketLinked(os, i, j)
    ensures os[i].tuple in m && TupleLink(m, os[i].tuple) == Some(Link(os[i].end, os[j].end, ()))
  {
    var f := Facing(os);
    forall k | 0 <= k < |os| && os[k].tuple == os[i].tuple
      ensures k == i
    {
      assert f(j, k);
    }
    forall k | 0 <= k < |os| && os[k].tuple == os[j].tuple
      ensures k == j
    {
      assert f(i, k);
    }
    SoleOffer(os, i);
    SoleOffer(os, j);
    assert os[j].tuple == Reversed(os[i].tuple);
  }

  lemma TupleLinksDistinct(m: map<Tuple, seq<LinkEnd>>, os: seq<Offer>, t: Tuple, u: Tuple)
    requires Groups(m, os) && DistinctEnds(os) && t in m && u in m && t != u
    requires TupleLink(m, t).Some? && TupleLink(m, u).Some?
    ensures TupleLink(m, t).value.a != TupleLink(m, u).value.a
  {
    var i, _ := TupleLinkSound(m, os, t);
    var k, _ := TupleLinkSound(m, os, u);
    assert os[i].end != os[k].end;
  }

  ghost predicate FromTuple(m: map<Tuple, seq<LinkEnd>>, ts: set<Tuple>, l: Link<()>) {
    exists t | t in ts && t in m :: TupleLink(m, t) == Some(l)
  }

  /**
   `socket_links`: the links of the mutually unique reversed tuples, in the order of their
   ends.  The tuples are visited in any order.
   */
  method SocketLinks(hosts: seq<Host>) returns (links: seq<Link<()>>)
    requires DistinctEnds(Offers(hosts))
    ensures Ascending(links) && forall l :: l in links <==> IsSocketLink(Offers(hosts), l)
  {
    ghost var os := Offers(hosts);
    var m := GroupOffers(hosts);
    var found: seq<Link<()>> := [];
    var left := m.Keys;
    while left != {}
      invariant left <= m.Keys && DistinctLinks(found)
      invariant forall l :: l in found <==> FromTuple(m, m.Keys - left, l)
      decreases left
    {
      var t :| t in left;
      var l := TupleLink(m, t);
      FromTupleStep(m, os, left, t, found);
      if l.Some? {
        found := found + [l.value];
      }
      left := left - {t};
    }
    AllTuples(m, os);
    assert m.Keys - left == m.Keys;
    SortLinksKeeps(found);
    links := SortLinks(found);
  }

  lemma FromTupleStep(m: map<Tuple, seq<LinkEnd>>, os: seq<Offer>, left: set<Tuple>, t: Tuple, found: seq<Link<()>>)
    requires Groups(m, os) && DistinctEnds(os) && left <= m.Keys && t in left
    requires forall l :: l in found <==> FromTuple(m, m.Keys - left, l)
    ensures forall l :: FromTuple(m, m.Keys - (left - {t}), l) <==> FromTuple(m, m.Keys - left, l) || TupleLink(m, t) == Some(l)
    ensures TupleLink(m, t).Some? ==> forall l | l in found :: l.a != TupleLink(m, t).value.a
  {
    assert m.Keys - (left - {t}) == m.Keys - left + {t};
    if TupleLink(m, t).Some? {
      forall l | l in found
        ensures l.a != TupleLink(m, t).value.a
      {
        var u :| u in m.Keys - left && u in m && TupleLink(m, u) == Some(l);
        TupleLinksDistinct(m, os, t, u);
      }
    }
  }

  lemma AllTuples(m: map<Tuple, seq<LinkEnd>>, os: seq<Offer>)
    requires Groups(m, os)
    ensures forall l :: FromTuple(m, m.Keys, l) <==> IsSocketLink(os, l)
  {
    forall l
      ensures FromTuple(m, m.Keys, l) <==> IsSocketLink(os, l)
    {
      if FromTuple(m, m.Keys, l) {
        var t :| t in m.Keys && t in m && TupleLink(m, t) == Some(l);
        var i, j := TupleLinkSound(m, os, t);
      }
      if IsSocketLink(os, l) {
        var i: nat, j: nat :| i < |os| && j < |os| && SocketLinked(os, i, j) && l == Link(os[i].end, os[j].end, ());
        TupleLinkComplete(m, os, i, j);
      }
    }
  }
}

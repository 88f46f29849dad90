/** Cross-host links form a matching and do not depend on the order of hosts and entries. */
module CorrelateProofs {
  import opened Basics
  import opened LinkOrder
  import opened Correlate
  import opened CorrelateRdma

  /** Each end occurs in at most one socket link, and never with an end of its own host. */
  lemma SocketLinksMatch(os: seq<Offer>, l: Link<()>, m: Link<()>)
    requires DistinctEnds(os) && IsSocketLink(os, l) && IsSocketLink(os, m)
    requires l.a == m.a || l.a == m.b || l.b == m.a || l.b == m.b
    ensures l == m && l.a.host != l.b.host
  {
    var i: nat, j: nat :| i < |os| && j < |os| && SocketLinked(os, i, j) && l == Link(os[i].end, os[j].end, ());
    var p: nat, q: nat :| p < |os| && q < |os| && SocketLinked(os, p, q) && m == Link(os[p].end, os[q].end, ());
    EndTotal(l.a, l.b);
    MatchingPair(|os|, Facing(os), i, j, p, q);
  }

  /** Two mutually unique pairs that meet are the same pair. */
  lemma MatchingPair(n: nat, partner: (nat, nat) -> bool, i: nat, j: nat, p: nat, q: nat)
    requires Mutual(n, partner, i, j) && Mutual(n, partner, p, q) && (i == p || i == q || j == p || j == q)
    ensures (i == p && j == q) || (i == q && j == p)
  {
    if i == p {
      MutualIsMatching(n, partner, i, j, q);
    } else if i == q {
      MutualIsMatching(n, partner, i, j, p);
    } else if j == p {
      MutualIsMatching(n, partner, j, i, q);
    } else {
      MutualIsMatching(n, partner, j, i, p);
    }
  }

  lemma RdmaLinksMatch(qs: seq<Qp>, l: Link<Evidence>, m: Link<Evidence>)
    requires DistinctQps(qs) && IsRdmaLink(qs, l) && IsRdmaLink(qs, m)
    requires l.a == m.a || l.a == m.b || l.b == m.a || l.b == m.b
    ensures l == m && l.a.host != l.b.host
  {
    var i: nat, j: nat :| i < |qs| && j < |qs| &&
      RdmaLinked(qs, i, j) && l == Link(qs[i].end, qs[j].end, EvidenceFor(qs[i], qs[j]).value);
    var p: nat, q: nat :| p < |qs| && q < |qs| &&
      RdmaLinked(qs, p, q) && m == Link(qs[p].end, qs[q].end, EvidenceFor(qs[p], qs[q]).value);
    EndTotal(l.a, l.b);
    MatchingPair(|qs|, Pairing(qs), i, j, p, q);
  }

  /******* Order independence *******/

  /** The same ends, in any order. */
  ghost predicate SameOffers(os: seq<Offer>, os': seq<Offer>) { forall o :: o in os <==> o in os' }

  lemma SocketLinkCarries(os: seq<Offer>, os': seq<Offer>, l: Link<()>)
    requires DistinctEnds(os) && DistinctEnds(os') && SameOffers(os, os') && IsSocketLink(os, l)
    ensures IsSocketLink(os', l)
  {
    var i: nat, j: nat :| i < |os| && j < |os| && SocketLinked(os, i, j) && l == Link(os[i].end, os[j].end, ());
    assert os[i] in os' && os[j] in os';
    var i': nat :| i' < |os'| && os'[i'] == os[i];
    var j': nat :| j' < |os'| && os'[j'] == os[j];
    FacingCarries(os, os', i, j, i', j');
    FacingCarries(os, os', j, i, j', i');
    assert SocketLinked(os', i', j');
  }

  lemma FacingCarries(os: seq<Offer>, os': seq<Offer>, i: nat, j: nat, i': nat, j': nat)
    requires DistinctEnds(os') && SameOffers(os, os') && i < |os| && j < |os| && i' < |os'| && j' < |os'|
    requires os'[i'] == os[i] && os'[j'] == os[j] && OnlyPartner(|os|, Facing(os), i, j)
    ensures OnlyPartner(|os'|, Facing(os'), i', j')
  {
    forall k | 0 <= k < |os'| && Facing(os')(i', k)
      ensures k == j'
    {
      assert os'[k] in os;
      var x: nat :| x < |os| && os[x] == os'[k];
      assert Facing(os)(i, x);
    }
  }

  /** The socket links of two listings of the same ends are the same list. */
  lemma SocketLinksIgnoreOrder(os: seq<Offer>, os': seq<Offer>, links: seq<Link<()>>, links': seq<Link<()>>)
    requires DistinctEnds(os) && DistinctEnds(os') && SameOffers(os, os')
    requires Ascending(links) && forall l :: l in links <==> IsSocketLink(os, l)
    requires Ascending(links') && forall l :: l in links' <==> IsSocketLink(os', l)
    ensures links == links'
  {
    forall l
      ensures l in links <==> l in links'
    {
      if IsSocketLink(os, l) {
        SocketLinkCarries(os, os', l);
      }
      if IsSocketLink(os', l) {
        SocketLinkCarries(os', os, l);
      }
    }
    AscendingDetermined(links, links');
  }

  ghost predicate SameQps(qs: seq<Qp>, qs': seq<Qp>) { forall q :: q in qs <==> q in qs' }

  lemma PairingCarries(qs: seq<Qp>, qs': seq<Qp>, i: nat, j: nat, i': nat, j': nat)
    requires DistinctQps(qs') && SameQps(qs, qs') && i < |qs| && j < |qs| && i' < |qs'| && j' < |qs'|
    requires qs'[i'] == qs[i] && qs'[j'] == qs[j] && OnlyPartner(|qs|, Pairing(qs), i, j)
    ensures OnlyPartner(|qs'|, Pairing(qs'), i', j')
  {
    forall k | 0 <= k < |qs'| && Pairing(qs')(i', k)
      ensures k == j'
    {
      assert qs'[k] in qs;
      var x: nat :| x < |qs| && qs[x] == qs'[k];
      assert Pairing(qs)(i, x);
    }
  }

  lemma RdmaLinkCarries(qs: seq<Qp>, qs': seq<Qp>, l: Link<Evidence>)
    requires DistinctQps(qs) && DistinctQps(qs') && SameQps(qs, qs') && IsRdmaLink(qs, l)
    ensures IsRdmaLink(qs', l)
  {
    var i: nat, j: nat :| i < |qs| && j < |qs| &&
      RdmaLinked(qs, i, j) && l == Link(qs[i].end, qs[j].end, EvidenceFor(qs[i], qs[j]).value);
    assert qs[i] in qs' && qs[j] in qs';
    var i': nat :| i' < |qs'| && qs'[i'] == qs[i];
    var j': nat :| j' < |qs'| && qs'[j'] == qs[j];
    PairingCarries(qs, qs', i, j, i', j');
    PairingCarries(qs, qs', j, i, j', i');
    assert RdmaLinked(qs', i', j');
  }

  /** The RDMA links of two listings of the same queue pairs are the same list. */
  lemma RdmaLinksIgnoreOrder(qs: seq<Qp>, qs': seq<Qp>, links: seq<Link<Evidence>>, links': seq<Link<Evidence>>)
    requires DistinctQps(qs) && DistinctQps(qs') && SameQps(qs, qs')
    requires Ascending(links) && forall l :: l in links <==> IsRdmaLink(qs, l)
    requires Ascending(links') && forall l :: l in links' <==> IsRdmaLink(qs', l)
    ensures links == links'
  {
    forall l
      ensures l in links <==> l in links'
    {
      if IsRdmaLink(qs, l) {
        RdmaLinkCarries(qs, qs', l);
      }
      if IsRdmaLink(qs', l) {
        RdmaLinkCarries(qs', qs, l);
      }
    }
    AscendingDetermined(links, links');
  }

  /******* What a listing holds *******/

  lemma {:induction false} HostOfferMembers(host: string, rs: seq<FdRelation>, o: Offer)
    ensures o in HostOffers(host, rs) <==> exists r | r in rs :: OfferOf(host, r) == Some(o)
    decreases |rs|
  {
    if rs != [] {
      HostOfferMembers(host, rs[..|rs| - 1], o);
      assert rs == rs[..|rs| - 1] + [rs[|rs| - 1]];
    }
  }

  /** An end is listed exactly when some host has a relation that offers it. */
  lemma {:induction false} OfferMembers(hosts: seq<Host>, o: Offer)
    ensures o in Offers(hosts) <==> exists h, r | h in hosts && r in h.fds :: OfferOf(h.name, r) == Some(o)
    decreases |hosts|
  {
    if hosts != [] {
      var front, last := hosts[..|hosts| - 1], hosts[|hosts| - 1];
      assert hosts == front + [last];
      OfferMembers(front, o);
      HostOfferMembers(last.name, last.fds, o);
    }
  }

  lemma {:induction false} HostQpMembers(h: Host, rs: seq<RdmaRelation>, q: Qp)
    ensures q in HostQps(h, rs) <==> exists r | r in rs :: QpOf(h, r) == Some(q)
    decreases |rs|
  {
    if rs != [] {
      HostQpMembers(h, rs[..|rs| - 1], q);
      assert rs == rs[..|rs| - 1] + [rs[|rs| - 1]];
    }
  }

  lemma {:induction false} QpMembers(hosts: seq<Host>, q: Qp)
    ensures q in Qps(hosts) <==> exists h, r | h in hosts && r in h.rdma :: QpOf(h, r) == Some(q)
    decreases |hosts|
  {
    if hosts != [] {
      var front, last := hosts[..|hosts| - 1], hosts[|hosts| - 1];
      assert hosts == front + [last];
      QpMembers(front, q);
      HostQpMembers(last, last.rdma, q);
    }
  }

  /** Every host of one listing is in the other with the same entries, in any order of both. */
  ghost predicate SameHosts(hosts: seq<Host>, hosts': seq<Host>) {
    forall h | h in hosts :: exists h' | h' in hosts' :: SameEntries(h, h')
  }

  ghost predicate SameEntries(h: Host, h': Host) {
    h.name == h'.name && h.ports == h'.ports && (forall r :: r in h.fds <==> r in h'.fds) && (forall r :: r in h.rdma <==> r in h'.rdma)
  }

  lemma OfferSource(hosts: seq<Host>, o: Offer) returns (h: Host, r: FdRelation)
    requires o in Offers(hosts)
    ensures h in hosts && r in h.fds && OfferOf(h.name, r) == Some(o)
  {
    OfferMembers(hosts, o);
    h, r :| h in hosts && r in h.fds && OfferOf(h.name, r) == Some(o);
  }

  lemma SameHost(hosts: seq<Host>, hosts': seq<Host>, h: Host) returns (h': Host)
    requires SameHosts(hosts, hosts') && h in hosts
    ensures h' in hosts' && SameEntries(h, h')
  {
    h' :| h' in hosts' && SameEntries(h, h');
  }

  lemma OffersIgnoreOrder(hosts: seq<Host>, hosts': seq<Host>, o: Offer)
    requires SameHosts(hosts, hosts') && o in Offers(hosts)
    ensures o in Offers(hosts')
  {
    var h, r := OfferSource(hosts, o);
    var h' := SameHost(hosts, hosts', h);
    OfferMembers(hosts', o);
    assert r in h'.fds;
  }

  lemma QpSource(hosts: seq<Host>, q: Qp) returns (h: Host, r: RdmaRelation)
    requires q in Qps(hosts)
    ensures h in hosts && r in h.rdma && QpOf(h, r) == Some(q)
  {
    QpMembers(hosts, q);
    h, r :| h in hosts && r in h.rdma && QpOf(h, r) == Some(q);
  }

  lemma SameQp(h: Host, h': Host, r: RdmaRelation)
    requires h.name == h'.name && h.ports == h'.ports
    ensures QpOf(h, r) == QpOf(h', r)
  {
  }

  lemma QpsIgnoreOrder(hosts: seq<Host>, hosts': seq<Host>, q: Qp)
    requires SameHosts(hosts, hosts') && q in Qps(hosts)
    ensures q in Qps(hosts')
  {
    var h, r := QpSource(hosts, q);
    var h' := SameHost(hosts, hosts', h);
    SameQp(h, h', r);
    QpMembers(hosts', q);
    assert r in h'.rdma;
  }

  /** What `SocketLinks` returns for two orders of the same hosts and entries is one list. */
  lemma SocketLinksOfReorderedHosts(hosts: seq<Host>, hosts': seq<Host>, links: seq<Link<()>>, links': seq<Link<()>>)
    requires SameHosts(hosts, hosts') && SameHosts(hosts', hosts)
    requires DistinctEnds(Offers(hosts)) && DistinctEnds(Offers(hosts'))
    requires Ascending(links) && forall l :: l in links <==> IsSocketLink(Offers(hosts), l)
    requires Ascending(links') && forall l :: l in links' <==> IsSocketLink(Offers(hosts'), l)
    ensures links == links'
  {
    forall o
      ensures o in Offers(hosts) <==> o in Offers(hosts')
    {
      if o in Offers(hosts) { OffersIgnoreOrder(hosts, hosts', o); }
      if o in Offers(hosts') { OffersIgnoreOrder(hosts', hosts, o); }
    }
    SocketLinksIgnoreOrder(Offers(hosts), Offers(hosts'), links, links');
  }

  /** What `RdmaLinks` returns for two orders of the same hosts and entries is one list. */
  lemma RdmaLinksOfReorderedHosts(hosts: seq<Host>, hosts': seq<Host>, links: seq<Link<Evidence>>, links': seq<Link<Evidence>>)
    requires SameHosts(hosts, hosts') && SameHosts(hosts', hosts)
    requires DistinctQps(Qps(hosts)) && DistinctQps(Qps(hosts'))
    requires Ascending(links) && forall l :: l in links <==> IsRdmaLink(Qps(hosts), l)
    requires Ascending(links') && forall l :: l in links' <==> IsRdmaLink(Qps(hosts'), l)
    ensures links == links'
  {
    forall q
      ensures q in Qps(hosts) <==> q in Qps(hosts')
    {
      if q in Qps(hosts) { QpsIgnoreOrder(hosts, hosts', q); }
      if q in Qps(hosts') { QpsIgnoreOrder(hosts', hosts, q); }
    }
    RdmaLinksIgnoreOrder(Qps(hosts), Qps(hosts'), links, links');
  }
}

/** What the links of hosts with one external connection each are, told from the fields of their entries. */
module CorrelateMeaning {
  import opened Basics
  import opened LinkOrder
  import opened Correlate
  import opened CorrelateRdma

  /******* Evidence *******/

  predicate AddressesKnown(a: Qp) { a.cm.Some? && a.cm.value.source.Some? && a.cm.value.destination.Some? }

  /** The connection of one is that of the other with its ends exchanged. */
  predicate Crossed(a: Qp, b: Qp)
    requires AddressesKnown(a) && AddressesKnown(b)
  {
    a.cm.value.source.value == b.cm.value.destination.value && a.cm.value.destination.value == b.cm.value.source.value
  }

  predicate GidsKnown(a: Qp, b: Qp) { a.remoteGid.Some? && b.gid.Some? }

  /**
   Connection addresses and GIDs rule a pairing out when they are known and do not fit, and are
   evidence for it when they are known and fit; unknown ones are neither.
   */
  lemma EvidenceMeans(a: Qp, b: Qp)
    ensures EvidenceFor(a, b).None? <==>
            || (AddressesKnown(a) && AddressesKnown(b) && !Crossed(a, b))
            || (GidsKnown(a, b) && a.remoteGid.value != b.gid.value)
            || (GidsKnown(b, a) && b.remoteGid.value != a.gid.value)
    ensures EvidenceFor(a, b).Some? ==>
              && (EvidenceFor(a, b).value.cm <==> AddressesKnown(a) && AddressesKnown(b))
              && (EvidenceFor(a, b).value.gid <==> GidsKnown(a, b) || GidsKnown(b, a))
  {
  }

  /** A port is the first of its device and number. */
  lemma {:induction false} PortIsFirst(ports: seq<RdmaPort>, device: string, number: nat)
    ensures var p := FindPort(ports, device, Some(number));
            && (p.None? <==> forall i | 0 <= i < |ports| :: !(ports[i].device == device && ports[i].port == number))
            && (p.Some? ==> exists i | 0 <= i < |ports| :: ports[i] == p.value && p.value.device == device && p.value.port == number
                              && forall j | 0 <= j < i :: !(ports[j].device == device && ports[j].port == number))
    decreases |ports|
  {
    if ports != [] && !(ports[0].device == device && ports[0].port == number) {
      PortIsFirst(ports[1..], device, number);
      var p := FindPort(ports[1..], device, Some(number));
      if p.Some? {
        var i :| 0 <= i < |ports[1..]| && ports[1..][i] == p.value
          && forall j | 0 <= j < i :: !(ports[1..][j].device == device && ports[1..][j].port == number);
        assert ports[i + 1] == p.value;
        assert forall j | 0 < j < i + 1 :: ports[j] == ports[1..][j - 1];
      }
      assert forall j | 0 < j < |ports| :: ports[j] == ports[1..][j - 1];
    }
  }

  /******* Two queue pairs *******/

  predicate ConnectedKind(kind: string) { kind == "rc" || kind == "uc" || kind == "xrc_ini" || kind == "xrc_tgt" }

  lemma OneQp(h: Host, r: RdmaRelation)
    requires h.rdma == [r]
    ensures HostQps(h, h.rdma) == if QpOf(h, r).Some? then [QpOf(h, r).value] else []
  {
    assert [r][..0] == [];
    assert HostQps(h, []) == [];
  }

  lemma TwoHostsQps(a: Host, b: Host, r: RdmaRelation, q: RdmaRelation)
    requires a.rdma == [r] && b.rdma == [q]
    ensures Qps([a, b]) == (if QpOf(a, r).Some? then [QpOf(a, r).value] else []) + (if QpOf(b, q).Some? then [QpOf(b, q).value] else [])
  {
    OneQp(a, r);
    OneQp(b, q);
    assert [a, b][..1] == [a] && [a][..0] == [];
    assert Qps([]) == [] && Qps([a]) == Qps([]) + HostQps(a, a.rdma);
  }

  /** Of two queue pairs on two hosts, the only possible link is that between them. */
  lemma TwoQpsLink(x: Qp, y: Qp, l: Link<Evidence>)
    requires EndBefore(x.end, y.end) && x.end.host != y.end.host
    ensures IsRdmaLink([x, y], l) <==>
            && y.qpn == x.remote && y.remote == x.qpn && EvidenceFor(x, y).Some?
            && (EvidenceFor(x, y).value.gid || EvidenceFor(x, y).value.cm || x.linkLayer == y.linkLayer)
            && l == Link(x.end, y.end, EvidenceFor(x, y).value)
  {
    var qs := [x, y];
    EvidenceSymmetric(x, y);
    EndTotal(x.end, y.end);
    assert Pairing(qs)(0, 1) == Compatible(x, y) && Pairing(qs)(1, 0) == Compatible(y, x);
    assert !Pairing(qs)(0, 0) && !Pairing(qs)(1, 1);
    if Compatible(x, y) {
      assert OnlyPartner(2, Pairing(qs), 0, 1) && OnlyPartner(2, Pairing(qs), 1, 0);
    }
    if IsRdmaLink(qs, l) {
      var i: nat, j: nat :| i < 2 && j < 2 && RdmaLinked(qs, i, j) && l == Link(qs[i].end, qs[j].end, EvidenceFor(qs[i], qs[j]).value);
      assert i == 0 && j == 1;
    }
    if RdmaLinked(qs, 0, 1) {
      assert IsRdmaLink(qs, Link(qs[0].end, qs[1].end, EvidenceFor(qs[0], qs[1]).value));
    }
  }

  /**
   Two hosts with one connected queue pair each, exchanged numbers and crossed connection
   addresses: the links are exactly the one between them.
   */
  lemma CrossedQpsAreLinked(a: Host, b: Host, r: RdmaRelation, q: RdmaRelation, l: Link<Evidence>)
    requires a.rdma == [r] && b.rdma == [q] && EndBefore(LinkEnd(a.name, r.id), LinkEnd(b.name, q.id)) && a.name != b.name
    requires ConnectedKind(r.kind) && ConnectedKind(q.kind) && !r.hasPeer && !q.hasPeer
    requires r.remoteQpn == Some(q.qpn) && q.remoteQpn == Some(r.qpn) && r.remoteGid == None && q.remoteGid == None
    requires exists s, d :: r.cm == Some(Cm(Some(s), Some(d))) && q.cm == Some(Cm(Some(d), Some(s)))
    ensures IsRdmaLink(Qps([a, b]), l) <==> l == Link(LinkEnd(a.name, r.id), LinkEnd(b.name, q.id), Evidence(false, true))
  {
    TwoHostsQps(a, b, r, q);
    var x, y := QpOf(a, r).value, QpOf(b, q).value;
    assert [x] + [y] == [x, y];
    TwoQpsLink(x, y, l);
    EvidenceMeans(x, y);
  }

  /** Without addresses and GIDs a link needs the same link layer at both ports. */
  lemma BareQpsAreLinked(a: Host, b: Host, r: RdmaRelation, q: RdmaRelation, l: Link<Evidence>)
    requires a.rdma == [r] && b.rdma == [q] && EndBefore(LinkEnd(a.name, r.id), LinkEnd(b.name, q.id)) && a.name != b.name
    requires ConnectedKind(r.kind) && ConnectedKind(q.kind) && !r.hasPeer && !q.hasPeer
    requires r.remoteQpn == Some(q.qpn) && q.remoteQpn == Some(r.qpn) && r.remoteGid == None && q.remoteGid == None
    requires r.cm == None && q.cm == None
    ensures var p, o := FindPort(a.ports, r.device, r.port), FindPort(b.ports, q.device, q.port);
            IsRdmaLink(Qps([a, b]), l) <==>
            && (if p.Some? then p.value.linkLayer else None) == (if o.Some? then o.value.linkLayer else None)
            && l == Link(LinkEnd(a.name, r.id), LinkEnd(b.name, q.id), Evidence(false, false))
  {
    TwoHostsQps(a, b, r, q);
    var x, y := QpOf(a, r).value, QpOf(b, q).value;
    assert [x] + [y] == [x, y];
    TwoQpsLink(x, y, l);
    EvidenceMeans(x, y);
  }

  /** A queue pair of another kind, with a local peer, or without a remote number has no link. */
  lemma OtherQpsAreNotLinked(a: Host, b: Host, r: RdmaRelation, q: RdmaRelation, l: Link<Evidence>)
    requires a.rdma == [r] && b.rdma == [q]
    requires !ConnectedKind(r.kind) || r.hasPeer || r.remoteQpn.None?
    ensures !IsRdmaLink(Qps([a, b]), l)
  {
    TwoHostsQps(a, b, r, q);
    if IsRdmaLink(Qps([a, b]), l) {
      RdmaLinkNeedsTwo(Qps([a, b]), l);
    }
  }

  lemma RdmaLinkNeedsTwo(qs: seq<Qp>, l: Link<Evidence>)
    requires IsRdmaLink(qs, l)
    ensures |qs| >= 2
  {
    var i: nat, j: nat :| i < |qs| && j < |qs| && RdmaLinked(qs, i, j);
    assert Compatible(qs[i], qs[j]);
    assert i != j;
  }

  /******* Two sockets *******/

  /** A connection to another host: no local peer, not shared, both addresses routable. */
  predicate GoesOut(r: FdRelation, kind: string, local: Address, remote: Address) {
    r == FdRelation(r.id, false, false, Some(Socket(kind, Some(local), Some(remote), true)))
  }

  predicate Reachable(a: Address) { a.port > 0 && !a.unspecified && !a.loopback }

  lemma OneOffer(h: Host, r: FdRelation)
    requires h.fds == [r]
    ensures HostOffers(h.name, h.fds) == if OfferOf(h.name, r).Some? then [OfferOf(h.name, r).value] else []
  {
    assert [r][..0] == [];
    assert HostOffers(h.name, []) == [];
  }

  lemma TwoHostsOffers(a: Host, b: Host, r: FdRelation, q: FdRelation)
    requires a.fds == [r] && b.fds == [q]
    ensures Offers([a, b]) == (if OfferOf(a.name, r).Some? then [OfferOf(a.name, r).value] else [])
                              + (if OfferOf(b.name, q).Some? then [OfferOf(b.name, q).value] else [])
  {
    OneOffer(a, r);
    OneOffer(b, q);
    assert [a, b][..1] == [a] && [a][..0] == [];
    assert Offers([]) == [] && Offers([a]) == Offers([]) + HostOffers(a.name, a.fds);
  }

  /** Two hosts with one outgoing connection each: linked exactly when one is the other seen from its far end. */
  lemma ReversedSocketsAreLinked(a: Host, b: Host, r: FdRelation, q: FdRelation, kind: string, other: string,
                                 local: Address, remote: Address, near: Address, far: Address, l: Link<()>)
    requires a.fds == [r] && b.fds == [q] && GoesOut(r, kind, local, remote) && GoesOut(q, other, near, far)
    requires Reachable(local) && Reachable(remote) && Reachable(near) && Reachable(far)
    requires EndBefore(LinkEnd(a.name, r.id), LinkEnd(b.name, q.id)) && a.name != b.name
    ensures IsSocketLink(Offers([a, b]), l) <==>
            && kind == other && near == remote && far == local && local != remote
            && l == Link(LinkEnd(a.name, r.id), LinkEnd(b.name, q.id), ())
  {
    TwoHostsOffers(a, b, r, q);
    var x, y := OfferOf(a.name, r).value, OfferOf(b.name, q).value;
    assert [x] + [y] == [x, y];
    assert x.tuple == Tuple(kind, local, remote) && y.tuple == Tuple(other, near, far);
    TwoOffersLink(x, y, l);
  }

  /** A socket that is shared, has a local peer, is not connected over the network or has an unroutable end has no link. */
  lemma OtherSocketsAreNotLinked(a: Host, b: Host, r: FdRelation, q: FdRelation, l: Link<()>)
    requires a.fds == [r] && b.fds == [q]
    requires || r.hasPeer || r.shared || r.socket.None? || !r.socket.value.networkPeer
             || r.socket.value.local.None? || r.socket.value.remote.None?
             || !Reachable(r.socket.value.local.value) || !Reachable(r.socket.value.remote.value)
    ensures !IsSocketLink(Offers([a, b]), l)
  {
    TwoHostsOffers(a, b, r, q);
    if IsSocketLink(Offers([a, b]), l) {
      SocketLinkNeedsTwo(Offers([a, b]), l);
    }
  }

  lemma SocketLinkNeedsTwo(os: seq<Offer>, l: Link<()>)
    requires IsSocketLink(os, l)
    ensures |os| >= 2
  {
    var i: nat, j: nat :| i < |os| && j < |os| && SocketLinked(os, i, j);
    assert i != j;
  }

  lemma TwoOffersLink(x: Offer, y: Offer, l: Link<()>)
    requires EndBefore(x.end, y.end) && x.end.host != y.end.host
    ensures IsSocketLink([x, y], l) <==>
            && y.tuple == Tuple(x.tuple.kind, x.tuple.remote, x.tuple.local) && x.tuple.local != x.tuple.remote
            && l == Link(x.end, y.end, ())
  {
    var os := [x, y];
    EndTotal(x.end, y.end);
    var reversed := y.tuple == Tuple(x.tuple.kind, x.tuple.remote, x.tuple.local);
    assert Facing(os)(0, 1) == reversed && Facing(os)(1, 0) == reversed;
    assert Facing(os)(0, 0) == (x.tuple.local == x.tuple.remote);
    if reversed && x.tuple.local != x.tuple.remote {
      assert OnlyPartner(2, Facing(os), 0, 1) && OnlyPartner(2, Facing(os), 1, 0);
      assert SocketLinked(os, 0, 1);
    }
    if IsSocketLink(os, l) {
      var i: nat, j: nat :| i < 2 && j < 2 && SocketLinked(os, i, j) && l == Link(os[i].end, os[j].end, ());
      assert i == 0 && j == 1;
    }
  }
}

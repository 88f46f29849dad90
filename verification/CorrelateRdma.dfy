/** The RDMA half of src/http_server/hosts/correlate.rs. */
module CorrelateRdma {
  import opened Basics
  import opened LinkOrder
  import opened Correlate

  /** A connected queue pair whose other end may be on another host. */
  datatype Qp = Qp(end: LinkEnd, qpn: nat, remote: nat, remoteGid: Option<string>, cm: Option<Cm>,
                   gid: Option<string>, linkLayer: Option<string>)

  datatype Evidence = Evidence(gid: bool, cm: bool)

  function FindPort(ports: seq<RdmaPort>, device: string, port: Option<nat>): Option<RdmaPort> {
    if ports == [] then None
    else if ports[0].device == device && Some(ports[0].port) == port then Some(ports[0])
    else FindPort(ports[1..], device, port)
  }

  function QpOf(h: Host, r: RdmaRelation): Option<Qp> {
    if r.hasPeer || r.kind !in ["rc", "uc", "xrc_ini", "xrc_tgt"] || r.remoteQpn.None? then None
    else
      var port := FindPort(h.ports, r.device, r.port);
      Some(Qp(LinkEnd(h.name, r.id), r.qpn, r.remoteQpn.value, r.remoteGid, r.cm,
              if port.Some? then port.value.gid else None, if port.Some? then port.value.linkLayer else None))
  }

  function HostQps(h: Host, rs: seq<RdmaRelation>): seq<Qp> {
    if rs == [] then []
    else
      var front, last := HostQps(h, rs[..|rs| - 1]), QpOf(h, rs[|rs| - 1]);
      if last.Some? then front + [last.value] else front
  }

  function Qps(hosts: seq<Host>): seq<Qp> {
    if hosts == [] then [] else Qps(hosts[..|hosts| - 1]) + HostQps(hosts[|hosts| - 1], hosts[|hosts| - 1].rdma)
  }

  /** Whether the remote GID of `a` is the port GID of `b`, when both are known. */
  function GidMatch(a: Qp, b: Qp): Option<bool> {
    if a.remoteGid.Some? && b.gid.Some? then Some(a.remoteGid.value == b.gid.value) else None
  }

  function CmMatch(a: Option<Cm>, b: Option<Cm>): Option<bool> {
    if a.Some? && b.Some? && a.value.source.Some? && a.value.destination.Some?
       && b.value.source.Some? && b.value.destination.Some?
    then Some(a.value.source == b.value.destination && a.value.destination == b.value.source)
    else None
  }

  /** No evidence when any known address contradicts the pairing. */
  function EvidenceFor(a: Qp, b: Qp): Option<Evidence> {
    var gids, cm := [GidMatch(a, b), GidMatch(b, a)], CmMatch(a.cm, b.cm);
    if Some(false) in gids || cm == Some(false) then None
    else Some(Evidence(Some(true) in gids, cm == Some(true)))
  }

  lemma EvidenceSymmetric(a: Qp, b: Qp)
    ensures EvidenceFor(a, b) == EvidenceFor(b, a)
  {
  }

  /** Swapped queue pair numbers on two hosts that no address contradicts. */
  predicate Compatible(a: Qp, b: Qp) {
    b.end.host != a.end.host && b.qpn == a.remote && b.remote == a.qpn && EvidenceFor(a, b).Some?
  }

  lemma CompatibleSymmetric(a: Qp, b: Qp)
    ensures Compatible(a, b) == Compatible(b, a)
  {
    EvidenceSymmetric(a, b);
  }

  ghost function Pairing(qs: seq<Qp>): (nat, nat) -> bool {
    (i: nat, j: nat) => i < |qs| && j < |qs| && Compatible(qs[i], qs[j])
  }

  /** Unique in both directions; a bare number swap also needs the same link layer. */
  ghost predicate RdmaLinked(qs: seq<Qp>, i: nat, j: nat)
    requires i < |qs| && j < |qs|
  {
    && Mutual(|qs|, Pairing(qs), i, j) && EndBefore(qs[i].end, qs[j].end)
    && var e := EvidenceFor(qs[i], qs[j]).value;
    (e.gid || e.cm || qs[i].linkLayer == qs[j].linkLayer)
  }

  ghost predicate IsRdmaLink(qs: seq<Qp>, l: Link<Evidence>) {
    exists i: nat, j: nat | i < |qs| && j < |qs| ::
      RdmaLinked(qs, i, j) && l == Link(qs[i].end, qs[j].end, EvidenceFor(qs[i], qs[j]).value)
  }

  ghost predicate DistinctQps(qs: seq<Qp>) {
    forall i, j | 0 <= i < j < |qs| :: qs[i].end != qs[j].end
  }

  /******* The tables *******/

  method CollectQps(hosts: seq<Host>) returns (qs: seq<Qp>)
    ensures qs == Qps(hosts)
  {
    qs := [];
    for i := 0 to |hosts|
      invariant qs == Qps(hosts[..i])
    {
      var h := hosts[i];
      ghost var before := qs;
      assert before + HostQps(h, h.rdma[..0]) == before;
      for j := 0 to |h.rdma|
        invariant qs == before + HostQps(h, h.rdma[..j])
      {
        var q := QpOf(h, h.rdma[j]);
        assert h.rdma[..j + 1][..j] == h.rdma[..j];
        if q.Some? {
          qs := qs + [q.value];
        }
      }
      assert h.rdma[..|h.rdma|] == h.rdma && hosts[..i + 1][..i] == hosts[..i];
    }
    assert hosts[..|hosts|] == hosts;
  }

  /** The indices before `n` with a queue pair number. */
  function Indices(qs: seq<Qp>, qpn: nat, n: nat): (r: seq<nat>)
    requires n <= |qs|
    ensures forall i: nat :: i in r <==> i < n && qs[i].qpn == qpn
    ensures forall a, b | 0 <= a < b < |r| :: r[a] != r[b]
  {
    if n == 0 then []
    else if qs[n - 1].qpn == qpn then Indices(qs, qpn, n - 1) + [n - 1]
    else Indices(qs, qpn, n - 1)
  }

  method GroupQps(qs: seq<Qp>) returns (m: map<nat, seq<nat>>)
    ensures forall q: nat :: (if q in m then m[q] else []) == Indices(qs, q, |qs|)
  {
    m := map[];
    for i := 0 to |qs|
      invariant forall q: nat :: (if q in m then m[q] else []) == Indices(qs, q, i)
    {
      var q := qs[i].qpn;
      m := m[q := (if q in m then m[q] else []) + [i]];
    }
  }

  /** `candidates`: the compatible queue pairs of one, each once. */
  method Candidates(qs: seq<Qp>, m: map<nat, seq<nat>>, i: nat) returns (found: seq<nat>)
    requires i < |qs| && forall q: nat :: (if q in m then m[q] else []) == Indices(qs, q, |qs|)
    ensures forall j: nat :: j in found <==> Pairing(qs)(i, j)
    ensures forall a, b | 0 <= a < b < |found| :: found[a] != found[b]
  {
    var a := qs[i];
    var ids := if a.remote in m then m[a.remote] else [];
    assert ids == Indices(qs, a.remote, |qs|);
    found := [];
    for n := 0 to |ids|
      invariant Chosen(qs, a, ids, n, found)
    {
      var b := ids[n];
      assert b in ids;
      ChosenNext(qs, a, ids, n, found);
      if qs[b].end.host != a.end.host && qs[b].remote == a.qpn && EvidenceFor(a, qs[b]).Some? {
        found := found + [b];
      }
    }
    assert ids[..|ids|] == ids;
  }

  /** `found` holds the compatible ones of the first `n`. */
  ghost predicate Chosen(qs: seq<Qp>, a: Qp, ids: seq<nat>, n: nat, found: seq<nat>)
    requires n <= |ids|
  {
    && (forall j: nat :: j in found <==> j in ids[..n] && j < |qs| && Compatible(a, qs[j]))
    && (forall x, y | 0 <= x < y < |found| :: found[x] != found[y])
  }

  lemma ChosenNext(qs: seq<Qp>, a: Qp, ids: seq<nat>, n: nat, found: seq<nat>)
    requires n < |ids| && Chosen(qs, a, ids, n, found) && ids[n] < |qs|
    requires forall x, y | 0 <= x < y < |ids| :: ids[x] != ids[y]
    ensures Chosen(qs, a, ids, n + 1, if Compatible(a, qs[ids[n]]) then found + [ids[n]] else found)
  {
    assert ids[..n + 1] == ids[..n] + [ids[n]];
    assert ids[n] !in ids[..n];
  }

  lemma AllEqual(s: seq<nat>, x: nat)
    requires x in s && forall a | 0 <= a < |s| :: s[a] == x
    ensures |s| == 1 || s[0] == s[1]
  {
  }

  lemma SingleCandidate(qs: seq<Qp>, i: nat, found: seq<nat>)
    requires i < |qs| && forall j: nat :: j in found <==> Pairing(qs)(i, j)
    requires forall a, b | 0 <= a < b < |found| :: found[a] != found[b]
    ensures |found| == 1 <==> exists j: nat :: OnlyPartner(|qs|, Pairing(qs), i, j)
    ensures |found| == 1 ==> OnlyPartner(|qs|, Pairing(qs), i, found[0])
  {
    if |found| == 1 {
      assert found[0] in found;
      assert OnlyPartner(|qs|, Pairing(qs), i, found[0]);
    }
    if j: nat :| OnlyPartner(|qs|, Pairing(qs), i, j) {
      assert j in found;
      forall a | 0 <= a < |found|
        ensures found[a] == j
      {
        assert found[a] in found;
      }
      AllEqual(found, j);
    }
  }

  /** The link that index `i` is the smaller end of. */
  ghost predicate LinkFrom(qs: seq<Qp>, i: nat, l: Link<Evidence>)
    requires i < |qs|
  {
    exists j: nat | j < |qs| :: RdmaLinked(qs, i, j) && l == Link(qs[i].end, qs[j].end, EvidenceFor(qs[i], qs[j]).value)
  }

  method LinkOf(qs: seq<Qp>, m: map<nat, seq<nat>>, i: nat) returns (l: Option<Link<Evidence>>)
    requires i < |qs| && forall q: nat :: (if q in m then m[q] else []) == Indices(qs, q, |qs|)
    ensures forall x :: LinkFrom(qs, i, x) <==> l == Some(x)
  {
    var found := Candidates(qs, m, i);
    SingleCandidate(qs, i, found);
    if |found| != 1 {
      return None;
    }
    var other := found[0];
    var back := Candidates(qs, m, other);
    SingleCandidate(qs, other, back);
    var a, b := qs[i], qs[other];
    var e := EvidenceFor(a, b).value;
    if !EndBefore(a.end, b.end) || !(|back| == 1 && back[0] == i) || (!(e.gid || e.cm) && a.linkLayer != b.linkLayer) {
      return None;
    }
    assert RdmaLinked(qs, i, other);
    l := Some(Link(a.end, b.end, e));
  }

  /** `rdma_links`: the mutually unique pairings, in the order of their ends. */
  method RdmaLinks(hosts: seq<Host>) returns (links: seq<Link<Evidence>>)
    requires DistinctQps(Qps(hosts))
    ensures Ascending(links) && forall l :: l in links <==> IsRdmaLink(Qps(hosts), l)
  {
    var qs := CollectQps(hosts);
    var m := GroupQps(qs);
    var found: seq<Link<Evidence>> := [];
    for i := 0 to |qs|
      invariant FoundUpTo(qs, i, found) && DistinctLinks(found)
    {
      var l := LinkOf(qs, m, i);
      if l.Some? {
        FoundNext(qs, i, found, l.value);
        found := found + [l.value];
      } else {
        assert forall x :: !LinkFrom(qs, i, x);
      }
    }
    forall l
      ensures IsRdmaLink(qs, l) <==> l in found
    {
      LinkFromIndex(qs, l);
    }
    SortLinksKeeps(found);
    links := SortLinks(found);
  }

  /** `found` holds the links of the queue pairs before `i`. */
  ghost predicate FoundUpTo(qs: seq<Qp>, i: nat, found: seq<Link<Evidence>>)
    requires i <= |qs|
  {
    forall l :: l in found <==> exists k: nat | k < i :: LinkFrom(qs, k, l)
  }

  lemma FoundNext(qs: seq<Qp>, i: nat, found: seq<Link<Evidence>>, l: Link<Evidence>)
    requires i < |qs| && FoundUpTo(qs, i, found) && DistinctLinks(found) && DistinctQps(qs)
    requires LinkFrom(qs, i, l) && forall x :: LinkFrom(qs, i, x) ==> x == l
    ensures FoundUpTo(qs, i + 1, found + [l]) && DistinctLinks(found + [l])
  {
    forall x | x in found
      ensures x.a != l.a
    {
      var k: nat :| k < i && LinkFrom(qs, k, x);
      assert qs[k].end != qs[i].end;
    }
    forall x
      ensures x in found + [l] <==> exists k: nat | k < i + 1 :: LinkFrom(qs, k, x)
    {
      assert x in found + [l] <==> x in found || x == l;
    }
  }

  lemma LinkFromIndex(qs: seq<Qp>, l: Link<Evidence>)
    ensures IsRdmaLink(qs, l) <==> exists k: nat | k < |qs| :: LinkFrom(qs, k, l)
  {
    if IsRdmaLink(qs, l) {
      var i: nat, j: nat :| i < |qs| && j < |qs| &&
        RdmaLinked(qs, i, j) && l == Link(qs[i].end, qs[j].end, EvidenceFor(qs[i], qs[j]).value);
      assert LinkFrom(qs, i, l);
    }
    if k: nat :| k < |qs| && LinkFrom(qs, k, l) {
      var j: nat :| j < |qs| && RdmaLinked(qs, k, j) && l == Link(qs[k].end, qs[j].end, EvidenceFor(qs[k], qs[j]).value);
    }
  }
}

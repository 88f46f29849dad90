/**
 Descriptor endpoints and how a snapshot coalesces them (the owner loop of
 `collect_system_snapshot_from_sources`, src/privileged_helper/system/snapshot.rs).
 */
module Descriptors {
  datatype Process = Process(pid: nat, start: nat)
  datatype Access = Read | Write | ReadWrite | Unknown

  /** A pipe or socket; `socket` is the kind of the descriptors that refer to it. */
  datatype Resource = Resource(socket: bool, device: nat, inode: nat)

  /** The descriptors a process holds on a resource with one access, shown by the least one. */
  datatype Endpoint = Endpoint(process: Process, fd: nat, count: nat, resource: Resource, access: Access)

  /** What a relation id names an endpoint by. */
  datatype End = End(pid: nat, start: nat, fd: nat)

  function EndOf(e: Endpoint): End { End(e.process.pid, e.process.start, e.fd) }

  predicate Less(a: End, b: End) {
    a.pid < b.pid || (a.pid == b.pid && (a.start < b.start || (a.start == b.start && a.fd < b.fd)))
  }

  predicate Opposite(a: Access, b: Access) {
    match a
    case Read => b.Write? || b.ReadWrite?
    case Write => b.Read? || b.ReadWrite?
    case ReadWrite => !b.Unknown?
    case Unknown => false
  }

  ghost predicate UniqueEnds(es: seq<Endpoint>) {
    forall i, j | 0 <= i < j < |es| :: EndOf(es[i]) != EndOf(es[j])
  }

  type Owners = map<Resource, seq<Endpoint>>

  /** Every list belongs to its resource, and no process and descriptor occurs twice. */
  ghost predicate Coalesced(o: Owners) {
    && (forall k, e | k in o && e in o[k] :: e.resource == k)
    && (forall k | k in o :: UniqueEnds(o[k]))
    && (forall k, l, e, f | k in o && l in o && k != l && e in o[k] && f in o[l] :: EndOf(e) != EndOf(f))
  }

  ghost predicate SameGroup(a: Endpoint, b: Endpoint) {
    a.resource == b.resource && a.process == b.process && a.access == b.access
  }

  ghost function GroupSize(es: seq<Endpoint>, g: Endpoint): nat {
    if es == [] then 0
    else GroupSize(es[..|es| - 1], g) + if SameGroup(es[|es| - 1], g) then 1 else 0
  }

  /** The list entry of a group stands for all descriptors of the group, by the least of them. */
  ghost predicate Stands(e: Endpoint, seen: seq<Endpoint>) {
    && e.count == GroupSize(seen, e)
    && (exists p | p in seen :: SameGroup(p, e) && p.fd == e.fd)
    && (forall p | p in seen && SameGroup(p, e) :: e.fd <= p.fd)
  }

  ghost predicate Represents(o: Owners, seen: seq<Endpoint>) {
    && (forall k, e | k in o && e in o[k] :: e.resource == k && Stands(e, seen))
    && (forall k, i, j | k in o && 0 <= i < j < |o[k]| :: !SameGroup(o[k][i], o[k][j]))
    && (forall p | p in seen :: p.resource in o && exists e | e in o[p.resource] :: SameGroup(p, e))
  }

  method FindGroup(list: seq<Endpoint>, p: Endpoint) returns (i: nat)
    ensures i <= |list|
    ensures i < |list| ==> list[i].process == p.process && list[i].access == p.access
    ensures forall j | 0 <= j < i :: !(list[j].process == p.process && list[j].access == p.access)
  {
    i := 0;
    while i < |list| && !(list[i].process == p.process && list[i].access == p.access)
      invariant i <= |list|
      invariant forall j | 0 <= j < i :: !(list[j].process == p.process && list[j].access == p.access)
    {
      i := i + 1;
    }
  }

  function Joined(e: Endpoint, p: Endpoint): Endpoint {
    e.(fd := if e.fd <= p.fd then e.fd else p.fd, count := e.count + 1)
  }

  lemma GroupSizeSame(es: seq<Endpoint>, a: Endpoint, b: Endpoint)
    requires SameGroup(a, b)
    ensures GroupSize(es, a) == GroupSize(es, b)
  {
  }

  lemma StandsStep(e: Endpoint, seen: seq<Endpoint>, p: Endpoint)
    requires Stands(e, seen)
    ensures if SameGroup(p, e) then Stands(Joined(e, p), seen + [p]) else Stands(e, seen + [p])
  {
    assert (seen + [p])[..|seen|] == seen;
    if SameGroup(p, e) {
      var j := Joined(e, p);
      GroupSizeSame(seen, e, j);
      if e.fd <= p.fd {
        var q :| q in seen && SameGroup(q, e) && q.fd == e.fd;
        assert q in seen + [p] && SameGroup(q, j);
      } else {
        assert p in seen + [p] && SameGroup(p, j);
      }
    } else {
      var q :| q in seen && SameGroup(q, e) && q.fd == e.fd;
      assert q in seen + [p];
    }
  }

  lemma {:induction false} NoneInGroup(seen: seq<Endpoint>, p: Endpoint)
    requires forall q | q in seen :: !SameGroup(q, p)
    ensures GroupSize(seen, p) == 0
    decreases |seen|
  {
    if seen != [] {
      assert seen[|seen| - 1] in seen;
      NoneInGroup(seen[..|seen| - 1], p);
    }
  }

  lemma FirstOfGroup(seen: seq<Endpoint>, p: Endpoint)
    requires p.count == 1 && forall q | q in seen :: !SameGroup(q, p)
    ensures Stands(p, seen + [p])
  {
    NoneInGroup(seen, p);
    assert (seen + [p])[..|seen|] == seen;
    assert p in seen + [p] && SameGroup(p, p);
  }

  /** The owner lists after one more descriptor. */
  function Added(o: Owners, p: Endpoint, i: nat): Owners
    requires p.resource in o && i <= |o[p.resource]|
  {
    var list := o[p.resource];
    o[p.resource := if i < |list| then list[i := Joined(list[i], p)] else list + [p]]
  }

  ghost predicate IsGroupIndex(list: seq<Endpoint>, p: Endpoint, i: nat) {
    && i <= |list|
    && (i < |list| ==> SameGroup(list[i], p))
    && (i == |list| ==> forall e | e in list :: !SameGroup(e, p))
  }

  lemma AddedRepresents(o: Owners, seen: seq<Endpoint>, p: Endpoint, i: nat)
    requires Represents(o, seen) && p.count == 1 && p.resource in o && IsGroupIndex(o[p.resource], p, i)
    ensures Represents(Added(o, p, i), seen + [p])
  {
    var o': Owners := Added(o, p, i);
    forall k: Resource, e: Endpoint | k in o' && e in o'[k]
      ensures e.resource == k && Stands(e, seen + [p])
    {
      AddedStands(o, seen, p, i, k, e);
    }
    forall q | q in seen + [p]
      ensures q.resource in o' && exists e | e in o'[q.resource] :: SameGroup(q, e)
    {
      AddedCovers(o, seen, p, i, q);
    }
    forall k: Resource, a: nat, b: nat | k in o' && 0 <= a < b < |o'[k]|
      ensures !SameGroup(o'[k][a], o'[k][b])
    {
      if k == p.resource {
        assert a < |o[k]| && (b < |o[k]| ==> !SameGroup(o[k][a], o[k][b]));
        assert o[k][a] in o[k];
      }
    }
  }

  lemma AddedStands(o: Owners, seen: seq<Endpoint>, p: Endpoint, i: nat, k: Resource, e: Endpoint)
    requires Represents(o, seen) && p.count == 1 && p.resource in o && IsGroupIndex(o[p.resource], p, i)
    requires k in Added(o, p, i) && e in Added(o, p, i)[k]
    ensures e.resource == k && Stands(e, seen + [p])
  {
    var list := o[p.resource];
    if k != p.resource {
      StandsStep(e, seen, p);
    } else {
      var j :| 0 <= j < |Added(o, p, i)[k]| && Added(o, p, i)[k][j] == e;
      if j == |list| {
        assert i == |list|;
        assert forall q | q in seen :: !SameGroup(q, p);
        FirstOfGroup(seen, p);
      } else {
        assert list[j] in list;
        StandsStep(list[j], seen, p);
        if j != i && i < |list| {
          assert !SameGroup(list[j], list[i]);
        }
      }
    }
  }

  lemma AddedCovers(o: Owners, seen: seq<Endpoint>, p: Endpoint, i: nat, q: Endpoint)
    requires Represents(o, seen) && p.count == 1 && p.resource in o && IsGroupIndex(o[p.resource], p, i)
    requires q in seen + [p]
    ensures var o' := Added(o, p, i);
            q.resource in o' && exists e | e in o'[q.resource] :: SameGroup(q, e)
  {
    var o': Owners := Added(o, p, i);
    if q in seen {
      var e :| e in o[q.resource] && SameGroup(q, e);
      var j :| 0 <= j < |o[q.resource]| && o[q.resource][j] == e;
      assert SameGroup(q, o'[q.resource][j]);
    } else {
      assert SameGroup(q, o'[q.resource][i]);
    }
  }

  /******* Conservation *******/

  ghost function SumCounts(list: seq<Endpoint>): nat {
    if list == [] then 0 else SumCounts(list[..|list| - 1]) + list[|list| - 1].count
  }

  /** The descriptors that the lists of some resources stand for. */
  ghost function Total(o: Owners, keys: set<Resource>): nat
    requires keys <= o.Keys
  {
    if keys == {} then 0
    else
      var k :| k in keys;
      SumCounts(o[k]) + Total(o, keys - {k})
  }

  lemma {:induction false} TotalSplit(o: Owners, keys: set<Resource>, k: Resource)
    requires keys <= o.Keys && k in keys
    ensures Total(o, keys) == SumCounts(o[k]) + Total(o, keys - {k})
    decreases keys
  {
    var x :| x in keys && Total(o, keys) == SumCounts(o[x]) + Total(o, keys - {x});
    if x != k {
      TotalSplit(o, keys - {x}, k);
      TotalSplit(o, keys - {k}, x);
      assert keys - {x} - {k} == keys - {k} - {x};
    }
  }

  lemma {:induction false} TotalSame(o: Owners, o': Owners, keys: set<Resource>)
    requires keys <= o.Keys && keys <= o'.Keys && forall k | k in keys :: o[k] == o'[k]
    ensures Total(o, keys) == Total(o', keys)
    decreases keys
  {
    if keys != {} {
      var k :| k in keys;
      TotalSplit(o, keys, k);
      TotalSplit(o', keys, k);
      TotalSame(o, o', keys - {k});
    }
  }

  lemma {:induction false} SumCountsUpdate(list: seq<Endpoint>, i: nat, e: Endpoint)
    requires i < |list|
    ensures SumCounts(list[i := e]) + list[i].count == SumCounts(list) + e.count
    decreases |list|
  {
    if i < |list| - 1 {
      assert list[i := e][..|list| - 1] == list[..|list| - 1][i := e];
      SumCountsUpdate(list[..|list| - 1], i, e);
    } else {
      assert list[i := e][..|list| - 1] == list[..|list| - 1];
    }
  }

  lemma AddedTotal(o: Owners, p: Endpoint, i: nat)
    requires p.count == 1 && p.resource in o && i <= |o[p.resource]|
    ensures var o' := Added(o, p, i);
            Total(o', o'.Keys) == Total(o, o.Keys) + 1
  {
    var o': Owners := Added(o, p, i);
    var list := o[p.resource];
    assert o'.Keys == o.Keys;
    TotalSplit(o, o.Keys, p.resource);
    TotalSplit(o', o.Keys, p.resource);
    TotalSame(o, o', o.Keys - {p.resource});
    if i < |list| {
      SumCountsUpdate(list, i, Joined(list[i], p));
    } else {
      assert (list + [p])[..|list|] == list;
    }
  }

  lemma EmptyListTotal(o: Owners, k: Resource)
    requires k !in o
    ensures Total(o[k := []], o[k := []].Keys) == Total(o, o.Keys)
  {
    var o': Owners := o[k := []];
    TotalSplit(o', o'.Keys, k);
    assert o'.Keys - {k} == o.Keys;
    TotalSame(o, o', o.Keys);
  }

  lemma EmptyListRepresents(o: Owners, seen: seq<Endpoint>, k: Resource)
    requires k !in o && Represents(o, seen)
    ensures Represents(o[k := []], seen)
  {
    var o': Owners := o[k := []];
    assert forall l | l in o' :: o'[l] == if l in o then o[l] else [];
  }

  /** One round of the loop: the descriptor joins its group or starts a new one. */
  method AddEndpoint(o: Owners, p: Endpoint, ghost seen: seq<Endpoint>) returns (r: Owners)
    requires Represents(o, seen) && p.count == 1
    ensures Represents(r, seen + [p]) && Total(r, r.Keys) == Total(o, o.Keys) + 1
  {
    r := o;
    if p.resource !in r {
      EmptyListRepresents(r, seen, p.resource);
      EmptyListTotal(r, p.resource);
      r := r[p.resource := []];
    }
    var list := r[p.resource];
    var i := FindGroup(list, p);
    assert IsGroupIndex(list, p, i);
    AddedRepresents(r, seen, p, i);
    AddedTotal(r, p, i);
    if i < |list| {
      list := list[i := list[i].(fd := if list[i].fd <= p.fd then list[i].fd else p.fd, count := list[i].count + 1)];
    } else {
      list := list + [p];
    }
    r := r[p.resource := list];
  }

  /**
   The coalescing loop: the lists stand for exactly the descriptors seen, each group of equal
   process and access once; no descriptor number repeats, and the counts add up to all of them.
   */
  method Coalesce(endpoints: seq<Endpoint>) returns (o: Owners)
    requires UniqueEnds(endpoints) && forall p | p in endpoints :: p.count == 1
    ensures Represents(o, endpoints) && Coalesced(o) && Total(o, o.Keys) == |endpoints|
  {
    o := map[];
    ghost var seen: seq<Endpoint> := [];
    var n := 0;
    while n < |endpoints|
      invariant 0 <= n <= |endpoints| && seen == endpoints[..n]
      invariant Represents(o, seen)
      invariant Total(o, o.Keys) == n
    {
      var p := endpoints[n];
      o := AddEndpoint(o, p, seen);
      seen, n := seen + [p], n + 1;
    }
    assert seen == endpoints;
    RepresentsCoalesced(o, seen);
  }

  /** Two entries with the same descriptor would stand for one descriptor of one group. */
  lemma SameEndSameGroup(o: Owners, seen: seq<Endpoint>, e: Endpoint, f: Endpoint)
    requires UniqueEnds(seen) && Stands(e, seen) && Stands(f, seen) && EndOf(e) == EndOf(f)
    ensures SameGroup(e, f)
  {
    var p :| p in seen && SameGroup(p, e) && p.fd == e.fd;
    var q :| q in seen && SameGroup(q, f) && q.fd == f.fd;
    assert EndOf(p) == EndOf(q);
  }

  lemma RepresentsCoalesced(o: Owners, seen: seq<Endpoint>)
    requires Represents(o, seen) && UniqueEnds(seen)
    ensures Coalesced(o)
  {
    forall k, i, j | k in o && 0 <= i < j < |o[k]|
      ensures EndOf(o[k][i]) != EndOf(o[k][j])
    {
      if EndOf(o[k][i]) == EndOf(o[k][j]) {
        assert o[k][i] in o[k] && o[k][j] in o[k];
        SameEndSameGroup(o, seen, o[k][i], o[k][j]);
      }
    }
    forall k, l, e, f | k in o && l in o && k != l && e in o[k] && f in o[l]
      ensures EndOf(e) != EndOf(f)
    {
      if EndOf(e) == EndOf(f) {
        SameEndSameGroup(o, seen, e, f);
      }
    }
  }
}

/** The order of link ends and the sorted link lists of src/http_server/hosts/correlate.rs. */
module LinkOrder {
  import opened Basics

  /** Where a link ends: a relation of a host. */
  datatype LinkEnd = LinkEnd(host: string, relation: string)

  /** A link between two ends with what is known about it. */
  datatype Link<+E> = Link(a: LinkEnd, b: LinkEnd, evidence: E)

  predicate EndBefore(a: LinkEnd, b: LinkEnd) {
    Before(a.host, b.host) || (a.host == b.host && Before(a.relation, b.relation))
  }

  lemma EndTotal(a: LinkEnd, b: LinkEnd)
    ensures a == b || EndBefore(a, b) || EndBefore(b, a)
    ensures !(EndBefore(a, b) && (a == b || EndBefore(b, a)))
  {
    BeforeTotal(a.host, b.host);
    BeforeTotal(a.relation, b.relation);
  }

  lemma EndTransitive(a: LinkEnd, b: LinkEnd, c: LinkEnd)
    requires EndBefore(a, b) && EndBefore(b, c)
    ensures EndBefore(a, c)
  {
    if Before(a.host, b.host) && Before(b.host, c.host) {
      BeforeTransitive(a.host, b.host, c.host);
    } else if a.host == b.host == c.host {
      BeforeTransitive(a.relation, b.relation, c.relation);
    }
  }

  predicate LinkBefore<E>(x: Link<E>, y: Link<E>) {
    EndBefore(x.a, y.a) || (x.a == y.a && EndBefore(x.b, y.b))
  }

  lemma LinkTransitive<E>(x: Link<E>, y: Link<E>, z: Link<E>)
    requires LinkBefore(x, y) && LinkBefore(y, z)
    ensures LinkBefore(x, z)
  {
    if EndBefore(x.a, y.a) && EndBefore(y.a, z.a) {
      EndTransitive(x.a, y.a, z.a);
    } else if x.a == y.a == z.a {
      EndTransitive(x.b, y.b, z.b);
    }
  }

  lemma LinkTotal<E>(x: Link<E>, y: Link<E>)
    ensures (x.a == y.a && x.b == y.b) || LinkBefore(x, y) || LinkBefore(y, x)
    ensures !(LinkBefore(x, y) && ((x.a == y.a && x.b == y.b) || LinkBefore(y, x)))
  {
    EndTotal(x.a, y.a);
    EndTotal(x.b, y.b);
  }

  ghost predicate Ascending<E>(s: seq<Link<E>>) {
    forall i, j | 0 <= i < j < |s| :: LinkBefore(s[i], s[j])
  }

  function InsertLink<E>(s: seq<Link<E>>, x: Link<E>): seq<Link<E>> {
    if s == [] || LinkBefore(x, s[0]) then [x] + s else [s[0]] + InsertLink(s[1..], x)
  }

  /** The sort by both ends. */
  function SortLinks<E>(s: seq<Link<E>>): seq<Link<E>> {
    if s == [] then [] else InsertLink(SortLinks(s[1..]), s[0])
  }

  ghost predicate DistinctLinks<E>(s: seq<Link<E>>) {
    forall i, j | 0 <= i < j < |s| :: s[i].a != s[j].a
  }

  lemma {:induction false} InsertLinkKeeps<E(!new)>(s: seq<Link<E>>, x: Link<E>)
    requires Ascending(s) && forall y | y in s :: y.a != x.a
    ensures Ascending(InsertLink(s, x))
    ensures forall y :: y in InsertLink(s, x) <==> y in s || y == x
    decreases |s|
  {
    if s != [] {
      LinkTotal(x, s[0]);
      assert s[0] in s && s == [s[0]] + s[1..];
      if LinkBefore(x, s[0]) {
        forall j | 0 < j < |s|
          ensures LinkBefore(x, s[j])
        {
          LinkTransitive(x, s[0], s[j]);
        }
      } else {
        InsertLinkKeeps(s[1..], x);
        assert forall y | y in InsertLink(s[1..], x) :: LinkBefore(s[0], y);
      }
    }
  }

  lemma {:induction false} SortLinksKeeps<E(!new)>(s: seq<Link<E>>)
    requires DistinctLinks(s)
    ensures Ascending(SortLinks(s))
    ensures forall y :: y in SortLinks(s) <==> y in s
    decreases |s|
  {
    if s != [] {
      SortLinksKeeps(s[1..]);
      assert s == [s[0]] + s[1..];
      InsertLinkKeeps(SortLinks(s[1..]), s[0]);
    }
  }

  lemma AscendingHead<E(!new)>(s: seq<Link<E>>, t: seq<Link<E>>)
    requires Ascending(s) && Ascending(t) && s != [] && t != [] && forall y :: y in s <==> y in t
    ensures s[0] == t[0]
  {
    assert s[0] in t && t[0] in s;
    var i :| 0 <= i < |t| && t[i] == s[0];
    var j :| 0 <= j < |s| && s[j] == t[0];
    LinkTotal(s[0], t[0]);
  }

  lemma HasMember<T(!new)>(t: seq<T>)
    ensures t != [] ==> exists y :: y in t
  {
    if t != [] {
      assert t[0] in t;
    }
  }

  /** A sorted list is determined by its links. */
  lemma {:induction false} AscendingDetermined<E(!new)>(s: seq<Link<E>>, t: seq<Link<E>>)
    requires Ascending(s) && Ascending(t) && forall y :: y in s <==> y in t
    ensures s == t
    decreases |s|
  {
    HasMember(t);
    if s != [] {
      assert s[0] in t;
      AscendingHead(s, t);
      TailsAgree(s, t);
      AscendingDetermined(s[1..], t[1..]);
      assert s == [s[0]] + s[1..] && t == [t[0]] + t[1..];
    }
  }

  lemma TailsAgree<E(!new)>(s: seq<Link<E>>, t: seq<Link<E>>)
    requires Ascending(s) && Ascending(t) && s != [] && t != [] && s[0] == t[0] && forall y :: y in s <==> y in t
    ensures forall y :: y in s[1..] <==> y in t[1..]
  {
    assert s == [s[0]] + s[1..] && t == [t[0]] + t[1..];
    forall y
      ensures y in s[1..] <==> y in s && y != s[0]
      ensures y in t[1..] <==> y in t && y != t[0]
    {
      LinkTotal(s[0], s[0]);
    }
  }
}

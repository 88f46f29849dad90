/**
 Lists of entries with a key, as snapshots carry them, and the keyed deltas between two
 such lists (`build_array_delta` of src/http_server/delivery.rs) together with the way a
 client applies them (web/src/space/snapshot-merge.ts).
 */
module KeyedEntries {
  import opened Basics

  datatype Entry<+K> = Entry(key: K, body: string)

  datatype Change<+K> = Change(upsert: seq<Entry<K>>, remove: seq<K>)

  /** The entry a hash map collected from `s` holds for `k`: a later duplicate wins. */
  function Find<K(==)>(s: seq<Entry<K>>, k: K): (r: Option<Entry<K>>)
    ensures r.Some? ==> r.value.key == k && r.value in s
    ensures r.None? ==> forall e | e in s :: e.key != k
  {
    if s == [] then None
    else if s[|s| - 1].key == k then Some(s[|s| - 1])
    else Find(s[..|s| - 1], k)
  }

  ghost predicate Unique<K(!new)>(s: seq<Entry<K>>) {
    forall i, j | 0 <= i < j < |s| :: s[i].key != s[j].key
  }

  /** Two lists hold the same entries under the same keys. */
  ghost predicate Same<K(!new)>(a: seq<Entry<K>>, b: seq<Entry<K>>) {
    forall k :: Find(a, k) == Find(b, k)
  }

  lemma {:induction false} FindInUnique<K(!new)>(s: seq<Entry<K>>, i: nat)
    requires Unique(s) && i < |s|
    ensures Find(s, s[i].key) == Some(s[i])
    decreases |s|
  {
    if i < |s| - 1 {
      FindInUnique(s[..|s| - 1], i);
    }
  }

  lemma {:induction false} FindConcat<K(!new)>(a: seq<Entry<K>>, b: seq<Entry<K>>, k: K)
    ensures Find(a + b, k) == if Find(b, k).Some? then Find(b, k) else Find(a, k)
    decreases |b|
  {
    if b == [] {
      assert a + b == a;
    } else {
      assert (a + b)[..|a + b| - 1] == a + b[..|b| - 1];
      FindConcat(a, b[..|b| - 1], k);
    }
  }

  /******* The delta *******/

  /** Entries of `current` that are new or differ from the entry under their key in `base`. */
  function Upserts<K(==,!new)>(base: seq<Entry<K>>, current: seq<Entry<K>>): (r: seq<Entry<K>>)
    ensures forall e :: e in r <==> e in current && Find(base, e.key) != Some(e)
  {
    if current == [] then []
    else
      var last := current[|current| - 1];
      var front := Upserts(base, current[..|current| - 1]);
      assert current == current[..|current| - 1] + [last];
      if Find(base, last.key) != Some(last) then front + [last] else front
  }

  /** Keys of `base` that no entry of `current` has. */
  function Removals<K(==,!new)>(base: seq<Entry<K>>, current: seq<Entry<K>>): (r: seq<K>)
    ensures forall k :: k in r <==> Find(base, k).Some? && Find(current, k).None?
  {
    if base == [] then []
    else
      var last := base[|base| - 1];
      var front := Removals(base[..|base| - 1], current);
      if Find(current, last.key).None? then front + [last.key] else front
  }

  /**
   `build_array_delta`: the delta, when it is chosen over sending the list whole.  The source
   compares the two serialized sizes; here `smaller` is any choice.
   */
  function BuildDelta<K(==,!new)>(smaller: (Change<K>, seq<Entry<K>>) -> bool,
                             base: seq<Entry<K>>, current: seq<Entry<K>>): Option<Change<K>>
  {
    var change := Change(Upserts(base, current), Removals(base, current));
    if smaller(change, current) then Some(change) else None
  }

  /******* Applying it *******/

  /** `Map.set`: a known key keeps its place, a new key goes to the end. */
  function Set<K(==)>(m: seq<Entry<K>>, e: Entry<K>): (r: seq<Entry<K>>) {
    if m == [] then [e]
    else if m[0].key == e.key then [e] + m[1..]
    else [m[0]] + Set(m[1..], e)
  }

  /** `Map.delete`. */
  function Delete<K(==)>(m: seq<Entry<K>>, k: K): (r: seq<Entry<K>>) {
    if m == [] then []
    else if m[0].key == k then Delete(m[1..], k)
    else [m[0]] + Delete(m[1..], k)
  }

  function SetAll<K(==)>(m: seq<Entry<K>>, es: seq<Entry<K>>): (r: seq<Entry<K>>) {
    if es == [] then m else Set(SetAll(m, es[..|es| - 1]), es[|es| - 1])
  }

  function DeleteAll<K(==)>(m: seq<Entry<K>>, ks: seq<K>): (r: seq<Entry<K>>) {
    if ks == [] then m else Delete(DeleteAll(m, ks[..|ks| - 1]), ks[|ks| - 1])
  }

  /** The client: a map of the old entries, then the removals, then the upserts. */
  function Apply<K(==)>(base: seq<Entry<K>>, c: Change<K>): (r: seq<Entry<K>>) {
    SetAll(DeleteAll(SetAll([], base), c.remove), c.upsert)
  }

  lemma {:induction false} FindCons<K(!new)>(e: Entry<K>, m: seq<Entry<K>>, k: K)
    ensures Find([e] + m, k) == if Find(m, k).Some? then Find(m, k) else if e.key == k then Some(e) else None
  {
    FindConcat([e], m, k);
    assert [e][..0] == [];
  }

  lemma {:induction false} SetFinds<K(!new)>(m: seq<Entry<K>>, e: Entry<K>, k: K)
    requires Unique(m)
    ensures Unique(Set(m, e))
    ensures Find(Set(m, e), k) == if k == e.key then Some(e) else Find(m, k)
    ensures forall x | x in Set(m, e) :: x == e || x in m
    decreases |m|
  {
    if m == [] {
      assert [e][..0] == [];
    } else {
      assert m == [m[0]] + m[1..];
      FindCons(m[0], m[1..], k);
      if m[0].key == e.key {
        FindCons(e, m[1..], k);
      } else {
        SetFinds(m[1..], e, k);
        FindCons(m[0], Set(m[1..], e), k);
        assert forall x | x in Set(m[1..], e) :: x.key != m[0].key;
      }
    }
  }

  lemma UniqueCons<K(!new)>(h: Entry<K>, t: seq<Entry<K>>)
    requires Unique(t) && forall x | x in t :: x.key != h.key
    ensures Unique([h] + t)
  {
  }

  lemma UniqueTail<K(!new)>(m: seq<Entry<K>>)
    requires Unique(m) && m != []
    ensures Unique(m[1..]) && forall x | x in m[1..] :: x.key != m[0].key
  {
  }

  lemma {:induction false} DeleteKeeps<K(!new)>(m: seq<Entry<K>>, d: K)
    requires Unique(m)
    ensures Unique(Delete(m, d))
    ensures forall x | x in Delete(m, d) :: x in m
    decreases |m|
  {
    if m != [] {
      UniqueTail(m);
      DeleteKeeps(m[1..], d);
      if m[0].key != d {
        UniqueCons(m[0], Delete(m[1..], d));
      }
    }
  }

  lemma {:induction false} DeleteFinds<K(!new)>(m: seq<Entry<K>>, d: K, k: K)
    requires Unique(m)
    ensures Unique(Delete(m, d))
    ensures Find(Delete(m, d), k) == if k == d then None else Find(m, k)
    decreases |m|
  {
    DeleteKeeps(m, d);
    if m != [] {
      UniqueTail(m);
      assert m == [m[0]] + m[1..];
      FindCons(m[0], m[1..], k);
      DeleteFinds(m[1..], d, k);
      if m[0].key != d {
        DeleteKeeps(m[1..], d);
        FindCons(m[0], Delete(m[1..], d), k);
      }
    }
  }

  lemma {:induction false} SetAllFinds<K(!new)>(m: seq<Entry<K>>, es: seq<Entry<K>>, k: K)
    requires Unique(m)
    ensures Unique(SetAll(m, es))
    ensures Find(SetAll(m, es), k) == if Find(es, k).Some? then Find(es, k) else Find(m, k)
    decreases |es|
  {
    if es != [] {
      SetAllFinds(m, es[..|es| - 1], k);
      SetFinds(SetAll(m, es[..|es| - 1]), es[|es| - 1], k);
    }
  }

  lemma {:induction false} DeleteAllFinds<K(!new)>(m: seq<Entry<K>>, ks: seq<K>, k: K)
    requires Unique(m)
    ensures Unique(DeleteAll(m, ks))
    ensures Find(DeleteAll(m, ks), k) == if k in ks then None else Find(m, k)
    decreases |ks|
  {
    if ks != [] {
      DeleteAllFinds(m, ks[..|ks| - 1], k);
      DeleteFinds(DeleteAll(m, ks[..|ks| - 1]), ks[|ks| - 1], k);
      assert ks == ks[..|ks| - 1] + [ks[|ks| - 1]];
    }
  }

  lemma ApplyFinds<K(!new)>(base: seq<Entry<K>>, c: Change<K>, k: K)
    ensures Unique(Apply(base, c))
    ensures Find(Apply(base, c), k) ==
            if Find(c.upsert, k).Some? then Find(c.upsert, k)
            else if k in c.remove then None else Find(base, k)
  {
    SetAllFinds([], base, k);
    DeleteAllFinds(SetAll([], base), c.remove, k);
    SetAllFinds(DeleteAll(SetAll([], base), c.remove), c.upsert, k);
  }

  lemma {:induction false} FindUpserts<K(!new)>(base: seq<Entry<K>>, current: seq<Entry<K>>, k: K)
    requires Unique(current)
    ensures var now := Find(current, k);
            Find(Upserts(base, current), k) == if now.Some? && now != Find(base, k) then now else None
    decreases |current|
  {
    if current != [] {
      var front, last := current[..|current| - 1], current[|current| - 1];
      FindUpserts(base, front, k);
      FindConcat(Upserts(base, front), [last], k);
      assert [last][..0] == [];
    }
  }

  /**
   A client that holds the old entries and applies the delta holds exactly the new entries,
   under whatever order its own list has.
   */
  lemma DeltaTransfers<K(!new)>(held: seq<Entry<K>>, base: seq<Entry<K>>, current: seq<Entry<K>>)
    requires Same(held, base) && Unique(current)
    ensures var next := Apply(held, Change(Upserts(base, current), Removals(base, current)));
            Unique(next) && Same(next, current)
  {
    var c := Change(Upserts(base, current), Removals(base, current));
    ApplyUnique(held, c);
    forall k
      ensures Find(Apply(held, c), k) == Find(current, k)
    {
      ApplyFinds(held, c, k);
      FindUpserts(base, current, k);
    }
  }

  lemma ApplyUnique<K(!new)>(base: seq<Entry<K>>, c: Change<K>)
    ensures Unique(Apply(base, c))
  {
    if Apply(base, c) != [] {
      ApplyFinds(base, c, Apply(base, c)[0].key);
    }
  }

  /** With a repeated key the delta can leave the client with the wrong one of the two. */
  lemma RepeatedKeysBreakDeltas(a: Entry<string>, b: Entry<string>)
    requires a.key == b.key && a != b
    ensures var base, current := [b], [a, b];
            !Same(Apply(base, Change(Upserts(base, current), Removals(base, current))), current)
  {
    var base, current := [b], [a, b];
    var c := Change(Upserts(base, current), Removals(base, current));
    assert current[..1] == [a] && [a][..0] == [];
    assert Find(base, b.key) == Some(b);
    assert Upserts(base, [a]) == Upserts(base, []) + [a];
    ApplyFinds(base, c, a.key);
  }

  /******* Sameness is equality up to order *******/

  lemma {:induction false} UniqueMultiset<K(!new)>(s: seq<Entry<K>>, e: Entry<K>)
    requires Unique(s)
    ensures multiset(s)[e] == if Find(s, e.key) == Some(e) then 1 else 0
    decreases |s|
  {
    if s != [] {
      var front, last := s[..|s| - 1], s[|s| - 1];
      assert s == front + [last];
      UniqueMultiset(front, e);
    }
  }

  lemma SameIsPermutation<K(!new)>(a: seq<Entry<K>>, b: seq<Entry<K>>)
    requires Unique(a) && Unique(b) && Same(a, b)
    ensures multiset(a) == multiset(b)
  {
    forall e
      ensures multiset(a)[e] == multiset(b)[e]
    {
      UniqueMultiset(a, e);
      UniqueMultiset(b, e);
    }
  }

  /******* Lists in key order *******/

  ghost predicate Ascending(s: seq<Entry<int>>) {
    forall i, j | 0 <= i < j < |s| :: s[i].key < s[j].key
  }

  function InsertSorted(s: seq<Entry<int>>, e: Entry<int>): seq<Entry<int>> {
    if s == [] then [e]
    else if e.key < s[0].key then [e] + s
    else [s[0]] + InsertSorted(s[1..], e)
  }

  /** The client's sort by start address. */
  function Sorted(s: seq<Entry<int>>): seq<Entry<int>> {
    if s == [] then [] else InsertSorted(Sorted(s[1..]), s[0])
  }

  lemma AscendingCons(h: Entry<int>, t: seq<Entry<int>>)
    requires Ascending(t) && forall x | x in t :: h.key < x.key
    ensures Ascending([h] + t)
  {
    forall i, j | 0 <= i < j < |[h] + t|
      ensures ([h] + t)[i].key < ([h] + t)[j].key
    {
      assert t[j - 1] in t;
      if i > 0 { assert t[i - 1].key < t[j - 1].key; }
    }
  }

  lemma AscendingTail(s: seq<Entry<int>>)
    requires Ascending(s) && s != []
    ensures Ascending(s[1..]) && forall x | x in s[1..] :: s[0].key < x.key
  {
    forall x | x in s[1..]
      ensures s[0].key < x.key
    {
      var i :| 0 <= i < |s[1..]| && s[1..][i] == x;
      assert s[i + 1] == x;
    }
  }

  lemma {:induction false} InsertSortedElements(s: seq<Entry<int>>, e: Entry<int>)
    ensures multiset(InsertSorted(s, e)) == multiset(s) + multiset{e}
    decreases |s|
  {
    if s != [] {
      assert s == [s[0]] + s[1..];
      if e.key >= s[0].key {
        InsertSortedElements(s[1..], e);
      }
    }
  }

  lemma InsertSortedMembers(s: seq<Entry<int>>, e: Entry<int>)
    ensures forall x :: x in InsertSorted(s, e) <==> x in s || x == e
  {
    InsertSortedElements(s, e);
    forall x
      ensures x in InsertSorted(s, e) <==> x in s || x == e
    {
      assert x in InsertSorted(s, e) <==> x in multiset(InsertSorted(s, e));
    }
  }

  lemma {:induction false} InsertSortedAscends(s: seq<Entry<int>>, e: Entry<int>)
    requires Ascending(s) && forall x | x in s :: x.key != e.key
    ensures Ascending(InsertSorted(s, e))
    decreases |s|
  {
    if s != [] {
      AscendingTail(s);
      assert s[0] in s && forall x | x in s[1..] :: x in s;
      if e.key >= s[0].key {
        InsertSortedAscends(s[1..], e);
        InsertSortedMembers(s[1..], e);
        AscendingCons(s[0], InsertSorted(s[1..], e));
      } else {
        assert s == [s[0]] + s[1..];
        AscendingCons(e, s);
      }
    }
  }

  lemma InsertSortedKeeps(s: seq<Entry<int>>, e: Entry<int>)
    requires Ascending(s) && forall x | x in s :: x.key != e.key
    ensures Ascending(InsertSorted(s, e))
    ensures multiset(InsertSorted(s, e)) == multiset(s) + multiset{e}
    ensures forall x :: x in InsertSorted(s, e) <==> x in s || x == e
  {
    InsertSortedAscends(s, e);
    InsertSortedElements(s, e);
    InsertSortedMembers(s, e);
  }

  lemma {:induction false} SortedKeeps(s: seq<Entry<int>>)
    requires Unique(s)
    ensures Ascending(Sorted(s)) && multiset(Sorted(s)) == multiset(s)
    ensures forall x :: x in Sorted(s) <==> x in s
    decreases |s|
  {
    if s != [] {
      SortedKeeps(s[1..]);
      assert s == [s[0]] + s[1..];
      InsertSortedKeeps(Sorted(s[1..]), s[0]);
    }
  }

  lemma LeastFirst(a: seq<Entry<int>>, b: seq<Entry<int>>)
    requires Ascending(a) && Ascending(b) && multiset(a) == multiset(b) && a != [] && b != []
    ensures a[0] == b[0]
  {
    assert a[0] in multiset(b) && b[0] in multiset(a);
    var i :| 0 <= i < |b| && b[i] == a[0];
    var j :| 0 <= j < |a| && a[j] == b[0];
  }

  lemma TailMultiset(a: seq<Entry<int>>)
    requires a != []
    ensures multiset(a[1..]) == multiset(a) - multiset{a[0]}
  {
    assert a == [a[0]] + a[1..];
  }

  lemma {:induction false} AscendingDetermined(a: seq<Entry<int>>, b: seq<Entry<int>>)
    requires Ascending(a) && Ascending(b) && multiset(a) == multiset(b)
    ensures a == b
    decreases |a|
  {
    assert |multiset(a)| == |a| && |multiset(b)| == |b|;
    if a != [] {
      LeastFirst(a, b);
      TailMultiset(a);
      TailMultiset(b);
      AscendingTail(a);
      AscendingTail(b);
      AscendingDetermined(a[1..], b[1..]);
      assert a == [a[0]] + a[1..] && b == [b[0]] + b[1..];
    }
  }

  lemma SortedSame(s: seq<Entry<int>>)
    requires Unique(s)
    ensures Unique(Sorted(s)) && Same(Sorted(s), s)
  {
    SortedKeeps(s);
    var t := Sorted(s);
    forall k
      ensures Find(t, k) == Find(s, k)
    {
      if Find(t, k).Some? {
        var e := Find(t, k).value;
        UniqueMultiset(s, e);
      }
    }
  }
}

/**
 The text of relation ids.  Two ids are equal as text exactly when they name the same
 endpoints, so the unordered pairs of the specification are what the source compares.
 */
module RelationText {
  import opened Basics
  import opened Descriptors

  function Digit(n: nat): char
    requires n < 10
  {
    "0123456789"[n]
  }

  function Decimal(n: nat): (s: string)
    ensures s != [] && forall c | c in s :: '0' <= c <= '9'
  {
    if n < 10 then [Digit(n)] else Decimal(n / 10) + [Digit(n % 10)]
  }

  function EndText(e: End): string { Decimal(e.pid) + ":" + Decimal(e.start) + ":" + Decimal(e.fd) }

  function ExternalText(e: End): string { EndText(e) + ":external" }

  predicate NotAfter(a: string, b: string) { !Before(b, a) }

  /** The two ends, sorted as text and joined by a slash. */
  function PairText(a: End, b: End): string {
    var x, y := EndText(a), EndText(b);
    if NotAfter(x, y) then x + "/" + y else y + "/" + x
  }

  lemma DigitInjective(m: nat, n: nat)
    requires m < 10 && n < 10 && Digit(m) == Digit(n)
    ensures m == n
  {
  }

  lemma {:induction false} DecimalInjective(m: nat, n: nat)
    requires Decimal(m) == Decimal(n)
    ensures m == n
    decreases m
  {
    var a, b := Decimal(m), Decimal(n);
    assert a[|a| - 1] == Digit(m % 10) && b[|b| - 1] == Digit(n % 10);
    DigitInjective(m % 10, n % 10);
    if m >= 10 && n >= 10 {
      assert a[..|a| - 1] == Decimal(m / 10) && b[..|b| - 1] == Decimal(n / 10);
      DecimalInjective(m / 10, n / 10);
    }
  }

  lemma NotShorter(a: string, b: string, c: char, r: string, s: string)
    requires |a| < |b| && c !in b
    ensures a + [c] + r != b + [c] + s
  {
    assert (a + [c] + r)[|a|] == c;
    assert (b + [c] + s)[|a|] == b[|a|] && b[|a|] in b;
  }

  /** Text before the first separator, and after it, can be told apart. */
  lemma SplitAt(a: string, b: string, c: char, r: string, s: string)
    requires c !in a && c !in b && a + [c] + r == b + [c] + s
    ensures a == b && r == s
  {
    if |a| < |b| {
      NotShorter(a, b, c, r, s);
    } else if |b| < |a| {
      NotShorter(b, a, c, s, r);
    }
    var x, y := a + [c] + r, b + [c] + s;
    assert x[..|a|] == a && y[..|b|] == b && x[|a| + 1..] == r && y[|b| + 1..] == s;
  }

  lemma SplitNumber(m: nat, n: nat, r: string, s: string)
    requires Decimal(m) + [':'] + r == Decimal(n) + [':'] + s
    ensures m == n && r == s
  {
    SplitAt(Decimal(m), Decimal(n), ':', r, s);
    DecimalInjective(m, n);
  }

  lemma EndTextParts(e: End, r: string)
    ensures EndText(e) + r == Decimal(e.pid) + [':'] + (Decimal(e.start) + [':'] + (Decimal(e.fd) + r))
  {
  }

  lemma EndTextInjective(a: End, b: End, r: string)
    requires EndText(a) + [':'] + r == EndText(b) + [':'] + r
    ensures a == b
  {
    var t := [':'] + r;
    assert EndText(a) + t == EndText(a) + [':'] + r && EndText(b) + t == EndText(b) + [':'] + r;
    EndTextParts(a, t);
    EndTextParts(b, t);
    SplitNumber(a.pid, b.pid, Decimal(a.start) + [':'] + (Decimal(a.fd) + t), Decimal(b.start) + [':'] + (Decimal(b.fd) + t));
    SplitNumber(a.start, b.start, Decimal(a.fd) + t, Decimal(b.fd) + t);
    assert Decimal(a.fd) + t == Decimal(a.fd) + [':'] + r && Decimal(b.fd) + t == Decimal(b.fd) + [':'] + r;
    SplitNumber(a.fd, b.fd, r, r);
  }

  lemma SameEndText(a: End, b: End)
    ensures EndText(a) == EndText(b) <==> a == b
  {
    if EndText(a) == EndText(b) {
      EndTextInjective(a, b, []);
    }
  }

  lemma NoSlash(e: End)
    ensures '/' !in EndText(e)
  {
  }

  lemma NotAfterTotal(a: string, b: string)
    ensures NotAfter(a, b) || NotAfter(b, a)
    ensures NotAfter(a, b) && NotAfter(b, a) ==> a == b
  {
    BeforeTotal(a, b);
  }

  /** External ids are equal exactly for equal ends. */
  lemma ExternalTextExact(a: End, b: End)
    ensures ExternalText(a) == ExternalText(b) <==> a == b
  {
    if ExternalText(a) == ExternalText(b) {
      assert forall e :: ExternalText(e) == EndText(e) + [':'] + "external";
      EndTextInjective(a, b, "external");
    }
  }

  /** Pair ids are equal exactly for the same two ends in either order. */
  lemma PairTextExact(a: End, b: End, c: End, d: End)
    ensures PairText(a, b) == PairText(c, d) <==> {a, b} == {c, d}
  {
    var x, y, z, t := EndText(a), EndText(b), EndText(c), EndText(d);
    NotAfterTotal(x, y);
    if PairText(a, b) == PairText(c, d) {
      var p, q := if NotAfter(x, y) then a else b, if NotAfter(x, y) then b else a;
      var r, s := if NotAfter(z, t) then c else d, if NotAfter(z, t) then d else c;
      NoSlash(p);
      NoSlash(r);
      SplitAt(EndText(p), EndText(r), '/', EndText(q), EndText(s));
      SameEndText(p, r);
      SameEndText(q, s);
      assert {a, b} == {p, q} && {c, d} == {r, s};
    } else if {a, b} == {c, d} {
      PairTextSymmetric(a, b);
      SameTwo(a, b, c, d);
    }
  }

  lemma PairTextSymmetric(a: End, b: End)
    ensures PairText(a, b) == PairText(b, a)
  {
    NotAfterTotal(EndText(a), EndText(b));
  }

  lemma SameTwo(a: End, b: End, c: End, d: End)
    requires {a, b} == {c, d}
    ensures (a == c && b == d) || (a == d && b == c)
  {
    assert a in {c, d} && b in {c, d} && c in {a, b} && d in {a, b};
  }

  /** An external id is never a pair id. */
  lemma KindsDiffer(a: End, b: End, c: End)
    ensures ExternalText(a) != PairText(b, c)
  {
    NoSlash(a);
    assert '/' !in ExternalText(a);
    var x, y := EndText(b), EndText(c);
    var i := if NotAfter(x, y) then |x| else |y|;
    assert PairText(b, c)[i] == '/';
    assert '/' in PairText(b, c);
  }

  /** The texts as the source forms them; ends are sorted as text, not as numbers. */
  lemma TextExamples()
    ensures ExternalText(End(1, 20, 3)) == "1:20:3:external"
    ensures PairText(End(1, 20, 3), End(10, 2, 4)) == "10:2:4/1:20:3"
  {
    assert Decimal(10) == "10" && Decimal(20) == "20";
    assert EndText(End(1, 20, 3)) == "1:20:3" && EndText(End(10, 2, 4)) == "10:2:4";
    assert Before("10:2:4", "1:20:3") by {
      assert "10:2:4"[1..] == "0:2:4" && "1:20:3"[1..] == ":20:3";
      assert Before("0:2:4", ":20:3");
    }
  }
}

/**
 What the codec promises: every value is read back and nothing else decodes to it,
 the length check never refuses a legitimate collection, and encodings are prefix-free.
 */
module WireCodecProofs {
  import opened WireCodec

  /******* Sizes *******/

  lemma {:induction false} NeverEmptyWrites(e: Endian, t: Ty, v: Value)
    requires HasType(t, v) && NeverEmpty(t)
    ensures |Write(e, t, v)| >= 1
    decreases t, 0
  {
    match t
    case Array(elem, n) => AllAtLeastOneByte(e, elem, v.items);
    case Record(ts) => SomeFieldWrites(e, ts, v.items);
    case _ =>
  }

  lemma {:induction false} AllAtLeastOneByte(e: Endian, elem: Ty, vs: seq<Value>)
    requires AllHaveType(elem, vs) && NeverEmpty(elem)
    ensures |WriteAll(e, elem, vs)| >= |vs|
    decreases elem, 1 + |vs|
  {
    if vs != [] {
      NeverEmptyWrites(e, elem, vs[0]);
      AllAtLeastOneByte(e, elem, vs[1..]);
    }
  }

  lemma {:induction false} SomeFieldWrites(e: Endian, ts: seq<Ty>, vs: seq<Value>)
    requires FieldsHaveType(ts, vs) && SomeNeverEmpty(ts)
    ensures |WriteFields(e, ts, vs)| >= 1
    decreases ts, 0
  {
    if NeverEmpty(ts[0]) {
      NeverEmptyWrites(e, ts[0], vs[0]);
    } else {
      SomeFieldWrites(e, ts[1..], vs[1..]);
    }
  }

  /******* Reading what was written *******/

  lemma TakeFront(h: seq<byte>, s: seq<byte>)
    ensures Take(|h|, h + s) == Got(h, s)
  {
    assert (h + s)[..|h|] == h && (h + s)[|h|..] == s;
  }

  lemma Pow256Of4()
    ensures Pow256(LENGTH_WIDTH) == U32_MAX + 1
  {
    assert Pow256(2) == 256 * (256 * Pow256(0));
    assert Pow256(4) == 256 * (256 * Pow256(2));
  }

  lemma LengthOfBytes(e: Endian, n: nat)
    requires n <= U32_MAX
    ensures NumberOf(e, LengthBytes(e, n)) == n
  {
    Pow256Of4();
    assert n % (U32_MAX + 1) == n;
    NumberRoundTrip(e, n, LENGTH_WIDTH);
  }

  /** A length prefix reads back exactly when that many bytes follow, and is refused otherwise. */
  lemma LengthRoundTrip(e: Endian, n: nat, s: seq<byte>)
    requires n <= U32_MAX
    ensures ReadLength(e, LengthBytes(e, n) + s) == if n <= |s| then Got(n, s) else Bad
  {
    var h := LengthBytes(e, n);
    LengthOfBytes(e, n);
    TakeFront(h, s);
  }

  lemma BlobRoundTrip(e: Endian, x: seq<byte>, s: seq<byte>)
    requires |x| <= U32_MAX
    ensures ReadBlob(e, LengthBytes(e, |x|) + x + s) == Got(x, s)
  {
    Regroup(LengthBytes(e, |x|), x, s);
    LengthRoundTrip(e, |x|, x + s);
    TakeFront(x, s);
  }

  lemma VecStep(e: Endian, elem: Ty, vs: seq<Value>, s: seq<byte>)
    requires AllHaveType(elem, vs) && NeverEmpty(elem)
    requires |vs| <= U32_MAX
    ensures var body := WriteAll(e, elem, vs) + s;
            Read(e, Vec(elem), Write(e, Vec(elem), List(vs)) + s) ==
            match ReadAll(e, elem, |vs|, body) case Bad => Bad case Got(ws, rest) => Got(List(ws), rest)
  {
    var body := WriteAll(e, elem, vs);
    AllAtLeastOneByte(e, elem, vs);
    Regroup(LengthBytes(e, |vs|), body, s);
    LengthRoundTrip(e, |vs|, body + s);
  }

  lemma TagBytes(e: Endian, tag: byte)
    ensures NumberBytes(e, tag, 1) == [tag]
  {
    NumberCanonical(e, [tag]);
    assert [tag][1..] == [] && [tag][..0] == [];
  }

  lemma EnumStep(e: Endian, variants: seq<Variant>, v: Value, s: seq<byte>)
    requires HasType(Enum(variants), v) && DistinctTags(variants)
    ensures var fields := variants[v.variant].fields;
            Read(e, Enum(variants), Write(e, Enum(variants), v) + s) ==
            match ReadFields(e, fields, WriteFields(e, fields, v.items) + s)
            case Bad => Bad
            case Got(ws, rest) => Got(Tagged(v.variant, ws), rest)
  {
    var tag := variants[v.variant].tag;
    var head, body := NumberBytes(e, tag, 1), WriteFields(e, variants[v.variant].fields, v.items);
    TagBytes(e, tag);
    assert FindVariant(variants, tag) == v.variant;
    Regroup(head, body, s);
    TakeFront(head, body + s);
  }

  /**
   Reading `write(v) ++ s` returns `v` and leaves exactly `s` for every value within the caps,
   of any size.  A value above a cap is refused, whenever an encoder can produce its encoding:
   encoders stop at 2^32 - 1 bytes.
   */
  lemma {:induction false} RoundTrip(e: Endian, t: Ty, v: Value, s: seq<byte>)
    requires HasType(t, v) && WellFormed(t) && (Capped(t, v) || |Write(e, t, v)| <= U32_MAX)
    ensures Read(e, t, Write(e, t, v) + s) == if Capped(t, v) then Got(v, s) else Bad
    decreases t, 0
  {
    match t
    case Number(w) =>
      TakeFront(NumberBytes(e, v.n, w), s);
      NumberRoundTrip(e, v.n, w);
    case Text => BlobRoundTrip(e, v.bytes, s);
    case Blob(_) => BlobRoundTrip(e, v.bytes, s);
    case Vec(elem) =>
      AllAtLeastOneByte(e, elem, v.items);
      VecStep(e, elem, v.items, s);
      RoundTripAll(e, elem, v.items, s);
    case Array(elem, _) => RoundTripAll(e, elem, v.items, s);
    case Record(ts) => RoundTripFields(e, ts, v.items, s);
    case Enum(variants) =>
      EnumStep(e, variants, v, s);
      VariantWellFormed(variants, v.variant);
      RoundTripFields(e, variants[v.variant].fields, v.items, s);
  }

  lemma {:induction false} RoundTripAll(e: Endian, elem: Ty, vs: seq<Value>, s: seq<byte>)
    requires AllHaveType(elem, vs) && WellFormed(elem) && (AllCapped(elem, vs) || |WriteAll(e, elem, vs)| <= U32_MAX)
    ensures ReadAll(e, elem, |vs|, WriteAll(e, elem, vs) + s) == if AllCapped(elem, vs) then Got(vs, s) else Bad
    decreases elem, 1 + |vs|
  {
    if vs == [] {
      assert WriteAll(e, elem, vs) + s == s;
    } else {
      RoundTrip(e, elem, vs[0], WriteAll(e, elem, vs[1..]) + s);
      RoundTripAll(e, elem, vs[1..], s);
      AllStep(e, elem, vs, s);
    }
  }

  lemma AllStep(e: Endian, elem: Ty, vs: seq<Value>, s: seq<byte>)
    requires vs != [] && AllHaveType(elem, vs)
    requires var rest := WriteAll(e, elem, vs[1..]) + s;
             Read(e, elem, Write(e, elem, vs[0]) + rest) == if Capped(elem, vs[0]) then Got(vs[0], rest) else Bad
    requires Capped(elem, vs[0]) ==>
               ReadAll(e, elem, |vs| - 1, WriteAll(e, elem, vs[1..]) + s) == if AllCapped(elem, vs[1..]) then Got(vs[1..], s) else Bad
    ensures ReadAll(e, elem, |vs|, WriteAll(e, elem, vs) + s) == if AllCapped(elem, vs) then Got(vs, s) else Bad
  {
    Regroup(Write(e, elem, vs[0]), WriteAll(e, elem, vs[1..]), s);
    SplitFirst(vs);
  }

  lemma {:induction false} RoundTripFields(e: Endian, ts: seq<Ty>, vs: seq<Value>, s: seq<byte>)
    requires FieldsHaveType(ts, vs) && AllWellFormed(ts) && (FieldsCapped(ts, vs) || |WriteFields(e, ts, vs)| <= U32_MAX)
    ensures ReadFields(e, ts, WriteFields(e, ts, vs) + s) == if FieldsCapped(ts, vs) then Got(vs, s) else Bad
    decreases ts, 0
  {
    if ts == [] {
      assert WriteFields(e, ts, vs) + s == s;
    } else {
      var head, tail := Write(e, ts[0], vs[0]), WriteFields(e, ts[1..], vs[1..]);
      Regroup(head, tail, s);
      RoundTrip(e, ts[0], vs[0], tail + s);
      RoundTripFields(e, ts[1..], vs[1..], s);
      assert vs == [vs[0]] + vs[1..];
    }
  }

  /******* Nothing else decodes *******/

  lemma LengthOfHeader(e: Endian, header: seq<byte>)
    requires |header| == LENGTH_WIDTH
    ensures NumberOf(e, header) <= U32_MAX && LengthBytes(e, NumberOf(e, header)) == header
  {
    Pow256Of4();
    NumberCanonical(e, header);
    SmallLength(NumberOf(e, header));
  }

  lemma SmallLength(n: nat)
    requires n <= U32_MAX
    ensures n % (U32_MAX + 1) == n
  {
  }

  lemma LengthCanonical(e: Endian, b: seq<byte>)
    ensures var p := ReadLength(e, b);
            p.Got? ==> p.value <= U32_MAX && b == LengthBytes(e, p.value) + p.rest
  {
    if ReadLength(e, b).Got? {
      LengthOfHeader(e, b[..LENGTH_WIDTH]);
    }
  }

  lemma BlobCanonical(e: Endian, b: seq<byte>)
    ensures var p := ReadBlob(e, b);
            p.Got? ==> |p.value| <= U32_MAX && b == LengthBytes(e, |p.value|) + p.value + p.rest
  {
    LengthCanonical(e, b);
    var p := ReadBlob(e, b);
    if p.Got? {
      var n := ReadLength(e, b);
      assert n.rest == p.value + p.rest;
    }
  }

  lemma CanonicalVecStep(e: Endian, elem: Ty, b: seq<byte>)
    requires Read(e, Vec(elem), b).Got?
    requires var n := ReadLength(e, b);
             var q := ReadAll(e, elem, n.value, n.rest);
             |q.value| == n.value && AllHaveType(elem, q.value) && n.rest == WriteAll(e, elem, q.value) + q.rest
    ensures var p := Read(e, Vec(elem), b);
            p.value.List? && |p.value.items| <= U32_MAX && HasType(Vec(elem), p.value)
            && b == Write(e, Vec(elem), p.value) + p.rest
  {
    LengthCanonical(e, b);
    var n := ReadLength(e, b);
    var q := ReadAll(e, elem, n.value, n.rest);
    var h, w := LengthBytes(e, n.value), WriteAll(e, elem, q.value);
    Regroup(h, w, q.rest);
    assert Write(e, Vec(elem), List(q.value)) == h + w;
  }

  lemma EnumReads(e: Endian, variants: seq<Variant>, b: seq<byte>)
    requires Read(e, Enum(variants), b).Got?
    ensures |b| > 0 && FindVariant(variants, b[0]) < |variants|
    ensures var q := ReadFields(e, variants[FindVariant(variants, b[0])].fields, b[1..]);
            q.Got? && Read(e, Enum(variants), b) == Got(Tagged(FindVariant(variants, b[0]), q.value), q.rest)
  {
  }

  lemma EnumWrites(e: Endian, variants: seq<Variant>, i: nat, vs: seq<Value>)
    requires i < |variants| && FieldsHaveType(variants[i].fields, vs)
    ensures HasType(Enum(variants), Tagged(i, vs))
    ensures Write(e, Enum(variants), Tagged(i, vs)) == [variants[i].tag] + WriteFields(e, variants[i].fields, vs)
  {
    TagBytes(e, variants[i].tag);
  }

  lemma CanonicalEnumStep(e: Endian, variants: seq<Variant>, b: seq<byte>)
    requires Read(e, Enum(variants), b).Got?
    requires var fields := variants[FindVariant(variants, b[0])].fields;
             var q := ReadFields(e, fields, b[1..]);
             FieldsHaveType(fields, q.value) && b[1..] == WriteFields(e, fields, q.value) + q.rest
    ensures var p := Read(e, Enum(variants), b);
            HasType(Enum(variants), p.value) && b == Write(e, Enum(variants), p.value) + p.rest
  {
    EnumReads(e, variants, b);
    var i := FindVariant(variants, b[0]);
    var fields := variants[i].fields;
    var q := ReadFields(e, fields, b[1..]);
    EnumWrites(e, variants, i, q.value);
    SplitFirst(b);
    Regroup([b[0]], WriteFields(e, fields, q.value), q.rest);
  }

  /** The only bytes that decode to a value are its own encoding. */
  lemma {:induction false} Canonical(e: Endian, t: Ty, b: seq<byte>)
    requires Read(e, t, b).Got?
    ensures var p := Read(e, t, b);
            HasType(t, p.value) && Capped(t, p.value) && b == Write(e, t, p.value) + p.rest
    decreases t, 0
  {
    match t
    case Number(w) => NumberCanonical(e, b[..w]);
    case Text => BlobCanonical(e, b);
    case Blob(_) => BlobCanonical(e, b);
    case Vec(elem) =>
      var n := ReadLength(e, b);
      CanonicalAll(e, elem, n.value, n.rest);
      CanonicalVecStep(e, elem, b);
    case Array(elem, n) => CanonicalAll(e, elem, n, b);
    case Record(ts) => CanonicalFields(e, ts, b);
    case Enum(variants) =>
      CanonicalFields(e, variants[FindVariant(variants, b[0])].fields, b[1..]);
      CanonicalEnumStep(e, variants, b);
  }

  lemma WriteAllStep(e: Endian, elem: Ty, vs: seq<Value>, i: nat)
    requires i < |vs| && AllHaveType(elem, vs[i..])
    ensures HasType(elem, vs[i]) && AllHaveType(elem, vs[i + 1..])
    ensures WriteAll(e, elem, vs[i..]) == Write(e, elem, vs[i]) + WriteAll(e, elem, vs[i + 1..])
  {
    assert vs[i..][0] == vs[i] && vs[i..][1..] == vs[i + 1..];
  }

  lemma ConsWrite(e: Endian, elem: Ty, v: Value, vs: seq<Value>, rest: seq<byte>)
    requires HasType(elem, v) && Capped(elem, v) && AllHaveType(elem, vs) && AllCapped(elem, vs)
    ensures AllHaveType(elem, [v] + vs) && AllCapped(elem, [v] + vs)
    ensures WriteAll(e, elem, [v] + vs) + rest == Write(e, elem, v) + (WriteAll(e, elem, vs) + rest)
  {
    assert ([v] + vs)[0] == v && ([v] + vs)[1..] == vs;
  }

  lemma {:induction false} CanonicalAll(e: Endian, elem: Ty, n: nat, b: seq<byte>)
    requires ReadAll(e, elem, n, b).Got?
    ensures var p := ReadAll(e, elem, n, b);
            |p.value| == n && AllHaveType(elem, p.value) && AllCapped(elem, p.value)
            && b == WriteAll(e, elem, p.value) + p.rest
    decreases elem, 1 + n
  {
    if n > 0 {
      var q := Read(e, elem, b);
      var r := ReadAll(e, elem, n - 1, q.rest);
      Canonical(e, elem, b);
      CanonicalAll(e, elem, n - 1, q.rest);
      ConsWrite(e, elem, q.value, r.value, r.rest);
    }
  }

  lemma {:induction false} CanonicalFields(e: Endian, ts: seq<Ty>, b: seq<byte>)
    requires ReadFields(e, ts, b).Got?
    ensures var p := ReadFields(e, ts, b);
            FieldsHaveType(ts, p.value) && FieldsCapped(ts, p.value)
            && b == WriteFields(e, ts, p.value) + p.rest
    decreases ts, 0
  {
    if ts != [] {
      var p, q := ReadFields(e, ts, b), Read(e, ts[0], b);
      Canonical(e, ts[0], b);
      CanonicalFields(e, ts[1..], q.rest);
      assert p.value[0] == q.value && p.value[1..] == ReadFields(e, ts[1..], q.rest).value;
      assert b == Write(e, ts[0], p.value[0]) + (WriteFields(e, ts[1..], p.value[1..]) + p.rest);
    }
  }

  /** A buffer decodes to `v` exactly when it is the encoding of `v`. */
  lemma DecodesOnlyItsEncoding(e: Endian, t: Ty, v: Value, b: seq<byte>)
    requires WellFormed(t)
    ensures DecodeSpec(e, t, b) == Got(v, [])
            <==> HasType(t, v) && Capped(t, v) && b == Write(e, t, v)
  {
    if Read(e, t, b).Got? {
      Canonical(e, t, b);
    }
    if HasType(t, v) && Capped(t, v) && b == Write(e, t, v) {
      RoundTrip(e, t, v, []);
      assert b + [] == b;
    }
  }

  /** No strict prefix and no strict extension of a decodable buffer decodes. */
  lemma PrefixFree(e: Endian, t: Ty, b: seq<byte>, x: seq<byte>)
    requires WellFormed(t) && x != []
    requires DecodeSpec(e, t, b).Got?
    ensures DecodeSpec(e, t, b + x).Bad?
  {
    Canonical(e, t, b);
    var v := Read(e, t, b).value;
    assert Read(e, t, b).rest == [];
    assert b == Write(e, t, v);
    RoundTrip(e, t, v, x);
  }

  /******* The one-byte minimum *******/

  /** The smallest value of a type: empty on the wire when the type allows it. */
  function Smallest(t: Ty): (v: Value)
    decreases t, 0
  {
    match t
    case Number(w) => Num(0)
    case Text => Bytes([])
    case Blob(_) => Bytes([])
    case Vec(_) => List([])
    case Array(elem, n) => List(Copies(elem, n))
    case Record(ts) => List(SmallestFields(ts))
    case Enum(vs) => if vs == [] then Num(0) else Tagged(0, SmallestFields(vs[0].fields))
  }

  function Copies(elem: Ty, n: nat): seq<Value>
    decreases elem, 1 + n
  {
    if n == 0 then [] else [Smallest(elem)] + Copies(elem, n - 1)
  }

  function SmallestFields(ts: seq<Ty>): seq<Value>
    decreases ts, 0
  {
    if ts == [] then [] else [Smallest(ts[0])] + SmallestFields(ts[1..])
  }

  lemma {:induction false} SmallestHasType(e: Endian, t: Ty)
    requires WellFormed(t)
    ensures HasType(t, Smallest(t)) && Capped(t, Smallest(t))
    ensures !NeverEmpty(t) ==> Write(e, t, Smallest(t)) == []
    decreases t, 0
  {
    match t
    case Array(elem, n) => CopiesHaveType(e, elem, n);
    case Record(ts) => SmallestFieldsHaveType(e, ts);
    case Enum(vs) =>
      VariantWellFormed(vs, 0);
      SmallestFieldsHaveType(e, vs[0].fields);
    case _ =>
  }

  lemma {:induction false} CopiesHaveType(e: Endian, elem: Ty, n: nat)
    requires WellFormed(elem)
    ensures |Copies(elem, n)| == n && AllHaveType(elem, Copies(elem, n)) && AllCapped(elem, Copies(elem, n))
    ensures n == 0 || !NeverEmpty(elem) ==> WriteAll(e, elem, Copies(elem, n)) == []
    decreases elem, 1 + n
  {
    if n > 0 {
      SmallestHasType(e, elem);
      CopiesHaveType(e, elem, n - 1);
      assert Copies(elem, n)[1..] == Copies(elem, n - 1);
    }
  }

  lemma {:induction false} SmallestFieldsHaveType(e: Endian, ts: seq<Ty>)
    requires AllWellFormed(ts)
    ensures FieldsHaveType(ts, SmallestFields(ts)) && FieldsCapped(ts, SmallestFields(ts))
    ensures !SomeNeverEmpty(ts) ==> WriteFields(e, ts, SmallestFields(ts)) == []
    decreases ts, 0
  {
    if ts != [] {
      SmallestHasType(e, ts[0]);
      SmallestFieldsHaveType(e, ts[1..]);
      assert SmallestFields(ts)[1..] == SmallestFields(ts[1..]);
    }
  }

  /** A collection the writer may be asked for and the reader should take back. */
  ghost predicate Legitimate(e: Endian, elem: Ty, vs: seq<Value>) {
    AllHaveType(elem, vs) && AllCapped(elem, vs) && |vs| <= U32_MAX
  }

  lemma OneEmptyElementIsRefused(e: Endian, elem: Ty, v: Value)
    requires HasType(elem, v) && Write(e, elem, v) == []
    ensures Legitimate(e, elem, [v])
    ensures Read(e, Vec(elem), Write(e, Vec(elem), List([v]))).Bad?
  {
    var vs := [v];
    EmptyWriteIsCapped(e, elem, v);
    assert vs[1..] == [];
    assert WriteAll(e, elem, vs) == [];
    var b := Write(e, Vec(elem), List(vs));
    assert b[..LENGTH_WIDTH] == b == LengthBytes(e, 1) && b[LENGTH_WIDTH..] == [];
    LengthOfBytes(e, 1);
  }

  /**
   The check of the decoder that a length does not exceed the remaining bytes refuses no
   legitimate collection exactly when every element occupies at least one byte.
   */
  lemma LengthCheckNeedsOneByteElements(e: Endian, elem: Ty)
    requires WellFormed(elem)
    ensures (forall vs | Legitimate(e, elem, vs) ::
               Read(e, Vec(elem), Write(e, Vec(elem), List(vs))) == Got(List(vs), []))
            <==> NeverEmpty(elem)
  {
    if NeverEmpty(elem) {
      forall vs | Legitimate(e, elem, vs)
        ensures Read(e, Vec(elem), Write(e, Vec(elem), List(vs))) == Got(List(vs), [])
      {
        RoundTrip(e, Vec(elem), List(vs), []);
        assert Write(e, Vec(elem), List(vs)) + [] == Write(e, Vec(elem), List(vs));
      }
    } else {
      SmallestHasType(e, elem);
      OneEmptyElementIsRefused(e, elem, Smallest(elem));
    }
  }

  /******* Distinct tags *******/

  /** The values of an enum come back exactly when its tags differ: of two variants with one tag, the second is lost. */
  lemma EnumNeedsDistinctTags(e: Endian, variants: seq<Variant>)
    requires variants != [] && VariantsWellFormed(variants)
    ensures (forall v | HasType(Enum(variants), v) && Capped(Enum(variants), v) ::
               Read(e, Enum(variants), Write(e, Enum(variants), v)) == Got(v, []))
            <==> DistinctTags(variants)
  {
    var t := Enum(variants);
    if DistinctTags(variants) {
      forall v | HasType(t, v) && Capped(t, v)
        ensures Read(e, t, Write(e, t, v)) == Got(v, [])
      {
        RoundTrip(e, t, v, []);
        assert Write(e, t, v) + [] == Write(e, t, v);
      }
    } else {
      var i, j :| 0 <= i < j < |variants| && variants[i].tag == variants[j].tag;
      SecondOfATagIsLost(e, variants, i, j);
    }
  }

  lemma SecondOfATagIsLost(e: Endian, variants: seq<Variant>, i: nat, j: nat)
    requires VariantsWellFormed(variants) && i < j < |variants| && variants[i].tag == variants[j].tag
    ensures exists v :: HasType(Enum(variants), v) && Capped(Enum(variants), v)
                        && Read(e, Enum(variants), Write(e, Enum(variants), v)) != Got(v, [])
  {
    var fields := variants[j].fields;
    VariantWellFormed(variants, j);
    SmallestFieldsHaveType(e, fields);
    var v := Tagged(j, SmallestFields(fields));
    EnumWrites(e, variants, j, SmallestFields(fields));
    var b := Write(e, Enum(variants), v);
    assert b[0] == variants[j].tag;
    assert Capped(Enum(variants), v);
    if Read(e, Enum(variants), b).Got? {
      EnumReads(e, variants, b);
    }
  }

  /** A value without any bytes holds no collection, so no length or cap applies to it. */
  lemma {:induction false} EmptyWriteIsCapped(e: Endian, t: Ty, v: Value)
    requires HasType(t, v) && Write(e, t, v) == []
    ensures Capped(t, v)
    decreases t, 0
  {
    match t
    case Array(elem, _) => EmptyAllCapped(e, elem, v.items);
    case Record(ts) => EmptyFieldsCapped(e, ts, v.items);
    case _ =>
  }

  lemma {:induction false} EmptyAllCapped(e: Endian, elem: Ty, vs: seq<Value>)
    requires AllHaveType(elem, vs) && WriteAll(e, elem, vs) == []
    ensures AllCapped(elem, vs)
    decreases elem, 1 + |vs|
  {
    if vs != [] {
      assert |WriteAll(e, elem, vs)| == |Write(e, elem, vs[0])| + |WriteAll(e, elem, vs[1..])|;
      EmptyWriteIsCapped(e, elem, vs[0]);
      EmptyAllCapped(e, elem, vs[1..]);
    }
  }

  lemma {:induction false} EmptyFieldsCapped(e: Endian, ts: seq<Ty>, vs: seq<Value>)
    requires FieldsHaveType(ts, vs) && WriteFields(e, ts, vs) == []
    ensures FieldsCapped(ts, vs)
    decreases ts, 0
  {
    if ts != [] {
      assert |WriteFields(e, ts, vs)| == |Write(e, ts[0], vs[0])| + |WriteFields(e, ts[1..], vs[1..])|;
      EmptyWriteIsCapped(e, ts[0], vs[0]);
      EmptyFieldsCapped(e, ts[1..], vs[1..]);
    }
  }

  /******* Types without a cap *******/

  /** No blob in the type has a cap of its own. */
  predicate Plain(t: Ty)
    decreases t, 0
  {
    match t
    case Number(_) => true
    case Text => true
    case Blob(cap) => cap >= U32_MAX
    case Vec(elem) => Plain(elem)
    case Array(elem, _) => Plain(elem)
    case Record(ts) => AllPlain(ts)
    case Enum(vs) => VariantsPlain(vs)
  }

  predicate AllPlain(ts: seq<Ty>)
    decreases ts, 0
  {
    ts == [] || (Plain(ts[0]) && AllPlain(ts[1..]))
  }

  predicate VariantsPlain(vs: seq<Variant>)
    decreases vs, 0
  {
    vs == [] || (AllPlain(vs[0].fields) && VariantsPlain(vs[1..]))
  }

  lemma {:induction false} VariantPlain(vs: seq<Variant>, i: nat)
    requires i < |vs| && VariantsPlain(vs)
    ensures AllPlain(vs[i].fields)
    decreases i
  {
    if i > 0 { VariantPlain(vs[1..], i - 1); }
  }

  /** Whatever an encoder can write of such a type is taken back: its round trip has no side condition. */
  lemma {:induction false} PlainIsCapped(e: Endian, t: Ty, v: Value)
    requires HasType(t, v) && WellFormed(t) && Plain(t) && |Write(e, t, v)| <= U32_MAX
    ensures Capped(t, v)
    decreases t, 0
  {
    match t
    case Number(_) =>
    case Text =>
    case Blob(_) =>
    case Vec(elem) =>
      AllAtLeastOneByte(e, elem, v.items);
      PlainAllCapped(e, elem, v.items);
    case Array(elem, _) => PlainAllCapped(e, elem, v.items);
    case Record(ts) => PlainFieldsCapped(e, ts, v.items);
    case Enum(vs) =>
      var i := v.variant;
      VariantPlain(vs, i);
      VariantWellFormed(vs, i);
      PlainFieldsCapped(e, vs[i].fields, v.items);
  }

  lemma {:induction false} PlainAllCapped(e: Endian, elem: Ty, vs: seq<Value>)
    requires AllHaveType(elem, vs) && WellFormed(elem) && Plain(elem) && |WriteAll(e, elem, vs)| <= U32_MAX
    ensures AllCapped(elem, vs)
    decreases elem, 1 + |vs|
  {
    if vs != [] {
      assert |WriteAll(e, elem, vs)| == |Write(e, elem, vs[0])| + |WriteAll(e, elem, vs[1..])|;
      PlainIsCapped(e, elem, vs[0]);
      PlainAllCapped(e, elem, vs[1..]);
    }
  }

  lemma {:induction false} PlainFieldsCapped(e: Endian, ts: seq<Ty>, vs: seq<Value>)
    requires FieldsHaveType(ts, vs) && AllWellFormed(ts) && AllPlain(ts) && |WriteFields(e, ts, vs)| <= U32_MAX
    ensures FieldsCapped(ts, vs)
    decreases ts, 0
  {
    if ts != [] {
      assert |WriteFields(e, ts, vs)| == |Write(e, ts[0], vs[0])| + |WriteFields(e, ts[1..], vs[1..])|;
      PlainIsCapped(e, ts[0], vs[0]);
      PlainFieldsCapped(e, ts[1..], vs[1..]);
    }
  }

  /** Reading `write(v) ++ s` of a type without caps always returns `v` and leaves `s`. */
  lemma PlainRoundTrip(e: Endian, t: Ty, v: Value, s: seq<byte>)
    requires HasType(t, v) && WellFormed(t) && Plain(t) && |Write(e, t, v)| <= U32_MAX
    ensures Read(e, t, Write(e, t, v) + s) == Got(v, s)
  {
    PlainIsCapped(e, t, v);
    RoundTrip(e, t, v, s);
  }
}

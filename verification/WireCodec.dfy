/**
 The binary codec of the private IPC connection (src/ipc/codec.rs).

 Rust types that implement `Wire` are described by values of `Ty`, and their values by
 `Value`.  `Write` is the encoding without a size limit, `Read` the decoding of one value
 from the front of a buffer.  The classes `Encoder` and `Decoder` are the mutable objects
 of the source and are proved to compute exactly these two functions.
 */
module WireCodec {

  type byte = b: int | 0 <= b < 256 witness 0

  const U32_MAX: nat := 0xFFFF_FFFF
  const LENGTH_WIDTH: nat := 4

  /** Numbers use the native byte order of the machine; both orders are covered. */
  datatype Endian = Little | Big

  datatype Variant = Variant(tag: byte, fields: seq<Ty>)

  /** `Blob(cap)` is a length-prefixed byte string whose reader refuses more than `cap` bytes. */
  datatype Ty =
    | Number(width: nat)
    | Text
    | Blob(cap: nat)
    | Vec(elem: Ty)
    | Array(elem: Ty, count: nat)
    | Record(fields: seq<Ty>)
    | Enum(variants: seq<Variant>)

  datatype Value =
    | Num(n: nat)
    | Bytes(bytes: seq<byte>)
    | List(items: seq<Value>)
    | Tagged(variant: nat, items: seq<Value>)

  /******* Descriptors of the derived implementations *******/

  const Bool := Enum([Variant(0, []), Variant(1, [])])
  const IpAddr := Enum([Variant(4, [Array(Number(1), 4)]), Variant(6, [Array(Number(1), 16)])])
  const SocketAddr := Enum([Variant(4, [Array(Number(1), 4), Number(2)]),
                            Variant(6, [Array(Number(1), 16), Number(2), Number(4), Number(4)])])

  function OptionOf(t: Ty): Ty { Enum([Variant(0, []), Variant(1, [t])]) }

  function ResultOf(t: Ty, e: Ty): Ty { Enum([Variant(0, [t]), Variant(1, [e])]) }

  /******* Numbers *******/

  function Pow256(w: nat): (r: nat)
    ensures r >= 1
  {
    if w == 0 then 1 else 256 * Pow256(w - 1)
  }

  function NumberBytes(e: Endian, n: nat, w: nat): (r: seq<byte>)
    ensures |r| == w
    decreases w
  {
    if w == 0 then []
    else if e.Little? then [n % 256] + NumberBytes(e, n / 256, w - 1)
    else NumberBytes(e, n / 256, w - 1) + [n % 256]
  }

  function NumberOf(e: Endian, b: seq<byte>): (n: nat)
    ensures n < Pow256(|b|)
  {
    if |b| == 0 then 0
    else if e.Little? then b[0] + 256 * NumberOf(e, b[1..])
    else b[|b| - 1] + 256 * NumberOf(e, b[..|b| - 1])
  }

  lemma NumberOfDigits(e: Endian, d: byte, tail: seq<byte>)
    ensures NumberOf(e, if e.Little? then [d] + tail else tail + [d]) == d + 256 * NumberOf(e, tail)
  {
    assert ([d] + tail)[1..] == tail && (tail + [d])[..|tail|] == tail;
  }

  lemma {:induction false} NumberRoundTrip(e: Endian, n: nat, w: nat)
    requires n < Pow256(w)
    ensures NumberOf(e, NumberBytes(e, n, w)) == n
    decreases w
  {
    if w > 0 {
      NumberRoundTrip(e, n / 256, w - 1);
      var tail := NumberBytes(e, n / 256, w - 1);
      NumberOfDigits(e, n % 256, tail);
    }
  }

  lemma LowDigit(d: byte, n: nat)
    ensures (d + 256 * n) % 256 == d && (d + 256 * n) / 256 == n
  {
  }

  lemma {:induction false} NumberCanonical(e: Endian, b: seq<byte>)
    ensures NumberBytes(e, NumberOf(e, b), |b|) == b
    decreases |b|
  {
    if |b| > 0 {
      var d := if e.Little? then b[0] else b[|b| - 1];
      var tail := if e.Little? then b[1..] else b[..|b| - 1];
      NumberCanonical(e, tail);
      LowDigit(d, NumberOf(e, tail));
      assert NumberOf(e, b) == d + 256 * NumberOf(e, tail);
      assert b == if e.Little? then [d] + tail else tail + [d];
    }
  }

  /******* UTF-8 *******/

  predicate Continuation(b: byte) { 0x80 <= b <= 0xBF }

  /** The number of bytes of the well-formed UTF-8 sequence at the front of `s`, or 0. */
  function Utf8Width(s: seq<byte>): (w: nat)
    ensures w <= |s|
  {
    if |s| == 0 then 0
    else if s[0] <= 0x7F then 1
    else if 0xC2 <= s[0] <= 0xDF && |s| >= 2 && Continuation(s[1]) then 2
    else if |s| >= 3 && Continuation(s[2])
            && ((s[0] == 0xE0 && 0xA0 <= s[1] <= 0xBF)
                || (0xE1 <= s[0] <= 0xEC && Continuation(s[1]))
                || (s[0] == 0xED && 0x80 <= s[1] <= 0x9F)
                || (0xEE <= s[0] <= 0xEF && Continuation(s[1]))) then 3
    else if |s| >= 4 && Continuation(s[2]) && Continuation(s[3])
            && ((s[0] == 0xF0 && 0x90 <= s[1] <= 0xBF)
                || (0xF1 <= s[0] <= 0xF3 && Continuation(s[1]))
                || (s[0] == 0xF4 && 0x80 <= s[1] <= 0x8F)) then 4
    else 0
  }

  predicate ValidUtf8(s: seq<byte>)
    decreases |s|
  {
    s == [] || (Utf8Width(s) > 0 && ValidUtf8(s[Utf8Width(s)..]))
  }

  /******* Typing *******/

  /** The first variant with the tag, as the arms of a `match` are tried. */
  function FindVariant(vs: seq<Variant>, tag: byte): (i: nat)
    ensures i <= |vs|
    ensures i < |vs| ==> vs[i].tag == tag
    ensures forall j | 0 <= j < i :: vs[j].tag != tag
  {
    if vs == [] then 0
    else if vs[0].tag == tag then 0
    else
      var i := FindVariant(vs[1..], tag);
      assert forall j | 0 < j <= i && j < |vs| :: vs[j] == vs[1..][j - 1];
      i + 1
  }

  predicate HasType(t: Ty, v: Value)
    decreases t, 0
  {
    match t
    case Number(w) => v.Num? && v.n < Pow256(w)
    case Text => v.Bytes? && ValidUtf8(v.bytes)
    case Blob(_) => v.Bytes?
    case Vec(elem) => v.List? && AllHaveType(elem, v.items)
    case Array(elem, n) => v.List? && |v.items| == n && AllHaveType(elem, v.items)
    case Record(ts) => v.List? && FieldsHaveType(ts, v.items)
    case Enum(vs) =>
      v.Tagged? && v.variant < |vs| && FieldsHaveType(vs[v.variant].fields, v.items)
  }

  predicate AllHaveType(elem: Ty, vs: seq<Value>)
    decreases elem, 1 + |vs|
  {
    vs == [] || (HasType(elem, vs[0]) && AllHaveType(elem, vs[1..]))
  }

  predicate FieldsHaveType(ts: seq<Ty>, vs: seq<Value>)
    decreases ts, 0
  {
    |ts| == |vs| && (ts == [] || (HasType(ts[0], vs[0]) && FieldsHaveType(ts[1..], vs[1..])))
  }

  /** No encoding of the type is empty. */
  predicate NeverEmpty(t: Ty)
    decreases t, 0
  {
    match t
    case Number(w) => w > 0
    case Text => true
    case Blob(_) => true
    case Vec(_) => true
    case Array(elem, n) => n > 0 && NeverEmpty(elem)
    case Record(ts) => SomeNeverEmpty(ts)
    case Enum(_) => true
  }

  predicate SomeNeverEmpty(ts: seq<Ty>)
    decreases ts, 0
  {
    ts != [] && (NeverEmpty(ts[0]) || SomeNeverEmpty(ts[1..]))
  }

  predicate DistinctTags(vs: seq<Variant>) { forall i, j | 0 <= i < j < |vs| :: vs[i].tag != vs[j].tag }

  /** The descriptors the codec is used with: every collection element occupies a byte, and tags differ. */
  predicate WellFormed(t: Ty)
    decreases t, 0
  {
    match t
    case Number(_) => true
    case Text => true
    case Blob(_) => true
    case Vec(elem) => WellFormed(elem) && NeverEmpty(elem)
    case Array(elem, _) => WellFormed(elem)
    case Record(ts) => AllWellFormed(ts)
    case Enum(vs) => vs != [] && DistinctTags(vs) && VariantsWellFormed(vs)
  }

  predicate AllWellFormed(ts: seq<Ty>)
    decreases ts, 0
  {
    ts == [] || (WellFormed(ts[0]) && AllWellFormed(ts[1..]))
  }

  predicate VariantsWellFormed(vs: seq<Variant>)
    decreases vs, 0
  {
    vs == [] || (AllWellFormed(vs[0].fields) && VariantsWellFormed(vs[1..]))
  }

  lemma {:induction false} VariantWellFormed(vs: seq<Variant>, i: nat)
    requires i < |vs| && VariantsWellFormed(vs)
    ensures AllWellFormed(vs[i].fields)
    decreases i
  {
    if i > 0 { VariantWellFormed(vs[1..], i - 1); }
  }

  /** The values the reader takes back: lengths fit in 32 bits and blobs keep to their cap. */
  predicate Capped(t: Ty, v: Value)
    requires HasType(t, v)
    decreases t, 0
  {
    match t
    case Number(_) => true
    case Text => |v.bytes| <= U32_MAX
    case Blob(cap) => |v.bytes| <= U32_MAX && |v.bytes| <= cap
    case Vec(elem) => |v.items| <= U32_MAX && AllCapped(elem, v.items)
    case Array(elem, _) => AllCapped(elem, v.items)
    case Record(ts) => FieldsCapped(ts, v.items)
    case Enum(vs) => FieldsCapped(vs[v.variant].fields, v.items)
  }

  predicate AllCapped(elem: Ty, vs: seq<Value>)
    requires AllHaveType(elem, vs)
    decreases elem, 1 + |vs|
  {
    vs == [] || (Capped(elem, vs[0]) && AllCapped(elem, vs[1..]))
  }

  predicate FieldsCapped(ts: seq<Ty>, vs: seq<Value>)
    requires FieldsHaveType(ts, vs)
    decreases ts, 0
  {
    ts == [] || (Capped(ts[0], vs[0]) && FieldsCapped(ts[1..], vs[1..]))
  }

  lemma Regroup<T>(a: seq<T>, b: seq<T>, c: seq<T>)
    ensures a + b + c == a + (b + c)
  {
  }

  lemma SplitFirst<T>(a: seq<T>)
    requires a != []
    ensures a == [a[0]] + a[1..]
  {
  }

  /******* The unlimited encoding *******/

  /** A length prefix.  The encoder refuses lengths of 2^32 and more before writing one. */
  function LengthBytes(e: Endian, n: nat): (r: seq<byte>)
    ensures |r| == LENGTH_WIDTH
  {
    NumberBytes(e, n % (U32_MAX + 1), LENGTH_WIDTH)
  }

  function Write(e: Endian, t: Ty, v: Value): seq<byte>
    requires HasType(t, v)
    decreases t, 0
  {
    match t
    case Number(w) => NumberBytes(e, v.n, w)
    case Text => LengthBytes(e, |v.bytes|) + v.bytes
    case Blob(_) => LengthBytes(e, |v.bytes|) + v.bytes
    case Vec(elem) => LengthBytes(e, |v.items|) + WriteAll(e, elem, v.items)
    case Array(elem, _) => WriteAll(e, elem, v.items)
    case Record(ts) => WriteFields(e, ts, v.items)
    case Enum(vs) => NumberBytes(e, vs[v.variant].tag, 1) + WriteFields(e, vs[v.variant].fields, v.items)
  }

  function WriteAll(e: Endian, elem: Ty, vs: seq<Value>): seq<byte>
    requires AllHaveType(elem, vs)
    decreases elem, 1 + |vs|
  {
    if vs == [] then [] else Write(e, elem, vs[0]) + WriteAll(e, elem, vs[1..])
  }

  function WriteFields(e: Endian, ts: seq<Ty>, vs: seq<Value>): seq<byte>
    requires FieldsHaveType(ts, vs)
    decreases ts, 0
  {
    if ts == [] then [] else Write(e, ts[0], vs[0]) + WriteFields(e, ts[1..], vs[1..])
  }

  /******* Decoding one value from the front of a buffer *******/

  datatype Parsed<T> = Got(value: T, rest: seq<byte>) | Bad

  function Take(n: nat, b: seq<byte>): Parsed<seq<byte>> {
    if n <= |b| then Got(b[..n], b[n..]) else Bad
  }

  /** A length prefix; a length above the number of remaining bytes is refused. */
  function ReadLength(e: Endian, b: seq<byte>): Parsed<nat> {
    match Take(LENGTH_WIDTH, b)
    case Bad => Bad
    case Got(h, rest) =>
      var n := NumberOf(e, h);
      if n <= |rest| then Got(n, rest) else Bad
  }

  function ReadBlob(e: Endian, b: seq<byte>): Parsed<seq<byte>> {
    match ReadLength(e, b)
    case Bad => Bad
    case Got(n, rest) => Take(n, rest)
  }

  function Read(e: Endian, t: Ty, b: seq<byte>): Parsed<Value>
    decreases t, 0
  {
    match t
    case Number(w) =>
      (match Take(w, b)
       case Bad => Bad
       case Got(h, rest) => Got(Num(NumberOf(e, h)), rest))
    case Text =>
      (match ReadBlob(e, b)
       case Bad => Bad
       case Got(s, rest) => if ValidUtf8(s) then Got(Bytes(s), rest) else Bad)
    case Blob(cap) =>
      (match ReadBlob(e, b)
       case Bad => Bad
       case Got(s, rest) => if |s| <= cap then Got(Bytes(s), rest) else Bad)
    case Vec(elem) =>
      (match ReadLength(e, b)
       case Bad => Bad
       case Got(n, rest) =>
         match ReadAll(e, elem, n, rest)
         case Bad => Bad
         case Got(vs, rest') => Got(List(vs), rest'))
    case Array(elem, n) =>
      (match ReadAll(e, elem, n, b)
       case Bad => Bad
       case Got(vs, rest) => Got(List(vs), rest))
    case Record(ts) =>
      (match ReadFields(e, ts, b)
       case Bad => Bad
       case Got(vs, rest) => Got(List(vs), rest))
    case Enum(variants) =>
      (match Take(1, b)
       case Bad => Bad
       case Got(h, rest) =>
         var i := FindVariant(variants, h[0]);
         if i == |variants| then Bad
         else
           match ReadFields(e, variants[i].fields, rest)
           case Bad => Bad
           case Got(vs, rest') => Got(Tagged(i, vs), rest'))
  }

  function ReadAll(e: Endian, elem: Ty, n: nat, b: seq<byte>): Parsed<seq<Value>>
    decreases elem, 1 + n
  {
    if n == 0 then Got([], b)
    else
      match Read(e, elem, b)
      case Bad => Bad
      case Got(v, rest) =>
        match ReadAll(e, elem, n - 1, rest)
        case Bad => Bad
        case Got(vs, rest') => Got([v] + vs, rest')
  }

  function ReadFields(e: Endian, ts: seq<Ty>, b: seq<byte>): Parsed<seq<Value>>
    decreases ts, 0
  {
    if ts == [] then Got([], b)
    else
      match Read(e, ts[0], b)
      case Bad => Bad
      case Got(v, rest) =>
        match ReadFields(e, ts[1..], rest)
        case Bad => Bad
        case Got(vs, rest') => Got([v] + vs, rest')
  }

  /** Decoding a whole buffer: bytes after the value are an error. */
  function DecodeSpec(e: Endian, t: Ty, b: seq<byte>): Parsed<Value> {
    match Read(e, t, b)
    case Bad => Bad
    case Got(v, rest) => if rest == [] then Got(v, []) else Bad
  }
}

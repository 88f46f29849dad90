/**
 The mutable `Encoder` and `Decoder` of src/ipc/codec.rs and its two entry points,
 proved against the functions of `WireCodec`.
 */
module WireObjects {
  import opened Basics
  import opened WireCodec
  import opened WireCodecProofs

  function Min(a: nat, b: nat): nat { if a <= b then a else b }

  class Encoder {
    const order: Endian
    const limit: nat
    var bytes: seq<byte>

    ghost predicate Valid()
      reads this
    {
      |bytes| <= limit <= U32_MAX
    }

    constructor (order: Endian, limit: nat)
      ensures Valid() && bytes == [] && this.order == order && this.limit == Min(limit, U32_MAX)
    {
      this.order := order;
      this.limit := Min(limit, U32_MAX);
      bytes := [];
    }

    method Append(b: seq<byte>) returns (ok: bool)
      requires Valid()
      modifies this`bytes
      ensures Valid() && (ok <==> |old(bytes)| + |b| <= limit)
      ensures bytes == if ok then old(bytes) + b else old(bytes)
    {
      ok := |b| <= limit - |bytes|;
      if ok {
        bytes := bytes + b;
      }
    }

    method Length(n: nat) returns (ok: bool)
      requires Valid()
      modifies this`bytes
      ensures Valid() && (ok <==> n <= U32_MAX && |old(bytes)| + LENGTH_WIDTH <= limit)
      ensures bytes == if ok then old(bytes) + LengthBytes(order, n) else old(bytes)
    {
      if n > U32_MAX {
        return false;
      }
      assert n % (U32_MAX + 1) == n;
      ok := Append(NumberBytes(order, n, LENGTH_WIDTH));
    }

    method Blob(b: seq<byte>) returns (ok: bool)
      requires Valid()
      modifies this`bytes
      ensures Valid() && (ok <==> |old(bytes)| + LENGTH_WIDTH + |b| <= limit)
      ensures ok ==> bytes == old(bytes) + (LengthBytes(order, |b|) + b)
    {
      ok := Length(|b|);
      if ok {
        ok := Append(b);
      }
    }

    /** Writes a value; fails exactly when the encoding would pass the limit. */
    method WriteValue(t: Ty, v: Value) returns (ok: bool)
      requires Valid() && HasType(t, v) && WellFormed(t)
      modifies this`bytes
      ensures Valid() && (ok <==> |old(bytes)| + |Write(order, t, v)| <= limit)
      ensures ok ==> bytes == old(bytes) + Write(order, t, v)
      decreases t, 0
    {
      match t {
        case Number(w) => ok := Append(NumberBytes(order, v.n, w));
        case Text => ok := Blob(v.bytes);
        case Blob(_) => ok := Blob(v.bytes);
        case Vec(elem) => ok := WriteVec(elem, v.items);
        case Array(elem, _) => ok := WriteItems(elem, v.items);
        case Record(ts) => ok := WriteRecord(ts, v.items);
        case Enum(variants) =>
          VariantWellFormed(variants, v.variant);
          ok := WriteTagged(variants[v.variant].tag, variants[v.variant].fields, v.items);
      }
    }

    method WriteVec(elem: Ty, vs: seq<Value>) returns (ok: bool)
      requires Valid() && AllHaveType(elem, vs) && WellFormed(elem) && NeverEmpty(elem)
      modifies this`bytes
      ensures Valid() && (ok <==> |old(bytes)| + LENGTH_WIDTH + |WriteAll(order, elem, vs)| <= limit)
      ensures ok ==> bytes == old(bytes) + (LengthBytes(order, |vs|) + WriteAll(order, elem, vs))
      decreases elem, 2 + |vs|
    {
      AllAtLeastOneByte(order, elem, vs);
      ghost var start, head, tail := bytes, LengthBytes(order, |vs|), WriteAll(order, elem, vs);
      ok := Length(|vs|);
      if ok {
        ok := WriteItems(elem, vs);
        Regroup(start, head, tail);
      }
    }

    method WriteTagged(tag: byte, fields: seq<Ty>, vs: seq<Value>) returns (ok: bool)
      requires Valid() && FieldsHaveType(fields, vs) && AllWellFormed(fields)
      modifies this`bytes
      ensures Valid() && (ok <==> |old(bytes)| + 1 + |WriteFields(order, fields, vs)| <= limit)
      ensures ok ==> bytes == old(bytes) + (NumberBytes(order, tag, 1) + WriteFields(order, fields, vs))
      decreases fields, 1
    {
      ghost var start, head, tail := bytes, NumberBytes(order, tag, 1), WriteFields(order, fields, vs);
      ok := Append(NumberBytes(order, tag, 1));
      if ok {
        ok := WriteRecord(fields, vs);
        Regroup(start, head, tail);
      }
    }

    method WriteItems(elem: Ty, vs: seq<Value>) returns (ok: bool)
      requires Valid() && AllHaveType(elem, vs) && WellFormed(elem)
      modifies this`bytes
      ensures Valid() && (ok <==> |old(bytes)| + |WriteAll(order, elem, vs)| <= limit)
      ensures ok ==> bytes == old(bytes) + WriteAll(order, elem, vs)
      decreases elem, 1 + |vs|
    {
      ghost var start, written, all := bytes, [], WriteAll(order, elem, vs);
      var i := 0;
      while i < |vs|
        invariant 0 <= i <= |vs| && Valid() && AllHaveType(elem, vs[i..])
        invariant bytes == start + written && written + WriteAll(order, elem, vs[i..]) == all
      {
        WriteAllStep(order, elem, vs, i);
        ghost var head, tail := Write(order, elem, vs[i]), WriteAll(order, elem, vs[i + 1..]);
        Regroup(written, head, tail);
        ok := WriteValue(elem, vs[i]);
        if !ok {
          return;
        }
        Regroup(start, written, head);
        written := written + head;
        i := i + 1;
      }
      return true;
    }

    method WriteRecord(ts: seq<Ty>, vs: seq<Value>) returns (ok: bool)
      requires Valid() && FieldsHaveType(ts, vs) && AllWellFormed(ts)
      modifies this`bytes
      ensures Valid() && (ok <==> |old(bytes)| + |WriteFields(order, ts, vs)| <= limit)
      ensures ok ==> bytes == old(bytes) + WriteFields(order, ts, vs)
      decreases ts, 0
    {
      if ts == [] {
        return true;
      }
      ghost var start, head, tail := bytes, Write(order, ts[0], vs[0]), WriteFields(order, ts[1..], vs[1..]);
      assert WriteFields(order, ts, vs) == head + tail;
      ok := WriteValue(ts[0], vs[0]);
      if ok {
        ok := WriteRecord(ts[1..], vs[1..]);
        Regroup(start, head, tail);
      }
    }
  }

  class Decoder {
    const order: Endian
    var bytes: seq<byte>

    constructor (order: Endian, bytes: seq<byte>)
      ensures this.bytes == bytes && this.order == order
    {
      this.order := order;
      this.bytes := bytes;
    }

    method TakeBytes(n: nat) returns (r: Parsed<seq<byte>>)
      modifies this`bytes
      ensures r == Take(n, old(bytes)) && (r.Got? ==> bytes == r.rest)
    {
      if n <= |bytes| {
        r := Got(bytes[..n], bytes[n..]);
        bytes := bytes[n..];
      } else {
        r := Bad;
      }
    }

    method Length() returns (r: Parsed<nat>)
      modifies this`bytes
      ensures r == ReadLength(order, old(bytes)) && (r.Got? ==> bytes == r.rest)
    {
      var h := TakeBytes(LENGTH_WIDTH);
      if h.Bad? {
        return Bad;
      }
      var n := NumberOf(order, h.value);
      if n > |bytes| {
        return Bad;
      }
      return Got(n, bytes);
    }

    method BlobBytes() returns (r: Parsed<seq<byte>>)
      modifies this`bytes
      ensures r == ReadBlob(order, old(bytes)) && (r.Got? ==> bytes == r.rest)
    {
      var n := Length();
      if n.Bad? {
        return Bad;
      }
      r := TakeBytes(n.value);
    }

    method ReadValue(t: Ty) returns (r: Parsed<Value>)
      modifies this`bytes
      ensures r == Read(order, t, old(bytes)) && (r.Got? ==> bytes == r.rest)
      decreases t, 0
    {
      match t {
        case Number(w) =>
          var h := TakeBytes(w);
          r := if h.Bad? then Bad else Got(Num(NumberOf(order, h.value)), h.rest);
        case Text =>
          var s := BlobBytes();
          r := if s.Got? && ValidUtf8(s.value) then Got(Bytes(s.value), s.rest) else Bad;
        case Blob(cap) =>
          var s := BlobBytes();
          r := if s.Got? && |s.value| <= cap then Got(Bytes(s.value), s.rest) else Bad;
        case Vec(elem) =>
          var n := Length();
          if n.Bad? {
            return Bad;
          }
          var vs := ReadItems(elem, n.value);
          r := if vs.Bad? then Bad else Got(List(vs.value), vs.rest);
        case Array(elem, n) =>
          var vs := ReadItems(elem, n);
          r := if vs.Bad? then Bad else Got(List(vs.value), vs.rest);
        case Record(ts) =>
          var vs := ReadRecord(ts);
          r := if vs.Bad? then Bad else Got(List(vs.value), vs.rest);
        case Enum(variants) =>
          var h := TakeBytes(1);
          if h.Bad? {
            return Bad;
          }
          var i := FindVariant(variants, h.value[0]);
          if i == |variants| {
            return Bad;
          }
          var vs := ReadRecord(variants[i].fields);
          r := if vs.Bad? then Bad else Got(Tagged(i, vs.value), vs.rest);
      }
    }

    method ReadItems(elem: Ty, n: nat) returns (r: Parsed<seq<Value>>)
      modifies this`bytes
      ensures r == ReadAll(order, elem, n, old(bytes)) && (r.Got? ==> bytes == r.rest)
      decreases elem, 1 + n
    {
      var values: seq<Value> := [];
      var i := 0;
      PrependNothing(ReadAll(order, elem, n, bytes));
      while i < n
        invariant 0 <= i <= n
        invariant ReadAll(order, elem, n, old(bytes)) == Prepend(values, ReadAll(order, elem, n - i, bytes))
      {
        ghost var before := bytes;
        var v := ReadValue(elem);
        if v.Bad? {
          return Bad;
        }
        PrependStep(order, elem, n - i, before, values);
        values := values + [v.value];
        i := i + 1;
      }
      assert values + [] == values;
      return Got(values, bytes);
    }

    method ReadRecord(ts: seq<Ty>) returns (r: Parsed<seq<Value>>)
      modifies this`bytes
      ensures r == ReadFields(order, ts, old(bytes)) && (r.Got? ==> bytes == r.rest)
      decreases ts, 0
    {
      if ts == [] {
        return Got([], bytes);
      }
      var v := ReadValue(ts[0]);
      if v.Bad? {
        return Bad;
      }
      var vs := ReadRecord(ts[1..]);
      r := if vs.Bad? then Bad else Got([v.value] + vs.value, vs.rest);
    }
  }

  /** The elements already read, followed by the outcome of reading the others. */
  ghost function Prepend(done: seq<Value>, p: Parsed<seq<Value>>): Parsed<seq<Value>> {
    if p.Bad? then Bad else Got(done + p.value, p.rest)
  }

  lemma PrependNothing(p: Parsed<seq<Value>>)
    ensures Prepend([], p) == p
  {
    assert p.Got? ==> [] + p.value == p.value;
  }

  lemma PrependStep(e: Endian, elem: Ty, n: nat, b: seq<byte>, done: seq<Value>)
    requires n > 0
    ensures var p := Read(e, elem, b);
            Prepend(done, ReadAll(e, elem, n, b)) ==
            if p.Bad? then Bad else Prepend(done + [p.value], ReadAll(e, elem, n - 1, p.rest))
  {
    var p := Read(e, elem, b);
    if p.Got? && ReadAll(e, elem, n - 1, p.rest).Got? {
      var vs := ReadAll(e, elem, n - 1, p.rest).value;
      Regroup(done, [p.value], vs);
    }
  }

  /** Fails with the limit error exactly when the unlimited encoding passes the limit. */
  method Encode(e: Endian, t: Ty, v: Value, limit: nat) returns (r: Option<seq<byte>>)
    requires HasType(t, v) && WellFormed(t)
    ensures r.Some? <==> |Write(e, t, v)| <= Min(limit, U32_MAX)
    ensures r.Some? ==> r.value == Write(e, t, v)
  {
    var output := new Encoder(e, limit);
    var ok := output.WriteValue(t, v);
    r := if ok then Some(output.bytes) else None;
  }

  /** Succeeds exactly on the encodings of values within the caps, and returns that value. */
  method Decode(e: Endian, t: Ty, b: seq<byte>) returns (r: Option<Value>)
    requires WellFormed(t)
    ensures r == (match DecodeSpec(e, t, b) case Bad => None case Got(v, _) => Some(v))
    ensures r.Some? ==> HasType(t, r.value) && Capped(t, r.value) && Write(e, t, r.value) == b
    ensures r.None? ==> forall v | HasType(t, v) && Capped(t, v) :: Write(e, t, v) != b
  {
    var input := new Decoder(e, b);
    var p := input.ReadValue(t);
    if p.Bad? || input.bytes != [] {
      r := None;
    } else {
      r := Some(p.value);
    }
    forall v
      ensures DecodeSpec(e, t, b) == Got(v, []) <==> HasType(t, v) && Capped(t, v) && b == Write(e, t, v)
    {
      DecodesOnlyItsEncoding(e, t, v, b);
    }
  }
}

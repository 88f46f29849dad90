/**
 Length-prefixed frames over a Unix stream (src/ipc/transport.rs) and the request and file
 schemas sent in them (src/ipc/schema.rs, src/ipc/elf.rs).

 The operating system decides how many bytes one read or write moves, whether it is
 interrupted, fails, or is refused because the deadline passed.  Those decisions are an
 explicit sequence of `Attempt`s, over which every contract quantifies.
 */
module Transport {
  import opened Basics
  import opened WireCodec
  import opened WireCodecProofs
  import opened WireObjects

  const MAX_REQUEST: nat := 1024
  const MAX_READ_SIZE: nat := 64 * 1024 * 1024

  datatype Attempt = Moved(n: nat) | Interrupted | Failed | Expired

  /** The attempts left once `len` bytes have moved, or none if they never all move. */
  function Completes(attempts: seq<Attempt>, len: nat): (r: Option<seq<Attempt>>)
    decreases |attempts|
  {
    if len == 0 then Some(attempts)
    else if attempts == [] then None
    else match attempts[0]
      case Interrupted => Completes(attempts[1..], len)
      case Moved(n) => if n == 0 then None else Completes(attempts[1..], len - Min(n, len))
      case Failed => None
      case Expired => None
  }

  lemma SplitAt(s: seq<byte>, n: nat)
    requires n <= |s|
    ensures s == s[..n] + s[n..]
  {
  }

  /** One end of the connection: what it wrote, and what its peer's stream still holds. */
  class Socket {
    var sent: seq<byte>
    var incoming: seq<byte>

    constructor (incoming: seq<byte>)
      ensures sent == [] && this.incoming == incoming
    {
      sent := [];
      this.incoming := incoming;
    }

    method WriteUntil(bytes: seq<byte>, attempts: seq<Attempt>) returns (ok: bool, left: seq<Attempt>)
      modifies this`sent
      ensures ok <==> Completes(attempts, |bytes|).Some?
      ensures ok ==> sent == old(sent) + bytes && left == Completes(attempts, |bytes|).value
    {
      var rest := bytes;
      left := attempts;
      while rest != []
        invariant sent + rest == old(sent) + bytes
        invariant Completes(attempts, |bytes|) == Completes(left, |rest|)
        decreases |left|
      {
        if left == [] || left[0].Expired? || left[0].Failed? {
          return false, left;
        }
        if left[0].Moved? {
          var n := Min(left[0].n, |rest|);
          if n == 0 {
            return false, left;
          }
          SplitAt(rest, n);
          Regroup(sent, rest[..n], rest[n..]);
          sent := sent + rest[..n];
          rest := rest[n..];
        }
        left := left[1..];
      }
      ok := true;
    }

    method ReadUntil(len: nat, attempts: seq<Attempt>) returns (r: Option<seq<byte>>, left: seq<Attempt>)
      modifies this`incoming
      ensures r.Some? <==> Completes(attempts, len).Some? && len <= |old(incoming)|
      ensures r.Some? ==> Take(len, old(incoming)) == Got(r.value, incoming)
      ensures r.Some? ==> left == Completes(attempts, len).value
    {
      var done: seq<byte> := [];
      left := attempts;
      while |done| < len
        invariant |done| <= len
        invariant done + incoming == old(incoming)
        invariant len <= |old(incoming)| ==> Completes(attempts, len) == Completes(left, len - |done|)
        decreases |left|
      {
        if left == [] || left[0].Expired? || left[0].Failed? {
          return None, left;
        }
        if left[0].Moved? {
          var n := Min(Min(left[0].n, len - |done|), |incoming|);
          if n == 0 {
            return None, left;
          }
          SplitAt(incoming, n);
          Regroup(done, incoming[..n], incoming[n..]);
          done, incoming := done + incoming[..n], incoming[n..];
        }
        left := left[1..];
      }
      TakeFront(done, incoming);
      r := Some(done);
    }

    /** `send`: nothing is written unless the value fits; a completed send wrote one frame. */
    method Send(e: Endian, t: Ty, v: Value, limit: nat, attempts: seq<Attempt>) returns (ok: bool)
      requires HasType(t, v) && WellFormed(t)
      modifies this`sent
      ensures |Write(e, t, v)| > Min(limit, U32_MAX) ==> !ok && sent == old(sent)
      ensures ok ==> sent == old(sent) + Frame(e, t, v)
      ensures |Write(e, t, v)| <= Min(limit, U32_MAX) ==>
                (ok <==> CompletesFrame(attempts, |Write(e, t, v)|))
    {
      var bytes := Encode(e, t, v, limit);
      if bytes.None? {
        return false;
      }
      var left;
      ok, left := WriteUntil(LengthBytes(e, |bytes.value|), attempts);
      if ok {
        ok, left := WriteUntil(bytes.value, left);
        Regroup(old(sent), LengthBytes(e, |bytes.value|), bytes.value);
      }
    }

    /** `read_timeout`: however the bytes arrive, the outcome is that of parsing the stream. */
    method ReadFrame(e: Endian, t: Ty, limit: nat, attempts: seq<Attempt>) returns (r: Option<Value>)
      requires WellFormed(t)
      modifies this`incoming
      ensures r.Some? ==> ParseFrame(e, t, limit, old(incoming)) == Got(r.value, incoming)
      ensures r.Some? <==> ParseFrame(e, t, limit, old(incoming)).Got?
                           && CompletesFrame(attempts, FrameLength(e, old(incoming)))
    {
      var header, left := ReadUntil(LENGTH_WIDTH, attempts);
      if header.None? {
        return None;
      }
      var size := NumberOf(e, header.value);
      Pow256Of4();
      if size == 0 || size > limit {
        return None;
      }
      var bytes;
      bytes, left := ReadUntil(size, left);
      if bytes.None? {
        return None;
      }
      r := Decode(e, t, bytes.value);
    }

    /** Messages sent one after the other, each with its own attempts, until one fails. */
    method SendAll(e: Endian, t: Ty, vs: seq<Value>, limit: nat, attempts: seq<seq<Attempt>>) returns (ok: bool)
      requires AllHaveType(t, vs) && WellFormed(t) && |attempts| == |vs| && Sendable(e, t, limit, vs)
      modifies this`sent
      ensures ok <==> AllComplete(e, t, vs, attempts)
      ensures ok ==> sent == old(sent) + Frames(e, t, vs)
      decreases |vs|
    {
      if vs == [] {
        return true;
      }
      ok := Send(e, t, vs[0], limit, attempts[0]);
      if ok {
        Regroup(old(sent), Frame(e, t, vs[0]), Frames(e, t, vs[1..]));
        ok := SendAll(e, t, vs[1..], limit, attempts[1..]);
      }
    }

    /** As many messages as there are attempts, read one after the other, until one fails. */
    method ReceiveAll(e: Endian, t: Ty, limit: nat, attempts: seq<seq<Attempt>>) returns (r: Option<seq<Value>>)
      requires WellFormed(t)
      modifies this`incoming
      ensures r.Some? ==> ParseFrames(e, t, limit, |attempts|, old(incoming)) == Got(r.value, incoming)
      ensures r.Some? <==> ParseFrames(e, t, limit, |attempts|, old(incoming)).Got?
                           && Arrive(e, t, limit, old(incoming), attempts)
      decreases |attempts|
    {
      if attempts == [] {
        return Some([]);
      }
      var v := ReadFrame(e, t, limit, attempts[0]);
      if v.None? {
        return None;
      }
      var vs := ReceiveAll(e, t, limit, attempts[1..]);
      r := if vs.None? then None else Some([v.value] + vs.value);
    }
  }

  /** The attempts for each message suffice for it. */
  ghost predicate AllComplete(e: Endian, t: Ty, vs: seq<Value>, attempts: seq<seq<Attempt>>)
    requires AllHaveType(t, vs) && |attempts| == |vs|
  {
    vs == [] || (CompletesFrame(attempts[0], |Write(e, t, vs[0])|) && AllComplete(e, t, vs[1..], attempts[1..]))
  }

  /** The attempts for each frame of a stream suffice for it. */
  ghost predicate Arrive(e: Endian, t: Ty, limit: nat, stream: seq<byte>, attempts: seq<seq<Attempt>>)
    decreases |attempts|
  {
    attempts == [] ||
    (CompletesFrame(attempts[0], FrameLength(e, stream))
     && (ParseFrame(e, t, limit, stream).Got? ==>
           Arrive(e, t, limit, ParseFrame(e, t, limit, stream).rest, attempts[1..])))
  }

  /**
   Any messages, sent and read one after the other under any splitting of the sends and of the
   receives: they are recovered unchanged exactly when no deadline passes and no attempt fails, and
   never as anything else.
   */
  method Exchange(e: Endian, t: Ty, vs: seq<Value>, limit: nat, sends: seq<seq<Attempt>>, receives: seq<seq<Attempt>>)
      returns (r: Option<seq<Value>>)
    requires AllHaveType(t, vs) && WellFormed(t) && NeverEmpty(t) && Sendable(e, t, limit, vs)
    requires |sends| == |vs| == |receives|
    ensures r == if AllComplete(e, t, vs, sends) && AllComplete(e, t, vs, receives) then Some(vs) else None
  {
    var output := new Socket([]);
    var ok := output.SendAll(e, t, vs, limit, sends);
    if !ok {
      return None;
    }
    assert output.sent == [] + Frames(e, t, vs) == Frames(e, t, vs) + [];
    FramesRoundTrip(e, t, vs, limit, []);
    FramesArrive(e, t, vs, limit, [], receives);
    var input := new Socket(output.sent);
    r := input.ReceiveAll(e, t, limit, receives);
  }

  /** The same for requests of the schema, within the request limit. */
  method ExchangeRequests(e: Endian, vs: seq<Value>, sends: seq<seq<Attempt>>, receives: seq<seq<Attempt>>)
      returns (r: Option<seq<Value>>)
    requires AllHaveType(MonitorRequest, vs) && (forall v | v in vs :: FewRanges(v)) && |sends| == |vs| == |receives|
    ensures r == if AllComplete(e, MonitorRequest, vs, sends) && AllComplete(e, MonitorRequest, vs, receives)
                 then Some(vs) else None
  {
    RequestIsSound();
    RequestsAreSendable(e, vs);
    r := Exchange(e, MonitorRequest, vs, MAX_REQUEST, sends, receives);
  }

  lemma {:induction false} FramesArrive(e: Endian, t: Ty, vs: seq<Value>, limit: nat, s: seq<byte>, attempts: seq<seq<Attempt>>)
    requires AllHaveType(t, vs) && WellFormed(t) && NeverEmpty(t) && Sendable(e, t, limit, vs) && |attempts| == |vs|
    ensures Arrive(e, t, limit, Frames(e, t, vs) + s, attempts) <==> AllComplete(e, t, vs, attempts)
    decreases |vs|
  {
    if vs != [] {
      FirstFrame(e, t, vs, limit, s);
      FirstLength(e, t, vs, s);
      FramesArrive(e, t, vs[1..], limit, s, attempts[1..]);
    }
  }

  lemma FirstLength(e: Endian, t: Ty, vs: seq<Value>, s: seq<byte>)
    requires vs != [] && AllHaveType(t, vs) && |Write(e, t, vs[0])| <= U32_MAX
    ensures FrameLength(e, Frames(e, t, vs) + s) == |Write(e, t, vs[0])|
  {
    var body, tail := Write(e, t, vs[0]), Frames(e, t, vs[1..]);
    var header := LengthBytes(e, |body|);
    Regroup(header + body, tail, s);
    Regroup(header, body, tail + s);
    TakeFront(header, body + (tail + s));
    LengthOfBytes(e, |body|);
  }

  ghost predicate CompletesFrame(attempts: seq<Attempt>, size: nat) {
    var header := Completes(attempts, LENGTH_WIDTH);
    header.Some? && Completes(header.value, size).Some?
  }

  ghost function Frame(e: Endian, t: Ty, v: Value): seq<byte>
    requires HasType(t, v)
  {
    LengthBytes(e, |Write(e, t, v)|) + Write(e, t, v)
  }

  ghost function FrameLength(e: Endian, stream: seq<byte>): nat {
    match Take(LENGTH_WIDTH, stream)
    case Bad => 0
    case Got(h, _) => NumberOf(e, h)
  }

  /** One message from the front of a byte stream, without regard to how it arrives. */
  ghost function ParseFrame(e: Endian, t: Ty, limit: nat, stream: seq<byte>): Parsed<Value> {
    match Take(LENGTH_WIDTH, stream)
    case Bad => Bad
    case Got(h, rest) =>
      var size := NumberOf(e, h);
      if size == 0 || size > limit then Bad
      else match Take(size, rest)
        case Bad => Bad
        case Got(body, rest') =>
          match DecodeSpec(e, t, body)
          case Bad => Bad
          case Got(v, _) => Got(v, rest')
  }

  ghost function ParseFrames(e: Endian, t: Ty, limit: nat, n: nat, stream: seq<byte>): Parsed<seq<Value>>
    decreases n
  {
    if n == 0 then Got([], stream)
    else match ParseFrame(e, t, limit, stream)
      case Bad => Bad
      case Got(v, rest) =>
        match ParseFrames(e, t, limit, n - 1, rest)
        case Bad => Bad
        case Got(vs, rest') => Got([v] + vs, rest')
  }

  ghost function Frames(e: Endian, t: Ty, vs: seq<Value>): seq<byte>
    requires AllHaveType(t, vs)
  {
    if vs == [] then [] else Frame(e, t, vs[0]) + Frames(e, t, vs[1..])
  }

  /** A frame is read back exactly when its body is not empty, within the limit and capped. */
  lemma FrameRoundTrip(e: Endian, t: Ty, v: Value, limit: nat, s: seq<byte>)
    requires HasType(t, v) && WellFormed(t) && |Write(e, t, v)| <= U32_MAX
    ensures ParseFrame(e, t, limit, Frame(e, t, v) + s) ==
            if 0 < |Write(e, t, v)| <= limit && Capped(t, v) then Got(v, s) else Bad
  {
    var body := Write(e, t, v);
    var header := LengthBytes(e, |body|);
    Regroup(header, body, s);
    TakeFront(header, body + s);
    LengthOfBytes(e, |body|);
    TakeFront(body, s);
    BodyRoundTrip(e, t, v);
  }

  lemma BodyRoundTrip(e: Endian, t: Ty, v: Value)
    requires HasType(t, v) && WellFormed(t) && |Write(e, t, v)| <= U32_MAX
    ensures DecodeSpec(e, t, Write(e, t, v)) == if Capped(t, v) then Got(v, []) else Bad
  {
    RoundTrip(e, t, v, []);
    assert Write(e, t, v) + [] == Write(e, t, v);
  }

  /** What both ends agree on: each message fits the limit and is accepted by its reader. */
  ghost predicate Sendable(e: Endian, t: Ty, limit: nat, vs: seq<Value>)
    requires AllHaveType(t, vs)
  {
    vs == [] || (|Write(e, t, vs[0])| <= Min(limit, U32_MAX) && Capped(t, vs[0]) && Sendable(e, t, limit, vs[1..]))
  }

  lemma ParseFramesStep(e: Endian, t: Ty, limit: nat, v: Value, vs: seq<Value>, stream: seq<byte>, mid: seq<byte>, s: seq<byte>)
    requires ParseFrame(e, t, limit, stream) == Got(v, mid)
    requires ParseFrames(e, t, limit, |vs|, mid) == Got(vs, s)
    ensures ParseFrames(e, t, limit, 1 + |vs|, stream) == Got([v] + vs, s)
  {
  }

  lemma FirstFrame(e: Endian, t: Ty, vs: seq<Value>, limit: nat, s: seq<byte>)
    requires vs != [] && AllHaveType(t, vs) && WellFormed(t) && NeverEmpty(t) && Sendable(e, t, limit, vs)
    ensures ParseFrame(e, t, limit, Frames(e, t, vs) + s) == Got(vs[0], Frames(e, t, vs[1..]) + s)
  {
    var head, tail := Frame(e, t, vs[0]), Frames(e, t, vs[1..]);
    Regroup(head, tail, s);
    NeverEmptyWrites(e, t, vs[0]);
    FrameRoundTrip(e, t, vs[0], limit, tail + s);
  }

  /** Any sequence of sent messages is recovered unchanged and in order. */
  lemma {:induction false} FramesRoundTrip(e: Endian, t: Ty, vs: seq<Value>, limit: nat, s: seq<byte>)
    requires AllHaveType(t, vs) && WellFormed(t) && NeverEmpty(t) && Sendable(e, t, limit, vs)
    ensures ParseFrames(e, t, limit, |vs|, Frames(e, t, vs) + s) == Got(vs, s)
    decreases |vs|
  {
    if vs == [] {
      assert Frames(e, t, vs) + s == s;
    } else {
      var rest := vs[1..];
      FirstFrame(e, t, vs, limit, s);
      FramesRoundTrip(e, t, rest, limit, s);
      ParseFramesStep(e, t, limit, vs[0], rest, Frames(e, t, vs) + s, Frames(e, t, rest) + s, s);
      assert vs == [vs[0]] + rest;
    }
  }

  /******* Schemas *******/

  const ProcessId := Record([Number(4), Number(8)])
  const FileRange := Record([Number(8), Number(8)])
  const FileChunk := Record([Number(8), Blob(MAX_READ_SIZE)])
  const ProcessResource := Enum([Variant(0, []), Variant(1, []), Variant(2, []),
                                 Variant(3, []), Variant(4, []), Variant(5, [])])
  const MappedElfFields := [ProcessId, Number(8), Vec(FileRange)]
  const MonitorRequest := Enum([Variant(0, []), Variant(1, [ProcessId, ProcessResource]),
                                Variant(2, MappedElfFields), Variant(3, [ProcessId]), Variant(4, []),
                                Variant(5, [Number(8)]), Variant(6, [Number(8)])])

  /** The first field of a record and the others. */
  lemma FieldsCons(e: Endian, t: Ty, ts: seq<Ty>, vs: seq<Value>)
    requires FieldsHaveType([t] + ts, vs)
    ensures |vs| == 1 + |ts| && HasType(t, vs[0]) && FieldsHaveType(ts, vs[1..])
    ensures WriteFields(e, [t] + ts, vs) == Write(e, t, vs[0]) + WriteFields(e, ts, vs[1..])
  {
    assert ([t] + ts)[0] == t && ([t] + ts)[1..] == ts;
  }

  lemma NumberFieldSize(e: Endian, w: nat, ts: seq<Ty>, vs: seq<Value>)
    requires FieldsHaveType([Number(w)] + ts, vs)
    ensures |vs| == 1 + |ts| && FieldsHaveType(ts, vs[1..])
    ensures |WriteFields(e, [Number(w)] + ts, vs)| == w + |WriteFields(e, ts, vs[1..])|
  {
    FieldsCons(e, Number(w), ts, vs);
  }

  lemma TwoNumbers(e: Endian, a: nat, b: nat, v: Value)
    requires HasType(Record([Number(a), Number(b)]), v)
    ensures |Write(e, Record([Number(a), Number(b)]), v)| == a + b
  {
    assert [Number(a), Number(b)] == [Number(a)] + [Number(b)];
    NumberFieldSize(e, a, [Number(b)], v.items);
    assert [Number(b)] == [Number(b)] + [];
    NumberFieldSize(e, b, [], v.items[1..]);
  }

  lemma {:induction false} RangesSize(e: Endian, vs: seq<Value>)
    requires AllHaveType(FileRange, vs)
    ensures |WriteAll(e, FileRange, vs)| == 16 * |vs|
    decreases |vs|
  {
    if vs != [] {
      TwoNumbers(e, 8, 8, vs[0]);
      RangesSize(e, vs[1..]);
    }
  }

  lemma MappedElfSize(e: Endian, vs: seq<Value>)
    requires FieldsHaveType(MappedElfFields, vs)
    ensures |vs| == 3 && vs[2].List? && |WriteFields(e, MappedElfFields, vs)| == 24 + 16 * |vs[2].items|
  {
    var ranges := [Vec(FileRange)];
    assert MappedElfFields == [ProcessId] + ([Number(8)] + ranges);
    FieldsCons(e, ProcessId, [Number(8)] + ranges, vs);
    TwoNumbers(e, 4, 8, vs[0]);
    NumberFieldSize(e, 8, ranges, vs[1..]);
    assert ranges == [Vec(FileRange)] + [];
    FieldsCons(e, Vec(FileRange), [], vs[1..][1..]);
    assert vs[1..][1..][0] == vs[2];
    RangesSize(e, vs[2].items);
  }

  lemma ProcessFieldSize(e: Endian, ts: seq<Ty>, vs: seq<Value>)
    requires FieldsHaveType([ProcessId] + ts, vs)
    ensures |vs| == 1 + |ts| && FieldsHaveType(ts, vs[1..])
    ensures |WriteFields(e, [ProcessId] + ts, vs)| == 12 + |WriteFields(e, ts, vs[1..])|
  {
    FieldsCons(e, ProcessId, ts, vs);
    TwoNumbers(e, 4, 8, vs[0]);
  }

  lemma ResourceSize(e: Endian, v: Value)
    requires HasType(ProcessResource, v)
    ensures |Write(e, ProcessResource, v)| == 1
  {
    var i := v.variant;
    assert ProcessResource.variants[i].fields == [];
  }

  lemma SmallRequestSize(e: Endian, v: Value)
    requires HasType(MonitorRequest, v) && v.variant != 2
    ensures |Write(e, MonitorRequest, v)| <= 14
  {
    var variants := MonitorRequest.variants;
    var i := v.variant;
    var fields := variants[i].fields;
    if i == 1 {
      assert fields == [ProcessId] + [ProcessResource];
      ProcessFieldSize(e, [ProcessResource], v.items);
      assert [ProcessResource] == [ProcessResource] + [];
      FieldsCons(e, ProcessResource, [], v.items[1..]);
      ResourceSize(e, v.items[1..][0]);
    } else if i == 3 {
      assert fields == [ProcessId] + [];
      ProcessFieldSize(e, [], v.items);
    } else if i >= 5 {
      assert fields == [Number(8)] + [];
      NumberFieldSize(e, 8, [], v.items);
    }
  }

  /**
   A request fits the 1024-byte request limit unless it asks for more than 62 file ranges;
   the 60 ranges the protocol allows therefore always fit.
   */
  lemma RequestFitsExactlyUpTo62Ranges(e: Endian, v: Value)
    requires HasType(MonitorRequest, v)
    ensures v.variant == 2 ==> |v.items| == 3 && v.items[2].List?
    ensures |Write(e, MonitorRequest, v)| <= 1024 <==> (v.variant == 2 ==> |v.items[2].items| <= 62)
  {
    if v.variant == 2 {
      var variants := MonitorRequest.variants;
      assert variants[v.variant].fields == MappedElfFields;
      MappedElfSize(e, v.items);
    } else {
      SmallRequestSize(e, v);
    }
  }

  /** A type that the codec takes, whose values are never empty and carry no cap. */
  predicate Sound(t: Ty) { WellFormed(t) && NeverEmpty(t) && Plain(t) }

  predicate AllSound(ts: seq<Ty>) { AllWellFormed(ts) && AllPlain(ts) }

  lemma SoundCons(t: Ty, ts: seq<Ty>)
    requires WellFormed(t) && Plain(t) && AllSound(ts)
    ensures AllSound([t] + ts) && (NeverEmpty(t) ==> Sound(Record([t] + ts)))
  {
    assert ([t] + ts)[1..] == ts;
  }

  lemma {:induction false} SoundVariants(variants: seq<Variant>)
    requires forall i | 0 <= i < |variants| :: AllSound(variants[i].fields)
    ensures VariantsWellFormed(variants) && VariantsPlain(variants)
    decreases |variants|
  {
    if variants != [] {
      SoundVariants(variants[1..]);
    }
  }

  lemma PairIsSound(a: nat, b: nat)
    requires a > 0
    ensures Sound(Record([Number(a), Number(b)]))
  {
    SoundCons(Number(b), []);
    SoundCons(Number(a), [Number(b)]);
    assert [Number(b)] + [] == [Number(b)] && [Number(a)] + [Number(b)] == [Number(a), Number(b)];
  }

  lemma OneIsSound(t: Ty)
    requires WellFormed(t) && Plain(t)
    ensures AllSound([t])
  {
    SoundCons(t, []);
    assert [t] + [] == [t];
  }

  lemma AddressBytesAreSound(n: nat)
    requires n > 0
    ensures Sound(Array(Number(1), n)) && AllSound([Array(Number(1), n)])
  {
    OneIsSound(Array(Number(1), n));
  }

  /** The codec's own implementations are sound whenever the types they are made of are. */
  lemma DerivedTypesAreSound(t: Ty, u: Ty)
    requires Sound(t) && Sound(u)
    ensures Sound(Bool) && Sound(IpAddr) && Sound(SocketAddr) && Sound(OptionOf(t)) && Sound(ResultOf(t, u)) && Sound(Vec(t))
  {
    OneIsSound(t);
    OneIsSound(u);
    TwoAreSound(0, [], 1, []);
    TwoAreSound(0, [], 1, [t]);
    TwoAreSound(0, [t], 1, [u]);
    IpAddrIsSound();
    SocketAddrIsSound();
  }

  lemma TwoAreSound(a: byte, fields: seq<Ty>, b: byte, others: seq<Ty>)
    requires a != b && AllSound(fields) && AllSound(others)
    ensures Sound(Enum([Variant(a, fields), Variant(b, others)]))
  {
    SoundVariants([Variant(a, fields), Variant(b, others)]);
  }

  lemma IpAddrIsSound()
    ensures Sound(IpAddr)
  {
    AddressBytesAreSound(4);
    AddressBytesAreSound(16);
    TwoAreSound(4, [Array(Number(1), 4)], 6, [Array(Number(1), 16)]);
  }

  lemma SocketAddrIsSound()
    ensures Sound(SocketAddr)
  {
    AddressBytesAreSound(4);
    AddressBytesAreSound(16);
    OneIsSound(Number(2));
    OneIsSound(Number(4));
    SoundCons(Array(Number(1), 4), [Number(2)]);
    SoundCons(Number(4), [Number(4)]);
    SoundCons(Number(2), [Number(4)] + [Number(4)]);
    SoundCons(Array(Number(1), 16), [Number(2)] + ([Number(4)] + [Number(4)]));
    assert [Array(Number(1), 4)] + [Number(2)] == SocketAddr.variants[0].fields;
    assert [Array(Number(1), 16)] + ([Number(2)] + ([Number(4)] + [Number(4)])) == SocketAddr.variants[1].fields;
    TwoAreSound(4, SocketAddr.variants[0].fields, 6, SocketAddr.variants[1].fields);
  }

  lemma ChunkIsWellFormed()
    ensures WellFormed(FileChunk)
  {
    OneIsWellFormed(Blob(MAX_READ_SIZE));
    assert FileChunk.fields[1..] == [Blob(MAX_READ_SIZE)];
  }

  lemma OneIsWellFormed(t: Ty)
    requires WellFormed(t)
    ensures AllWellFormed([t])
  {
    assert [t][1..] == [];
  }

  lemma ChunkCap(e: Endian, v: Value)
    requires HasType(FileChunk, v) && |Write(e, FileChunk, v)| <= U32_MAX
    ensures |v.items| == 2 && v.items[1].Bytes?
    ensures Capped(FileChunk, v) <==> |v.items[1].bytes| <= 67_108_864
  {
    var blob := Blob(MAX_READ_SIZE);
    assert FileChunk.fields == [Number(8)] + [blob] && [blob] == [blob] + [];
    FieldsCons(e, Number(8), [blob], v.items);
    FieldsCons(e, blob, [], v.items[1..]);
    assert FileChunk.fields[1..] == [blob] && [blob][1..] == [];
    assert v.items[1..][0] == v.items[1];
    assert FieldsCapped([blob], v.items[1..]) <==> Capped(blob, v.items[1]);
    assert FieldsCapped(FileChunk.fields, v.items) <==> FieldsCapped(FileChunk.fields[1..], v.items[1..]);
    assert MAX_READ_SIZE <= U32_MAX;
  }

  /** A chunk of a mapped file is read back exactly when it keeps to the read limit; the writer does not check. */
  lemma ChunkRoundTrip(e: Endian, v: Value, s: seq<byte>)
    requires HasType(FileChunk, v) && |Write(e, FileChunk, v)| <= U32_MAX
    ensures |v.items| == 2 && v.items[1].Bytes?
    ensures Read(e, FileChunk, Write(e, FileChunk, v) + s)
            == if |v.items[1].bytes| <= 67_108_864 then Got(v, s) else Bad
  {
    ChunkIsWellFormed();
    ChunkCap(e, v);
    RoundTrip(e, FileChunk, v, s);
  }

  lemma ResourceIsSound()
    ensures Sound(ProcessResource)
  {
    SoundVariants(ProcessResource.variants);
    NumberedTags(ProcessResource.variants);
  }

  lemma NumberedTags(variants: seq<Variant>)
    requires forall i | 0 <= i < |variants| :: variants[i].tag == i
    ensures DistinctTags(variants)
  {
  }

  lemma ProcessFieldsAreSound()
    ensures AllSound([ProcessId]) && AllSound([ProcessId, ProcessResource])
  {
    PairIsSound(4, 8);
    ResourceIsSound();
    OneIsSound(ProcessId);
    OneIsSound(ProcessResource);
    SoundCons(ProcessId, [ProcessResource]);
    assert [ProcessId] + [ProcessResource] == [ProcessId, ProcessResource];
  }

  lemma MappedElfFieldsAreSound()
    ensures AllSound(MappedElfFields)
  {
    PairIsSound(4, 8);
    PairIsSound(8, 8);
    var ranges := [Vec(FileRange)];
    OneIsSound(Vec(FileRange));
    SoundCons(Number(8), ranges);
    SoundCons(ProcessId, [Number(8)] + ranges);
    assert [ProcessId] + ([Number(8)] + ranges) == MappedElfFields;
  }

  /** Requests meet what the codec needs of a type, and carry nothing with a cap. */
  lemma RequestIsSound()
    ensures Sound(MonitorRequest)
  {
    ProcessFieldsAreSound();
    MappedElfFieldsAreSound();
    OneIsSound(Number(8));
    SoundVariants(MonitorRequest.variants);
    NumberedTags(MonitorRequest.variants);
  }

  /** A request that asks for no more ranges than fit. */
  predicate FewRanges(v: Value) { v.Tagged? && (v.variant == 2 ==> |v.items| == 3 && v.items[2].List? && |v.items[2].items| <= 62) }

  lemma {:induction false} RequestsAreSendable(e: Endian, vs: seq<Value>)
    requires AllHaveType(MonitorRequest, vs) && Sound(MonitorRequest) && forall v | v in vs :: FewRanges(v)
    ensures Sendable(e, MonitorRequest, 1024, vs)
    decreases |vs|
  {
    if vs != [] {
      assert FewRanges(vs[0]);
      RequestFitsExactlyUpTo62Ranges(e, vs[0]);
      PlainIsCapped(e, MonitorRequest, vs[0]);
      RequestsAreSendable(e, vs[1..]);
    }
  }

  /** Any sequence of requests, each for at most 62 ranges, reaches the helper unchanged. */
  lemma RequestsArrive(e: Endian, vs: seq<Value>, s: seq<byte>)
    requires AllHaveType(MonitorRequest, vs) && forall v | v in vs :: FewRanges(v)
    ensures ParseFrames(e, MonitorRequest, 1024, |vs|, Frames(e, MonitorRequest, vs) + s) == Got(vs, s)
  {
    RequestIsSound();
    RequestsAreSendable(e, vs);
    FramesRoundTrip(e, MonitorRequest, vs, 1024, s);
  }

  /******* Bytes on the wire *******/

  lemma ByteOrders()
    ensures NumberBytes(Little, 0x0102, 2) == [2, 1] && NumberBytes(Big, 0x0102, 2) == [1, 2]
  {
    assert NumberBytes(Little, 1, 1) == [1] && NumberBytes(Big, 1, 1) == [1];
  }

  /** A tagged value starts with the tag of its variant, followed by its fields. */
  lemma TagComesFirst(e: Endian, t: Ty, v: Value)
    requires t.Enum? && HasType(t, v)
    ensures Write(e, t, v) == [t.variants[v.variant].tag] + WriteFields(e, t.variants[v.variant].fields, v.items)
  {
    EnumWrites(e, t.variants, v.variant, v.items);
  }

  /** False is 0 and true is 1; nothing is 0 and something 1; success is 0 and failure 1. */
  lemma DerivedBytes(e: Endian, t: Ty, u: Ty, v: Value, w: Value)
    requires HasType(t, v) && HasType(u, w)
    ensures Write(e, Bool, Tagged(0, [])) == [0] && Write(e, Bool, Tagged(1, [])) == [1]
    ensures HasType(OptionOf(t), Tagged(1, [v])) && HasType(ResultOf(t, u), Tagged(0, [v])) && HasType(ResultOf(t, u), Tagged(1, [w]))
    ensures Write(e, OptionOf(t), Tagged(0, [])) == [0] && Write(e, OptionOf(t), Tagged(1, [v])) == [1] + Write(e, t, v)
    ensures Write(e, ResultOf(t, u), Tagged(0, [v])) == [0] + Write(e, t, v)
    ensures Write(e, ResultOf(t, u), Tagged(1, [w])) == [1] + Write(e, u, w)
  {
    OneField(e, t, v);
    OneField(e, u, w);
    EnumWrites(e, Bool.variants, 0, []);
    EnumWrites(e, Bool.variants, 1, []);
    EnumWrites(e, OptionOf(t).variants, 0, []);
    EnumWrites(e, OptionOf(t).variants, 1, [v]);
    EnumWrites(e, ResultOf(t, u).variants, 0, [v]);
    EnumWrites(e, ResultOf(t, u).variants, 1, [w]);
  }

  lemma OneField(e: Endian, t: Ty, v: Value)
    requires HasType(t, v)
    ensures FieldsHaveType([t], [v]) && WriteFields(e, [t], [v]) == Write(e, t, v)
  {
    assert [t][1..] == [] && [v][1..] == [];
    assert FieldsHaveType([], []) && WriteFields(e, [], []) == [];
    assert Write(e, t, v) + [] == Write(e, t, v);
  }

  /** An address starts with its version, 4 or 6. */
  lemma AddressBytes(e: Endian, v: Value)
    ensures HasType(IpAddr, v) ==> Write(e, IpAddr, v)[0] == (if v.variant == 0 then 4 else 6)
    ensures HasType(SocketAddr, v) ==> Write(e, SocketAddr, v)[0] == (if v.variant == 0 then 4 else 6)
  {
    if HasType(IpAddr, v) {
      TagComesFirst(e, IpAddr, v);
    }
    if HasType(SocketAddr, v) {
      TagComesFirst(e, SocketAddr, v);
    }
  }

  /** Requests start with 0 to 6 in the order of the schema; a poll or close is its tag and the session number. */
  lemma RequestBytes(e: Endian, v: Value)
    requires HasType(MonitorRequest, v)
    ensures |Write(e, MonitorRequest, v)| > 0 && Write(e, MonitorRequest, v)[0] == v.variant <= 6
    ensures v.variant == 5 || v.variant == 6 ==>
              |v.items| == 1 && v.items[0].Num? && Write(e, MonitorRequest, v) == [v.variant] + NumberBytes(e, v.items[0].n, 8)
  {
    TagComesFirst(e, MonitorRequest, v);
    if v.variant >= 5 {
      assert MonitorRequest.variants[v.variant].fields == [Number(8)] + [] && [Number(8)] + [] == [Number(8)];
      FieldsCons(e, Number(8), [], v.items);
      assert WriteFields(e, [], v.items[1..]) == [];
      assert NumberBytes(e, v.items[0].n, 8) + [] == NumberBytes(e, v.items[0].n, 8);
    }
  }
}

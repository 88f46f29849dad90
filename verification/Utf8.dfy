/** The texts a decoder accepts are exactly the UTF-8 encodings of sequences of Unicode scalar values. */
module Utf8 {
  import opened WireCodec

  /** Code points other than surrogates. */
  predicate Scalar(n: nat) { n <= 0xD7FF || 0xE000 <= n <= 0x10FFFF }

  /** The encoding of one code point: 7, 11, 16 or 21 bits, six of them in each following byte. */
  function EncodeScalar(n: nat): (r: seq<byte>)
    requires Scalar(n)
    ensures 1 <= |r| <= 4
  {
    if n < 0x80 then [n]
    else if n < 0x800 then [0xC0 + n / 64, 0x80 + n % 64]
    else if n < 0x1_0000 then [0xE0 + n / 4096, 0x80 + n / 64 % 64, 0x80 + n % 64]
    else [0xF0 + n / 262144, 0x80 + n / 4096 % 64, 0x80 + n / 64 % 64, 0x80 + n % 64]
  }

  predicate Scalars(ns: seq<nat>) { forall i | 0 <= i < |ns| :: Scalar(ns[i]) }

  function EncodeText(ns: seq<nat>): seq<byte>
    requires Scalars(ns)
  {
    if ns == [] then [] else EncodeScalar(ns[0]) + EncodeText(ns[1..])
  }

  /******* What is encoded is valid *******/

  lemma EncodedWidth(n: nat, rest: seq<byte>)
    requires Scalar(n)
    ensures Utf8Width(EncodeScalar(n) + rest) == |EncodeScalar(n)|
  {
    var s := EncodeScalar(n) + rest;
    if 0x800 <= n < 0x1_0000 {
      ThreeBytes(n);
      assert s[0] == 0xE0 + n / 4096 && s[1] == 0x80 + n / 64 % 64 && s[2] == 0x80 + n % 64;
    } else if 0x1_0000 <= n {
      FourBytes(n);
      assert s[0] == 0xF0 + n / 262144 && s[1] == 0x80 + n / 4096 % 64;
      assert s[2] == 0x80 + n / 64 % 64 && s[3] == 0x80 + n % 64;
    }
  }

  lemma ThreeBytes(n: nat)
    requires Scalar(n) && 0x800 <= n < 0x1_0000
    ensures n / 4096 <= 15
    ensures n / 4096 == 0 ==> n / 64 % 64 >= 0x20
    ensures n / 4096 == 13 ==> n / 64 % 64 <= 0x1F
  {
    assert n / 64 == n / 4096 * 64 + n / 64 % 64;
  }

  lemma FourBytes(n: nat)
    requires Scalar(n) && 0x1_0000 <= n
    ensures n / 262144 <= 4
    ensures n / 262144 == 0 ==> n / 4096 % 64 >= 0x10
    ensures n / 262144 == 4 ==> n / 4096 % 64 <= 0x0F
  {
    assert n / 4096 == n / 262144 * 64 + n / 4096 % 64;
  }

  lemma {:induction false} EncodedIsValid(ns: seq<nat>)
    requires Scalars(ns)
    ensures ValidUtf8(EncodeText(ns))
    decreases |ns|
  {
    if ns != [] {
      var head, tail := EncodeScalar(ns[0]), EncodeText(ns[1..]);
      EncodedWidth(ns[0], tail);
      assert (head + tail)[|head|..] == tail;
      EncodedIsValid(ns[1..]);
    }
  }

  /******* What is valid is encoded *******/

  /** The payload of a byte with the given marker. */
  function Bits(b: byte, marker: byte): nat
    requires marker <= b
  {
    b - marker
  }

  /** The code point of the first character of a valid text. */
  function FirstScalar(s: seq<byte>): nat
    requires Utf8Width(s) > 0
  {
    match Utf8Width(s)
    case 1 => s[0]
    case 2 => 64 * Bits(s[0], 0xC0) + Bits(s[1], 0x80)
    case 3 => 4096 * Bits(s[0], 0xE0) + 64 * Bits(s[1], 0x80) + Bits(s[2], 0x80)
    case _ => 262144 * Bits(s[0], 0xF0) + 4096 * Bits(s[1], 0x80) + 64 * Bits(s[2], 0x80) + Bits(s[3], 0x80)
  }

  lemma FirstIsEncoded(s: seq<byte>)
    requires Utf8Width(s) > 0
    ensures Scalar(FirstScalar(s)) && EncodeScalar(FirstScalar(s)) == s[..Utf8Width(s)]
  {
    var w := Utf8Width(s);
    if w == 2 {
      TwoAreEncoded(Bits(s[0], 0xC0), Bits(s[1], 0x80));
      assert s[..2] == [s[0], s[1]];
    } else if w == 3 {
      ThreeAreEncoded(Bits(s[0], 0xE0), Bits(s[1], 0x80), Bits(s[2], 0x80));
      assert s[..3] == [s[0], s[1], s[2]];
    } else if w == 4 {
      FourAreEncoded(Bits(s[0], 0xF0), Bits(s[1], 0x80), Bits(s[2], 0x80), Bits(s[3], 0x80));
      assert s[..4] == [s[0], s[1], s[2], s[3]];
    } else {
      assert s[..1] == [s[0]];
    }
  }

  lemma TwoAreEncoded(a: nat, b: nat)
    requires 2 <= a < 32 && b < 64
    ensures Scalar(64 * a + b) && EncodeScalar(64 * a + b) == [0xC0 + a, 0x80 + b]
  {
    Digits(a, b);
  }

  lemma ThreeAreEncoded(a: nat, b: nat, c: nat)
    requires a < 16 && b < 64 && c < 64 && (a == 0 ==> b >= 32) && (a == 13 ==> b < 32)
    ensures Scalar(4096 * a + 64 * b + c) && EncodeScalar(4096 * a + 64 * b + c) == [0xE0 + a, 0x80 + b, 0x80 + c]
  {
    Digits(64 * a + b, c);
    Digits(a, b);
  }

  lemma FourAreEncoded(a: nat, b: nat, c: nat, d: nat)
    requires a <= 4 && b < 64 && c < 64 && d < 64 && (a == 0 ==> b >= 16) && (a == 4 ==> b < 16)
    ensures var n := 262144 * a + 4096 * b + 64 * c + d;
            Scalar(n) && EncodeScalar(n) == [0xF0 + a, 0x80 + b, 0x80 + c, 0x80 + d]
  {
    Digits(64 * (64 * a + b) + c, d);
    Digits(64 * a + b, c);
    Digits(a, b);
  }

  lemma Digits(high: nat, low: nat)
    requires low < 64
    ensures (64 * high + low) / 64 == high && (64 * high + low) % 64 == low
  {
  }

  lemma {:induction false} ValidIsEncoded(s: seq<byte>) returns (ns: seq<nat>)
    requires ValidUtf8(s)
    ensures Scalars(ns) && EncodeText(ns) == s
    decreases |s|
  {
    ns := [];
    if s != [] {
      var w := Utf8Width(s);
      FirstIsEncoded(s);
      var rest := ValidIsEncoded(s[w..]);
      ns := [FirstScalar(s)] + rest;
      assert ns[1..] == rest && s == s[..w] + s[w..];
    }
  }

  /** A byte string is accepted as a text if and only if it is the encoding of some scalar values. */
  lemma ValidExactlyWhenEncoded(s: seq<byte>)
    ensures ValidUtf8(s) <==> exists ns :: Scalars(ns) && EncodeText(ns) == s
  {
    if ValidUtf8(s) {
      var ns := ValidIsEncoded(s);
    }
    if ns :| Scalars(ns) && EncodeText(ns) == s {
      EncodedIsValid(ns);
    }
  }
}

/** Fixed-width and length-prefixed encodings, and how to read them back. */
module Codec {
  import opened Common

  type Byte = n: nat | n < 256 witness 0

  type Bytes = seq<Byte>

  const TWO_64: int := 0x1_0000_0000_0000_0000
  const TWO_63: int := 0x8000_0000_0000_0000

  /** The bytes of an ASCII text. Only used for fixed texts; other characters would be cut to their low byte. */
  function Ascii(text: string): (bytes: Bytes)
    ensures |bytes| == |text|
  {
    seq(|text|, i requires 0 <= i < |text| => (text[i] as int) % 256)
  }

  /** 256 to the k-th. */
  function Base(k: nat): (p: nat)
    ensures p > 0
  {
    if k == 0 then 1 else 256 * Base(k - 1)
  }

  /** The k low bytes of n, most significant first. */
  function BigEndian(n: nat, k: nat): (bytes: Bytes)
    ensures |bytes| == k
    decreases k
  {
    if k == 0 then [] else BigEndian(n / 256, k - 1) + [n % 256]
  }

  function FromBigEndian(bytes: Bytes): nat {
    if bytes == [] then 0
    else FromBigEndian(bytes[..|bytes| - 1]) * 256 + bytes[|bytes| - 1]
  }

  lemma {:induction false} BigEndianRoundTrip(n: nat, k: nat)
    requires n < Base(k)
    ensures FromBigEndian(BigEndian(n, k)) == n
    decreases k
  {
    if k > 0 {
      var front := BigEndian(n / 256, k - 1);
      assert BigEndian(n, k)[..k - 1] == front;
      BigEndianRoundTrip(n / 256, k - 1);
    }
  }

  lemma EightBytes()
    ensures Base(8) == TWO_64
  {
    assert Base(1) == 0x100;
    assert Base(2) == 0x1_0000;
    assert Base(3) == 0x100_0000;
    assert Base(4) == 0x1_0000_0000;
    assert Base(5) == 0x100_0000_0000;
    assert Base(6) == 0x1_0000_0000_0000;
    assert Base(7) == 0x100_0000_0000_0000;
  }

  /** The eight-byte form of an unsigned 64-bit number. */
  function Uint64(n: nat): (bytes: Bytes)
    ensures |bytes| == 8
  {
    BigEndian(n, 8)
  }

  /** The eight-byte form of a signed 64-bit number: two's complement. */
  function Int64(n: int): (bytes: Bytes)
    requires -TWO_63 <= n < TWO_63
    ensures |bytes| == 8
  {
    Uint64(if n < 0 then n + TWO_64 else n)
  }

  /** A byte string behind its length. */
  function Field(value: Bytes): (bytes: Bytes)
    ensures |bytes| == 8 + |value|
  {
    Uint64(|value|) + value
  }

  /** A value and what follows it. */
  datatype Parsed<+T> = Parsed(value: T, rest: Bytes)

  function ReadUint64(bytes: Bytes): Option<Parsed<nat>> {
    if |bytes| < 8 then None else Some(Parsed(FromBigEndian(bytes[..8]), bytes[8..]))
  }

  function ReadInt64(bytes: Bytes): Option<Parsed<int>> {
    match ReadUint64(bytes)
    case None => None
    case Some(p) => Some(Parsed(if p.value < TWO_63 then p.value else p.value - TWO_64, p.rest))
  }

  function ReadField(bytes: Bytes): (r: Option<Parsed<Bytes>>)
    ensures r.Some? ==> |r.value.rest| < |bytes|
  {
    match ReadUint64(bytes)
    case None => None
    case Some(p) => if p.value > |p.rest| then None else Some(Parsed(p.rest[..p.value], p.rest[p.value..]))
  }

  lemma Uint64RoundTrip(n: nat, rest: Bytes)
    requires n < TWO_64
    ensures ReadUint64(Uint64(n) + rest) == Some(Parsed(n, rest))
  {
    EightBytes();
    BigEndianRoundTrip(n, 8);
    var bytes := Uint64(n) + rest;
    assert bytes[..8] == Uint64(n) && bytes[8..] == rest;
  }

  lemma Int64RoundTrip(n: int, rest: Bytes)
    requires -TWO_63 <= n < TWO_63
    ensures ReadInt64(Int64(n) + rest) == Some(Parsed(n, rest))
  {
    Uint64RoundTrip(if n < 0 then n + TWO_64 else n, rest);
  }

  lemma FieldRoundTrip(value: Bytes, rest: Bytes)
    requires |value| < TWO_64
    ensures ReadField(Field(value) + rest) == Some(Parsed(value, rest))
  {
    assert Field(value) + rest == Uint64(|value|) + (value + rest);
    Uint64RoundTrip(|value|, value + rest);
    assert (value + rest)[..|value|] == value && (value + rest)[|value|..] == rest;
  }
}

/** The byte-level behaviour of an ECMAScript `DataView` over an
    `ArrayBuffer`: the integer conversions its typed setters apply
    (ToIntegerOrInfinity, ToUint8, ToUint16, ToUint32, ToInt16 of the
    ECMAScript language specification, section 7.1), little-endian writes at
    a byte offset, and the little-endian reads that invert them. A buffer is
    a sequence of bytes; a write returns the updated buffer. */
module Bytes {

  type byte = x: int | 0 <= x < 0x100

  const TWO_8: int := 0x100
  const TWO_15: int := 0x8000
  const TWO_16: int := 0x1_0000
  const TWO_24: int := 0x100_0000
  const TWO_32: int := 0x1_0000_0000

  /** ToIntegerOrInfinity of a finite number: truncation toward zero (not
      rounding, and not flooring for negative values). */
  function Truncate(x: real): (t: int)
    ensures 0.0 <= x ==> 0 <= t && t as real <= x < t as real + 1.0
    ensures x < 0.0 ==> t <= 0 && t as real - 1.0 < x <= t as real
  {
    if x < 0.0 then -((-x).Floor) else x.Floor
  }

  /** ToUint8 of an integral number: reduction modulo 2^8. */
  function ToUint8(x: int): (r: byte)
    ensures 0 <= x < TWO_8 ==> r == x
    ensures (x - r) % TWO_8 == 0
  {
    x % TWO_8
  }

  /** ToUint16 of an integral number: reduction modulo 2^16. */
  function ToUint16(x: int): (r: nat)
    ensures r < TWO_16
    ensures 0 <= x < TWO_16 ==> r == x
    ensures (x - r) % TWO_16 == 0
  {
    x % TWO_16
  }

  /** ToUint32 of an integral number: reduction modulo 2^32. */
  function ToUint32(x: int): (r: nat)
    ensures r < TWO_32
    ensures 0 <= x < TWO_32 ==> r == x
    ensures (x - r) % TWO_32 == 0
  {
    x % TWO_32
  }

  /** ToInt16 of an integral number: reduction modulo 2^16 into the signed
      range, so values already in range are kept and others wrap around. */
  function ToInt16(x: int): (r: int)
    ensures -TWO_15 <= r < TWO_15
    ensures -TWO_15 <= x < TWO_15 ==> r == x
    ensures (x - r) % TWO_16 == 0
  {
    var m := x % TWO_16;
    if m >= TWO_15 then m - TWO_16 else m
  }

  /** ToInt16 of a finite Number: truncate toward zero, then wrap. */
  function NumberToInt16(x: real): (r: int)
    ensures -TWO_15 <= r < TWO_15
    ensures -TWO_15 as real <= x < TWO_15 as real ==> r == Truncate(x)
  {
    ToInt16(Truncate(x))
  }

  /** The two bytes, low byte first, of ToUint16(x). */
  function Uint16Bytes(x: int): (bs: seq<byte>)
    ensures |bs| == 2
  {
    var u := ToUint16(x);
    [u % TWO_8, u / TWO_8]
  }

  /** The four bytes, least significant first, of ToUint32(x). */
  function Uint32Bytes(x: int): (bs: seq<byte>)
    ensures |bs| == 4
  {
    var u := ToUint32(x);
    [u % TWO_8, (u / TWO_8) % TWO_8, (u / TWO_8 / TWO_8) % TWO_8, u / TWO_8 / TWO_8 / TWO_8]
  }

  /** The two bytes, low byte first, of the two's complement of a 16-bit
      signed value; `setInt16` stores exactly these. */
  function Int16Bytes(v: int): (bs: seq<byte>)
    ensures |bs| == 2
  {
    Uint16Bytes(v)
  }

  /** Little-endian unsigned 16-bit value at `offset`. */
  function ReadUint16(bs: seq<byte>, offset: nat): (v: nat)
    requires offset + 2 <= |bs|
    ensures v < TWO_16
  {
    bs[offset] as int + TWO_8 * bs[offset + 1]
  }

  /** Little-endian unsigned 32-bit value at `offset`. */
  function ReadUint32(bs: seq<byte>, offset: nat): (v: nat)
    requires offset + 4 <= |bs|
    ensures v < TWO_32
  {
    bs[offset] as int + TWO_8 * bs[offset + 1] + TWO_16 * bs[offset + 2] + TWO_24 * bs[offset + 3]
  }

  /** Little-endian signed 16-bit value at `offset`, as an `Int16Array`
      element on a little-endian platform reads it. */
  function ReadInt16(bs: seq<byte>, offset: nat): (v: int)
    requires offset + 2 <= |bs|
    ensures -TWO_15 <= v < TWO_15
  {
    var u := ReadUint16(bs, offset);
    if u >= TWO_15 then u - TWO_16 else u
  }

  /** Reading back a 16-bit write yields ToUint16 of the written value. */
  lemma ReadUint16OfBytes(x: int)
    ensures ReadUint16(Uint16Bytes(x), 0) == ToUint16(x)
  {
  }

  /** Reading back a 32-bit write yields ToUint32 of the written value. */
  lemma ReadUint32OfBytes(x: int)
    ensures ReadUint32(Uint32Bytes(x), 0) == ToUint32(x)
  {
  }

  /** Reading back a signed 16-bit write yields ToInt16 of the written value,
      so an in-range value survives unchanged. */
  lemma ReadInt16OfBytes(v: int)
    ensures ReadInt16(Int16Bytes(v), 0) == ToInt16(v)
  {
  }

  /** Conversely, every pair of bytes is the encoding of the signed value
      read from it: the little-endian 16-bit codec is a bijection. */
  lemma Int16BytesOfRead(bs: seq<byte>, offset: nat)
    requires offset + 2 <= |bs|
    ensures Int16Bytes(ReadInt16(bs, offset)) == bs[offset..offset + 2]
  {
  }

  /** Conversely for 32-bit fields. */
  lemma Uint32BytesOfRead(bs: seq<byte>, offset: nat)
    requires offset + 4 <= |bs|
    ensures Uint32Bytes(ReadUint32(bs, offset)) == bs[offset..offset + 4]
  {
    var a, b, c, d := bs[offset], bs[offset + 1], bs[offset + 2], bs[offset + 3];
    var v := ReadUint32(bs, offset);
    DivModUnique(v, b + TWO_8 * c + TWO_16 * d, a, TWO_8);
    DivModUnique(b + TWO_8 * c + TWO_16 * d, c + TWO_8 * d, b, TWO_8);
    DivModUnique(c + TWO_8 * d, d, c, TWO_8);
  }

  lemma MulMonotone(d: int, m: int)
    requires m > 0
    ensures d >= 1 ==> d * m >= m
    ensures d <= -1 ==> d * m <= -m
  {
  }

  /** Division with remainder is unique: any decomposition `x == q * m + r`
      with `0 <= r < m` is the one `/` and `%` compute. */
  lemma DivModUnique(x: int, q: int, r: int, m: int)
    requires 0 < m && 0 <= r < m && x == q * m + r
    ensures x / m == q && x % m == r
  {
    var q0, r0 := x / m, x % m;
    assert (q - q0) * m == r0 - r;
    MulMonotone(q - q0, m);
  }

  /** A write of `bs` at `offset`: the bytes at `offset .. offset + |bs|`
      are replaced and no other byte changes. */
  function Write(view: seq<byte>, offset: nat, bs: seq<byte>): (r: seq<byte>)
    requires offset + |bs| <= |view|
    ensures |r| == |view|
    ensures forall j | 0 <= j < |view| :: r[j] == if offset <= j < offset + |bs| then bs[j - offset] else view[j]
  {
    view[..offset] + bs + view[offset + |bs|..]
  }

  /** A string's character codes as bytes, each stored through ToUint8: what
      both `setUint8(charCodeAt(i))` and element assignment into a
      `Uint8Array` store. */
  function CharCodes(s: string): (bs: seq<byte>)
    ensures |bs| == |s|
  {
    seq(|s|, i requires 0 <= i < |s| => ToUint8(s[i] as int))
  }

  /** `DataView.setUint8(offset, x)`. */
  function SetUint8(view: seq<byte>, offset: nat, x: int): (r: seq<byte>)
    requires offset + 1 <= |view|
    ensures |r| == |view|
  {
    Write(view, offset, [ToUint8(x)])
  }

  /** `DataView.setUint16(offset, x, true)`: little-endian. */
  function SetUint16(view: seq<byte>, offset: nat, x: int): (r: seq<byte>)
    requires offset + 2 <= |view|
    ensures |r| == |view|
  {
    Write(view, offset, Uint16Bytes(x))
  }

  /** `DataView.setUint32(offset, x, true)`: little-endian. */
  function SetUint32(view: seq<byte>, offset: nat, x: int): (r: seq<byte>)
    requires offset + 4 <= |view|
    ensures |r| == |view|
  {
    Write(view, offset, Uint32Bytes(x))
  }

  /** `DataView.setInt16(offset, x, true)` of a finite Number `x`. */
  function SetInt16(view: seq<byte>, offset: nat, x: real): (r: seq<byte>)
    requires offset + 2 <= |view|
    ensures |r| == |view|
  {
    Write(view, offset, Int16Bytes(NumberToInt16(x)))
  }
}

/** Fixed-width integers, Go strings as byte sequences, and the big-endian
    integer encoding of section 5 of RFC 4251. */
module Bytes {
  type byte = x: int | 0 <= x < 0x100
  type uint32 = x: int | 0 <= x < 0x1_0000_0000
  type uint64 = x: int | 0 <= x < 0x1_0000_0000_0000_0000
  type bytes = seq<byte>

  const MAX_INT64: int := 0x7FFF_FFFF_FFFF_FFFF
  const MAX_UINT64: uint64 := 0xFFFF_FFFF_FFFF_FFFF

  datatype Option<+T> = None | Some(value: T)

  function Min(a: int, b: int): int { if a <= b then a else b }

  function Max(a: int, b: int): int { if a >= b then a else b }

  /** The bytes of an ASCII literal. */
  function Ascii(s: string): (b: bytes)
    ensures |b| == |s|
  {
    seq(|s|, i requires 0 <= i < |s| => if s[i] as int < 0x80 then s[i] as int else 0x3F)
  }

  /** Bit test against a one-bit mask. */
  predicate Has(flags: uint32, mask: uint32)
    requires mask > 0
  {
    flags / mask % 2 == 1
  }

  function BE32(v: uint32): (b: bytes)
    ensures |b| == 4
  {
    var v1 := v / 0x100;
    var v2 := v1 / 0x100;
    [v2 / 0x100, v2 % 0x100, v1 % 0x100, v % 0x100]
  }

  function FromBE32(b: bytes): uint32
    requires |b| == 4
  {
    var b0: int, b1: int, b2: int := b[0], b[1], b[2];
    ((b0 * 0x100 + b1) * 0x100 + b2) * 0x100 + b[3]
  }

  function BE64(v: uint64): (b: bytes)
    ensures |b| == 8
  {
    BE32(v / 0x1_0000_0000) + BE32(v % 0x1_0000_0000)
  }

  function FromBE64(b: bytes): uint64
    requires |b| == 8
  {
    FromBE32(b[..4]) * 0x1_0000_0000 + FromBE32(b[4..])
  }

  lemma BE32Inverse(v: uint32)
    ensures FromBE32(BE32(v)) == v
  {
  }

  lemma FromBE32Inverse(b: bytes)
    requires |b| == 4
    ensures BE32(FromBE32(b)) == b
  {
    var v := FromBE32(b);
    var b0: int, b1: int, b2: int := b[0], b[1], b[2];
    assert v / 0x100 == (b0 * 0x100 + b1) * 0x100 + b2;
    assert v / 0x100 / 0x100 == b0 * 0x100 + b1;
  }

  lemma BE64Inverse(v: uint64)
    ensures FromBE64(BE64(v)) == v
  {
    BE32Inverse(v / 0x1_0000_0000);
    BE32Inverse(v % 0x1_0000_0000);
    assert BE64(v)[..4] == BE32(v / 0x1_0000_0000);
    assert BE64(v)[4..] == BE32(v % 0x1_0000_0000);
  }

  lemma FromBE64Inverse(b: bytes)
    requires |b| == 8
    ensures BE64(FromBE64(b)) == b
  {
    FromBE32Inverse(b[..4]);
    FromBE32Inverse(b[4..]);
    assert FromBE64(b) / 0x1_0000_0000 == FromBE32(b[..4]);
    assert b[..4] + b[4..] == b;
  }
}

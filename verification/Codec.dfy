/** The SFTP version 3 messages as byte strings: the SSH encoding of section 5
    of RFC 4251 and the ATTRS structure of section 5 of
    draft-ietf-secsh-filexfer-02.

    An encoder here puts a value in front of the bytes that follow it, and a
    decoder takes a value off the front and returns what is left, so encodings
    compose without any reasoning about concatenation. */
module Codec {
  import opened Bytes

  // ---------- primitives ----------

  datatype Fault = Short | Limit | Trailing

  datatype Take<+T> = Got(value: T, rest: bytes) | Bad(fault: Fault) {
    predicate IsFailure() { Bad? }

    function PropagateFailure<U>(): Take<U>
      requires Bad?
    {
      Bad(fault)
    }

    function Extract(): (T, bytes)
      requires Got?
    {
      (value, rest)
    }
  }

  const DEFAULT_LIMIT: nat := 0x4_0000

  function TakeU32(b: bytes): Take<uint32>
  {
    if |b| < 4 then Bad(Short) else Got(FromBE32(b[..4]), b[4..])
  }

  function PutU32(v: uint32, rest: bytes): bytes { BE32(v) + rest }

  function TakeU64(b: bytes): Take<uint64>
  {
    if |b| < 8 then Bad(Short) else Got(FromBE64(b[..8]), b[8..])
  }

  function PutU64(v: uint64, rest: bytes): bytes { BE64(v) + rest }

  /** A length prefix over the limit is refused before the length is used. */
  function TakeBlob(b: bytes, limit: nat): Take<bytes>
  {
    var (n, b1) :- TakeU32(b);
    if n > limit then Bad(Limit) else if |b1| < n then Bad(Short) else Got(b1[..n], b1[n..])
  }

  function TakeStr(b: bytes): Take<bytes> { TakeBlob(b, DEFAULT_LIMIT) }

  /** The length is cut to 32 bits, as the cast does. */
  function PutStr(s: bytes, rest: bytes): bytes { PutU32(|s| % 0x1_0000_0000, s + rest) }

  lemma U32RoundTrip(v: uint32, rest: bytes)
    ensures TakeU32(PutU32(v, rest)) == Got(v, rest)
  {
    BE32Inverse(v);
    assert PutU32(v, rest)[..4] == BE32(v) && PutU32(v, rest)[4..] == rest;
  }

  lemma U32Inverse(b: bytes)
    requires TakeU32(b).Got?
    ensures PutU32(TakeU32(b).value, TakeU32(b).rest) == b
  {
    FromBE32Inverse(b[..4]);
    assert b[..4] + b[4..] == b;
  }

  lemma U64RoundTrip(v: uint64, rest: bytes)
    ensures TakeU64(PutU64(v, rest)) == Got(v, rest)
  {
    BE64Inverse(v);
    assert PutU64(v, rest)[..8] == BE64(v) && PutU64(v, rest)[8..] == rest;
  }

  lemma U64Inverse(b: bytes)
    requires TakeU64(b).Got?
    ensures PutU64(TakeU64(b).value, TakeU64(b).rest) == b
  {
    FromBE64Inverse(b[..8]);
    assert b[..8] + b[8..] == b;
  }

  lemma StrRoundTrip(s: bytes, rest: bytes)
    requires |s| <= DEFAULT_LIMIT
    ensures TakeStr(PutStr(s, rest)) == Got(s, rest)
  {
    hide PutU32, TakeU32;
    U32RoundTrip(|s|, s + rest);
    assert (s + rest)[..|s|] == s && (s + rest)[|s|..] == rest;
  }

  lemma StrInverse(b: bytes)
    requires TakeStr(b).Got?
    ensures PutStr(TakeStr(b).value, TakeStr(b).rest) == b
    ensures |TakeStr(b).value| <= DEFAULT_LIMIT && |TakeStr(b).rest| < |b|
  {
    U32Inverse(b);
    var n, b1 := TakeU32(b).value, TakeU32(b).rest;
    assert b1[..n] + b1[n..] == b1;
  }

  /** Every primitive decoder undoes its encoder and leaves what followed. */
  lemma RoundTrips()
    ensures forall v: uint32, rest :: TakeU32(PutU32(v, rest)) == Got(v, rest)
    ensures forall v: uint64, rest :: TakeU64(PutU64(v, rest)) == Got(v, rest)
    ensures forall s: bytes, rest | |s| <= DEFAULT_LIMIT :: TakeStr(PutStr(s, rest)) == Got(s, rest)
  {
    forall v: uint32, rest: bytes ensures TakeU32(PutU32(v, rest)) == Got(v, rest) {
      U32RoundTrip(v, rest);
    }
    forall v: uint64, rest: bytes ensures TakeU64(PutU64(v, rest)) == Got(v, rest) {
      U64RoundTrip(v, rest);
    }
    forall s: bytes, rest: bytes | |s| <= DEFAULT_LIMIT ensures TakeStr(PutStr(s, rest)) == Got(s, rest) {
      StrRoundTrip(s, rest);
    }
  }

  /** Every primitive encoder rebuilds exactly the bytes its decoder consumed. */
  lemma Inverses()
    ensures forall b | TakeU32(b).Got? :: PutU32(TakeU32(b).value, TakeU32(b).rest) == b
    ensures forall b | TakeU64(b).Got? :: PutU64(TakeU64(b).value, TakeU64(b).rest) == b
    ensures forall b | TakeStr(b).Got? ::
              PutStr(TakeStr(b).value, TakeStr(b).rest) == b && |TakeStr(b).value| <= DEFAULT_LIMIT
  {
    forall b: bytes | TakeU32(b).Got? ensures PutU32(TakeU32(b).value, TakeU32(b).rest) == b {
      U32Inverse(b);
    }
    forall b: bytes | TakeU64(b).Got? ensures PutU64(TakeU64(b).value, TakeU64(b).rest) == b {
      U64Inverse(b);
    }
    forall b: bytes | TakeStr(b).Got?
      ensures PutStr(TakeStr(b).value, TakeStr(b).rest) == b && |TakeStr(b).value| <= DEFAULT_LIMIT
    {
      StrInverse(b);
    }
  }

  // ---------- extension pairs ----------

  const MAX_EXTENDED_PAIRS: nat := 64

  datatype Pair = Pair(kind: bytes, data: bytes) {
    predicate Fits() { |kind| <= DEFAULT_LIMIT && |data| <= DEFAULT_LIMIT }
  }

  predicate PairsFit(ps: seq<Pair>) { forall i :: 0 <= i < |ps| ==> ps[i].Fits() }

  function PutPairs(ps: seq<Pair>, rest: bytes): bytes
  {
    if ps == [] then rest else PutStr(ps[0].kind, PutStr(ps[0].data, PutPairs(ps[1..], rest)))
  }

  function TakePair(b: bytes): Take<Pair>
  {
    var (kind, b1) :- TakeStr(b);
    var (data, b2) :- TakeStr(b1);
    Got(Pair(kind, data), b2)
  }

  function TakePairs(n: nat, b: bytes): Take<seq<Pair>>
  {
    if n == 0 then Got([], b)
    else
      var (p, b1) :- TakePair(b);
      var (ps, b2) :- TakePairs(n - 1, b1);
      Got([p] + ps, b2)
  }

  lemma {:induction false} TakePutPairs(ps: seq<Pair>, rest: bytes)
    requires PairsFit(ps)
    ensures TakePairs(|ps|, PutPairs(ps, rest)) == Got(ps, rest)
  {
    hide Has, PutU32, TakeU32, PutU64, TakeU64, PutStr, TakeStr;
    RoundTrips();
    if ps != [] {
      TakePutPairs(ps[1..], rest);
      assert ps[0].Fits();
      assert TakePair(PutPairs(ps, rest)) == Got(ps[0], PutPairs(ps[1..], rest));
      assert [ps[0]] + ps[1..] == ps;
    }
  }

  lemma {:induction false} PutTakePairs(n: nat, b: bytes)
    requires TakePairs(n, b).Got?
    ensures |TakePairs(n, b).value| == n
    ensures PairsFit(TakePairs(n, b).value)
    ensures PutPairs(TakePairs(n, b).value, TakePairs(n, b).rest) == b
  {
    hide Has, PutU32, TakeU32, PutU64, TakeU64, PutStr, TakeStr;
    Inverses();
    if n > 0 {
      var t := TakePair(b);
      PutTakePairs(n - 1, t.rest);
      assert TakePairs(n, b).value[1..] == TakePairs(n - 1, t.rest).value;
    }
  }

  // ---------- ATTRS ----------

  const ATTR_SIZE: uint32 := 0x1
  const ATTR_UIDGID: uint32 := 0x2
  const ATTR_PERMISSIONS: uint32 := 0x4
  const ATTR_ACMODTIME: uint32 := 0x8
  const ATTR_EXTENDED: uint32 := 0x8000_0000

  datatype Attributes = Attributes(
    flags: uint32, size: uint64, uid: uint32, gid: uint32, permissions: uint32,
    atime: uint32, mtime: uint32, extended: seq<Pair>)
  {
    /** What the wire can carry: a counted list within the decoder's limits. */
    predicate Fits()
    {
      Has(flags, ATTR_EXTENDED) ==> |extended| <= MAX_EXTENDED_PAIRS && PairsFit(extended)
    }

    /** The same attributes with every unannounced field zeroed. */
    function Zeroed(): Attributes
    {
      Attributes(flags,
                 if Has(flags, ATTR_SIZE) then size else 0,
                 if Has(flags, ATTR_UIDGID) then uid else 0,
                 if Has(flags, ATTR_UIDGID) then gid else 0,
                 if Has(flags, ATTR_PERMISSIONS) then permissions else 0,
                 if Has(flags, ATTR_ACMODTIME) then atime else 0,
                 if Has(flags, ATTR_ACMODTIME) then mtime else 0,
                 if Has(flags, ATTR_EXTENDED) then extended else [])
    }
  }

  // A field announced by a flag: absent ones take no bytes and read as zero.

  function PutU64If(c: bool, v: uint64, rest: bytes): bytes { if c then PutU64(v, rest) else rest }

  function TakeU64If(c: bool, b: bytes): Take<uint64> { if c then TakeU64(b) else Got(0, b) }

  function PutU32If(c: bool, v: uint32, rest: bytes): bytes { if c then PutU32(v, rest) else rest }

  function TakeU32If(c: bool, b: bytes): Take<uint32> { if c then TakeU32(b) else Got(0, b) }

  lemma OptionalRoundTrips()
    ensures forall c, v: uint64, rest :: TakeU64If(c, PutU64If(c, v, rest)) == Got(if c then v else 0, rest)
    ensures forall c, v: uint32, rest :: TakeU32If(c, PutU32If(c, v, rest)) == Got(if c then v else 0, rest)
  {
    hide PutU32, TakeU32, PutU64, TakeU64, PutStr, TakeStr;
    RoundTrips();
  }

  function PutExtended(a: Attributes, rest: bytes): bytes
  {
    if Has(a.flags, ATTR_EXTENDED)
    then PutU32(|a.extended| % 0x1_0000_0000, PutPairs(a.extended, rest))
    else rest
  }

  function TakeExtended(flags: uint32, b: bytes): Take<seq<Pair>>
  {
    if Has(flags, ATTR_EXTENDED) then
      var (n, b1) :- TakeU32(b);
      if n > MAX_EXTENDED_PAIRS then Bad(Limit) else TakePairs(n, b1)
    else Got([], b)
  }

  function PutAttrs(a: Attributes, rest: bytes): bytes
  {
    var owner, times := Has(a.flags, ATTR_UIDGID), Has(a.flags, ATTR_ACMODTIME);
    var afterPermissions := PutU32If(times, a.atime, PutU32If(times, a.mtime, PutExtended(a, rest)));
    var afterOwner := PutU32If(Has(a.flags, ATTR_PERMISSIONS), a.permissions, afterPermissions);
    var afterSize := PutU32If(owner, a.uid, PutU32If(owner, a.gid, afterOwner));
    PutU32(a.flags, PutU64If(Has(a.flags, ATTR_SIZE), a.size, afterSize))
  }

  function TakeAttrs(b: bytes): Take<Attributes>
  {
    var (flags, b0) :- TakeU32(b);
    var (size, b1) :- TakeU64If(Has(flags, ATTR_SIZE), b0);
    var (uid, b2) :- TakeU32If(Has(flags, ATTR_UIDGID), b1);
    var (gid, b3) :- TakeU32If(Has(flags, ATTR_UIDGID), b2);
    var (perm, b4) :- TakeU32If(Has(flags, ATTR_PERMISSIONS), b3);
    var (atime, b5) :- TakeU32If(Has(flags, ATTR_ACMODTIME), b4);
    var (mtime, b6) :- TakeU32If(Has(flags, ATTR_ACMODTIME), b5);
    var (ext, b7) :- TakeExtended(flags, b6);
    Got(Attributes(flags, size, uid, gid, perm, atime, mtime, ext), b7)
  }

  lemma ExtendedRoundTrip(a: Attributes, rest: bytes)
    requires a.Fits()
    ensures TakeExtended(a.flags, PutExtended(a, rest)) == Got(a.Zeroed().extended, rest)
  {
    hide Has, PutU32, TakeU32, PutU64, TakeU64, PutStr, TakeStr, PutPairs, TakePairs;
    RoundTrips();
    if Has(a.flags, ATTR_EXTENDED) {
      TakePutPairs(a.extended, rest);
    }
  }

  /** ATTRS nests: whatever follows it, decoding takes exactly the structure,
      with its unannounced fields zeroed, and leaves exactly the rest. Unknown
      flag bits are carried. */
  lemma TakePutAttrs(a: Attributes, rest: bytes)
    requires a.Fits()
    ensures TakeAttrs(PutAttrs(a, rest)) == Got(a.Zeroed(), rest)
  {
    hide Has, PutU32, TakeU32, PutU64, TakeU64, PutStr, TakeStr, PutU32If, TakeU32If, PutU64If, TakeU64If,
      PutExtended, TakeExtended;
    RoundTrips();
    OptionalRoundTrips();
    ExtendedRoundTrip(a, rest);
  }

  lemma PutTakeAttrs(b: bytes)
    requires TakeAttrs(b).Got?
    ensures TakeAttrs(b).value.Fits()
    ensures TakeAttrs(b).value.Zeroed() == TakeAttrs(b).value
    ensures PutAttrs(TakeAttrs(b).value, TakeAttrs(b).rest) == b
  {
    hide Has, PutU32, TakeU32, PutU64, TakeU64, PutStr, TakeStr;
    Inverses();
    var a := TakeAttrs(b).value;
    var (_, b0) := TakeU32(b).Extract();
    var (_, b1) := TakeU64If(Has(a.flags, ATTR_SIZE), b0).Extract();
    var (_, b2) := TakeU32If(Has(a.flags, ATTR_UIDGID), b1).Extract();
    var (_, b3) := TakeU32If(Has(a.flags, ATTR_UIDGID), b2).Extract();
    var (_, b4) := TakeU32If(Has(a.flags, ATTR_PERMISSIONS), b3).Extract();
    var (_, b5) := TakeU32If(Has(a.flags, ATTR_ACMODTIME), b4).Extract();
    var (_, b6) := TakeU32If(Has(a.flags, ATTR_ACMODTIME), b5).Extract();
    if Has(a.flags, ATTR_EXTENDED) {
      PutTakePairs(TakeU32(b6).value, TakeU32(b6).rest);
    }
    assert PutExtended(a, TakeAttrs(b).rest) == b6;
  }
}

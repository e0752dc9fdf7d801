/** The codec as the server runs it: an encoder that appends to a buffer and a
    decoder that moves a cursor over one, each step tied to the byte-string
    functions whose inverse laws are proved beside them. */
module Wire {
  import opened Bytes
  import opened Codec
  import opened Messages
  import opened Packets

  /** Appends to a buffer. Each method is told, for the proof only, the bytes that
      will follow, and promises that the buffer so continued is the one before it
      continued with the encoded value in front. */
  class Encoder {
    var buf: bytes

    constructor ()
      ensures buf == []
    {
      buf := [];
    }

    method Uint32(v: uint32, ghost rest: bytes)
      modifies this
      ensures buf + rest == old(buf) + PutU32(v, rest)
    {
      buf := buf + BE32(v);
      assert buf + rest == old(buf) + (BE32(v) + rest);
    }

    method Uint64(v: uint64, ghost rest: bytes)
      modifies this
      ensures buf + rest == old(buf) + PutU64(v, rest)
    {
      buf := buf + BE64(v);
      assert buf + rest == old(buf) + (BE64(v) + rest);
    }

    method Raw(b: bytes, ghost rest: bytes)
      modifies this
      ensures buf + rest == old(buf) + (b + rest)
    {
      buf := buf + b;
    }

    method Blob(b: bytes, ghost rest: bytes)
      modifies this
      ensures buf + rest == old(buf) + PutStr(b, rest)
    {
      Uint32(|b| % 0x1_0000_0000, b + rest);
      Raw(b, rest);
    }

    method Pairs(ps: seq<Pair>, ghost rest: bytes)
      modifies this
      ensures buf + rest == old(buf) + PutPairs(ps, rest)
    {
      hide PutStr;
      var i := 0;
      while i < |ps|
        invariant 0 <= i <= |ps|
        invariant buf + PutPairs(ps[i..], rest) == old(buf) + PutPairs(ps, rest)
      {
        ghost var tail := PutPairs(ps[i + 1..], rest);
        assert ps[i..][0] == ps[i] && ps[i..][1..] == ps[i + 1..];
        Blob(ps[i].kind, PutStr(ps[i].data, tail));
        Blob(ps[i].data, tail);
        i := i + 1;
      }
    }

    method Uint32If(c: bool, v: uint32, ghost rest: bytes)
      modifies this
      ensures buf + rest == old(buf) + PutU32If(c, v, rest)
    {
      hide PutU32;
      if c {
        Uint32(v, rest);
      }
    }

    method Extended(a: Attributes, ghost rest: bytes)
      modifies this
      ensures buf + rest == old(buf) + PutExtended(a, rest)
    {
      hide PutU32, PutPairs, Has;
      if Has(a.flags, ATTR_EXTENDED) {
        Uint32(|a.extended| % 0x1_0000_0000, PutPairs(a.extended, rest));
        Pairs(a.extended, rest);
      }
    }

    method Attrs(a: Attributes, ghost rest: bytes)
      modifies this
      ensures buf + rest == old(buf) + PutAttrs(a, rest)
    {
      hide Has, PutU32, PutU64, PutU32If, PutExtended;
      var owner, times := Has(a.flags, ATTR_UIDGID), Has(a.flags, ATTR_ACMODTIME);
      ghost var k1 := PutExtended(a, rest);
      ghost var k2 := PutU32If(times, a.mtime, k1);
      ghost var k3 := PutU32If(times, a.atime, k2);
      ghost var k4 := PutU32If(Has(a.flags, ATTR_PERMISSIONS), a.permissions, k3);
      ghost var k5 := PutU32If(owner, a.gid, k4);
      ghost var k6 := PutU32If(owner, a.uid, k5);
      Uint32(a.flags, PutU64If(Has(a.flags, ATTR_SIZE), a.size, k6));
      if Has(a.flags, ATTR_SIZE) {
        Uint64(a.size, k6);
      }
      Uint32If(owner, a.uid, k5);
      Uint32If(owner, a.gid, k4);
      Uint32If(Has(a.flags, ATTR_PERMISSIONS), a.permissions, k3);
      Uint32If(times, a.atime, k2);
      Uint32If(times, a.mtime, k1);
      Extended(a, rest);
    }

    method Items(items: seq<NameItem>, ghost rest: bytes)
      modifies this
      ensures buf + rest == old(buf) + PutItems(items, rest)
    {
      hide PutStr, PutAttrs;
      var i := 0;
      while i < |items|
        invariant 0 <= i <= |items|
        invariant buf + PutItems(items[i..], rest) == old(buf) + PutItems(items, rest)
      {
        ghost var tail := PutItems(items[i + 1..], rest);
        ghost var attrs := PutAttrs(items[i].attrs, tail);
        assert items[i..][0] == items[i] && items[i..][1..] == items[i + 1..];
        Blob(items[i].filename, PutStr(items[i].longname, attrs));
        Blob(items[i].longname, attrs);
        Attrs(items[i].attrs, tail);
        i := i + 1;
      }
    }

    /** Appends the payload of m and nothing else. */
    method EncodePayload(m: Message)
      modifies this
      ensures buf == old(buf) + Encode(m)
    {
      hide Put;
      if IsReply(m) {
        EncodeReply(m);
      } else {
        EncodeRequest(m);
      }
      assert buf + [] == buf;
    }

    method EncodeRequest(m: Message)
      requires !IsReply(m)
      modifies this
      ensures buf + [] == old(buf) + Put(m, [])
    {
      hide PutU32, PutU64, PutStr, PutAttrs, PutPairs;
      match m {
        case Init(version, ext) => Uint32(version, PutPairs(ext, [])); Pairs(ext, []);
        case Version(version, ext) => Uint32(version, PutPairs(ext, [])); Pairs(ext, []);
        case PathRequest(_, id, path) => Uint32(id, PutStr(path, [])); Blob(path, []);
        case HandleRequest(_, id, handle) => Uint32(id, PutStr(handle, [])); Blob(handle, []);
        case Open(id, path, pflags, attrs) =>
          ghost var k := PutU32(pflags, PutAttrs(attrs, []));
          Uint32(id, PutStr(path, k));
          Blob(path, k);
          Uint32(pflags, PutAttrs(attrs, []));
          Attrs(attrs, []);
        case Read(id, handle, offset, n) =>
          ghost var k := PutU64(offset, PutU32(n, []));
          Uint32(id, PutStr(handle, k));
          Blob(handle, k);
          Uint64(offset, PutU32(n, []));
          Uint32(n, []);
        case Write(id, handle, offset, data) =>
          ghost var k := PutU64(offset, PutStr(data, []));
          Uint32(id, PutStr(handle, k));
          Blob(handle, k);
          Uint64(offset, PutStr(data, []));
          Blob(data, []);
        case Setstat(_, id, path, attrs) =>
          Uint32(id, PutStr(path, PutAttrs(attrs, [])));
          Blob(path, PutAttrs(attrs, []));
          Attrs(attrs, []);
        case Fsetstat(id, handle, attrs) =>
          Uint32(id, PutStr(handle, PutAttrs(attrs, [])));
          Blob(handle, PutAttrs(attrs, []));
          Attrs(attrs, []);
        case Rename(id, p, q) => Uint32(id, PutStr(p, PutStr(q, []))); Blob(p, PutStr(q, [])); Blob(q, []);
        case Symlink(id, target, link) =>
          Uint32(id, PutStr(target, PutStr(link, [])));
          Blob(target, PutStr(link, []));
          Blob(link, []);
        case Extended(id, name, data) => Uint32(id, PutStr(name, data + [])); Blob(name, data + []); Raw(data, []);
      }
    }

    method EncodeReply(m: Message)
      requires IsReply(m)
      modifies this
      ensures buf + [] == old(buf) + Put(m, [])
    {
      hide PutU32, PutStr, PutAttrs, PutItems;
      match m {
        case Status(id, code, message, lang) =>
          ghost var k := PutStr(message, PutStr(lang, []));
          Uint32(id, PutU32(code, k));
          Uint32(code, k);
          Blob(message, PutStr(lang, []));
          Blob(lang, []);
        case Handle(id, handle) => Uint32(id, PutStr(handle, [])); Blob(handle, []);
        case Data(id, data) => Uint32(id, PutStr(data, [])); Blob(data, []);
        case Name(id, items) =>
          ghost var count := |items| % 0x1_0000_0000;
          Uint32(id, PutU32(count, PutItems(items, [])));
          Uint32(|items| % 0x1_0000_0000, PutItems(items, []));
          Items(items, []);
        case Attrs(id, attrs) => Uint32(id, PutAttrs(attrs, [])); Attrs(attrs, []);
        case ExtendedReply(id, data) => Uint32(id, data + []); Raw(data, []);
      }
    }
  }

  /** A decoded field or the fault that ended decoding. */
  datatype Field<+T> = Val(value: T) | Fail(fault: Fault) {
    predicate IsFailure() { Fail? }

    function PropagateFailure<U>(): Field<U>
      requires Fail?
    {
      Fail(fault)
    }

    function Extract(): T
      requires Val?
    {
      value
    }
  }

  function Result<T>(t: Take<T>): Field<T>
  {
    match t
    case Got(v, _) => Val(v)
    case Bad(f) => Fail(f)
  }

  class Decoder {
    const buf: bytes
    var off: nat

    ghost predicate Valid()
      reads this
    {
      off <= |buf|
    }

    function Rest(): bytes
      requires Valid()
      reads this
    {
      buf[off..]
    }

    /** r is what t took off the front, and the cursor stands at what t left. */
    ghost predicate Took<T>(t: Take<T>, r: Field<T>)
      reads this
    {
      Valid() && r == Result(t) && (t.Got? ==> Rest() == t.rest)
    }

    constructor (b: bytes)
      ensures Valid() && Rest() == b
    {
      buf := b;
      off := 0;
    }

    method Uint32() returns (r: Field<uint32>)
      requires Valid()
      modifies this
      ensures Took(TakeU32(old(Rest())), r) && (r.Fail? ==> off == old(off))
    {
      if |buf| - off < 4 {
        return Fail(Short);
      }
      r := Val(FromBE32(buf[off..off + 4]));
      assert buf[off..off + 4] == Rest()[..4] && buf[off + 4..] == Rest()[4..];
      off := off + 4;
    }

    method Uint64() returns (r: Field<uint64>)
      requires Valid()
      modifies this
      ensures Took(TakeU64(old(Rest())), r) && (r.Fail? ==> off == old(off))
    {
      if |buf| - off < 8 {
        return Fail(Short);
      }
      r := Val(FromBE64(buf[off..off + 8]));
      assert buf[off..off + 8] == Rest()[..8] && buf[off + 8..] == Rest()[8..];
      off := off + 8;
    }

    method Blob() returns (r: Field<bytes>)
      requires Valid()
      modifies this
      ensures Took(TakeStr(old(Rest())), r)
    {
      hide TakeU32;
      var n :- Uint32();
      if n > DEFAULT_LIMIT {
        return Fail(Limit);
      }
      if |buf| - off < n {
        return Fail(Short);
      }
      r := Val(buf[off..off + n]);
      assert buf[off..off + n] == Rest()[..n] && buf[off + n..] == Rest()[n..];
      off := off + n;
    }

    method End(m: Message) returns (r: Field<Message>)
      requires Valid()
      ensures r == Result(Finish(m, Rest()))
    {
      r := if off != |buf| then Fail(Trailing) else Val(m);
    }

    method Pairs(n: nat) returns (r: Field<seq<Pair>>)
      requires Valid()
      modifies this
      ensures Took(TakePairs(n, old(Rest())), r)
    {
      hide TakeStr;
      var ps: seq<Pair> := [];
      ghost var start := Rest();
      PrefixedNone(TakePairs(n, start));
      var i := 0;
      while i < n
        invariant 0 <= i <= n && Valid()
        invariant TakePairs(n, start) == Prefixed(ps, TakePairs(n - i, Rest()))
      {
        ghost var b := Rest();
        var kind :- Blob();
        var data :- Blob();
        assert TakePair(b) == Got(Pair(kind, data), Rest());
        PrefixedSnoc(ps, Pair(kind, data), TakePairs(n - i - 1, Rest()));
        ps := ps + [Pair(kind, data)];
        i := i + 1;
      }
      assert ps + [] == ps;
      r := Val(ps);
    }

    method Uint64If(c: bool) returns (r: Field<uint64>)
      requires Valid()
      modifies this
      ensures Took(TakeU64If(c, old(Rest())), r)
    {
      r := Val(0);
      if c {
        r := Uint64();
      }
    }

    method Uint32If(c: bool) returns (r: Field<uint32>)
      requires Valid()
      modifies this
      ensures Took(TakeU32If(c, old(Rest())), r)
    {
      r := Val(0);
      if c {
        r := Uint32();
      }
    }

    method Extended(flags: uint32) returns (r: Field<seq<Pair>>)
      requires Valid()
      modifies this
      ensures Took(TakeExtended(flags, old(Rest())), r)
    {
      hide TakeU32, TakePairs;
      if !Has(flags, ATTR_EXTENDED) {
        return Val([]);
      }
      var n :- Uint32();
      if n > MAX_EXTENDED_PAIRS {
        return Fail(Limit);
      }
      r := Pairs(n);
    }

    method Attrs() returns (r: Field<Attributes>)
      requires Valid()
      modifies this
      ensures Took(TakeAttrs(old(Rest())), r)
    {
      hide Has, TakeU32, TakeU64If, TakeU32If, TakeExtended, TakeU64, TakeBlob;
      var flags :- Uint32();
      var size :- Uint64If(Has(flags, ATTR_SIZE));
      var uid :- Uint32If(Has(flags, ATTR_UIDGID));
      var gid :- Uint32If(Has(flags, ATTR_UIDGID));
      var permissions :- Uint32If(Has(flags, ATTR_PERMISSIONS));
      var atime :- Uint32If(Has(flags, ATTR_ACMODTIME));
      var mtime :- Uint32If(Has(flags, ATTR_ACMODTIME));
      var extended :- Extended(flags);
      r := Val(Attributes(flags, size, uid, gid, permissions, atime, mtime, extended));
    }
  }

  /** The values already taken in front of what is still to be taken. */
  function Prefixed<T>(have: seq<T>, t: Take<seq<T>>): Take<seq<T>>
  {
    match t
    case Got(v, rest) => Got(have + v, rest)
    case Bad(f) => Bad(f)
  }

  lemma PrefixedNone<T>(t: Take<seq<T>>)
    ensures Prefixed([], t) == t
  {
    if t.Got? {
      assert [] + t.value == t.value;
    }
  }

  lemma PrefixedSnoc<T>(have: seq<T>, x: T, t: Take<seq<T>>)
    ensures Prefixed(have + [x], t) == Prefixed(have, Prefixed([x], t))
  {
    if t.Got? {
      assert have + [x] + t.value == have + ([x] + t.value);
    }
  }

  method ReadInit(payload: bytes) returns (r: Field<Message>)
    ensures r == Result(DecodeInit(payload))
  {
    hide TakeU32, TakeStr;
    var d := new Decoder(payload);
    var version :- d.Uint32();
    ghost var start := d.Rest();
    var extensions: seq<Pair> := [];
    PrefixedNone(TakeAllPairs(start, 0));
    while d.off < |d.buf|
      invariant d.Valid()
      invariant TakeAllPairs(start, 0) == Prefixed(extensions, TakeAllPairs(d.Rest(), |extensions|))
      decreases |d.buf| - d.off
    {
      if |extensions| >= MAX_EXTENDED_PAIRS {
        return Fail(Limit);
      }
      ghost var b := d.Rest();
      var kind :- d.Blob();
      var data :- d.Blob();
      assert TakePair(b) == Got(Pair(kind, data), d.Rest());
      PairConsumes(b);
      PrefixedSnoc(extensions, Pair(kind, data), TakeAllPairs(d.Rest(), |extensions| + 1));
      extensions := extensions + [Pair(kind, data)];
    }
    assert extensions + [] == extensions;
    r := Val(Init(version, extensions));
  }

  method ReadPath(typ: byte, payload: bytes) returns (r: Field<Message>)
    ensures r == Result(DecodePath(typ, payload))
  {
    hide TakeU32, TakeStr;
    var d := new Decoder(payload);
    var id :- d.Uint32();
    var path :- d.Blob();
    r := d.End(PathRequest(typ, id, path));
  }

  method ReadHandle(typ: byte, payload: bytes) returns (r: Field<Message>)
    ensures r == Result(DecodeHandle(typ, payload))
  {
    hide TakeU32, TakeStr;
    var d := new Decoder(payload);
    var id :- d.Uint32();
    var handle :- d.Blob();
    r := d.End(HandleRequest(typ, id, handle));
  }

  method ReadOpen(payload: bytes) returns (r: Field<Message>)
    ensures r == Result(DecodeOpen(payload))
  {
    hide TakeU32, TakeStr, TakeAttrs;
    var d := new Decoder(payload);
    var id :- d.Uint32();
    var path :- d.Blob();
    var pflags :- d.Uint32();
    var attrs :- d.Attrs();
    r := d.End(Open(id, path, pflags, attrs));
  }

  method ReadRead(payload: bytes) returns (r: Field<Message>)
    ensures r == Result(DecodeRead(payload))
  {
    hide TakeU32, TakeU64, TakeStr;
    var d := new Decoder(payload);
    var id :- d.Uint32();
    var handle :- d.Blob();
    var offset :- d.Uint64();
    var length :- d.Uint32();
    r := d.End(Read(id, handle, offset, length));
  }

  method ReadWrite(payload: bytes) returns (r: Field<Message>)
    ensures r == Result(DecodeWrite(payload))
  {
    hide TakeU32, TakeU64, TakeStr;
    var d := new Decoder(payload);
    var id :- d.Uint32();
    var handle :- d.Blob();
    var offset :- d.Uint64();
    var data :- d.Blob();
    r := d.End(Write(id, handle, offset, data));
  }

  method ReadSetstat(typ: byte, payload: bytes) returns (r: Field<Message>)
    ensures r == Result(DecodeSetstat(typ, payload))
  {
    hide TakeU32, TakeStr, TakeAttrs;
    var d := new Decoder(payload);
    var id :- d.Uint32();
    var path :- d.Blob();
    var attrs :- d.Attrs();
    r := d.End(Setstat(typ, id, path, attrs));
  }

  method ReadFsetstat(payload: bytes) returns (r: Field<Message>)
    ensures r == Result(DecodeFsetstat(payload))
  {
    hide TakeU32, TakeStr, TakeAttrs;
    var d := new Decoder(payload);
    var id :- d.Uint32();
    var handle :- d.Blob();
    var attrs :- d.Attrs();
    r := d.End(Fsetstat(id, handle, attrs));
  }

  method ReadRename(payload: bytes) returns (r: Field<Message>)
    ensures r == Result(DecodeRename(payload))
  {
    hide TakeU32, TakeStr;
    var d := new Decoder(payload);
    var id :- d.Uint32();
    var oldPath :- d.Blob();
    var newPath :- d.Blob();
    r := d.End(Rename(id, oldPath, newPath));
  }

  method ReadSymlink(payload: bytes) returns (r: Field<Message>)
    ensures r == Result(DecodeSymlink(payload))
  {
    hide TakeU32, TakeStr;
    var d := new Decoder(payload);
    var id :- d.Uint32();
    var targetPath :- d.Blob();
    var linkPath :- d.Blob();
    r := d.End(Symlink(id, targetPath, linkPath));
  }

  method ReadExtended(payload: bytes) returns (r: Field<Message>)
    ensures r == Result(DecodeExtended(payload))
  {
    hide TakeU32, TakeStr;
    var d := new Decoder(payload);
    var id :- d.Uint32();
    var name :- d.Blob();
    r := Val(Extended(id, name, d.buf[d.off..]));
  }

  method ReadStatus(payload: bytes) returns (r: Field<Message>)
    ensures r == Result(DecodeStatus(payload))
  {
    hide TakeU32, TakeStr;
    var d := new Decoder(payload);
    var id :- d.Uint32();
    var code :- d.Uint32();
    if d.off == |d.buf| {
      return Val(Status(id, code, [], []));
    }
    var message :- d.Blob();
    if d.off == |d.buf| {
      return Val(Status(id, code, message, []));
    }
    var lang :- d.Blob();
    r := d.End(Status(id, code, message, lang));
  }

  method ReadName(payload: bytes) returns (r: Field<Message>)
    ensures r == Result(DecodeName(payload))
  {
    hide TakeU32, TakeStr, TakeAttrs;
    var d := new Decoder(payload);
    var id :- d.Uint32();
    var n :- d.Uint32();
    if n > MAX_NAME_ITEMS {
      return Fail(Limit);
    }
    var items: seq<NameItem> := [];
    ghost var start := d.Rest();
    PrefixedNone(TakeItems(n, start));
    var i := 0;
    while i < n
      invariant 0 <= i <= n && d.Valid()
      invariant TakeItems(n, start) == Prefixed(items, TakeItems(n - i, d.Rest()))
    {
      ghost var b := d.Rest();
      var filename :- d.Blob();
      var longname :- d.Blob();
      var attrs :- d.Attrs();
      assert TakeItem(b) == Got(NameItem(filename, longname, attrs), d.Rest());
      PrefixedSnoc(items, NameItem(filename, longname, attrs), TakeItems(n - i - 1, d.Rest()));
      items := items + [NameItem(filename, longname, attrs)];
      i := i + 1;
    }
    assert items + [] == items;
    r := d.End(Name(id, items));
  }

  // ---------- whole messages over a stream ----------

  function PacketOf(m: Message): Packet { Packet(Type(m), Encode(m)) }

  method Send(w: Sink, m: Message, out: array<byte>) returns (next: array<byte>, ok: bool)
    modifies w, out
    ensures ok <==> PacketOf(m).Size() <= MAX_PACKET
    ensures w.data == old(w.data) + if ok then Frame(PacketOf(m)) else []
    ensures next == out || fresh(next)
  {
    var e := new Encoder();
    e.EncodePayload(m);
    assert [] + Encode(m) == Encode(m);
    next, ok := WritePacket(w, Packet(Type(m), e.buf), out);
  }

  function PacketsOf(ms: seq<Message>): (ps: seq<Packet>)
    ensures |ps| == |ms|
  {
    seq(|ms|, i requires 0 <= i < |ms| => PacketOf(ms[i]))
  }

  /** Messages sent one after another arrive as the same messages, in order, with
      nothing left of the stream; unflagged attributes come back as zero. */
  lemma MessagesArrive(ms: seq<Message>, max: nat)
    requires forall i :: 0 <= i < |ms| ==> Fits(ms[i]) && PacketOf(ms[i]).Size() <= Min(max, MAX_PACKET)
    ensures Framable(PacketsOf(ms)) &&
            var (ps, end) := ReadAll(Stream(PacketsOf(ms)), max);
            && end == CleanEnd && |ps| == |ms|
            && forall i :: 0 <= i < |ms| ==> Decode(ps[i].typ, ps[i].payload) == Some(Got(Zeroed(ms[i]), []))
  {
    hide Fits, Encode, Decode, Zeroed, Type, ReadAll, Stream;
    ReadStream(PacketsOf(ms), max);
    forall i | 0 <= i < |ms| ensures Decode(Type(ms[i]), Encode(ms[i])) == Some(Got(Zeroed(ms[i]), [])) {
      DecodeEncode(ms[i]);
    }
  }
}

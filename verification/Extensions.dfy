/** What limits@openssh.com and copy-data are answered, and every packet that is no
    request at all. */
module Extensions {
  import opened Bytes
  import opened Codec
  import opened Messages
  import opened Packets
  import opened Content
  import opened Server
  import opened Copying
  import opened Transfers
  import opened Changing
  import opened Layout
  import Wire

  // ---------- limits@openssh.com ----------

  /** The longest packet, READ and WRITE, and how many handles: each in eight bytes. A
      WRITE is 57 bytes longer than its data. */
  function Limits(cfg: Config): bytes
  {
    BigEndian(Max(Largest(cfg), 0), 8) + BigEndian(Max(Min(261120, Largest(cfg)), 0), 8) +
    BigEndian(Max(Min(261120, Largest(cfg) - 57), 1), 8) + BigEndian(1024, 8)
  }

  lemma EightCut(v: nat)
    ensures BE64(v % 0x1_0000_0000_0000_0000) == BigEndian(v, 8)
  {
    hide BE64, BigEndian;
    var r := v % 0x1_0000_0000_0000_0000;
    EightBytes(r);
    HighAndLow(r, 4);
    HighAndLow(v, 4);
    HighAndLow(v / 0x1_0000_0000, 0);
    HighAndLow(r / 0x1_0000_0000, 0);
    NoBytes(v / 0x1_0000_0000 / 0x1_0000_0000);
    NoBytes(r / 0x1_0000_0000 / 0x1_0000_0000);
    Halves(v);
  }

  lemma Halves(v: nat)
    ensures var r := v % 0x1_0000_0000_0000_0000;
            && r % 0x1_0000_0000 == v % 0x1_0000_0000
            && r / 0x1_0000_0000 % 0x1_0000_0000 == v / 0x1_0000_0000 % 0x1_0000_0000
  {
    var q, r := v / 0x1_0000_0000_0000_0000, v % 0x1_0000_0000_0000_0000;
    assert v == (q * 0x1_0000_0000) * 0x1_0000_0000 + r;
    assert v / 0x1_0000_0000 == q * 0x1_0000_0000 + r / 0x1_0000_0000;
  }

  lemma NoBytes(v: nat)
    ensures BigEndian(v, 0) == []
  {
  }

  lemma LimitsLaid(cfg: Config, id: uint32)
    ensures LimitsReply(cfg, id) == ExtendedReply(id, Limits(cfg))
  {
    hide BE64, BigEndian;
    EightCut(Largest(cfg));
    EightBytes(Min(261120, Largest(cfg)));
    EightBytes(Max(Min(261120, Largest(cfg) - 57), 1));
    EightBytes(1024);
  }

  /** The limits are told as they are kept. */
  lemma LimitsAnswered(cfg: Config, w: World, t: Table, id: uint32, data: bytes, k: nat)
    ensures Only(w, t, ExtendedReply(id, Limits(cfg)),
                 Serve(cfg, w, t, Wire.PacketOf(Extended(id, Ascii("limits@openssh.com"), data)), k))
  {
    hide Serve, Limits, LimitsReply, Ascii, Wire.PacketOf;
    Performs(cfg, w, t, Extended(id, Ascii("limits@openssh.com"), data), k);
    LimitsLaid(cfg, id);
  }

  /** Any other extension but copy-data is unsupported. */
  lemma ExtensionRefused(cfg: Config, w: World, t: Table, id: uint32, name: bytes, data: bytes, k: nat)
    requires |name| <= 0x4_0000 && name != Ascii("limits@openssh.com") && name != Ascii("copy-data")
    ensures Only(w, t, Says(id, 8, Ascii("unsupported extension: ") + name),
                 Serve(cfg, w, t, Wire.PacketOf(Extended(id, name, data)), k))
  {
    hide Serve, Ascii, Wire.PacketOf;
    Performs(cfg, w, t, Extended(id, name, data), k);
  }

  // ---------- copy-data ----------

  /** The data of a copy-data request; what follows it is not looked at. */
  function CopyLaid(c: CopyRequest, tail: bytes): bytes
  {
    Lay([Text(c.from), Num64(c.fromOff), Num64(c.length), Text(c.to), Num64(c.toOff)], tail)
  }

  lemma CopyPuts(c: CopyRequest, tail: bytes)
    ensures CopyLaid(c, tail) ==
            PutStr(c.from, PutU64(c.fromOff, PutU64(c.length, PutStr(c.to, PutU64(c.toOff, tail)))))
  {
    hide PutStr, PutU64, Lay;
    NoFields(tail);
    PutsNum64(c.toOff, [], tail);
    PutsText(c.to, [Num64(c.toOff)] + [], tail);
    PutsNum64(c.length, [Text(c.to)] + ([Num64(c.toOff)] + []), tail);
    PutsNum64(c.fromOff, [Num64(c.length)] + ([Text(c.to)] + ([Num64(c.toOff)] + [])), tail);
    var later := [Num64(c.fromOff)] + ([Num64(c.length)] + ([Text(c.to)] + ([Num64(c.toOff)] + [])));
    PutsText(c.from, later, tail);
    assert [Text(c.from)] + later == [Text(c.from), Num64(c.fromOff), Num64(c.length), Text(c.to), Num64(c.toOff)];
  }

  lemma CopyDecodes(c: CopyRequest, tail: bytes)
    requires |c.from| <= 0x4_0000 && |c.to| <= 0x4_0000
    ensures DecodeCopy(CopyLaid(c, tail)) == Got(c, tail)
  {
    hide PutStr, PutU64, TakeStr, TakeU64, CopyLaid;
    CopyPuts(c, tail);
    var b4 := PutU64(c.toOff, tail);
    var b3 := PutStr(c.to, b4);
    var b2 := PutU64(c.length, b3);
    var b1 := PutU64(c.fromOff, b2);
    StrRoundTrip(c.from, b1);
    U64RoundTrip(c.fromOff, b2);
    U64RoundTrip(c.length, b3);
    StrRoundTrip(c.to, b4);
    U64RoundTrip(c.toOff, tail);
  }

  function PairDenial(id: uint32, src: OpenFile, dst: OpenFile, c: CopyRequest): Option<Message>
  {
    if src.dir || dst.dir then Some(Says(id, 4, Ascii("handle is a directory")))
    else if src.path == dst.path then Some(Says(id, 4, Ascii("copy-data within one file")))
    else if !dst.write then Some(Says(id, 3, Ascii("write-to handle was not opened for writing")))
    else if src.file.None? || !dst.writable then
      Some(Says(id, 8, Ascii("copy-data needs files the driver opens and writes in place")))
    else if c.fromOff > 0x4000_0000_0000_0000 || c.length > 0x4000_0000_0000_0000 ||
            c.toOff > 0x4000_0000_0000_0000 then
      Some(Says(id, 4, Ascii("copy-data: offset or length out of range")))
    else None
  }

  lemma RefusalIs(id: uint32, src: OpenFile, dst: OpenFile, c: CopyRequest)
    ensures CopyRefusal(id, src, dst, c) == PairDenial(id, src, dst, c)
  {
    hide Ascii;
  }

  /** Why a copy is refused before the driver is asked, if it is. */
  function CopyDenial(cfg: Config, t: Table, id: uint32, c: CopyRequest): Option<Message>
  {
    if !cfg.drv.opener || cfg.ro then Some(Says(id, 8, Ascii("unsupported extension: ") + Ascii("copy-data")))
    else if c.from !in t || c.to !in t then Some(Says(id, 4, Ascii("unknown handle")))
    else PairDenial(id, t[c.from], t[c.to], c)
  }

  /** What is done and said of a copy that is not refused: only the second file changes,
      and success is said exactly when all of it was moved. */
  predicate CopyTried(cfg: Config, w: World, t: Table, id: uint32, src: bytes, dst: bytes, k: nat, r: Res)
  {
    && r.t == t && r.calls == [CCopy(dst, src)]
    && if src !in w.fs.files || dst !in w.fs.files then r.w == w && r.reply == Says(id, 2, Ascii("file does not exist"))
       else
         && dst in r.w.fs.files && OnlyFile(w, r.w, dst, r.w.fs.files[dst])
         && r.reply.Status? && (r.reply.code == 0 <==> cfg.drv.copy(k).AllMoved?)
         && match cfg.drv.copy(k)
            case AllMoved => r.reply == Says(id, 0, [])
            case NotGrown(err) => r.reply == Blames(id, err, 4) && r.w == w
            case CutShort(_, err) => r.reply == Blames(id, err, 4)
  }

  predicate CopySaid(cfg: Config, w: World, t: Table, id: uint32, c: CopyRequest, k: nat, r: Res)
  {
    var denial := CopyDenial(cfg, t, id, c);
    if denial.Some? then Only(w, t, denial.value, r)
    else c.from in t && c.to in t && CopyTried(cfg, w, t, id, t[c.from].path, t[c.to].path, k, r)
  }

  lemma CopyFilesTried(cfg: Config, w: World, t: Table, id: uint32, src: bytes, dst: bytes, c: CopyRequest, k: nat)
    ensures CopyTried(cfg, w, t, id, src, dst, k, CopyFiles(cfg, w, t, id, src, dst, c, k))
  {
    hide Ascii, CopyInto, CopyCount, StatusFor;
    if dst in w.fs.files {
      assert w.fs.files[dst := w.fs.files[dst]] == w.fs.files;
    }
  }

  lemma CopyDataSays(cfg: Config, w: World, t: Table, id: uint32, c: CopyRequest, data: bytes, k: nat)
    requires DecodeCopy(data).Got? && DecodeCopy(data).value == c
    ensures CopySaid(cfg, w, t, id, c, k, CopyData(cfg, w, t, id, data, k))
  {
    hide Ascii, DecodeCopy, CopyFiles, CopyTried, FaultText, CopyRefusal, PairDenial;
    if c.from in t && c.to in t {
      RefusalIs(id, t[c.from], t[c.to], c);
      CopyFilesTried(cfg, w, t, id, t[c.from].path, t[c.to].path, c, k);
    }
  }

  /** copy-data is refused, tried and answered as its handles, its offsets and the driver
      say; what a success moves is CopyIsSplice. */
  lemma CopyAnswered(cfg: Config, w: World, t: Table, id: uint32, c: CopyRequest, tail: bytes, k: nat)
    requires |c.from| <= 0x4_0000 && |c.to| <= 0x4_0000
    ensures CopySaid(cfg, w, t, id, c, k,
                     Serve(cfg, w, t, Wire.PacketOf(Extended(id, Ascii("copy-data"), CopyLaid(c, tail))), k))
  {
    hide Serve, CopySaid, CopyData, CopyLaid, DecodeCopy, Ascii, Wire.PacketOf;
    Performs(cfg, w, t, Extended(id, Ascii("copy-data"), CopyLaid(c, tail)), k);
    NamesDiffer();
    CopyDecodes(c, tail);
    CopyDataSays(cfg, w, t, id, c, CopyLaid(c, tail), k);
  }

  /** Data that is no copy-data request is a bad message, and nothing is done. */
  lemma CopyMalformed(cfg: Config, w: World, t: Table, id: uint32, data: bytes, k: nat)
    requires forall c: CopyRequest, tail: bytes ::
               |c.from| <= 0x4_0000 && |c.to| <= 0x4_0000 ==> CopyLaid(c, tail) != data
    ensures var r := Serve(cfg, w, t, Wire.PacketOf(Extended(id, Ascii("copy-data"), data)), k);
            r.w == w && r.t == t && r.calls == [] && r.reply.Status? && r.reply.id == id && r.reply.code == 5
  {
    hide Serve, DecodeCopy, Ascii, Wire.PacketOf, CopyLaid, CopyFiles, CopyRefusal;
    Performs(cfg, w, t, Extended(id, Ascii("copy-data"), data), k);
    NamesDiffer();
    if DecodeCopy(data).Got? {
      CopyEncodes(data);
    }
  }

  lemma CopyEncodes(data: bytes)
    requires DecodeCopy(data).Got?
    ensures var c := DecodeCopy(data).value;
            |c.from| <= 0x4_0000 && |c.to| <= 0x4_0000 && CopyLaid(c, DecodeCopy(data).rest) == data
  {
    hide PutStr, PutU64, TakeStr, TakeU64, Lay;
    var c, tail := DecodeCopy(data).value, DecodeCopy(data).rest;
    var b1 := TakeStr(data).rest;
    var b2 := TakeU64(b1).rest;
    var b3 := TakeU64(b2).rest;
    var b4 := TakeStr(b3).rest;
    StrInverse(data);
    U64Inverse(b1);
    U64Inverse(b2);
    StrInverse(b3);
    U64Inverse(b4);
    CopyPuts(c, tail);
  }

  // ---------- no request ----------

  /** The numbers of the requests. */
  predicate IsRequest(typ: byte) { 3 <= typ <= 20 || typ == 200 }

  /** The id a packet is answered under: its first four bytes, or 0. */
  predicate IdOf(payload: bytes, id: uint32) { if |payload| < 4 then id == 0 else BigEndian(id, 4) == payload[..4] }

  lemma RequestIdIs(payload: bytes)
    ensures IdOf(payload, RequestId(payload))
  {
    hide BigEndian, BE32, FromBE32;
    if |payload| >= 4 {
      FromBE32Inverse(payload[..4]);
      FourBytes(FromBE32(payload[..4]));
    }
  }

  /** A packet of another number is unsupported. */
  lemma UnknownAnswered(cfg: Config, w: World, t: Table, p: Packet, k: nat)
    requires !IsRequest(p.typ)
    ensures IdOf(p.payload, RequestId(p.payload))
    ensures Only(w, t, Says(RequestId(p.payload), 8, Ascii("unsupported request type")), Serve(cfg, w, t, p, k))
  {
    hide Decode, Perform, Ascii, RequestId, DecodeRead, DecodeWrite;
    RequestIdIs(p.payload);
  }

  /** No message of its number has this payload. */
  ghost predicate Malformed(p: Packet) { forall m :: Fits(m) && Type(m) == p.typ ==> Encode(m) != p.payload }

  ghost predicate SaidBad(w: World, t: Table, p: Packet, r: Res)
  {
    && r.w == w && r.t == t && r.calls == []
    && r.reply.Status? && r.reply.code == 5 && IdOf(p.payload, r.reply.id)
  }

  lemma NotDecoded(p: Packet)
    requires IsRequest(p.typ) && Malformed(p)
    ensures Decode(p.typ, p.payload).Some? && Decode(p.typ, p.payload).value.Bad?
  {
    hide Decode, Encode, Fits, Type;
    Decodable(p);
    if Decode(p.typ, p.payload).value.Got? {
      EncodeDecode(p.typ, p.payload);
      assert false;
    }
  }

  lemma Decodable(p: Packet)
    requires IsRequest(p.typ)
    ensures Decode(p.typ, p.payload).Some? && p.typ != FXP_STATUS
  {
    hide DecodeRead, DecodeWrite, DecodeOpen, DecodePath, DecodeHandle, DecodeSetstat, DecodeFsetstat, DecodeRename,
      DecodeSymlink, DecodeExtended;
  }

  lemma RefusesBad(cfg: Config, w: World, t: Table, p: Packet, k: nat)
    requires IsRequest(p.typ) && Decode(p.typ, p.payload).Some? && Decode(p.typ, p.payload).value.Bad?
    ensures SaidBad(w, t, p, Serve(cfg, w, t, p, k))
  {
    hide Perform, Ascii, RequestId, DecodeRead, DecodeWrite, DecodeOpen, DecodePath, DecodeHandle, DecodeSetstat,
      DecodeFsetstat, DecodeRename, DecodeSymlink, DecodeExtended, IdOf;
    RequestIdIs(p.payload);
  }

  /** A request that no message encodes to is a bad message, and nothing is done. */
  lemma MalformedAnswered(cfg: Config, w: World, t: Table, p: Packet, k: nat)
    requires IsRequest(p.typ) && Malformed(p)
    ensures SaidBad(w, t, p, Serve(cfg, w, t, p, k))
  {
    hide Serve, Decode, SaidBad, Malformed;
    NotDecoded(p);
    RefusesBad(cfg, w, t, p, k);
  }
}

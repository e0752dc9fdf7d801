/** The packets as draft-ietf-secsh-filexfer-02 lays them out: a type number and a list
    of fields for every message, and what a field is in bytes. The encoders write
    exactly that, so with the round trips the decoders read exactly that. */
module Layout {
  import opened Bytes
  import opened Codec
  import opened Messages
  import opened Packets
  import Wire

  datatype Field = Num32(n: uint32) | Num64(n64: uint64) | Text(s: bytes) | Bare(b: bytes)

  /** v in n bytes, the highest first. */
  function BigEndian(v: nat, n: nat): (b: bytes)
    ensures |b| == n
  {
    if n == 0 then [] else BigEndian(v / 256, n - 1) + [v % 256]
  }

  function Written(f: Field): bytes
  {
    match f
    case Num32(n) => BigEndian(n, 4)
    case Num64(n) => BigEndian(n, 8)
    case Text(s) => BigEndian(|s|, 4) + s
    case Bare(b) => b
  }

  /** The fields one after another, and then rest. */
  function Lay(fs: seq<Field>, rest: bytes): bytes { if fs == [] then rest else Written(fs[0]) + Lay(fs[1..], rest) }

  // ---------- the table ----------

  function PairFields(ps: seq<Pair>): seq<Field>
  {
    if ps == [] then [] else [Text(ps[0].kind), Text(ps[0].data)] + PairFields(ps[1..])
  }

  function If(c: bool, fs: seq<Field>): seq<Field> { if c then fs else [] }

  /** Section 5 of the draft: only what the flags announce. */
  function AttrFields(a: Attributes): seq<Field>
  {
    var extended := If(a.flags / 0x8000_0000 % 2 == 1, [Num32(|a.extended| % 0x1_0000_0000)] + PairFields(a.extended));
    var times := If(a.flags / 8 % 2 == 1, [Num32(a.atime)]) + (If(a.flags / 8 % 2 == 1, [Num32(a.mtime)]) + extended);
    var permissions := If(a.flags / 4 % 2 == 1, [Num32(a.permissions)]) + times;
    var owner := If(a.flags / 2 % 2 == 1, [Num32(a.uid)]) + (If(a.flags / 2 % 2 == 1, [Num32(a.gid)]) + permissions);
    [Num32(a.flags)] + (If(a.flags % 2 == 1, [Num64(a.size)]) + owner)
  }

  function ItemFields(items: seq<NameItem>): seq<Field>
  {
    if items == [] then []
    else [Text(items[0].filename)] + ([Text(items[0].longname)] + (AttrFields(items[0].attrs) + ItemFields(items[1..])))
  }

  /** Sections 4, 6 and 7 of the draft. */
  function Fields(m: Message): seq<Field>
  {
    match m
    case Init(version, ext) => [Num32(version)] + PairFields(ext)
    case Version(version, ext) => [Num32(version)] + PairFields(ext)
    case PathRequest(_, id, path) => [Num32(id), Text(path)]
    case HandleRequest(_, id, handle) => [Num32(id), Text(handle)]
    case Open(id, path, pflags, attrs) => [Num32(id), Text(path), Num32(pflags)] + AttrFields(attrs)
    case Read(id, handle, off, n) => [Num32(id), Text(handle), Num64(off), Num32(n)]
    case Write(id, handle, off, data) => [Num32(id), Text(handle), Num64(off), Text(data)]
    case Setstat(_, id, path, attrs) => [Num32(id), Text(path)] + AttrFields(attrs)
    case Fsetstat(id, handle, attrs) => [Num32(id), Text(handle)] + AttrFields(attrs)
    case Rename(id, oldPath, newPath) => [Num32(id), Text(oldPath), Text(newPath)]
    case Symlink(id, target, link) => [Num32(id), Text(target), Text(link)]
    case Extended(id, name, data) => [Num32(id), Text(name), Bare(data)]
    case Status(id, code, message, lang) => [Num32(id), Num32(code), Text(message), Text(lang)]
    case Handle(id, handle) => [Num32(id), Text(handle)]
    case Data(id, data) => [Num32(id), Text(data)]
    case Name(id, items) => [Num32(id), Num32(|items| % 0x1_0000_0000)] + ItemFields(items)
    case Attrs(id, attrs) => [Num32(id)] + AttrFields(attrs)
    case ExtendedReply(id, data) => [Num32(id), Bare(data)]
  }

  /** Section 3 of the draft. */
  predicate Numbered(m: Message, typ: byte)
  {
    match m
    case Init(_, _) => typ == 1
    case Version(_, _) => typ == 2
    case Open(_, _, _, _) => typ == 3
    case HandleRequest(_, _, _) => typ in {4, 8, 12}
    case Read(_, _, _, _) => typ == 5
    case Write(_, _, _, _) => typ == 6
    case PathRequest(_, _, _) => typ in {7, 11, 13, 15, 16, 17, 19}
    case Setstat(_, _, _, _) => typ in {9, 14}
    case Fsetstat(_, _, _) => typ == 10
    case Rename(_, _, _) => typ == 18
    case Symlink(_, _, _) => typ == 20
    case Status(_, _, _, _) => typ == 101
    case Handle(_, _) => typ == 102
    case Data(_, _) => typ == 103
    case Name(_, _) => typ == 104
    case Attrs(_, _) => typ == 105
    case Extended(_, _, _) => typ == 200
    case ExtendedReply(_, _) => typ == 201
  }

  // ---------- the encoders write it ----------

  lemma FourBytes(v: uint32)
    ensures BE32(v) == BigEndian(v, 4)
  {
    assert BigEndian(v / 256 / 256 / 256, 1) == [v / 256 / 256 / 256] by {
      assert BigEndian(v / 256 / 256 / 256 / 256, 0) == [];
    }
    assert BigEndian(v / 256 / 256, 2) == [v / 256 / 256 / 256, v / 256 / 256 % 256];
    assert BigEndian(v / 256, 3) == [v / 256 / 256 / 256, v / 256 / 256 % 256, v / 256 % 256];
  }

  lemma OneMore(v: nat, n: nat)
    requires n > 0
    ensures BigEndian(v, n) == BigEndian(v / 256, n - 1) + [v % 256]
  {
  }

  lemma Digits(v: nat)
    ensures var r := v % 0x1_0000_0000;
            && r % 256 == v % 256 && r / 256 % 256 == v / 256 % 256 && r / 256 / 256 % 256 == v / 256 / 256 % 256
            && r / 256 / 256 / 256 % 256 == v / 256 / 256 / 256 % 256
            && v / 256 / 256 / 256 / 256 == v / 0x1_0000_0000
  {
    var q, r := v / 0x1_0000_0000, v % 0x1_0000_0000;
    assert v / 256 == q * 0x100_0000 + r / 256;
    assert v / 256 / 256 == q * 0x1_0000 + r / 256 / 256;
    assert v / 256 / 256 / 256 == q * 256 + r / 256 / 256 / 256;
  }

  lemma HighAndLow(v: nat, n: nat)
    ensures BigEndian(v, n + 4) == BigEndian(v / 0x1_0000_0000, n) + BigEndian(v % 0x1_0000_0000, 4)
  {
    hide BigEndian;
    Digits(v);
    FourOf(v % 0x1_0000_0000);
    OneMore(v, n + 4);
    OneMore(v / 256, n + 3);
    OneMore(v / 256 / 256, n + 2);
    OneMore(v / 256 / 256 / 256, n + 1);
  }

  lemma FourOf(r: nat)
    ensures BigEndian(r, 4) == [r / 256 / 256 / 256 % 256, r / 256 / 256 % 256, r / 256 % 256, r % 256]
  {
    var a, b, c := r / 256, r / 256 / 256, r / 256 / 256 / 256;
    assert BigEndian(c / 256, 0) == [];
    assert BigEndian(c, 1) == [c % 256];
    assert BigEndian(b, 2) == [c % 256, b % 256];
    assert BigEndian(a, 3) == [c % 256, b % 256, a % 256];
  }

  lemma EightBytes(v: uint64)
    ensures BE64(v) == BigEndian(v, 8)
  {
    hide BE32, BigEndian;
    HighAndLow(v, 4);
    FourBytes(v / 0x1_0000_0000);
    FourBytes(v % 0x1_0000_0000);
  }

  lemma PutsNum32(v: uint32, fs: seq<Field>, rest: bytes)
    ensures PutU32(v, Lay(fs, rest)) == Lay([Num32(v)] + fs, rest)
  {
    hide BE32, BigEndian;
    FourBytes(v);
    assert ([Num32(v)] + fs)[1..] == fs;
  }

  lemma PutsNum64(v: uint64, fs: seq<Field>, rest: bytes)
    ensures PutU64(v, Lay(fs, rest)) == Lay([Num64(v)] + fs, rest)
  {
    hide BE64, BigEndian;
    EightBytes(v);
    assert ([Num64(v)] + fs)[1..] == fs;
  }

  /** The length is cut to the four bytes it has. */
  lemma PutsText(v: bytes, fs: seq<Field>, rest: bytes)
    ensures PutStr(v, Lay(fs, rest)) == Lay([Text(v)] + fs, rest)
  {
    hide BE32, BigEndian;
    Cut(|v|);
    assert ([Text(v)] + fs)[1..] == fs;
    assert BigEndian(|v|, 4) + (v + Lay(fs, rest)) == BigEndian(|v|, 4) + v + Lay(fs, rest);
  }

  lemma Cut(v: nat)
    ensures BE32(v % 0x1_0000_0000) == BigEndian(v, 4)
  {
    hide BE32;
    FourBytes(v % 0x1_0000_0000);
    HighAndLow(v, 0);
    assert BigEndian(v / 0x1_0000_0000, 0) == [];
  }

  lemma PutsBare(b: bytes, fs: seq<Field>, rest: bytes)
    ensures b + Lay(fs, rest) == Lay([Bare(b)] + fs, rest)
  {
    assert ([Bare(b)] + fs)[1..] == fs;
  }

  lemma NoFields(rest: bytes)
    ensures Lay([], rest) == rest
  {
  }

  lemma {:induction false} LayJoin(a: seq<Field>, b: seq<Field>, rest: bytes)
    ensures Lay(a + b, rest) == Lay(a, Lay(b, rest))
  {
    if a == [] {
      assert a + b == b;
    } else {
      LayJoin(a[1..], b, rest);
      assert (a + b)[1..] == a[1..] + b;
    }
  }

  lemma {:induction false} PairsLaid(ps: seq<Pair>, rest: bytes)
    ensures PutPairs(ps, rest) == Lay(PairFields(ps), rest)
  {
    hide PutStr, Lay;
    if ps == [] {
      NoFields(rest);
    } else {
      var later := PairFields(ps[1..]);
      PairsLaid(ps[1..], rest);
      PutsText(ps[0].data, later, rest);
      PutsText(ps[0].kind, [Text(ps[0].data)] + later, rest);
      assert [Text(ps[0].kind)] + ([Text(ps[0].data)] + later) == PairFields(ps);
    }
  }

  lemma PutsNum32If(c: bool, v: uint32, fs: seq<Field>, rest: bytes)
    ensures PutU32If(c, v, Lay(fs, rest)) == Lay(If(c, [Num32(v)]) + fs, rest)
  {
    hide PutU32, Lay;
    PutsNum32(v, fs, rest);
    assert [] + fs == fs;
  }

  lemma PutsNum64If(c: bool, v: uint64, fs: seq<Field>, rest: bytes)
    ensures PutU64If(c, v, Lay(fs, rest)) == Lay(If(c, [Num64(v)]) + fs, rest)
  {
    hide PutU64, Lay;
    PutsNum64(v, fs, rest);
    assert [] + fs == fs;
  }

  lemma ExtendedLaid(a: Attributes, rest: bytes)
    ensures PutExtended(a, rest) ==
            Lay(If(a.flags / 0x8000_0000 % 2 == 1, [Num32(|a.extended| % 0x1_0000_0000)] + PairFields(a.extended)),
                rest)
  {
    hide PutU32, Lay, PutPairs, PairFields;
    NoFields(rest);
    PairsLaid(a.extended, rest);
    PutsNum32(|a.extended| % 0x1_0000_0000, PairFields(a.extended), rest);
  }

  lemma AttrsLaid(a: Attributes, rest: bytes)
    ensures PutAttrs(a, rest) == Lay(AttrFields(a), rest)
  {
    hide PutU32, PutU32If, PutU64If, PutExtended, Lay, PairFields, If;
    var owner, times := Has(a.flags, ATTR_UIDGID), Has(a.flags, ATTR_ACMODTIME);
    var f0 := If(a.flags / 0x8000_0000 % 2 == 1, [Num32(|a.extended| % 0x1_0000_0000)] + PairFields(a.extended));
    ExtendedLaid(a, rest);
    var f1 := If(times, [Num32(a.mtime)]) + f0;
    PutsNum32If(times, a.mtime, f0, rest);
    var f2 := If(times, [Num32(a.atime)]) + f1;
    PutsNum32If(times, a.atime, f1, rest);
    var f3 := If(Has(a.flags, ATTR_PERMISSIONS), [Num32(a.permissions)]) + f2;
    PutsNum32If(Has(a.flags, ATTR_PERMISSIONS), a.permissions, f2, rest);
    var f4 := If(owner, [Num32(a.gid)]) + f3;
    PutsNum32If(owner, a.gid, f3, rest);
    var f5 := If(owner, [Num32(a.uid)]) + f4;
    PutsNum32If(owner, a.uid, f4, rest);
    var f6 := If(Has(a.flags, ATTR_SIZE), [Num64(a.size)]) + f5;
    PutsNum64If(Has(a.flags, ATTR_SIZE), a.size, f5, rest);
    PutsNum32(a.flags, f6, rest);
  }

  lemma {:induction false} ItemsLaid(items: seq<NameItem>, rest: bytes)
    ensures PutItems(items, rest) == Lay(ItemFields(items), rest)
  {
    hide PutStr, PutAttrs, Lay, AttrFields;
    if items == [] {
      NoFields(rest);
    } else {
      var it, later := items[0], ItemFields(items[1..]);
      ItemsLaid(items[1..], rest);
      AttrsLaid(it.attrs, Lay(later, rest));
      LayJoin(AttrFields(it.attrs), later, rest);
      PutsText(it.longname, AttrFields(it.attrs) + later, rest);
      PutsText(it.filename, [Text(it.longname)] + (AttrFields(it.attrs) + later), rest);
    }
  }

  lemma IdAndText(id: uint32, s: bytes, fs: seq<Field>, rest: bytes)
    ensures PutU32(id, PutStr(s, Lay(fs, rest))) == Lay([Num32(id), Text(s)] + fs, rest)
  {
    hide PutU32, PutStr, Lay;
    PutsText(s, fs, rest);
    PutsNum32(id, [Text(s)] + fs, rest);
    assert [Num32(id)] + ([Text(s)] + fs) == [Num32(id), Text(s)] + fs;
  }

  /** Messages of fixed fields. */
  lemma FixedLaid(m: Message)
    requires !m.Init? && !m.Version? && !m.Open? && !m.Setstat? && !m.Fsetstat? && !m.Name? && !m.Attrs?
    ensures Encode(m) == Lay(Fields(m), [])
  {
    hide PutU32, PutU64, PutStr, Lay;
    NoFields([]);
    match m
    case PathRequest(_, id, path) =>
      IdAndText(id, path, [], []);
      assert [Num32(id), Text(path)] + [] == Fields(m);
    case HandleRequest(_, id, handle) =>
      IdAndText(id, handle, [], []);
      assert [Num32(id), Text(handle)] + [] == Fields(m);
    case Handle(id, handle) =>
      IdAndText(id, handle, [], []);
      assert [Num32(id), Text(handle)] + [] == Fields(m);
    case Data(id, data) =>
      IdAndText(id, data, [], []);
      assert [Num32(id), Text(data)] + [] == Fields(m);
    case Read(id, handle, off, n) =>
      PutsNum32(n, [], []);
      PutsNum64(off, [Num32(n)] + [], []);
      IdAndText(id, handle, [Num64(off)] + ([Num32(n)] + []), []);
      assert [Num32(id), Text(handle)] + ([Num64(off)] + ([Num32(n)] + [])) == Fields(m);
    case Write(id, handle, off, data) =>
      PutsText(data, [], []);
      PutsNum64(off, [Text(data)] + [], []);
      IdAndText(id, handle, [Num64(off)] + ([Text(data)] + []), []);
      assert [Num32(id), Text(handle)] + ([Num64(off)] + ([Text(data)] + [])) == Fields(m);
    case Rename(id, p, q) =>
      PutsText(q, [], []);
      IdAndText(id, p, [Text(q)] + [], []);
      assert [Num32(id), Text(p)] + ([Text(q)] + []) == Fields(m);
    case Symlink(id, p, q) =>
      PutsText(q, [], []);
      IdAndText(id, p, [Text(q)] + [], []);
      assert [Num32(id), Text(p)] + ([Text(q)] + []) == Fields(m);
    case Extended(id, name, data) =>
      PutsBare(data, [], []);
      IdAndText(id, name, [Bare(data)] + [], []);
      assert [Num32(id), Text(name)] + ([Bare(data)] + []) == Fields(m);
    case Status(id, code, message, lang) =>
      PutsText(lang, [], []);
      PutsText(message, [Text(lang)] + [], []);
      PutsNum32(code, [Text(message)] + ([Text(lang)] + []), []);
      PutsNum32(id, [Num32(code)] + ([Text(message)] + ([Text(lang)] + [])), []);
      assert [Num32(id)] + ([Num32(code)] + ([Text(message)] + ([Text(lang)] + []))) == Fields(m);
    case ExtendedReply(id, data) =>
      PutsBare(data, [], []);
      PutsNum32(id, [Bare(data)] + [], []);
      assert [Num32(id)] + ([Bare(data)] + []) == Fields(m);
  }

  /** Messages with lists or attributes. */
  lemma ListsLaid(m: Message)
    requires m.Init? || m.Version? || m.Open? || m.Setstat? || m.Fsetstat? || m.Name? || m.Attrs?
    ensures Encode(m) == Lay(Fields(m), [])
  {
    hide PutU32, PutStr, Lay, PutAttrs, PutPairs, PutItems, AttrFields, PairFields, ItemFields;
    match m
    case Init(version, ext) =>
      PairsLaid(ext, []);
      PutsNum32(version, PairFields(ext), []);
    case Version(version, ext) =>
      PairsLaid(ext, []);
      PutsNum32(version, PairFields(ext), []);
    case Open(id, path, pflags, a) =>
      AttrsLaid(a, []);
      PutsNum32(pflags, AttrFields(a), []);
      IdAndText(id, path, [Num32(pflags)] + AttrFields(a), []);
      assert [Num32(id), Text(path)] + ([Num32(pflags)] + AttrFields(a)) == Fields(m);
    case Setstat(_, id, path, a) =>
      AttrsLaid(a, []);
      IdAndText(id, path, AttrFields(a), []);
    case Fsetstat(id, handle, a) =>
      AttrsLaid(a, []);
      IdAndText(id, handle, AttrFields(a), []);
    case Name(id, items) =>
      var n: uint32 := |items| % 0x1_0000_0000;
      ItemsLaid(items, []);
      PutsNum32(n, ItemFields(items), []);
      PutsNum32(id, [Num32(n)] + ItemFields(items), []);
      assert [Num32(id)] + ([Num32(n)] + ItemFields(items)) == Fields(m);
    case Attrs(id, a) =>
      AttrsLaid(a, []);
      PutsNum32(id, AttrFields(a), []);
  }

  /** Every message, as a frame on the stream, is its length, its number and its fields. */
  lemma FrameLaid(m: Message)
    requires Fits(m) && Wire.PacketOf(m).Size() < 0x1_0000_0000
    ensures var p := Wire.PacketOf(m);
            && Numbered(m, p.typ) && p.payload == Lay(Fields(m), [])
            && Frame(p) == BigEndian(1 + |p.payload|, 4) + [p.typ] + p.payload
  {
    hide Encode, Lay, Fields, BE32, BigEndian;
    EncodeLaid(m);
    FourBytes(1 + |Wire.PacketOf(m).payload|);
  }

  // ---------- the limits ----------

  /** No text is longer than 256 KiB. */
  predicate Short(fs: seq<Field>) { forall i :: 0 <= i < |fs| ==> (fs[i].Text? ==> |fs[i].s| <= 262144) }

  /** At most 64 pairs beside attributes. */
  predicate Few(a: Attributes) { a.flags / 0x8000_0000 % 2 == 1 ==> |a.extended| <= 64 }

  /** At most 64 pairs in a list, and at most 65536 names. */
  predicate Counted(m: Message)
  {
    match m
    case Init(_, ext) => |ext| <= 64
    case Version(_, ext) => |ext| <= 64
    case Open(_, _, _, a) => Few(a)
    case Setstat(_, _, _, a) => Few(a)
    case Fsetstat(_, _, a) => Few(a)
    case Attrs(_, a) => Few(a)
    case Name(_, items) => |items| <= 65536 && forall i :: 0 <= i < |items| ==> Few(items[i].attrs)
    case _ => true
  }

  lemma ShortJoin(a: seq<Field>, b: seq<Field>)
    ensures Short(a + b) <==> Short(a) && Short(b)
  {
    if Short(a + b) {
      forall i | 0 <= i < |a| && a[i].Text? ensures |a[i].s| <= 262144 {
        assert (a + b)[i] == a[i];
      }
      forall i | 0 <= i < |b| && b[i].Text? ensures |b[i].s| <= 262144 {
        assert (a + b)[|a| + i] == b[i];
      }
    }
  }

  lemma {:induction false} PairsShort(ps: seq<Pair>)
    ensures PairsFit(ps) <==> Short(PairFields(ps))
  {
    if ps != [] {
      PairsShort(ps[1..]);
      ShortJoin([Text(ps[0].kind), Text(ps[0].data)], PairFields(ps[1..]));
      ShortTwo(ps[0].kind, ps[0].data);
      if PairsFit(ps) {
        assert PairsFit(ps[1..]);
      }
      if PairsFit(ps[1..]) && ps[0].Fits() {
        assert PairsFit([ps[0]] + ps[1..]) && [ps[0]] + ps[1..] == ps;
      }
    }
  }

  lemma ShortTwo(a: bytes, b: bytes)
    ensures Short([Text(a), Text(b)]) <==> |a| <= 262144 && |b| <= 262144
  {
    if Short([Text(a), Text(b)]) {
      assert [Text(a), Text(b)][0] == Text(a) && [Text(a), Text(b)][1] == Text(b);
    }
  }

  lemma NumsShort(c: bool, f: Field)
    requires !f.Text?
    ensures Short(If(c, [f])) && Short([f])
  {
  }

  lemma AttrsShort(a: Attributes)
    ensures a.Fits() <==> Few(a) && Short(AttrFields(a))
  {
    hide Short, If, PairFields, PairsFit;
    var has := a.flags / 0x8000_0000 % 2 == 1;
    var n: Field := Num32(|a.extended| % 0x1_0000_0000);
    var f0 := If(has, [n] + PairFields(a.extended));
    NumsShort(true, n);
    ShortJoin([n], PairFields(a.extended));
    PairsShort(a.extended);
    ShortIf(has, [n] + PairFields(a.extended));
    var times, owner := a.flags / 8 % 2 == 1, a.flags / 2 % 2 == 1;
    var f1 := InFront(times, Num32(a.mtime), f0);
    var f2 := InFront(times, Num32(a.atime), f1);
    var f3 := InFront(a.flags / 4 % 2 == 1, Num32(a.permissions), f2);
    var f4 := InFront(owner, Num32(a.gid), f3);
    var f5 := InFront(owner, Num32(a.uid), f4);
    var f6 := InFront(a.flags % 2 == 1, Num64(a.size), f5);
    NumsShort(true, Num32(a.flags));
    ShortJoin([Num32(a.flags)], f6);
  }

  lemma ShortIf(c: bool, fs: seq<Field>)
    ensures Short(If(c, fs)) <==> (c ==> Short(fs))
  {
  }

  /** A number in front changes nothing. */
  lemma InFront(c: bool, f: Field, fs: seq<Field>) returns (r: seq<Field>)
    requires !f.Text?
    ensures r == If(c, [f]) + fs && (Short(r) <==> Short(fs))
  {
    hide Short, If;
    r := If(c, [f]) + fs;
    NumsShort(c, f);
    ShortJoin(If(c, [f]), fs);
  }

  lemma {:induction false} ItemsShort(items: seq<NameItem>)
    ensures ItemsFit(items) <==> Short(ItemFields(items)) && forall i :: 0 <= i < |items| ==> Few(items[i].attrs)
  {
    hide AttrFields, Few;
    if items != [] {
      var it, later := items[0], ItemFields(items[1..]);
      ItemsShort(items[1..]);
      AttrsShort(it.attrs);
      ShortJoin(AttrFields(it.attrs), later);
      ShortTwo(it.filename, it.longname);
      ShortJoin([Text(it.filename), Text(it.longname)], AttrFields(it.attrs) + later);
      assert [Text(it.filename), Text(it.longname)] + (AttrFields(it.attrs) + later) == ItemFields(items);
      assert items == [it] + items[1..];
      ItemsSplit(items);
    }
  }

  lemma ItemsSplit(items: seq<NameItem>)
    requires items != []
    ensures ItemsFit(items) <==> items[0].Fits() && ItemsFit(items[1..])
    ensures (forall i :: 0 <= i < |items| ==> Few(items[i].attrs)) <==>
            Few(items[0].attrs) && forall i :: 0 <= i < |items[1..]| ==> Few(items[1..][i].attrs)
  {
    var rest := items[1..];
    if items[0].Fits() && ItemsFit(rest) {
      forall i | 0 <= i < |items| ensures items[i].Fits() {
        assert i > 0 ==> items[i] == rest[i - 1];
      }
    }
    if Few(items[0].attrs) && forall i :: 0 <= i < |rest| ==> Few(rest[i].attrs) {
      forall i | 0 <= i < |items| ensures Few(items[i].attrs) {
        assert i > 0 ==> items[i] == rest[i - 1];
      }
    }
  }

  lemma PlainShort(m: Message)
    requires !m.Init? && !m.Version? && !m.Open? && !m.Setstat? && !m.Fsetstat? && !m.Name? && !m.Attrs?
    ensures Fits(m) <==> Numbered(m, Type(m)) && Short(Fields(m))
  {
    hide If, AttrFields, PairFields, ItemFields;
    var fs := Fields(m);
    if Short(fs) {
      assert |fs| > 1 && fs[1].Text? ==> |fs[1].s| <= 262144;
      assert |fs| > 2 && fs[2].Text? ==> |fs[2].s| <= 262144;
      assert |fs| > 3 && fs[3].Text? ==> |fs[3].s| <= 262144;
    }
  }

  lemma NestedShort(m: Message)
    requires m.Init? || m.Version? || m.Open? || m.Setstat? || m.Fsetstat? || m.Name? || m.Attrs?
    ensures Fits(m) <==> Numbered(m, Type(m)) && Short(Fields(m)) && Counted(m)
  {
    hide Short, If, AttrFields, PairFields, ItemFields, PairsFit, ItemsFit, Few;
    match m
    case Init(version, ext) =>
      PairsShort(ext);
      NumsShort(true, Num32(version));
      ShortJoin([Num32(version)], PairFields(ext));
    case Version(version, ext) =>
      PairsShort(ext);
      NumsShort(true, Num32(version));
      ShortJoin([Num32(version)], PairFields(ext));
    case Open(id, path, pflags, a) =>
      AttrsShort(a);
      ShortMid(id, path, [Num32(pflags)]);
      NumsShort(true, Num32(pflags));
      ShortJoin([Num32(id), Text(path)] + [Num32(pflags)], AttrFields(a));
      assert [Num32(id), Text(path)] + [Num32(pflags)] == [Num32(id), Text(path), Num32(pflags)];
    case Setstat(_, id, path, a) =>
      AttrsShort(a);
      ShortMid(id, path, AttrFields(a));
    case Fsetstat(id, handle, a) =>
      AttrsShort(a);
      ShortMid(id, handle, AttrFields(a));
    case Name(id, items) =>
      var n: Field := Num32(|items| % 0x1_0000_0000);
      ItemsShort(items);
      NumsShort(true, Num32(id));
      NumsShort(true, n);
      ShortJoin([Num32(id)], [n]);
      ShortJoin([Num32(id)] + [n], ItemFields(items));
      assert [Num32(id)] + [n] == [Num32(id), n];
    case Attrs(id, a) =>
      AttrsShort(a);
      NumsShort(true, Num32(id));
      ShortJoin([Num32(id)], AttrFields(a));
  }

  lemma ShortMid(id: uint32, s: bytes, fs: seq<Field>)
    ensures Short([Num32(id), Text(s)] + fs) <==> |s| <= 262144 && Short(fs)
  {
    ShortJoin([Num32(id), Text(s)], fs);
    if Short([Num32(id), Text(s)]) {
      assert [Num32(id), Text(s)][1] == Text(s);
    }
  }

  /** The limits of the wire in numbers: a message is within them exactly when its type
      number is one it can have, no text is over 256 KiB, and no list too long. */
  lemma LimitsMean(m: Message)
    ensures Fits(m) <==> Numbered(m, Type(m)) && Short(Fields(m)) && Counted(m)
  {
    hide Fits, Short, Fields, Type, Numbered;
    if m.Init? || m.Version? || m.Open? || m.Setstat? || m.Fsetstat? || m.Name? || m.Attrs? {
      NestedShort(m);
    } else {
      PlainShort(m);
    }
  }

  /** A payload of another type than STATUS is accepted exactly when it is laid out as a
      message within the limits. */
  ghost predicate LaidOut(typ: byte, b: bytes)
  {
    exists m: Message ::
      Type(m) == typ && Numbered(m, typ) && Short(Fields(m)) && Counted(m) && b == Lay(Fields(m), [])
  }

  lemma Accepted(typ: byte, b: bytes)
    requires typ != 101
    ensures (Decode(typ, b).Some? && Decode(typ, b).value.Got?) <==> LaidOut(typ, b)
  {
    hide Fits, Short, Fields, Type, Numbered, Counted, Encode, Decode, Lay;
    if Decode(typ, b).Some? && Decode(typ, b).value.Got? {
      EncodeDecode(typ, b);
      var m := Decode(typ, b).value.value;
      LimitsMean(m);
      EncodeLaid(m);
    }
    if LaidOut(typ, b) {
      var m :| Type(m) == typ && Numbered(m, typ) && Short(Fields(m)) && Counted(m) && b == Lay(Fields(m), []);
      LimitsMean(m);
      EncodeLaid(m);
      DecodeEncode(m);
    }
  }

  lemma EncodeLaid(m: Message)
    ensures Encode(m) == Lay(Fields(m), [])
  {
    hide Encode, Lay, Fields;
    if m.Init? || m.Version? || m.Open? || m.Setstat? || m.Fsetstat? || m.Name? || m.Attrs? {
      ListsLaid(m);
    } else {
      FixedLaid(m);
    }
  }
}

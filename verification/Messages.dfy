/** Every SFTP version 3 message, its payload encoding and its decoder. */
module Messages {
  import opened Bytes
  import opened Codec

  const FXP_INIT: byte := 1
  const FXP_VERSION: byte := 2
  const FXP_OPEN: byte := 3
  const FXP_CLOSE: byte := 4
  const FXP_READ: byte := 5
  const FXP_WRITE: byte := 6
  const FXP_LSTAT: byte := 7
  const FXP_FSTAT: byte := 8
  const FXP_SETSTAT: byte := 9
  const FXP_FSETSTAT: byte := 10
  const FXP_OPENDIR: byte := 11
  const FXP_READDIR: byte := 12
  const FXP_REMOVE: byte := 13
  const FXP_MKDIR: byte := 14
  const FXP_RMDIR: byte := 15
  const FXP_REALPATH: byte := 16
  const FXP_STAT: byte := 17
  const FXP_RENAME: byte := 18
  const FXP_READLINK: byte := 19
  const FXP_SYMLINK: byte := 20
  const FXP_STATUS: byte := 101
  const FXP_HANDLE: byte := 102
  const FXP_DATA: byte := 103
  const FXP_NAME: byte := 104
  const FXP_ATTRS: byte := 105
  const FXP_EXTENDED: byte := 200
  const FXP_EXTENDED_REPLY: byte := 201

  const MAX_NAME_ITEMS: nat := 0x1_0000

  datatype NameItem = NameItem(filename: bytes, longname: bytes, attrs: Attributes) {
    predicate Fits() { |filename| <= DEFAULT_LIMIT && |longname| <= DEFAULT_LIMIT && attrs.Fits() }

    function Zeroed(): NameItem { this.(attrs := attrs.Zeroed()) }
  }

  datatype Message =
    | Init(version: uint32, extensions: seq<Pair>)
    | Version(version: uint32, extensions: seq<Pair>)
    | PathRequest(kind: byte, id: uint32, path: bytes)
    | HandleRequest(kind: byte, id: uint32, handle: bytes)
    | Open(id: uint32, path: bytes, pflags: uint32, attrs: Attributes)
    | Read(id: uint32, handle: bytes, offset: uint64, length: uint32)
    | Write(id: uint32, handle: bytes, offset: uint64, data: bytes)
    | Setstat(kind: byte, id: uint32, path: bytes, attrs: Attributes)
    | Fsetstat(id: uint32, handle: bytes, attrs: Attributes)
    | Rename(id: uint32, oldPath: bytes, newPath: bytes)
    | Symlink(id: uint32, targetPath: bytes, linkPath: bytes)
    | Extended(id: uint32, name: bytes, data: bytes)
    | Status(id: uint32, code: uint32, message: bytes, lang: bytes)
    | Handle(id: uint32, handle: bytes)
    | Data(id: uint32, data: bytes)
    | Name(id: uint32, items: seq<NameItem>)
    | Attrs(id: uint32, attrs: Attributes)
    | ExtendedReply(id: uint32, data: bytes)

  predicate IsPathType(typ: byte)
  {
    || typ == FXP_LSTAT || typ == FXP_STAT || typ == FXP_OPENDIR || typ == FXP_REMOVE
    || typ == FXP_RMDIR || typ == FXP_REALPATH || typ == FXP_READLINK
  }

  predicate IsHandleType(typ: byte) { typ == FXP_CLOSE || typ == FXP_READDIR || typ == FXP_FSTAT }

  predicate IsSetstatType(typ: byte) { typ == FXP_SETSTAT || typ == FXP_MKDIR }

  function Type(m: Message): byte
  {
    match m
    case Init(_, _) => FXP_INIT
    case Version(_, _) => FXP_VERSION
    case PathRequest(kind, _, _) => kind
    case HandleRequest(kind, _, _) => kind
    case Open(_, _, _, _) => FXP_OPEN
    case Read(_, _, _, _) => FXP_READ
    case Write(_, _, _, _) => FXP_WRITE
    case Setstat(kind, _, _, _) => kind
    case Fsetstat(_, _, _) => FXP_FSETSTAT
    case Rename(_, _, _) => FXP_RENAME
    case Symlink(_, _, _) => FXP_SYMLINK
    case Extended(_, _, _) => FXP_EXTENDED
    case Status(_, _, _, _) => FXP_STATUS
    case Handle(_, _) => FXP_HANDLE
    case Data(_, _) => FXP_DATA
    case Name(_, _) => FXP_NAME
    case Attrs(_, _) => FXP_ATTRS
    case ExtendedReply(_, _) => FXP_EXTENDED_REPLY
  }

  predicate ItemsFit(items: seq<NameItem>) { forall i :: 0 <= i < |items| ==> items[i].Fits() }

  /** Within the decoder's string, pair and item limits, and under a packet type
      that has this shape. */
  predicate Fits(m: Message)
  {
    match m
    case Init(_, ext) => |ext| <= MAX_EXTENDED_PAIRS && PairsFit(ext)
    case Version(_, ext) => |ext| <= MAX_EXTENDED_PAIRS && PairsFit(ext)
    case PathRequest(kind, _, path) => IsPathType(kind) && |path| <= DEFAULT_LIMIT
    case HandleRequest(kind, _, handle) => IsHandleType(kind) && |handle| <= DEFAULT_LIMIT
    case Open(_, path, _, attrs) => |path| <= DEFAULT_LIMIT && attrs.Fits()
    case Read(_, handle, _, _) => |handle| <= DEFAULT_LIMIT
    case Write(_, handle, _, data) => |handle| <= DEFAULT_LIMIT && |data| <= DEFAULT_LIMIT
    case Setstat(kind, _, path, attrs) => IsSetstatType(kind) && |path| <= DEFAULT_LIMIT && attrs.Fits()
    case Fsetstat(_, handle, attrs) => |handle| <= DEFAULT_LIMIT && attrs.Fits()
    case Rename(_, p, q) => |p| <= DEFAULT_LIMIT && |q| <= DEFAULT_LIMIT
    case Symlink(_, p, q) => |p| <= DEFAULT_LIMIT && |q| <= DEFAULT_LIMIT
    case Extended(_, name, _) => |name| <= DEFAULT_LIMIT
    case Status(_, _, message, lang) => |message| <= DEFAULT_LIMIT && |lang| <= DEFAULT_LIMIT
    case Handle(_, handle) => |handle| <= DEFAULT_LIMIT
    case Data(_, data) => |data| <= DEFAULT_LIMIT
    case Name(_, items) => |items| <= MAX_NAME_ITEMS && ItemsFit(items)
    case Attrs(_, attrs) => attrs.Fits()
    case ExtendedReply(_, _) => true
  }

  function ZeroedItems(items: seq<NameItem>): (r: seq<NameItem>)
    ensures |r| == |items|
  {
    if items == [] then [] else [items[0].Zeroed()] + ZeroedItems(items[1..])
  }

  /** The message with every unannounced attribute zeroed. */
  function Zeroed(m: Message): Message
  {
    match m
    case Open(id, path, pflags, attrs) => Open(id, path, pflags, attrs.Zeroed())
    case Setstat(kind, id, path, attrs) => Setstat(kind, id, path, attrs.Zeroed())
    case Fsetstat(id, handle, attrs) => Fsetstat(id, handle, attrs.Zeroed())
    case Attrs(id, attrs) => Attrs(id, attrs.Zeroed())
    case Name(id, items) => Name(id, ZeroedItems(items))
    case _ => m
  }

  // ---------- encoding ----------

  function PutItems(items: seq<NameItem>, rest: bytes): bytes
  {
    if items == [] then rest
    else PutStr(items[0].filename, PutStr(items[0].longname, PutAttrs(items[0].attrs, PutItems(items[1..], rest))))
  }

  /** The payload, everything after the type byte, in front of rest. */
  function Put(m: Message, rest: bytes): bytes
  {
    match m
    case Init(version, ext) => PutU32(version, PutPairs(ext, rest))
    case Version(version, ext) => PutU32(version, PutPairs(ext, rest))
    case PathRequest(_, id, path) => PutU32(id, PutStr(path, rest))
    case HandleRequest(_, id, handle) => PutU32(id, PutStr(handle, rest))
    case Open(id, path, pflags, attrs) => PutU32(id, PutStr(path, PutU32(pflags, PutAttrs(attrs, rest))))
    case Read(id, handle, off, n) => PutU32(id, PutStr(handle, PutU64(off, PutU32(n, rest))))
    case Write(id, handle, off, data) => PutU32(id, PutStr(handle, PutU64(off, PutStr(data, rest))))
    case Setstat(_, id, path, attrs) => PutU32(id, PutStr(path, PutAttrs(attrs, rest)))
    case Fsetstat(id, handle, attrs) => PutU32(id, PutStr(handle, PutAttrs(attrs, rest)))
    case Rename(id, p, q) => PutU32(id, PutStr(p, PutStr(q, rest)))
    case Symlink(id, target, link) => PutU32(id, PutStr(target, PutStr(link, rest)))
    case Extended(id, name, data) => PutU32(id, PutStr(name, data + rest))
    case Status(id, code, message, lang) => PutU32(id, PutU32(code, PutStr(message, PutStr(lang, rest))))
    case Handle(id, handle) => PutU32(id, PutStr(handle, rest))
    case Data(id, data) => PutU32(id, PutStr(data, rest))
    case Name(id, items) => PutU32(id, PutU32(|items| % 0x1_0000_0000, PutItems(items, rest)))
    case Attrs(id, attrs) => PutU32(id, PutAttrs(attrs, rest))
    case ExtendedReply(id, data) => PutU32(id, data + rest)
  }

  function Encode(m: Message): bytes { Put(m, []) }

  // ---------- decoding ----------

  /** Bytes left over after a message are an error. */
  function Finish(m: Message, b: bytes): Take<Message>
  {
    if b == [] then Got(m, []) else Bad(Trailing)
  }

  /** Pairs to the end of the payload; there is no count. */
  function TakeAllPairs(b: bytes, have: nat): (t: Take<seq<Pair>>)
    ensures t.Got? ==> t.rest == []
    decreases |b|
  {
    if b == [] then Got([], [])
    else if have >= MAX_EXTENDED_PAIRS then Bad(Limit)
    else
      var (p, b1) :- TakePair(b);
      PairConsumes(b);
      var (ps, b2) :- TakeAllPairs(b1, have + 1);
      Got([p] + ps, b2)
  }

  lemma PairConsumes(b: bytes)
    requires TakePair(b).Got?
    ensures |TakePair(b).rest| < |b|
  {
    hide TakeStr;
    StrInverse(b);
    StrInverse(TakeStr(b).rest);
  }

  function DecodeInit(b: bytes): Take<Message>
  {
    var (version, b1) :- TakeU32(b);
    var (ext, b2) :- TakeAllPairs(b1, 0);
    Got(Init(version, ext), b2)
  }

  function DecodeVersion(b: bytes): Take<Message>
  {
    var (m, b1) :- DecodeInit(b);
    Got(if m.Init? then Version(m.version, m.extensions) else m, b1)
  }

  function DecodePath(typ: byte, b: bytes): Take<Message>
  {
    var (id, b1) :- TakeU32(b);
    var (path, b2) :- TakeStr(b1);
    Finish(PathRequest(typ, id, path), b2)
  }

  function DecodeHandle(typ: byte, b: bytes): Take<Message>
  {
    var (id, b1) :- TakeU32(b);
    var (handle, b2) :- TakeStr(b1);
    Finish(HandleRequest(typ, id, handle), b2)
  }

  function DecodeOpen(b: bytes): Take<Message>
  {
    var (id, b1) :- TakeU32(b);
    var (path, b2) :- TakeStr(b1);
    var (pflags, b3) :- TakeU32(b2);
    var (attrs, b4) :- TakeAttrs(b3);
    Finish(Open(id, path, pflags, attrs), b4)
  }

  function DecodeRead(b: bytes): Take<Message>
  {
    var (id, b1) :- TakeU32(b);
    var (handle, b2) :- TakeStr(b1);
    var (off, b3) :- TakeU64(b2);
    var (n, b4) :- TakeU32(b3);
    Finish(Read(id, handle, off, n), b4)
  }

  function DecodeWrite(b: bytes): Take<Message>
  {
    var (id, b1) :- TakeU32(b);
    var (handle, b2) :- TakeStr(b1);
    var (off, b3) :- TakeU64(b2);
    var (data, b4) :- TakeStr(b3);
    Finish(Write(id, handle, off, data), b4)
  }

  function DecodeSetstat(typ: byte, b: bytes): Take<Message>
  {
    var (id, b1) :- TakeU32(b);
    var (path, b2) :- TakeStr(b1);
    var (attrs, b3) :- TakeAttrs(b2);
    Finish(Setstat(typ, id, path, attrs), b3)
  }

  function DecodeFsetstat(b: bytes): Take<Message>
  {
    var (id, b1) :- TakeU32(b);
    var (handle, b2) :- TakeStr(b1);
    var (attrs, b3) :- TakeAttrs(b2);
    Finish(Fsetstat(id, handle, attrs), b3)
  }

  function DecodeRename(b: bytes): Take<Message>
  {
    var (id, b1) :- TakeU32(b);
    var (p, b2) :- TakeStr(b1);
    var (q, b3) :- TakeStr(b2);
    Finish(Rename(id, p, q), b3)
  }

  function DecodeSymlink(b: bytes): Take<Message>
  {
    var (id, b1) :- TakeU32(b);
    var (target, b2) :- TakeStr(b1);
    var (link, b3) :- TakeStr(b2);
    Finish(Symlink(id, target, link), b3)
  }

  function DecodeExtended(b: bytes): Take<Message>
  {
    var (id, b1) :- TakeU32(b);
    var (name, b2) :- TakeStr(b1);
    Got(Extended(id, name, b2), [])
  }

  /** Peers of version 2 end after the code, and a payload may end after the
      message too; what is missing reads as empty. */
  function DecodeStatus(b: bytes): Take<Message>
  {
    var (id, b1) :- TakeU32(b);
    var (code, b2) :- TakeU32(b1);
    if b2 == [] then Got(Status(id, code, [], []), [])
    else
      var (message, b3) :- TakeStr(b2);
      if b3 == [] then Got(Status(id, code, message, []), [])
      else
        var (lang, b4) :- TakeStr(b3);
        Finish(Status(id, code, message, lang), b4)
  }

  function DecodeHandleReply(b: bytes): Take<Message>
  {
    var (id, b1) :- TakeU32(b);
    var (handle, b2) :- TakeStr(b1);
    Finish(Handle(id, handle), b2)
  }

  function DecodeData(b: bytes): Take<Message>
  {
    var (id, b1) :- TakeU32(b);
    var (data, b2) :- TakeStr(b1);
    Finish(Data(id, data), b2)
  }

  function TakeItem(b: bytes): Take<NameItem>
  {
    var (filename, b1) :- TakeStr(b);
    var (longname, b2) :- TakeStr(b1);
    var (attrs, b3) :- TakeAttrs(b2);
    Got(NameItem(filename, longname, attrs), b3)
  }

  function TakeItems(n: nat, b: bytes): Take<seq<NameItem>>
  {
    if n == 0 then Got([], b)
    else
      var (it, b1) :- TakeItem(b);
      var (items, b2) :- TakeItems(n - 1, b1);
      Got([it] + items, b2)
  }

  function DecodeName(b: bytes): Take<Message>
  {
    var (id, b1) :- TakeU32(b);
    var (n, b2) :- TakeU32(b1);
    if n > MAX_NAME_ITEMS then Bad(Limit)
    else
      var (items, b3) :- TakeItems(n, b2);
      Finish(Name(id, items), b3)
  }

  function DecodeAttrs(b: bytes): Take<Message>
  {
    var (id, b1) :- TakeU32(b);
    var (attrs, b2) :- TakeAttrs(b1);
    Finish(Attrs(id, attrs), b2)
  }

  function DecodeExtendedReply(b: bytes): Take<Message>
  {
    var (id, b1) :- TakeU32(b);
    Got(ExtendedReply(id, b1), [])
  }

  /** The decoder for each packet type; None for a type nobody sends. */
  function Decode(typ: byte, b: bytes): Option<Take<Message>>
  {
    if typ == FXP_INIT then Some(DecodeInit(b))
    else if typ == FXP_VERSION then Some(DecodeVersion(b))
    else if IsPathType(typ) then Some(DecodePath(typ, b))
    else if IsHandleType(typ) then Some(DecodeHandle(typ, b))
    else if IsSetstatType(typ) then Some(DecodeSetstat(typ, b))
    else if typ == FXP_OPEN then Some(DecodeOpen(b))
    else if typ == FXP_READ then Some(DecodeRead(b))
    else if typ == FXP_WRITE then Some(DecodeWrite(b))
    else if typ == FXP_FSETSTAT then Some(DecodeFsetstat(b))
    else if typ == FXP_RENAME then Some(DecodeRename(b))
    else if typ == FXP_SYMLINK then Some(DecodeSymlink(b))
    else if typ == FXP_EXTENDED then Some(DecodeExtended(b))
    else if typ == FXP_STATUS then Some(DecodeStatus(b))
    else if typ == FXP_HANDLE then Some(DecodeHandleReply(b))
    else if typ == FXP_DATA then Some(DecodeData(b))
    else if typ == FXP_NAME then Some(DecodeName(b))
    else if typ == FXP_ATTRS then Some(DecodeAttrs(b))
    else if typ == FXP_EXTENDED_REPLY then Some(DecodeExtendedReply(b))
    else None
  }

  // ---------- lists ----------

  lemma {:induction false} TakePutAllPairs(ps: seq<Pair>, have: nat)
    requires PairsFit(ps) && have + |ps| <= MAX_EXTENDED_PAIRS
    ensures TakeAllPairs(PutPairs(ps, []), have) == Got(ps, [])
  {
    hide PutU32, TakeU32, PutU64, TakeU64, PutStr, TakeStr;
    RoundTrips();
    if ps != [] {
      TakePutAllPairs(ps[1..], have + 1);
      assert ps[0].Fits();
      var b := PutPairs(ps, []);
      assert TakePair(b) == Got(ps[0], PutPairs(ps[1..], []));
      PairConsumes(b);
      assert b != [];
      assert [ps[0]] + ps[1..] == ps;
    }
  }

  lemma {:induction false} PutTakeAllPairs(b: bytes, have: nat)
    requires TakeAllPairs(b, have).Got? && have <= MAX_EXTENDED_PAIRS
    ensures PutPairs(TakeAllPairs(b, have).value, []) == b
    ensures have + |TakeAllPairs(b, have).value| <= MAX_EXTENDED_PAIRS && PairsFit(TakeAllPairs(b, have).value)
    decreases |b|
  {
    hide PutU32, TakeU32, PutU64, TakeU64, PutStr, TakeStr;
    Inverses();
    if b != [] {
      PairConsumes(b);
      var b1 := TakePair(b).rest;
      PutTakeAllPairs(b1, have + 1);
      assert TakeAllPairs(b, have).value[1..] == TakeAllPairs(b1, have + 1).value;
    }
  }

  lemma {:induction false} TakePutItems(items: seq<NameItem>, rest: bytes)
    requires ItemsFit(items)
    ensures TakeItems(|items|, PutItems(items, rest)) == Got(ZeroedItems(items), rest)
  {
    hide PutU32, TakeU32, PutU64, TakeU64, PutStr, TakeStr, PutAttrs, TakeAttrs;
    RoundTrips();
    if items != [] {
      TakePutItems(items[1..], rest);
      assert items[0].Fits();
      TakePutAttrs(items[0].attrs, PutItems(items[1..], rest));
      assert TakeItem(PutItems(items, rest)) == Got(items[0].Zeroed(), PutItems(items[1..], rest));
    }
  }

  lemma {:induction false} PutTakeItems(n: nat, b: bytes)
    ensures TakeItems(n, b).Got? ==>
              var items := TakeItems(n, b).value;
              |items| == n && ItemsFit(items) && ZeroedItems(items) == items &&
              PutItems(items, TakeItems(n, b).rest) == b
  {
    hide PutU32, TakeU32, PutU64, TakeU64, PutStr, TakeStr, PutAttrs, TakeAttrs;
    Inverses();
    if n > 0 && TakeItems(n, b).Got? {
      var b2 := TakeStr(TakeStr(b).rest).rest;
      PutTakeAttrs(b2);
      PutTakeItems(n - 1, TakeItem(b).rest);
      assert TakeItems(n, b).value[1..] == TakeItems(n - 1, TakeItem(b).rest).value;
    }
  }

  // ---------- the bijection ----------

  predicate IsReply(m: Message)
  {
    m.Status? || m.Handle? || m.Data? || m.Name? || m.Attrs? || m.ExtendedReply?
  }

  ghost predicate Restored(m: Message)
  {
    Decode(Type(m), Encode(m)) == Some(Got(Zeroed(m), []))
  }

  // The laws below go by the shape of the message.

  lemma RestoresOneString(m: Message)
    requires Fits(m) && (m.PathRequest? || m.HandleRequest? || m.Handle? || m.Data?)
    ensures Restored(m)
  {
    hide PutU32, TakeU32, PutU64, TakeU64, PutStr, TakeStr;
    RoundTrips();
  }

  lemma RestoresScalars(m: Message)
    requires Fits(m) && (m.Read? || m.Write? || m.Rename? || m.Symlink?)
    ensures Restored(m)
  {
    hide PutU32, TakeU32, PutU64, TakeU64, PutStr, TakeStr;
    RoundTrips();
  }

  lemma RestoresOpaque(m: Message)
    requires Fits(m) && (m.Extended? || m.ExtendedReply? || m.Status?)
    ensures Restored(m)
  {
    hide PutU32, TakeU32, PutU64, TakeU64, PutStr, TakeStr, DecodeStatus;
    RoundTrips();
    if m.Status? {
      StatusForms(Encode(m), m);
    } else {
      assert m.data + [] == m.data;
    }
  }

  lemma RestoresAttrs(m: Message)
    requires Fits(m) && (m.Open? || m.Setstat? || m.Fsetstat? || m.Attrs?)
    ensures Restored(m)
  {
    hide PutU32, TakeU32, PutU64, TakeU64, PutStr, TakeStr, PutAttrs, TakeAttrs;
    RoundTrips();
    TakePutAttrs(m.attrs, []);
  }

  lemma RestoresLists(m: Message)
    requires Fits(m) && (m.Init? || m.Version? || m.Name?)
    ensures Restored(m)
  {
    hide PutU32, TakeU32, PutU64, TakeU64, PutStr, TakeStr, PutItems, TakeItems, PutPairs, TakeAllPairs;
    RoundTrips();
    if m.Name? {
      TakePutItems(m.items, []);
    } else {
      TakePutAllPairs(m.extensions, 0);
    }
  }

  /** Decoding an encoded message gives it back, unannounced attributes zeroed. */
  lemma DecodeEncode(m: Message)
    requires Fits(m)
    ensures Decode(Type(m), Encode(m)) == Some(Got(Zeroed(m), []))
  {
    hide Decode, Encode, Fits;
    match m
    case PathRequest(_, _, _) => RestoresOneString(m);
    case HandleRequest(_, _, _) => RestoresOneString(m);
    case Handle(_, _) => RestoresOneString(m);
    case Data(_, _) => RestoresOneString(m);
    case Read(_, _, _, _) => RestoresScalars(m);
    case Write(_, _, _, _) => RestoresScalars(m);
    case Rename(_, _, _) => RestoresScalars(m);
    case Symlink(_, _, _) => RestoresScalars(m);
    case Extended(_, _, _) => RestoresOpaque(m);
    case ExtendedReply(_, _) => RestoresOpaque(m);
    case Status(_, _, _, _) => RestoresOpaque(m);
    case Open(_, _, _, _) => RestoresAttrs(m);
    case Setstat(_, _, _, _) => RestoresAttrs(m);
    case Fsetstat(_, _, _) => RestoresAttrs(m);
    case Attrs(_, _) => RestoresAttrs(m);
    case Init(_, _) => RestoresLists(m);
    case Version(_, _) => RestoresLists(m);
    case Name(_, _) => RestoresLists(m);
  }

  lemma StrNonEmpty(s: bytes, rest: bytes)
    ensures PutStr(s, rest) != []
  {
  }

  lemma ListEncodes(typ: byte, b: bytes)
    requires Decode(typ, b).Some? && Decode(typ, b).value.Got? && typ in {FXP_INIT, FXP_VERSION, FXP_NAME}
    ensures var m := Decode(typ, b).value.value;
            Type(m) == typ && Fits(m) && Zeroed(m) == m && Encode(m) == b
  {
    hide Has, PutU32, TakeU32, PutU64, TakeU64, PutStr, TakeStr, PutAttrs, TakeAttrs, PutItems, TakeItems, PutPairs,
      TakeAllPairs, DecodePath, DecodeHandle, DecodeOpen, DecodeRead, DecodeWrite, DecodeSetstat, DecodeExtended,
      DecodeData;
    Inverses();
    forall c: bytes | TakeAllPairs(c, 0).Got?
      ensures var ps := TakeAllPairs(c, 0).value;
              PairsFit(ps) && |ps| <= MAX_EXTENDED_PAIRS && PutPairs(ps, []) == c
    {
      PutTakeAllPairs(c, 0);
    }
    forall n: nat, c: bytes | TakeItems(n, c).Got?
      ensures var items := TakeItems(n, c).value;
              |items| == n && ItemsFit(items) && ZeroedItems(items) == items &&
              PutItems(items, TakeItems(n, c).rest) == c
    {
      PutTakeItems(n, c);
    }
    assert forall c: bytes :: c + [] == c;
  }

  lemma FieldEncodes(typ: byte, b: bytes)
    requires Decode(typ, b).Some? && Decode(typ, b).value.Got? && typ !in {FXP_INIT, FXP_VERSION, FXP_NAME, FXP_STATUS}
    ensures var m := Decode(typ, b).value.value;
            Type(m) == typ && Fits(m) && Zeroed(m) == m && Encode(m) == b
  {
    hide Has, PutU32, TakeU32, PutU64, TakeU64, PutStr, TakeStr, PutAttrs, TakeAttrs, DecodeInit, DecodeVersion,
      DecodeName;
    Inverses();
    forall c: bytes | TakeAttrs(c).Got?
      ensures var a := TakeAttrs(c).value;
              a.Fits() && a.Zeroed() == a && PutAttrs(a, TakeAttrs(c).rest) == c
    {
      PutTakeAttrs(c);
    }
    assert forall c: bytes :: c + [] == c;
  }

  /** A successful decode re-encodes to exactly the input, for every packet type
      but STATUS, whose decoder also accepts the two shorter forms. */
  lemma EncodeDecode(typ: byte, b: bytes)
    requires Decode(typ, b).Some? && Decode(typ, b).value.Got? && typ != FXP_STATUS
    ensures var m := Decode(typ, b).value.value;
            Type(m) == typ && Fits(m) && Zeroed(m) == m && Encode(m) == b
  {
    hide Decode, Encode, Fits, Zeroed, Type;
    if typ in {FXP_INIT, FXP_VERSION, FXP_NAME} {
      ListEncodes(typ, b);
    } else {
      FieldEncodes(typ, b);
    }
  }

  /** STATUS accepts exactly its three forms: complete, without the language tag,
      and without either string. */
  lemma StatusForms(b: bytes, m: Message)
    ensures DecodeStatus(b) == Got(m, []) <==>
            && m.Status? && Fits(m)
            && (|| b == Encode(m)
                || (m.lang == [] && b == PutU32(m.id, PutU32(m.code, PutStr(m.message, []))))
                || (m.lang == [] && m.message == [] && b == PutU32(m.id, PutU32(m.code, []))))
  {
    hide PutU32, TakeU32, PutU64, TakeU64, PutStr, TakeStr;
    RoundTrips();
    Inverses();
    if m.Status? {
      StrNonEmpty(m.message, PutStr(m.lang, []));
      StrNonEmpty(m.message, []);
      StrNonEmpty(m.lang, []);
    }
  }
}

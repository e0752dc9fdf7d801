/** What READ, WRITE and CLOSE do and say, from the packet to the bytes of the file and
    the status, told with the numbers of draft-ietf-secsh-filexfer-02. */
module Transfers {
  import opened Bytes
  import opened Codec
  import opened Messages
  import opened Packets
  import opened Content
  import opened DataOps
  import opened Server
  import Crossing
  import Wire

  // ---------- how packets are served ----------

  /** A STATUS with this code and text. */
  function Says(id: uint32, code: uint32, text: bytes): Message { Status(id, code, text, []) }

  /** What the server says of an error: its status, or the fallback, and its text. */
  function Blames(id: uint32, err: Error, fallback: uint32): Message
  {
    Says(id, StatusFor(err, fallback), if |err.text| > 512 then err.text[..512] + [0xE2, 0x80, 0xA6] else err.text)
  }

  /** The packets of a message other than READ and WRITE are performed as the message
      says. */
  lemma Performs(cfg: Config, w: World, t: Table, m: Message, k: nat)
    requires Fits(m) && IsBarrierType(Type(m))
    ensures Serve(cfg, w, t, Wire.PacketOf(m), k) == Perform(cfg, w, t, Zeroed(m), k)
  {
    hide Encode, Decode, Perform;
    DecodeEncode(m);
  }

  /** A READ or WRITE that is prepared to this. */
  function Ran(w: World, t: Table, p: Prepared): Res
  {
    match p
    case Run(j) => RunJob(w, t, j)
    case Early(reply) => Res(w, t, reply, [])
    case Barrier => Unsupported(w, t, 0)
  }

  lemma ReadRuns(cfg: Config, w: World, t: Table, m: Message, k: nat)
    requires m.Read? && Fits(m)
    ensures Serve(cfg, w, t, Wire.PacketOf(m), k) == Ran(w, t, ReadJob(cfg, t, m))
  {
    hide Encode, DecodeRead, Ascii, RunJob, Dispatch, Unsupported;
    DecodeEncode(m);
  }

  lemma WriteRuns(cfg: Config, w: World, t: Table, m: Message, k: nat)
    requires m.Write? && Fits(m)
    ensures Serve(cfg, w, t, Wire.PacketOf(m), k) == Ran(w, t, WriteJob(cfg, t, m))
  {
    hide Encode, DecodeWrite, Ascii, RunJob, Dispatch, Unsupported;
    DecodeEncode(m);
  }

  // ---------- READ ----------

  /** The largest packet taken: 260 KiB unless configured. */
  function Largest(cfg: Config): int { if cfg.maxPacket <= 0 then 266240 else cfg.maxPacket }

  /** As many of n bytes as one READ gives: at most 255 KiB, and no more than a packet. */
  function Clamped(cfg: Config, n: uint32): int { Min(n, Min(261120, Largest(cfg))) }

  /** m carries the bytes of f from off on, n of them or as many as there are. */
  predicate Carries(m: Message, id: uint32, f: bytes, off: nat, n: nat)
  {
    && off < |f| && m.Data? && m.id == id && |m.data| == Min(off + n, |f|) - off
    && forall i :: 0 <= i < |m.data| ==> m.data[i] == f[off + i]
  }

  /** How a READ is answered. */
  predicate ReadsFile(cfg: Config, w: World, t: Table, id: uint32, tok: bytes, off: uint64, n: uint32, m: Message)
  {
    if tok !in t then m == Says(id, 4, Ascii("unknown handle"))
    else if t[tok].dir then m == Says(id, 4, Ascii("handle is a directory"))
    else if n == 0 then m == Data(id, [])
    else if t[tok].path !in w.fs.files then m == Says(id, 2, Ascii("file does not exist"))
    else
      var f := w.fs.files[t[tok].path];
      if off >= |f| then m == Says(id, 1, []) else Carries(m, id, f, off, Clamped(cfg, n))
  }

  predicate ReadDone(cfg: Config, w: World, t: Table, id: uint32, tok: bytes, off: uint64, n: uint32, r: Res)
  {
    && r.w == w && r.t == t && ReadsFile(cfg, w, t, id, tok, off, n, r.reply)
    && r.calls == if tok in t && !t[tok].dir && n > 0
                  then [CData(ReadOp(t[tok].path, off, Clamped(cfg, n)))] else []
  }

  /** A READ is answered with the bytes of its file, and changes nothing. */
  lemma ReadAnswered(cfg: Config, w: World, t: Table, id: uint32, tok: bytes, off: uint64, n: uint32, k: nat)
    requires |tok| <= 0x4_0000
    ensures ReadDone(cfg, w, t, id, tok, off, n, Serve(cfg, w, t, Wire.PacketOf(Read(id, tok, off, n)), k))
  {
    hide Serve, Wire.PacketOf, ReadJob, Ran, ReadDone;
    ReadRuns(cfg, w, t, Read(id, tok, off, n), k);
    ReadJobReads(cfg, w, t, id, tok, off, n);
  }

  lemma ReadJobReads(cfg: Config, w: World, t: Table, id: uint32, tok: bytes, off: uint64, n: uint32)
    ensures ReadDone(cfg, w, t, id, tok, off, n, Ran(w, t, ReadJob(cfg, t, Read(id, tok, off, n))))
  {
    hide Ascii;
  }

  // ---------- WRITE ----------

  /** data stands in f at off. */
  predicate Holds(f: bytes, off: nat, data: bytes) { off + |data| <= |f| && f[off..off + |data|] == data }

  /** f' is f with data at off: as long as it must be, and otherwise as it was, with
      zeros where there was nothing. */
  predicate WrittenAt(f: bytes, f': bytes, off: nat, data: bytes)
  {
    && Holds(f', off, data) && |f'| == Max(|f|, off + |data|)
    && forall i :: 0 <= i < |f'| && !(off <= i < off + |data|) ==> f'[i] == if i < |f| then f[i] else 0
  }

  /** A file of len bytes cannot be rewritten to hold n bytes at off: it would grow by
      more than 8 MiB, or past 1 GiB. */
  predicate TooFar(len: nat, off: nat, n: nat)
  {
    off + n > len && (off + n - len > 8388608 || off + n > 1073741824)
  }

  /** The file at path is now f', and nothing else is new. */
  predicate OnlyFile(w: World, w': World, path: bytes, f': bytes)
  {
    w' == w.(fs := w.fs.(files := w.fs.files[path := f']))
  }

  /** Why a WRITE is refused before the driver is asked, if it is. */
  function WriteRefusal(cfg: Config, t: Table, id: uint32, tok: bytes, off: uint64): Option<Message>
  {
    if tok !in t then Some(Says(id, 4, Ascii("unknown handle")))
    else if t[tok].dir then Some(Says(id, 4, Ascii("handle is a directory")))
    else if cfg.ro then Some(Says(id, 3, Ascii("export is read-only")))
    else if !t[tok].write then Some(Says(id, 3, Ascii("handle not opened for writing")))
    else if off >= 0x8000_0000_0000_0000 then Some(Says(id, 4, Ascii("offset beyond what a file can hold")))
    else None
  }

  /** What a WRITE that is not refused does and says. */
  predicate WritesFile(w: World, h: OpenFile, id: uint32, off: uint64, data: bytes, r: Res)
  {
    if h.path !in w.fs.files then r.w == w && r.reply == Says(id, 2, Ascii("file does not exist"))
    else
      var f := w.fs.files[h.path];
      && h.path in r.w.fs.files
      && var f' := r.w.fs.files[h.path];
      && OnlyFile(w, r.w, h.path, f')
      && (r.reply == Says(id, 0, []) <==> Holds(f', off, data))
      && (r.reply == Says(id, 0, []) <==> WrittenAt(f, f', off, data))
      && (r.reply == Says(id, 4, Ascii("write beyond what rewriting the whole file can hold")) && r.w == w <==>
            !h.writable && TooFar(|f|, off, |data|))
      && (r.reply == Says(id, 0, []) <==> h.writable || !TooFar(|f|, off, |data|))
  }

  predicate WriteDone(cfg: Config, w: World, t: Table, id: uint32, tok: bytes, off: uint64, data: bytes, r: Res)
  {
    var refusal := WriteRefusal(cfg, t, id, tok, off);
    && r.t == t
    && if refusal.Some? then r.w == w && r.reply == refusal.value && r.calls == []
       else
         && WritesFile(w, t[tok], id, off, data, r)
         && r.calls == [CData(WriteOp(t[tok].path, off, data, t[tok].writable))]
  }

  /** A WRITE is answered with success exactly when the file holds its bytes afterwards,
      and then the rest of the file is as it was; it is refused with the files untouched
      exactly when a file that is not written in place would have to grow too far. */
  lemma WriteAnswered(cfg: Config, w: World, t: Table, id: uint32, tok: bytes, off: uint64, data: bytes, k: nat)
    requires |tok| <= 0x4_0000 && |data| <= 0x4_0000
    ensures WriteDone(cfg, w, t, id, tok, off, data, Serve(cfg, w, t, Wire.PacketOf(Write(id, tok, off, data)), k))
  {
    hide Serve, Wire.PacketOf, WriteJob, Ran, WriteDone;
    WriteRuns(cfg, w, t, Write(id, tok, off, data), k);
    WriteJobWrites(cfg, w, t, id, tok, off, data);
  }

  lemma WriteJobWrites(cfg: Config, w: World, t: Table, id: uint32, tok: bytes, off: uint64, data: bytes)
    requires |data| <= 0x4_0000
    ensures WriteDone(cfg, w, t, id, tok, off, data, Ran(w, t, WriteJob(cfg, t, Write(id, tok, off, data))))
  {
    hide Ascii, WritesFile, RunJob;
    if WriteRefusal(cfg, t, id, tok, off).None? {
      WriteLands(w, t, t[tok], id, off, data, if t[tok].writable then t[tok].file else None,
                 if t[tok].writable then Shared else Exclusive);
    }
  }

  lemma WriteLands(w: World, t: Table, h: OpenFile, id: uint32, off: uint64, data: bytes, file: Option<nat>, lock: Lock)
    requires |data| <= 0x4_0000 && off < 0x8000_0000_0000_0000
    ensures var r := RunJob(w, t, Job(id, WriteOp(h.path, off, data, h.writable), file, lock));
            WritesFile(w, h, id, off, data, r) && r.t == t && r.calls == [CData(WriteOp(h.path, off, data, h.writable))]
  {
    hide Splice, Ascii, WrittenAt, Holds;
    if h.path in w.fs.files {
      var f := w.fs.files[h.path];
      SplicedAt(f, off, data);
      UnwrittenShort(f, off, data);
      assert w.fs.files[h.path := f] == w.fs.files;
    }
  }

  lemma SplicedAt(f: bytes, off: nat, data: bytes)
    ensures WrittenAt(f, Splice(f, off, data), off, data) && Holds(Splice(f, off, data), off, data)
  {
  }

  lemma UnwrittenShort(f: bytes, off: nat, data: bytes)
    ensures TooFar(|f|, off, |data|) ==> !Holds(f, off, data) && !WrittenAt(f, f, off, data)
  {
  }

  // ---------- CLOSE ----------

  /** The calls that closing a handle takes: a file written in place is synced first. */
  function ClosingCalls(h: OpenFile): seq<Call>
  {
    if h.file.None? then [] else (if h.writable then [CSync(h.file.value)] else []) + [CClose(h.file.value)]
  }

  /** What the driver says to such a call. */
  function Complaint(cfg: Config, c: Call, k: nat): Option<Error>
    requires c.CSync? || c.CClose?
  {
    if c.CSync? then cfg.drv.sync(c.fid, k) else cfg.drv.close(c.fid, k)
  }

  /** The i-th call is the first to fail. */
  predicate FirstToFail(cfg: Config, calls: seq<Call>, k: nat, i: nat)
    requires forall j :: 0 <= j < |calls| ==> calls[j].CSync? || calls[j].CClose?
  {
    i < |calls| && Complaint(cfg, calls[i], k).Some? && forall j :: 0 <= j < i ==> Complaint(cfg, calls[j], k).None?
  }

  ghost predicate Closed(cfg: Config, w: World, t: Table, id: uint32, tok: bytes, k: nat, r: Res)
  {
    if tok !in t then r == Res(w, t, Says(id, 4, Ascii("unknown handle")), [])
    else
      var h, calls := t[tok], ClosingCalls(t[tok]);
      && r.t == t - {tok} && r.calls == calls
      && r.w == w.(closes := w.closes + if h.file.Some? then [h.file.value] else [])
      && r.reply.Status? && r.reply.id == id
      && (r.reply.code == 0 <==> forall i :: 0 <= i < |calls| ==> Complaint(cfg, calls[i], k).None?)
      && (r.reply.code == 0 ==> r.reply == Says(id, 0, []))
      && forall i: nat :: FirstToFail(cfg, calls, k, i) ==> r.reply == Blames(id, Complaint(cfg, calls[i], k).value, 4)
  }

  /** CLOSE of an open handle always drops it, makes every one of its calls whatever
      they say, and says success exactly when they all succeed; otherwise it passes on
      the first failure. CLOSE of any other handle does nothing. */
  lemma CloseAnswered(cfg: Config, w: World, t: Table, id: uint32, tok: bytes, k: nat)
    requires |tok| <= 0x4_0000
    ensures Closed(cfg, w, t, id, tok, k, Serve(cfg, w, t, Wire.PacketOf(HandleRequest(4, id, tok)), k))
  {
    hide Ascii, Serve, Closed, OpClose, Wire.PacketOf;
    Performs(cfg, w, t, HandleRequest(4, id, tok), k);
    CloseCloses(cfg, w, t, id, tok, k);
  }

  lemma CloseCloses(cfg: Config, w: World, t: Table, id: uint32, tok: bytes, k: nat)
    ensures Closed(cfg, w, t, id, tok, k, OpClose(cfg, w, t, id, tok, k))
  {
    hide Ascii, StatusFor;
    if tok in t {
      var h, calls := t[tok], ClosingCalls(t[tok]);
      assert w.closes + [] == w.closes;
      if h.file.Some? {
        assert calls[|calls| - 1] == CClose(h.file.value);
        if h.writable {
          assert calls[0] == CSync(h.file.value);
        }
      }
    }
  }
}

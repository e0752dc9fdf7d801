/** The SFTP server as a function of one packet: the handle table, the driver's
    files and the reply, for any driver. */
module Server {
  import opened Bytes
  import opened Codec
  import opened Messages
  import opened Packets
  import opened Paths
  import opened Content
  import opened DataOps
  import opened Directory

  // ---------- status codes, open flags, limits ----------

  const OK: uint32 := 0
  const EOF: uint32 := 1
  const NO_SUCH_FILE: uint32 := 2
  const PERMISSION_DENIED: uint32 := 3
  const FAILURE: uint32 := 4
  const BAD_MESSAGE: uint32 := 5
  const OP_UNSUPPORTED: uint32 := 8

  const FXF_WRITE: uint32 := 0x2
  const FXF_APPEND: uint32 := 0x4
  const FXF_CREAT: uint32 := 0x8
  const FXF_TRUNC: uint32 := 0x10
  const FXF_EXCL: uint32 := 0x20

  const MAX_READ_LENGTH: nat := 256 * 1024 - 1024
  const MAX_OPEN_HANDLES: nat := 1024
  const HANDLE_BYTES: nat := 16
  const WRITE_OVERHEAD: nat := 4 + 1 + 4 + (4 + 2 * HANDLE_BYTES) + 8 + 4

  const LIMITS_EXTENSION: bytes := Ascii("limits@openssh.com")
  const COPY_DATA_EXTENSION: bytes := Ascii("copy-data")
  const COPY_CEILING: nat := 0x4000_0000_0000_0000

  // ---------- the driver ----------

  /** The first of the known errors that an error wraps, in the order they are tried. */
  datatype Cause = IsNotExist | IsPermission | IsExist | IsInvalid | IsShrinkUnsupported | Unmarked

  datatype Error = Error(cause: Cause, text: bytes)

  datatype Stat = Stat(mode: uint32, size: uint64, mtime: Option<uint32>) {
    /** The type bits say directory. */
    predicate IsDir() { mode / 0x1000 % 16 == 4 }
  }

  datatype StatAnswer = Found(stat: Stat) | NoStat | StatFailed(err: Error)
  datatype OpenAnswer = Opened(writable: bool) | NoFile | OpenFailed(err: Error)
  datatype Answer<+T> = Yes(value: T) | No(err: Error)

  /** How a range copy ends: all of it moved, the destination not grown to its final
      length, or grown and then only the first moved bytes copied. */
  datatype CopyAnswer = AllMoved | NotGrown(err: Error) | CutShort(moved: nat, err: Error)

  /** Everything a driver keeps beside file contents. */
  datatype Meta = Meta(dirs: set<bytes>, links: map<bytes, bytes>, modes: map<bytes, nat>)

  datatype Fs = Fs(files: Files, meta: Meta)

  /** The calls the server makes on a driver and on the files it opened. */
  datatype Call =
    | CStat(path: bytes) | CListDir(path: bytes) | CReadLink(path: bytes) | COpenFile(path: bytes)
    | CWriteFile(path: bytes, perm: nat) | CMkDir(path: bytes, perm: nat)
    | CDeleteFile(path: bytes) | CDeleteDir(path: bytes)
    | CRename(path: bytes, newPath: bytes) | CSymlink(target: bytes, path: bytes)
    | CTruncate(path: bytes, size: nat) | CChmod(path: bytes, perm: nat)
    | CChown(path: bytes, uid: uint32, gid: uint32) | CChtimes(path: bytes, atime: uint32, mtime: uint32)
    | CSync(fid: nat) | CClose(fid: nat)
    | CCopy(path: bytes, source: bytes) | CData(op: Op)
  {
    predicate Mutates()
    {
      match this
      case CStat(_) => false
      case CListDir(_) => false
      case CReadLink(_) => false
      case COpenFile(_) => false
      case CSync(_) => false
      case CClose(_) => false
      case CData(op) => op.WriteOp?
      case _ => true
    }
  }

  /** Any driver at all. Every answer may depend on the filesystem and on the
      number of the request it serves, and that of a Stat also on the rank of the
      directory entry it is for, so failures may come and go. */
  datatype Driver = Driver(
    opener: bool, truncater: bool, metadataSetter: bool, symlinker: bool,
    stat: (Fs, bytes, nat, nat) -> StatAnswer,
    listDir: (Fs, bytes, nat) -> Answer<seq<bytes>>,
    readLink: (Fs, bytes, nat) -> Answer<bytes>,
    openFile: (Fs, bytes, nat) -> OpenAnswer,
    change: (Fs, Call, nat) -> (Fs, Option<Error>),
    sync: (nat, nat) -> Option<Error>,
    close: (nat, nat) -> Option<Error>,
    copy: nat -> CopyAnswer,
    mint: nat -> Option<bytes>,
    longName: (bytes, Attributes) -> bytes)

  datatype Config = Config(ro: bool, maxPacket: int, start: uint32, pathConcurrent: bool, drv: Driver) {
    function PacketLimit(): int { if maxPacket <= 0 then MAX_PACKET else maxPacket }

    function ReadLength(): nat { Min(MAX_READ_LENGTH, PacketLimit()) }

    function WriteLength(): int { Max(Min(MAX_READ_LENGTH, PacketLimit() - WRITE_OVERHEAD), 1) }

    /** Whether copy-data is offered. */
    predicate CopiesData() { drv.opener && !ro }
  }

  // ---------- server state ----------

  /** What one handle refers to. file is the driver's open file, if any; writable
      says it takes positional writes. */
  datatype OpenFile = OpenFile(
    path: bytes, dir: bool, entries: seq<bytes>, pos: nat, file: Option<nat>, writable: bool, write: bool)

  type Table = map<bytes, OpenFile>

  /** What all sessions share: the filesystem, how many files the driver ever
      opened (they are numbered in order), and the close calls made on them. */
  datatype World = World(fs: Fs, issued: nat, closes: seq<nat>)

  datatype Res = Res(w: World, t: Table, reply: Message, calls: seq<Call>)

  // ---------- replies ----------

  /** A reply, and to request id. */
  predicate Answers(m: Message, id: uint32) { IsReply(m) && m.id == id }

  function StatusReply(id: uint32, code: uint32, text: bytes): Message { Status(id, code, text, []) }

  /** The i-th fragment of an error's text that is looked for, and the status it means. */
  function Fragment(i: nat): (bytes, uint32)
    requires i < 14
  {
    if i == 0 then (Ascii("not found"), NO_SUCH_FILE)
    else if i == 1 then (Ascii("no such"), NO_SUCH_FILE)
    else if i == 2 then (Ascii("does not exist"), NO_SUCH_FILE)
    else if i == 3 then (Ascii("not a directory"), FAILURE)
    else if i == 4 then (Ascii("is a directory"), FAILURE)
    else if i == 5 then (Ascii("not a regular file"), FAILURE)
    else if i == 6 then (Ascii("not a symbolic link"), FAILURE)
    else if i == 7 then (Ascii("not empty"), FAILURE)
    else if i == 8 then (Ascii("read-only"), PERMISSION_DENIED)
    else if i == 9 then (Ascii("permission"), PERMISSION_DENIED)
    else if i == 10 then (Ascii("already exists"), FAILURE)
    else if i == 11 then (Ascii("no space"), FAILURE)
    else if i == 12 then (Ascii("not supported"), OP_UNSUPPORTED)
    else (Ascii("unsupported"), OP_UNSUPPORTED)
  }

  /** Lower case, as far as a fragment can tell. Two characters outside ASCII have a
      lower case inside it: the dotted capital I and the Kelvin sign. */
  function Lowered(s: bytes): bytes
    decreases |s|
  {
    if s == [] then []
    else if |s| >= 2 && s[..2] == [0xC4, 0xB0] then [0x69] + Lowered(s[2..])
    else if |s| >= 3 && s[..3] == [0xE2, 0x84, 0xAA] then [0x6B] + Lowered(s[3..])
    else [if 0x41 <= s[0] <= 0x5A then s[0] + 0x20 else s[0]] + Lowered(s[1..])
  }

  predicate Occurs(frag: bytes, s: bytes) { frag <= s || (s != [] && Occurs(frag, s[1..])) }

  /** The status of the first fragment from the i-th on that occurs in low. */
  function Matching(low: bytes, i: nat): (r: Option<uint32>)
    ensures r != Some(OK)
    decreases 14 - i
  {
    if i >= 14 then None
    else if Occurs(Fragment(i).0, low) then Some(Fragment(i).1)
    else Matching(low, i + 1)
  }

  function StatusFor(err: Error, fallback: uint32): (code: uint32)
    ensures fallback != OK ==> code != OK
  {
    match err.cause
    case IsNotExist => NO_SUCH_FILE
    case IsPermission => PERMISSION_DENIED
    case IsExist => FAILURE
    case IsInvalid => FAILURE
    case IsShrinkUnsupported => OP_UNSUPPORTED
    case Unmarked =>
      match Matching(Lowered(err.text), 0)
      case Some(code) => code
      case None => fallback
  }

  function ErrText(err: Error): bytes
  {
    if |err.text| > 512 then err.text[..512] + [0xE2, 0x80, 0xA6] else err.text
  }

  function ErrReply(id: uint32, err: Error, fallback: uint32): Message
  {
    StatusReply(id, StatusFor(err, fallback), ErrText(err))
  }

  /** OK, or the error. */
  function Ack(id: uint32, err: Option<Error>, fallback: uint32): Message
  {
    if err.Some? then ErrReply(id, err.value, fallback) else StatusReply(id, OK, [])
  }

  function FaultText(f: Fault): bytes
  {
    match f
    case Short => Ascii("wire: buffer too short")
    case Limit => Ascii("wire: length exceeds limit")
    case Trailing => Ascii("wire: trailing bytes after message")
  }

  function BadMessage(id: uint32, f: Fault): Message { StatusReply(id, BAD_MESSAGE, FaultText(f)) }

  function InvalidPath(id: uint32): Message { StatusReply(id, FAILURE, Ascii("invalid path")) }

  function UnknownHandle(id: uint32): Message { StatusReply(id, FAILURE, Ascii("unknown handle")) }

  function ReadOnlyReply(id: uint32): Message
  {
    StatusReply(id, PERMISSION_DENIED, Ascii("export is read-only"))
  }

  function RequestId(payload: bytes): uint32 { if |payload| < 4 then 0 else FromBE32(payload[..4]) }

  // ---------- metadata ----------

  function Without(v: uint32, mask: uint32): uint32
    requires mask > 0
  {
    if Has(v, mask) && mask <= v then v - mask else v
  }

  /** The permission bits a client may set. */
  function Perm(a: Attributes, default: nat): nat
  {
    if Has(a.flags, ATTR_PERMISSIONS) then a.permissions % 0x1000 else default
  }

  function AttrsFromStat(cfg: Config, st: Stat): Attributes
  {
    var typed := if st.mode / 0x1000 % 16 == 0 then st.mode + 0x8000 else st.mode;
    var mode: uint32 := if typed < 0x1_0000_0000 then typed else st.mode;
    var perm := if cfg.ro then Without(Without(Without(mode, 0x80), 0x10), 0x2) else mode;
    var time := if st.mtime.Some? then st.mtime.value else cfg.start;
    Attributes(0xF, st.size, 0, 0, perm, time, time, [])
  }

  function OpStat(cfg: Config, w: World, t: Table, id: uint32, p: bytes, nonce: nat): (r: Res)
    ensures Answers(r.reply, id)
  {
    match Clean(p)
    case None => Res(w, t, InvalidPath(id), [])
    case Some(path) =>
      var reply := match cfg.drv.stat(w.fs, path, nonce, 0)
        case StatFailed(err) => ErrReply(id, err, NO_SUCH_FILE)
        case NoStat => StatusReply(id, FAILURE, Ascii("driver returned no stat"))
        case Found(st) => Attrs(id, AttrsFromStat(cfg, st));
      Res(w, t, reply, [CStat(path)])
  }

  function OpFstat(cfg: Config, w: World, t: Table, id: uint32, tok: bytes, nonce: nat): (r: Res)
    ensures Answers(r.reply, id)
  {
    if tok !in t then Res(w, t, UnknownHandle(id), []) else OpStat(cfg, w, t, id, t[tok].path, nonce)
  }

  /** Driver calls one after another until one fails. */
  function Changes(cfg: Config, fs: Fs, calls: seq<Call>, nonce: nat): (Fs, Option<Error>, seq<Call>)
    decreases |calls|
  {
    if calls == [] then (fs, None, [])
    else
      var (fs1, err) := cfg.drv.change(fs, calls[0], nonce);
      if err.Some? then (fs1, err, [calls[0]])
      else
        var (fs2, err2, done) := Changes(cfg, fs1, calls[1..], nonce);
        (fs2, err2, [calls[0]] + done)
  }

  function ChangeAll(cfg: Config, w: World, t: Table, id: uint32, calls: seq<Call>, fallback: uint32,
                     nonce: nat): (r: Res)
    ensures Answers(r.reply, id)
  {
    var (fs, err, done) := Changes(cfg, w.fs, calls, nonce);
    Res(w.(fs := fs), t, Ack(id, err, fallback), done)
  }

  function SetstatCalls(cfg: Config, path: bytes, a: Attributes): seq<Call>
  {
    (if Has(a.flags, ATTR_SIZE) then [CTruncate(path, a.size)] else []) +
    if !cfg.drv.metadataSetter then []
    else
      (if Has(a.flags, ATTR_PERMISSIONS) then [CChmod(path, Perm(a, 0))] else []) +
      (if Has(a.flags, ATTR_UIDGID) then [CChown(path, a.uid, a.gid)] else []) +
      (if Has(a.flags, ATTR_ACMODTIME) then [CChtimes(path, a.atime, a.mtime)] else [])
  }

  /** The path is handed to the driver as it stands. */
  function OpSetstat(cfg: Config, w: World, t: Table, id: uint32, path: bytes, a: Attributes, nonce: nat): (r: Res)
    ensures Answers(r.reply, id)
  {
    if cfg.ro then Res(w, t, ReadOnlyReply(id), [])
    else if Has(a.flags, ATTR_SIZE) && !cfg.drv.truncater then
      Res(w, t, StatusReply(id, OP_UNSUPPORTED, Ascii("driver cannot truncate")), [])
    else if Has(a.flags, ATTR_SIZE) && a.size > MAX_INT64 then
      Res(w, t, StatusReply(id, FAILURE, Ascii("size beyond what a file can hold")), [])
    else ChangeAll(cfg, w, t, id, SetstatCalls(cfg, path, a), FAILURE, nonce)
  }

  function OpFsetstat(cfg: Config, w: World, t: Table, id: uint32, tok: bytes, a: Attributes, nonce: nat): (r: Res)
    ensures Answers(r.reply, id)
  {
    if tok !in t then Res(w, t, UnknownHandle(id), []) else OpSetstat(cfg, w, t, id, t[tok].path, a, nonce)
  }

  function OpMkdir(cfg: Config, w: World, t: Table, id: uint32, p: bytes, a: Attributes, nonce: nat): (r: Res)
    ensures Answers(r.reply, id)
  {
    if cfg.ro then Res(w, t, ReadOnlyReply(id), [])
    else match Clean(p)
      case None => Res(w, t, InvalidPath(id), [])
      case Some(path) => ChangeAll(cfg, w, t, id, [CMkDir(path, Perm(a, 0x1ED))], FAILURE, nonce)
  }

  function OpRemove(cfg: Config, w: World, t: Table, id: uint32, p: bytes, rmdir: bool, nonce: nat): (r: Res)
    ensures Answers(r.reply, id)
  {
    if cfg.ro then Res(w, t, ReadOnlyReply(id), [])
    else match Clean(p)
      case None => Res(w, t, InvalidPath(id), [])
      case Some(path) =>
        ChangeAll(cfg, w, t, id, [if rmdir then CDeleteDir(path) else CDeleteFile(path)], NO_SUCH_FILE, nonce)
  }

  function OpRename(cfg: Config, w: World, t: Table, id: uint32, p: bytes, q: bytes, nonce: nat): (r: Res)
    ensures Answers(r.reply, id)
  {
    if cfg.ro then Res(w, t, ReadOnlyReply(id), [])
    else match (Clean(p), Clean(q))
      case (Some(oldPath), Some(newPath)) =>
        ChangeAll(cfg, w, t, id, [CRename(oldPath, newPath)], FAILURE, nonce)
      case _ => Res(w, t, InvalidPath(id), [])
  }

  function OpSymlink(cfg: Config, w: World, t: Table, id: uint32, target: bytes, p: bytes, nonce: nat): (r: Res)
    ensures Answers(r.reply, id)
  {
    if cfg.ro then Res(w, t, ReadOnlyReply(id), [])
    else match Clean(p)
      case None => Res(w, t, InvalidPath(id), [])
      case Some(link) =>
        if !cfg.drv.symlinker then
          Res(w, t, StatusReply(id, OP_UNSUPPORTED, Ascii("driver cannot create symlinks")), [])
        else ChangeAll(cfg, w, t, id, [CSymlink(target, link)], FAILURE, nonce)
  }

  function PlainName(id: uint32, s: bytes): Message
  {
    Name(id, [NameItem(s, s, Attributes(0, 0, 0, 0, 0, 0, 0, []))])
  }

  function OpReadlink(cfg: Config, w: World, t: Table, id: uint32, p: bytes, nonce: nat): (r: Res)
    ensures Answers(r.reply, id)
  {
    match Clean(p)
    case None => Res(w, t, InvalidPath(id), [])
    case Some(path) =>
      var reply := match cfg.drv.readLink(w.fs, path, nonce)
        case No(err) => ErrReply(id, err, NO_SUCH_FILE)
        case Yes(target) => PlainName(id, target);
      Res(w, t, reply, [CReadLink(path)])
  }

  function OpRealpath(w: World, t: Table, id: uint32, p: bytes): (r: Res)
    ensures Answers(r.reply, id)
  {
    match Clean(p)
    case None => Res(w, t, InvalidPath(id), [])
    case Some(path) => Res(w, t, PlainName(id, path), [])
  }

  // ---------- directories ----------

  predicate Full(t: Table) { |t| >= MAX_OPEN_HANDLES }

  function TooManyHandles(id: uint32): Message { StatusReply(id, FAILURE, Ascii("too many open handles")) }

  /** Stores h under a new token, or gives its file back. */
  function Register(cfg: Config, w: World, t: Table, id: uint32, h: OpenFile, calls: seq<Call>, nonce: nat): (r: Res)
    ensures Answers(r.reply, id)
  {
    match cfg.drv.mint(nonce)
    case Some(tok) => Res(w, t[tok := h], Handle(id, tok), calls)
    case None =>
      var reply := StatusReply(id, FAILURE, Ascii("random source failed"));
      if h.file.Some? then Res(CloseFile(w, h.file.value), t, reply, calls + [CClose(h.file.value)])
      else Res(w, t, reply, calls)
  }

  function CloseFile(w: World, fid: nat): World { w.(closes := w.closes + [fid]) }

  function OpOpendir(cfg: Config, w: World, t: Table, id: uint32, p: bytes, nonce: nat): (r: Res)
    ensures Answers(r.reply, id)
  {
    match Clean(p)
    case None => Res(w, t, InvalidPath(id), [])
    case Some(path) =>
      if Full(t) then Res(w, t, TooManyHandles(id), [])
      else match cfg.drv.stat(w.fs, path, nonce, 0)
        case StatFailed(err) => Res(w, t, ErrReply(id, err, NO_SUCH_FILE), [CStat(path)])
        case NoStat => Res(w, t, StatusReply(id, FAILURE, Ascii("driver returned no stat")), [CStat(path)])
        case Found(st) =>
          if !st.IsDir() then Res(w, t, StatusReply(id, FAILURE, Ascii("not a directory")), [CStat(path)])
          else match cfg.drv.listDir(w.fs, path, nonce)
            case No(err) => Res(w, t, ErrReply(id, err, FAILURE), [CStat(path), CListDir(path)])
            case Yes(entries) =>
              Register(cfg, w, t, id, OpenFile(path, true, entries, 0, None, false, false),
                       [CStat(path), CListDir(path)], nonce)
  }

  /** How entry i of a listing is shown, if it can be. */
  function ItemAt(cfg: Config, fs: Fs, h: OpenFile, i: nat, nonce: nat): Option<NameItem>
  {
    if i >= |h.entries| then None
    else
      var name := h.entries[i];
      match JoinName(h.path, name)
      case None => None
      case Some(full) =>
        match cfg.drv.stat(fs, full, nonce, i)
        case Found(st) =>
          var a := AttrsFromStat(cfg, st);
          Some(NameItem(name, cfg.drv.longName(name, a), a))
        case _ => None
  }

  function Shown(cfg: Config, fs: Fs, h: OpenFile, nonce: nat): nat -> Option<NameItem>
  {
    (i: nat) => ItemAt(cfg, fs, h, i, nonce)
  }

  /** The stat calls behind the entries in [lo, hi). */
  function EntryCalls(h: OpenFile, lo: nat, hi: nat): seq<Call>
    decreases hi - lo
  {
    if lo >= hi || lo >= |h.entries| then []
    else
      (match JoinName(h.path, h.entries[lo]) case Some(full) => [CStat(full)] case None => []) +
      EntryCalls(h, lo + 1, hi)
  }

  function OpReaddir(cfg: Config, w: World, t: Table, id: uint32, tok: bytes, nonce: nat): (r: Res)
    ensures Answers(r.reply, id)
  {
    if tok !in t then Res(w, t, UnknownHandle(id), [])
    else
      var h := t[tok];
      if !h.dir then Res(w, t, StatusReply(id, FAILURE, Ascii("handle is not a directory")), [])
      else
        var (pos, items) := Page(Shown(cfg, w.fs, h, nonce), h.pos, |h.entries|);
        Res(w, t[tok := h.(pos := pos)],
            if items != [] then Name(id, items) else StatusReply(id, EOF, []),
            EntryCalls(h, h.pos, pos))
  }

  // ---------- files ----------

  predicate WantsWrite(pflags: uint32)
  {
    || Has(pflags, FXF_WRITE) || Has(pflags, FXF_APPEND) || Has(pflags, FXF_CREAT)
    || Has(pflags, FXF_TRUNC) || Has(pflags, FXF_EXCL)
  }

  function OpOpen(cfg: Config, w: World, t: Table, m: Message, nonce: nat): (r: Res)
    requires m.Open?
    ensures Answers(r.reply, m.id)
  {
    match Clean(m.path)
    case None => Res(w, t, InvalidPath(m.id), [])
    case Some(path) =>
      var write := WantsWrite(m.pflags);
      if write && cfg.ro then Res(w, t, ReadOnlyReply(m.id), [])
      else if Full(t) then Res(w, t, TooManyHandles(m.id), [])
      else
        var st := cfg.drv.stat(w.fs, path, nonce, 0);
        var calls := [CStat(path)];
        // What a missing file is answered with. A driver that says neither yes
        // nor no gets its own silence back as success.
        var absent := match st
          case StatFailed(err) => ErrReply(m.id, err, NO_SUCH_FILE)
          case _ => StatusReply(m.id, OK, []);
        if st.Found? && st.stat.IsDir() then
          Res(w, t, StatusReply(m.id, FAILURE, Ascii("is a directory")), calls)
        else if !write then
          if !st.Found? then Res(w, t, absent, calls) else FinishOpen(cfg, w, t, m.id, path, false, calls, nonce)
        else if st.Found? && Has(m.pflags, FXF_EXCL) then
          Res(w, t, StatusReply(m.id, FAILURE, Ascii("file already exists")), calls)
        else if !st.Found? && !Has(m.pflags, FXF_CREAT) then Res(w, t, absent, calls)
        else if !st.Found? || Has(m.pflags, FXF_TRUNC) then
          var create := CWriteFile(path, Perm(m.attrs, 0x1A4));
          var (fs, err) := cfg.drv.change(w.fs, create, nonce);
          if err.Some? then Res(w.(fs := fs), t, ErrReply(m.id, err.value, FAILURE), calls + [create])
          else FinishOpen(cfg, w.(fs := fs), t, m.id, path, true, calls + [create], nonce)
        else FinishOpen(cfg, w, t, m.id, path, true, calls, nonce)
  }

  function FinishOpen(cfg: Config, w: World, t: Table, id: uint32, path: bytes, write: bool, calls: seq<Call>,
                      nonce: nat): (r: Res)
    ensures Answers(r.reply, id)
  {
    var h := OpenFile(path, false, [], 0, None, false, write);
    if !cfg.drv.opener then Register(cfg, w, t, id, h, calls, nonce)
    else
      var calls1 := calls + [COpenFile(path)];
      match cfg.drv.openFile(w.fs, path, nonce)
      case OpenFailed(err) => Res(w, t, ErrReply(id, err, FAILURE), calls1)
      case NoFile => Res(w, t, StatusReply(id, FAILURE, Ascii("driver returned no file")), calls1)
      case Opened(writable) =>
        var fid := w.issued;
        var w1 := w.(issued := fid + 1);
        if !write || writable then
          Register(cfg, w1, t, id, h.(file := Some(fid), writable := write), calls1, nonce)
        else
          // No positional write: the file would go stale, so both directions
          // use the path.
          var w2, calls2 := CloseFile(w1, fid), calls1 + [CClose(fid)];
          match cfg.drv.close(fid, nonce)
          case Some(err) => Res(w2, t, ErrReply(id, err, FAILURE), calls2)
          case None => Register(cfg, w2, t, id, h, calls2, nonce)
  }

  function OpClose(cfg: Config, w: World, t: Table, id: uint32, tok: bytes, nonce: nat): (r: Res)
    ensures Answers(r.reply, id)
  {
    if tok !in t then Res(w, t, UnknownHandle(id), [])
    else
      var h, t1 := t[tok], t - {tok};
      match h.file
      case None => Res(w, t1, StatusReply(id, OK, []), [])
      case Some(fid) =>
        var syncErr := if h.writable then cfg.drv.sync(fid, nonce) else None;
        var err := if syncErr.Some? then syncErr else cfg.drv.close(fid, nonce);
        Res(CloseFile(w, fid), t1, Ack(id, err, FAILURE),
            (if h.writable then [CSync(fid)] else []) + [CClose(fid)])
  }

  // ---------- READ and WRITE ----------

  datatype Lock = Shared | PathLock | Exclusive

  /** A request that may run beside others. */
  datatype Job = Job(id: uint32, op: Op, file: Option<nat>, lock: Lock)

  datatype Prepared = Run(job: Job) | Early(reply: Message) | Barrier

  function ReadJob(cfg: Config, t: Table, m: Message): Prepared
    requires m.Read?
  {
    if m.handle !in t then Early(UnknownHandle(m.id))
    else
      var h := t[m.handle];
      if h.dir then Early(StatusReply(m.id, FAILURE, Ascii("handle is a directory")))
      else if m.length == 0 then Early(Data(m.id, []))
      else
        Run(Job(m.id, ReadOp(h.path, m.offset, Min(m.length, cfg.ReadLength())), h.file,
                if h.file.Some? then Shared else PathLock))
  }

  function WriteJob(cfg: Config, t: Table, m: Message): Prepared
    requires m.Write?
  {
    if m.handle !in t then Early(UnknownHandle(m.id))
    else
      var h := t[m.handle];
      if h.dir then Early(StatusReply(m.id, FAILURE, Ascii("handle is a directory")))
      else if cfg.ro then Early(ReadOnlyReply(m.id))
      else if !h.write then
        Early(StatusReply(m.id, PERMISSION_DENIED, Ascii("handle not opened for writing")))
      else if m.offset > MAX_INT64 then
        Early(StatusReply(m.id, FAILURE, Ascii("offset beyond what a file can hold")))
      else
        Run(Job(m.id, WriteOp(h.path, m.offset, m.data, h.writable), if h.writable then h.file else None,
                if h.writable then Shared else Exclusive))
  }

  /** A READ or WRITE to run concurrently, a reply that needs no driver, or a
      request that waits for everything before it. */
  function Prepare(cfg: Config, t: Table, p: Packet): Prepared
  {
    if p.typ == FXP_READ then
      match DecodeRead(p.payload)
      case Bad(f) => Early(BadMessage(RequestId(p.payload), f))
      case Got(m, _) => if m.Read? then ReadJob(cfg, t, m) else Barrier
    else if p.typ == FXP_WRITE then
      match DecodeWrite(p.payload)
      case Bad(f) => Early(BadMessage(RequestId(p.payload), f))
      case Got(m, _) => if m.Write? then WriteJob(cfg, t, m) else Barrier
    else Barrier
  }

  /** The reply to a finished job. */
  function Render(id: uint32, out: Outcome): Message
  {
    match out
    case Chunk(data) => Data(id, data)
    case Eof => StatusReply(id, EOF, [])
    case Written => StatusReply(id, OK, [])
    case Refused => StatusReply(id, FAILURE, Ascii("write beyond what rewriting the whole file can hold"))
    case Missing => StatusReply(id, NO_SUCH_FILE, Ascii("file does not exist"))
  }

  function RunJob(w: World, t: Table, j: Job): Res
  {
    var (files, out) := Act(w.fs.files, j.op);
    Res(w.(fs := w.fs.(files := files)), t, Render(j.id, out), [CData(j.op)])
  }

  // ---------- extensions ----------

  function LimitsReply(cfg: Config, id: uint32): Message
  {
    ExtendedReply(id, BE64(cfg.PacketLimit() % 0x1_0000_0000_0000_0000) + BE64(cfg.ReadLength()) +
                      BE64(cfg.WriteLength()) + BE64(MAX_OPEN_HANDLES))
  }

  datatype CopyRequest = CopyRequest(from: bytes, fromOff: uint64, length: uint64, to: bytes, toOff: uint64)

  function DecodeCopy(b: bytes): Take<CopyRequest>
  {
    var (from, b1) :- TakeStr(b);
    var (fromOff, b2) :- TakeU64(b1);
    var (length, b3) :- TakeU64(b2);
    var (to, b4) :- TakeStr(b3);
    var (toOff, b5) :- TakeU64(b4);
    Got(CopyRequest(from, fromOff, length, to, toOff), b5)
  }

  /** An int64 result, wrapped as Go wraps it. */
  function Wrap64(x: int): int
  {
    (x + 0x8000_0000_0000_0000) % 0x1_0000_0000_0000_0000 - 0x8000_0000_0000_0000
  }

  /** How many bytes copyData decides to copy out of a source of size bytes. */
  function CopyCount(size: int, fromOff: nat, length: nat): int
  {
    if length == 0 || Wrap64(fromOff + length) > size then Max(size - fromOff, 0) else length
  }

  /** The destination after its Truncate and the first m of the n bytes of the range
      copy, which moves what the source has. */
  function CopyInto(dst: bytes, src: bytes, toOff: nat, fromOff: nat, n: nat, m: nat): bytes
  {
    var grown := if Wrap64(toOff + n) > |dst| then Splice(dst, toOff + n, []) else dst;
    if m == 0 then grown else Splice(grown, toOff, src[Min(fromOff, |src|)..Min(fromOff + m, |src|)])
  }

  /** Why a copy between two open handles is refused, if it is. */
  function CopyRefusal(id: uint32, src: OpenFile, dst: OpenFile, c: CopyRequest): (r: Option<Message>)
    ensures r.Some? ==> Answers(r.value, id)
  {
    if src.dir || dst.dir then Some(StatusReply(id, FAILURE, Ascii("handle is a directory")))
    else if src.path == dst.path then Some(StatusReply(id, FAILURE, Ascii("copy-data within one file")))
    else if !dst.write then
      Some(StatusReply(id, PERMISSION_DENIED, Ascii("write-to handle was not opened for writing")))
    else if src.file.None? || !dst.writable then
      Some(StatusReply(id, OP_UNSUPPORTED, Ascii("copy-data needs files the driver opens and writes in place")))
    else if c.fromOff > COPY_CEILING || c.length > COPY_CEILING || c.toOff > COPY_CEILING then
      Some(StatusReply(id, FAILURE, Ascii("copy-data: offset or length out of range")))
    else None
  }

  function CopyFiles(cfg: Config, w: World, t: Table, id: uint32, src: bytes, dst: bytes, c: CopyRequest,
                     nonce: nat): (r: Res)
    ensures Answers(r.reply, id)
  {
    var calls := [CCopy(dst, src)];
    if src !in w.fs.files || dst !in w.fs.files then Res(w, t, Render(id, Missing), calls)
    else
      var s, d := w.fs.files[src], w.fs.files[dst];
      var n := CopyCount(|s|, c.fromOff, c.length);
      match cfg.drv.copy(nonce)
      case NotGrown(err) => Res(w, t, ErrReply(id, err, FAILURE), calls)
      case CutShort(moved, err) =>
        var files := w.fs.files[dst := CopyInto(d, s, c.toOff, c.fromOff, n, Min(moved, n))];
        Res(w.(fs := w.fs.(files := files)), t, ErrReply(id, err, FAILURE), calls)
      case AllMoved =>
        var files := w.fs.files[dst := CopyInto(d, s, c.toOff, c.fromOff, n, n)];
        Res(w.(fs := w.fs.(files := files)), t, StatusReply(id, OK, []), calls)
  }

  function CopyData(cfg: Config, w: World, t: Table, id: uint32, data: bytes, nonce: nat): (r: Res)
    ensures Answers(r.reply, id)
  {
    match DecodeCopy(data)
    case Bad(f) => Res(w, t, StatusReply(id, BAD_MESSAGE, Ascii("copy-data: ") + FaultText(f)), [])
    case Got(c, _) =>
      if !cfg.CopiesData() then
        Res(w, t, StatusReply(id, OP_UNSUPPORTED, Ascii("unsupported extension: ") + COPY_DATA_EXTENSION), [])
      else if c.from !in t || c.to !in t then Res(w, t, UnknownHandle(id), [])
      else match CopyRefusal(id, t[c.from], t[c.to], c)
        case Some(reply) => Res(w, t, reply, [])
        case None => CopyFiles(cfg, w, t, id, t[c.from].path, t[c.to].path, c, nonce)
  }

  function OpExtended(cfg: Config, w: World, t: Table, id: uint32, name: bytes, data: bytes, nonce: nat): (r: Res)
    ensures Answers(r.reply, id)
  {
    if name == LIMITS_EXTENSION then Res(w, t, LimitsReply(cfg, id), [])
    else if name == COPY_DATA_EXTENSION then CopyData(cfg, w, t, id, data, nonce)
    else Res(w, t, StatusReply(id, OP_UNSUPPORTED, Ascii("unsupported extension: ") + name), [])
  }

  // ---------- dispatch ----------

  predicate IsBarrierType(typ: byte)
  {
    || typ == FXP_OPEN || IsPathType(typ) || IsHandleType(typ) || IsSetstatType(typ) || typ == FXP_FSETSTAT
    || typ == FXP_RENAME || typ == FXP_SYMLINK || typ == FXP_EXTENDED
  }

  function Unsupported(w: World, t: Table, id: uint32): (r: Res)
    ensures Answers(r.reply, id)
  {
    Res(w, t, StatusReply(id, OP_UNSUPPORTED, Ascii("unsupported request type")), [])
  }

  /** A decoded barrier request. */
  function Perform(cfg: Config, w: World, t: Table, m: Message, nonce: nat): Res
  {
    match m
    case Open(_, _, _, _) => OpOpen(cfg, w, t, m, nonce)
    case HandleRequest(kind, id, handle) =>
      if kind == FXP_CLOSE then OpClose(cfg, w, t, id, handle, nonce)
      else if kind == FXP_FSTAT then OpFstat(cfg, w, t, id, handle, nonce)
      else OpReaddir(cfg, w, t, id, handle, nonce)
    case PathRequest(kind, id, path) =>
      if kind == FXP_LSTAT || kind == FXP_STAT then OpStat(cfg, w, t, id, path, nonce)
      else if kind == FXP_OPENDIR then OpOpendir(cfg, w, t, id, path, nonce)
      else if kind == FXP_REALPATH then OpRealpath(w, t, id, path)
      else if kind == FXP_READLINK then OpReadlink(cfg, w, t, id, path, nonce)
      else OpRemove(cfg, w, t, id, path, kind == FXP_RMDIR, nonce)
    case Setstat(kind, id, path, attrs) =>
      if kind == FXP_SETSTAT then OpSetstat(cfg, w, t, id, path, attrs, nonce)
      else OpMkdir(cfg, w, t, id, path, attrs, nonce)
    case Fsetstat(id, handle, attrs) => OpFsetstat(cfg, w, t, id, handle, attrs, nonce)
    case Rename(id, p, q) => OpRename(cfg, w, t, id, p, q, nonce)
    case Symlink(id, target, link) => OpSymlink(cfg, w, t, id, target, link, nonce)
    case Extended(id, name, data) => OpExtended(cfg, w, t, id, name, data, nonce)
    case _ => Unsupported(w, t, 0)
  }

  function Dispatch(cfg: Config, w: World, t: Table, p: Packet, nonce: nat): Res
  {
    var id := RequestId(p.payload);
    if !IsBarrierType(p.typ) then Unsupported(w, t, id)
    else match Decode(p.typ, p.payload)
      case Some(Got(m, _)) => Perform(cfg, w, t, m, nonce)
      case Some(Bad(f)) => Res(w, t, BadMessage(id, f), [])
      case None => Unsupported(w, t, id)
  }

  /** One packet served to completion before the next is looked at. */
  function Serve(cfg: Config, w: World, t: Table, p: Packet, nonce: nat): Res
  {
    match Prepare(cfg, t, p)
    case Run(j) => RunJob(w, t, j)
    case Early(reply) => Res(w, t, reply, [])
    case Barrier => Dispatch(cfg, w, t, p, nonce)
  }
}

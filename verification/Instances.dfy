/** Inputs at which the statements with an exact condition fail. */
module Instances {
  import opened Bytes
  import opened Codec
  import opened Messages
  import opened Packets
  import opened Paths
  import opened Opening
  import opened Server
  import opened Safety
  import opened Lifecycle
  import opened Copying
  import opened Crossing
  import opened Schedules
  import opened Pool
  import opened Runs
  import Wire

  // ---------- an export with one answer to everything ----------

  const FILE := Found(Stat(0x81A4, 0, None))
  const TOKEN: bytes := Ascii("0123456789abcdef0123456789abcdef")
  const PATH: bytes := ROOT + Letters(1)

  /** A driver that opens every path for writing in place, says st of every path,
      and is given the same token every time. */
  function SameDriver(st: StatAnswer): Driver
  {
    Driver(true, true, true, true,
           (fs: Fs, p: bytes, n: nat, i: nat) => st,
           (fs: Fs, p: bytes, n: nat) => Yes([]),
           (fs: Fs, p: bytes, n: nat) => Yes(p),
           (fs: Fs, p: bytes, n: nat) => Opened(true),
           (fs: Fs, c: Call, n: nat) => (fs, None),
           (f: nat, n: nat) => None, (f: nat, n: nat) => None, (n: nat) => AllMoved,
           (n: nat) => Some(TOKEN),
           (name: bytes, a: Attributes) => name)
  }

  function Export(st: StatAnswer, maxPacket: int): Config { Config(false, maxPacket, 0, false, SameDriver(st)) }

  function FreshWorld(content: bytes): World { World(Fs(map[PATH := content], Meta({}, map[], map[])), 0, []) }

  // ---------- paths ----------

  function Letters(n: nat): (p: bytes)
    ensures |p| == n && forall i :: 0 <= i < n ==> p[i] == 97
  {
    seq(n, _ => 97)
  }

  /** A name of at least one letter resolves to itself under the root. */
  lemma LettersClean(n: nat)
    requires 0 < n <= MAX_PATH
    ensures Clean(Letters(n)) == Some(ROOT + Letters(n))
  {
    var p := Letters(n);
    SplitSlashFree(p, []);
    assert [] + p == p;
    assert Split(p) == [p];
    assert Walk([p], []) == Push([], p) == [p];
  }

  /** The 4096-byte relative path: it resolves, and what it resolves to does not. */
  lemma LongRelativePath()
    ensures Clean(Letters(4096)) == Some(ROOT + Letters(4096)) && Clean(ROOT + Letters(4096)) == None
  {
    LettersClean(4096);
  }

  const NO_ATTRS := Attributes(0, 0, 0, 0, 0, 0, 0, [])
  const OPEN_LONG := Wire.PacketOf(Open(0, Letters(4096), 1, NO_ATTRS))
  const STAT_LONG := Wire.PacketOf(PathRequest(FXP_STAT, 1, Letters(4096)))
  const FSTAT := Wire.PacketOf(HandleRequest(FXP_FSTAT, 1, TOKEN))

  lemma OnlyReads()
    ensures !WantsWrite(1)
  {
    assert !Has(1, FXF_WRITE) && !Has(1, FXF_APPEND) && !Has(1, FXF_CREAT) && !Has(1, FXF_TRUNC) && !Has(1, FXF_EXCL);
  }

  lemma LongIsOpen(cfg: Config, w: World, nonce: nat)
    ensures Serve(cfg, w, map[], OPEN_LONG, nonce) == OpOpen(cfg, w, map[], Open(0, Letters(4096), 1, NO_ATTRS), nonce)
  {
    hide Encode, Decode, OpOpen, Letters;
    DecodeEncode(Open(0, Letters(4096), 1, NO_ATTRS));
  }

  /** OPEN of it for reading gives a handle. */
  lemma LongOpens(w: World, nonce: nat)
    ensures var r := Serve(Export(FILE, 0), w, map[], OPEN_LONG, nonce);
            && r.reply == Handle(0, TOKEN)
            && r.t == map[TOKEN := OpenFile(ROOT + Letters(4096), false, [], 0, Some(w.issued), false, false)]
  {
    LongIsOpen(Export(FILE, 0), w, nonce);
    LongRelativePath();
    hide Clean, Letters, Ascii, Serve, OpOpen;
    OpensToRead(w, Letters(4096), ROOT + Letters(4096), nonce);
  }

  lemma OpensToRead(w: World, p: bytes, path: bytes, nonce: nat)
    requires Clean(p) == Some(path)
    ensures var r := OpOpen(Export(FILE, 0), w, map[], Open(0, p, 1, NO_ATTRS), nonce);
            && r.reply == Handle(0, TOKEN)
            && r.t == map[TOKEN := OpenFile(path, false, [], 0, Some(w.issued), false, false)]
  {
    OnlyReads();
    assert !FILE.stat.IsDir();
    hide Clean, WantsWrite, Ascii, FinishOpen, Has;
    ReadFinished(w, path, [CStat(path)], nonce);
  }

  lemma ReadFinished(w: World, path: bytes, calls: seq<Call>, nonce: nat)
    ensures var r := FinishOpen(Export(FILE, 0), w, map[], 0, path, false, calls, nonce);
            && r.reply == Handle(0, TOKEN)
            && r.t == map[TOKEN := OpenFile(path, false, [], 0, Some(w.issued), false, false)]
  {
    hide Ascii;
  }

  /** It opens and STAT of it answers; FSTAT of the handle does not. */
  lemma LongFstat(w: World, nonce: nat, nonce': nat)
    ensures var cfg := Export(FILE, 0);
            var r := Serve(cfg, w, map[], OPEN_LONG, nonce);
            && r.reply == Handle(0, TOKEN)
            && Serve(cfg, r.w, r.t, STAT_LONG, nonce').reply.Attrs?
            && Serve(cfg, r.w, r.t, FSTAT, nonce').reply == InvalidPath(1)
  {
    LongOpens(w, nonce);
    LongRelativePath();
    var cfg := Export(FILE, 0);
    var r := Serve(cfg, w, map[], OPEN_LONG, nonce);
    hide Clean, AttrsFromStat, Letters, Ascii, Serve, Wire.PacketOf;
    StatServed(cfg, r.w, r.t, nonce');
    FstatServed(cfg, r.w, r.t, nonce');
  }

  lemma StatServed(cfg: Config, w: World, t: Table, nonce: nat)
    ensures Serve(cfg, w, t, STAT_LONG, nonce) == OpStat(cfg, w, t, 1, Letters(4096), nonce)
  {
    hide Encode, Decode, OpStat, OpFstat, Letters, Ascii;
    DecodeEncode(PathRequest(FXP_STAT, 1, Letters(4096)));
    hide Encode, Decode, OpStat, OpFstat, Letters, Ascii;
  }

  lemma FstatServed(cfg: Config, w: World, t: Table, nonce: nat)
    ensures Serve(cfg, w, t, FSTAT, nonce) == OpFstat(cfg, w, t, 1, TOKEN, nonce)
  {
    hide Encode, Decode, OpStat, OpFstat, Ascii;
    DecodeEncode(HandleRequest(FXP_FSTAT, 1, TOKEN));
  }

  /** A 4096-byte name joins under the root into a path that does not resolve. */
  lemma LongNameUnderRoot()
    ensures JoinName(ROOT, Letters(4096)) == Some(ROOT + Letters(4096)) && Clean(ROOT + Letters(4096)) == None
  {
  }

  lemma PathResolves()
    ensures Clean(PATH) == Some(PATH)
  {
    LettersClean(1);
    CleanIsCanonical(Letters(1));
    CanonicalIsFixed(PATH);
  }

  // ---------- OPEN ----------

  /** OPEN for reading of a file the driver's Stat is silent about: OK, no handle. */
  lemma SilentStat(w: World, nonce: nat)
    ensures var m := Open(0, PATH, 1, NO_ATTRS);
            var r := Serve(Export(NoStat, 0), w, map[], Wire.PacketOf(m), nonce);
            r.reply == StatusReply(0, OK, []) && r.t == map[]
  {
    hide DecodeOpen, Encode, Clean;
    PathResolves();
    DecodeEncode(Open(0, PATH, 1, NO_ATTRS));
    OnlyReads();
  }

  // ---------- copy-data and limits ----------

  const COPY_PATH: bytes := ROOT + Letters(2)
  const COPY_TOKEN: bytes := Ascii("fedcba9876543210fedcba9876543210")
  const COPY_HUGE := CopyRequest(TOKEN, COPY_CEILING, COPY_CEILING, COPY_TOKEN, 0)

  function CopyWords(c: CopyRequest): bytes
  {
    PutStr(c.from, PutU64(c.fromOff, PutU64(c.length, PutStr(c.to, PutU64(c.toOff, [])))))
  }

  lemma CopyDecodes(c: CopyRequest)
    requires |c.from| <= DEFAULT_LIMIT && |c.to| <= DEFAULT_LIMIT
    ensures DecodeCopy(CopyWords(c)) == Got(c, [])
  {
    hide PutStr, PutU64, TakeStr, TakeU64;
    RoundTrips();
  }

  const COPY := Wire.PacketOf(Extended(0, COPY_DATA_EXTENSION, CopyWords(COPY_HUGE)))

  lemma ExtendedCarries(name: bytes, data: bytes)
    requires Fits(Extended(0, name, data))
    ensures DecodeExtended(Wire.PacketOf(Extended(0, name, data)).payload) == Got(Extended(0, name, data), [])
  {
    hide Encode, DecodeExtended;
    DecodeEncode(Extended(0, name, data));
    hide Encode, DecodeExtended;
  }

  lemma CopyFits()
    ensures Fits(Extended(0, COPY_DATA_EXTENSION, CopyWords(COPY_HUGE))) && |TOKEN| == |COPY_TOKEN| == 32
    ensures TOKEN != COPY_TOKEN
  {
    hide CopyWords;
    assert |COPY_DATA_EXTENSION| == 9;
    assert TOKEN[0] != COPY_TOKEN[0];
  }

  lemma CopyPacket()
    ensures CopyIn(COPY) == Some(COPY_HUGE)
    ensures DecodeExtended(COPY.payload) == Got(Extended(0, COPY_DATA_EXTENSION, CopyWords(COPY_HUGE)), [])
    ensures DecodeCopy(CopyWords(COPY_HUGE)) == Got(COPY_HUGE, [])
  {
    CopyFits();
    hide Encode, CopyWords, DecodeCopy, DecodeExtended, Ascii, Fits;
    CopyDecodes(COPY_HUGE);
    ExtendedCarries(COPY_DATA_EXTENSION, CopyWords(COPY_HUGE));
  }

  /** Offset and length at the ceiling between two files that may be copied. */
  lemma CopyGrows(cfg: Config, w: World, t: Table, data: bytes, c: CopyRequest, nonce: nat)
    requires cfg.CopiesData() && cfg.drv.copy(nonce).AllMoved? && DecodeCopy(data) == Got(c, [])
    requires c.from in t && c.to in t && t[c.from].path in w.fs.files && t[c.to].path in w.fs.files
    requires CopyRefusal(0, t[c.from], t[c.to], c).None? && c.fromOff == c.length == COPY_CEILING && c.toOff == 0
    requires |w.fs.files[t[c.from].path]| == 10 && w.fs.files[t[c.to].path] == []
    ensures var r := CopyData(cfg, w, t, 0, data, nonce);
            SaysOk(r.reply) && t[c.to].path in r.w.fs.files && |r.w.fs.files[t[c.to].path]| == COPY_CEILING
  {
    hide DecodeCopy, CopyInto, CopyRefusal;
    assert CopyCount(10, COPY_CEILING, COPY_CEILING) == COPY_CEILING;
    GrownEmpty(w.fs.files[t[c.from].path]);
  }

  /** A copy-data of 2^62 bytes from offset 2^62 of a 10-byte file: nothing is there to
      copy, and the empty destination is grown to 2^62 bytes. */
  lemma CopyOverflow(nonce: nat)
    ensures var w := World(Fs(map[PATH := seq(10, _ => 1), COPY_PATH := []], Meta({}, map[], map[])), 2, []);
            var t := map[TOKEN := OpenFile(PATH, false, [], 0, Some(0), false, false),
                         COPY_TOKEN := OpenFile(COPY_PATH, false, [], 0, Some(1), true, true)];
            var r := Serve(Export(FILE, 0), w, t, COPY, nonce);
            && SaysOk(r.reply) && Available(10, COPY_CEILING, COPY_CEILING) == 0
            && COPY_PATH in r.w.fs.files && |r.w.fs.files[COPY_PATH]| == COPY_CEILING
  {
    hide Encode, CopyWords, DecodeCopy, DecodeExtended, Ascii, Letters, Serve, CopyData, Wire.PacketOf;
    CopyFits();
    CopyPacket();
    assert |PATH| != |COPY_PATH|;
    hide Encode, CopyWords, DecodeCopy, DecodeExtended, Ascii, Letters, Serve, CopyData, Wire.PacketOf;
    var w := World(Fs(map[PATH := seq(10, _ => 1), COPY_PATH := []], Meta({}, map[], map[])), 2, []);
    var t := map[TOKEN := OpenFile(PATH, false, [], 0, Some(0), false, false),
                 COPY_TOKEN := OpenFile(COPY_PATH, false, [], 0, Some(1), true, true)];
    IsCopyData(Export(FILE, 0), w, t, COPY, nonce);
    CopyGrows(Export(FILE, 0), w, t, CopyWords(COPY_HUGE), COPY_HUGE, nonce);
  }

  lemma GrownEmpty(src: bytes)
    requires |src| == 10
    ensures |CopyInto([], src, 0, COPY_CEILING, COPY_CEILING, COPY_CEILING)| == COPY_CEILING
  {
  }

  /** Under a packet limit of 20 bytes the advertised write length is 1, and a WRITE
      of 1 byte is a packet of 54. */
  lemma SmallLimit(id: uint32, off: uint64)
    ensures Export(FILE, 20).WriteLength() == 1
    ensures Wire.PacketOf(Write(id, TOKEN, off, [0])).Size() > Export(FILE, 20).PacketLimit()
  {
    hide Encode;
    AdvertisedLimits(Export(FILE, 20), map[], id, off, 0, TOKEN, [0]);
  }

  // ---------- a token given twice ----------

  const OPEN := Wire.PacketOf(OpenIt(PATH))

  lemma OpenDecodes()
    ensures OPEN.typ == FXP_OPEN && Decode(OPEN.typ, OPEN.payload) == Some(Got(OpenIt(PATH), []))
  {
    hide Decode, Encode;
    DecodeEncode(OpenIt(PATH));
  }

  lemma OpenGranted(w: World, t: Table, nonce: nat)
    requires !Full(t)
    ensures Granted(Export(FILE, 0), w, t, OpenIt(PATH), nonce)
  {
    hide Clean, Full;
    PathResolves();
    assert Has(FXF_WRITE, FXF_WRITE) && !Has(FXF_WRITE, FXF_EXCL) && !Has(FXF_WRITE, FXF_TRUNC);
    assert !FILE.stat.IsDir();
  }

  lemma OpenIsOpOpen(cfg: Config, w: World, t: Table, nonce: nat)
    ensures Serve(cfg, w, t, OPEN, nonce) == OpOpen(cfg, w, t, OpenIt(PATH), nonce)
  {
    OpenDecodes();
    hide Decode, OpOpen;
  }

  lemma OpenFinished(w: World, t: Table, calls: seq<Call>, nonce: nat)
    ensures var r := FinishOpen(Export(FILE, 0), w, t, 0, PATH, true, calls, nonce);
            && r.w == w.(issued := w.issued + 1) && r.reply == Handle(0, TOKEN)
            && r.t == t[TOKEN := OpenFile(PATH, false, [], 0, Some(w.issued), true, true)]
  {
  }

  /** OPEN in any table that is not full. */
  lemma OpenResult(w: World, t: Table, nonce: nat)
    requires !Full(t)
    ensures var r := OpOpen(Export(FILE, 0), w, t, OpenIt(PATH), nonce);
            && r.w == w.(fs := r.w.fs, issued := w.issued + 1) && r.reply == Handle(0, TOKEN)
            && r.t == t[TOKEN := OpenFile(PATH, false, [], 0, Some(w.issued), true, true)]
  {
    OpenGranted(w, t, nonce);
    PathResolves();
    WritesIt();
    hide Clean, Full, OpOpen, FinishOpen, Created, WantsWrite, Ready, LetsOpen, Letters, Ascii;
    var cfg, m := Export(FILE, 0), OpenIt(PATH);
    var calls := OpenFinishes(cfg, w, t, m, nonce);
    OpenFinished(w.(fs := Created(cfg, w, m, PATH, nonce)), t, calls, nonce);
  }

  lemma WritesIt()
    ensures WantsWrite(OpenIt(PATH).pflags)
  {
    assert Has(FXF_WRITE, FXF_WRITE);
  }

  lemma OpenStores(w: World, t: Table, nonce: nat)
    requires !Full(t)
    ensures Stores(Export(FILE, 0), w, t, OPEN, nonce)
  {
    OpenDecodes();
    OpenGranted(w, t, nonce);
    hide Decode, Clean, Full, Granted, Letters, Ascii, Encode;
  }

  /** Two OPENs given the same token: whatever order closeAll takes, the first file
      stays open. */
  lemma TokenTwice() returns (w': World)
    ensures var cfg, w, ps := Export(FILE, 0), FreshWorld([]), [OPEN, OPEN];
            var tr := ServeAll(cfg, w, map[], ps);
            Life(w, [map[]]) && ClosesAll(tr.w, tr.t, w') && !AllClosedOnce(w')
  {
    hide Serve;
    var cfg, w, ps := Export(FILE, 0), FreshWorld([]), [OPEN, OPEN];
    OpenIsOpOpen(cfg, w, map[], 0);
    OpenResult(w, map[], 0);
    var r := Serve(cfg, w, map[], OPEN, 0);
    OpenStores(r.w, r.t, 1);
    StartsEmpty([]);
    hide Serve, OpOpen, Stores, Full, Letters, Ascii, Encode, Life, ClosesAll, AllClosedOnce;
    assert ps[..1] == [OPEN] && ps[..0] == [] && [OPEN][..0] == [];
    assert ServeAll(cfg, w, map[], ps[..1]).t == r.t && ServeAll(cfg, w, map[], ps[..1]).w == r.w;
    assert StoresOver(cfg, r.w, r.t, ps[1], 1);
    var tr := ServeAll(cfg, w, map[], ps);
    RunBelow(cfg, w, ps);
    var order := OrderExists(tr.t);
    w' := Closing(tr.w, order);
    ClosedInOrder(tr.w, tr.t, order);
    Conservation(cfg, w, ps, w');
  }

  lemma StartsEmpty(content: bytes)
    ensures Life(FreshWorld(content), [map[]])
  {
  }

  lemma ClosedInOrder(w: World, t: Table, order: seq<nat>)
    requires Once(order) && forall f: nat :: f in order <==> exists tok :: HeldFile(t, tok) == Some(f)
    ensures ClosesAll(w, t, Closing(w, order))
  {
    assert (w.closes + order)[|w.closes|..] == order;
  }

  // ---------- order that shows ----------

  lemma ExportOpens(content: bytes)
    ensures OpensInPlace(Export(FILE, 0), FreshWorld(content), PATH, TOKEN)
  {
    hide Clean;
    PathResolves();
    assert !FILE.stat.IsDir();
  }

  /** A 2-byte file, a READ of 4 bytes at 0 and a WRITE of 1 byte at 4: some run
      answers them as no one-at-a-time server would. */
  lemma CrossedStream() returns (steps: seq<Step>)
    ensures var cfg, w, ps := Export(FILE, 0), FreshWorld([1, 2]), ThreePackets(PATH, TOKEN, 0, 4, 4, [9]);
            TakesAll(cfg, w, ps, steps) && After(cfg, Start(w, 1), steps).out != [ServeAll(cfg, w, map[], ps).replies]
  {
    hide After, TakesAll, ServeAll, ThreePackets, OpensInPlace;
    ExportOpens([1, 2]);
    steps := CrossingShows(Export(FILE, 0), FreshWorld([1, 2]), PATH, TOKEN, 0, 4, 4, [9]);
  }

  // ---------- closing beside a job ----------

  /** A barrier served and its reply sent, with no job in the driver. */
  lemma ServesAlone(cfg: Config, st0: State, steps: seq<Step>, s: nat, p: Packet) returns (steps': seq<Step>)
    requires LegalRun(cfg, st0, steps)
    requires var st := After(cfg, st0, steps);
             && s < |st.ts| && s < |st.out| && st.ends == [] && !Prepare(cfg, st.ts[s], p).Run?
             && forall i :: 0 <= i < |st.log| ==> st.log[i].sent && st.log[i].work.Answered?
    ensures LegalRun(cfg, st0, steps')
    ensures var st, st' := After(cfg, st0, steps), After(cfg, st0, steps');
            var r := Serve(cfg, st.w, st.ts[s], p, |st.log|);
            && st'.w == r.w && st'.ts == st.ts[s := r.t] && |st'.out| == |st.out| && st'.ends == []
            && st'.log == st.log + [Entry(s, p, Answered(r.reply), true)]
  {
    hide After, LegalRun, QuietRun, Quiet, Serve, Prepare;
    Extends(cfg, st0, steps, Alone(s, p));
    steps' := steps + [Alone(s, p)];
    Extends(cfg, st0, steps', Send(|After(cfg, st0, steps).log|));
    steps' := steps' + [Send(|After(cfg, st0, steps).log|)];
  }

  /** OPEN in a session without handles. */
  lemma OpensIn(st0: State, steps: seq<Step>, s: nat) returns (steps': seq<Step>)
    requires LegalRun(Export(FILE, 0), st0, steps)
    requires var st := After(Export(FILE, 0), st0, steps);
             && s < |st.ts| && s < |st.out| && st.ends == [] && st.ts[s] == map[]
             && forall i :: 0 <= i < |st.log| ==> st.log[i].sent && st.log[i].work.Answered?
    ensures LegalRun(Export(FILE, 0), st0, steps')
    ensures var st, st' := After(Export(FILE, 0), st0, steps), After(Export(FILE, 0), st0, steps');
            && st'.w == st.w.(fs := st'.w.fs, issued := st.w.issued + 1) && |st'.out| == |st.out| && st'.ends == []
            && st'.ts == st.ts[s := map[TOKEN := OpenFile(PATH, false, [], 0, Some(st.w.issued), true, true)]]
            && |st'.log| == |st.log| + 1 && st'.log[..|st.log|] == st.log
            && st'.log[|st.log|].session == s && st'.log[|st.log|].sent && st'.log[|st.log|].work.Answered?
  {
    hide Serve, Legal;
    var cfg := Export(FILE, 0);
    assert !Prepare(cfg, map[], OPEN).Run?;
    hide After, LegalRun, Serve, OpOpen, Prepare, Letters, Ascii, Encode, Wire.PacketOf;
    var st := After(cfg, st0, steps);
    OpenIsOpOpen(cfg, st.w, map[], |st.log|);
    OpenResult(st.w, map[], |st.log|);
    steps' := ServesAlone(cfg, st0, steps, s, OPEN);
  }

  /** Two sessions with the same file open. */
  lemma TwoOpen() returns (steps: seq<Step>)
    ensures LegalRun(Export(FILE, 0), Start(FreshWorld([]), 2), steps)
    ensures var st := After(Export(FILE, 0), Start(FreshWorld([]), 2), steps);
            && |st.ts| == |st.out| == 2 && st.ends == [] && |st.log| == 2 && st.w.closes == []
            && (forall i :: 0 <= i < 2 ==> st.log[i].session == i && st.log[i].sent && st.log[i].work.Answered?)
            && st.ts[0] == map[TOKEN := OpenFile(PATH, false, [], 0, Some(0), true, true)]
            && st.ts[1] == map[TOKEN := OpenFile(PATH, false, [], 0, Some(1), true, true)]
  {
    hide *;
    var cfg, st0 := Export(FILE, 0), Start(FreshWorld([]), 2);
    TwoStart(cfg);
    var one := OpensIn(st0, [], 0);
    var first := After(cfg, st0, one);
    steps := OpensIn(st0, one, 1);
    var st := After(cfg, st0, steps);
    assert st.log[..1] == first.log;
    assert st.log[0] == st.log[..1][0];
  }

  lemma TwoStart(cfg: Config)
    ensures var st := Start(FreshWorld([]), 2);
            && LegalRun(cfg, st, []) && After(cfg, st, []) == st
            && |st.ts| == |st.out| == 2 && st.ts[0] == st.ts[1] == map[] && st.log == [] && st.ends == []
            && st.w.issued == 0 && st.w.closes == []
  {
    hide Legal;
  }

  /** A job taken and let into an idle driver. */
  lemma EntersIdle(cfg: Config, st0: State, steps: seq<Step>, s: nat, p: Packet) returns (steps': seq<Step>)
    requires LegalRun(cfg, st0, steps)
    requires var st := After(cfg, st0, steps);
             && s < |st.ts| && st.ends == [] && Prepare(cfg, st.ts[s], p).Run?
             && forall i :: 0 <= i < |st.log| ==> st.log[i].sent && st.log[i].work.Answered?
    ensures LegalRun(cfg, st0, steps')
    ensures var st, st' := After(cfg, st0, steps), After(cfg, st0, steps');
            && st'.w == st.w && st'.ts == st.ts && st'.ends == []
            && st'.log == st.log + [Entry(s, p, InFlight(Prepare(cfg, st.ts[s], p).job, Running), false)]
  {
    hide After, LegalRun, QuietRun, Quiet, Serve, Prepare;
    var n := |After(cfg, st0, steps).log|;
    Extends(cfg, st0, steps, Arrive(s, p));
    steps' := steps + [Arrive(s, p)];
    Extends(cfg, st0, steps', Enter(n));
    steps' := steps' + [Enter(n)];
  }

  /** The only file of a one-handle table, closed. */
  lemma OneFileCloses(w: World, tok: bytes, h: OpenFile, f: nat)
    requires h.file == Some(f)
    ensures ClosesAll(w, map[tok := h], Closing(w, [f]))
  {
    assert HeldFile(map[tok := h], tok) == Some(f);
    ClosedInOrder(w, map[tok := h], [f]);
  }

  /** One ends, and closes its file, while the other's READ is in the driver: the
      close at the end of a session takes no lock. */
  lemma CloseBesideJob() returns (steps: seq<Step>)
    ensures var cfg, st0 := Export(FILE, 0), Start(FreshWorld([]), 2);
            var st := After(cfg, st0, steps);
            && LegalRun(cfg, st0, steps) && |st.log| == 3 && st.log[2].InDriver() && st.log[2].session == 1
            && Legal(cfg, st, End(0, [0]))
  {
    hide After, LegalRun, Prepare, Letters, Ascii, Encode, Wire.PacketOf, ClosesAll, FreshWorld, Start, Serve;
    var cfg, st0, p := Export(FILE, 0), Start(FreshWorld([]), 2), Wire.PacketOf(Read(1, TOKEN, 0, 1));
    var two := TwoOpen();
    var st := After(cfg, st0, two);
    ReadPrepared(cfg, st.ts[1], 1, TOKEN, 0, 1);
    steps := EntersIdle(cfg, st0, two, 1, p);
    OneFileCloses(After(cfg, st0, steps).w, TOKEN, OpenFile(PATH, false, [], 0, Some(0), true, true), 0);
  }
}

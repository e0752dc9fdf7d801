/** The concurrent server at the grain of the driver: a READ or WRITE moves its
    bytes one at a time, a rewrite of a whole file reads it before it writes it, and
    a request that looks at paths under the shareable lock makes its driver calls
    one at a time. What makes any of them whole is the range rule and the lock. */
module Grain {
  import opened Bytes
  import opened Messages
  import opened Packets
  import opened Content
  import opened DataOps
  import opened Directory
  import opened Server
  import opened Lifecycle
  import opened Independence
  import opened Reordering
  import opened Pool

  // ---------- requests that look at paths ----------

  /** STAT, LSTAT, FSTAT, READLINK, OPENDIR and READDIR, which take the lock as path
      calls do. */
  predicate Looks(p: Packet) { BarrierLock(p.typ) == PathLock }

  /** A READDIR of an open directory that has entries left. */
  predicate Pages(t: Table, p: Packet)
  {
    && p.typ == FXP_READDIR && DecodeHandle(p.typ, p.payload).Got?
    && var m := DecodeHandle(p.typ, p.payload).value;
    m.HandleRequest? && m.handle in t && t[m.handle].dir && t[m.handle].pos < |t[m.handle].entries|
  }

  function Paged(t: Table, p: Packet): OpenFile
    requires Pages(t, p)
  {
    t[DecodeHandle(p.typ, p.payload).value.handle]
  }

  /** A looking request in progress: its packet and the table it found, the files as
      they were at each driver call (for a READDIR, at each entry), and whether it is
      still at it. base is history only: the world at its first call, with every
      WRITE then under way completed. */
  datatype View = View(packet: Packet, t: Table, base: World, seen: seq<Fs>, open: bool)

  /** What became of entry i of a listing, each entry looked at in its own moment. */
  function ItemSeen(cfg: Config, h: OpenFile, nonce: nat, seen: seq<Fs>, i: nat): Option<NameItem>
  {
    if h.pos <= i < h.pos + |seen| then ItemAt(cfg, seen[i - h.pos], h, i, nonce) else None
  }

  function ItemsSeen(cfg: Config, h: OpenFile, nonce: nat, seen: seq<Fs>): nat -> Option<NameItem>
  {
    (i: nat) => ItemSeen(cfg, h, nonce, seen, i)
  }

  datatype Next = More | Over(t: Table, reply: Message)

  /** A driver whose Stat answers of one moment. */
  function StatAt(cfg: Config, fs: Fs): Config
  {
    cfg.(drv := cfg.drv.(stat := (_: Fs, p: bytes, n: nat, i: nat) => cfg.drv.stat(fs, p, n, i)))
  }

  /** What a looking request does once it has seen this much: a READDIR goes on to the
      end of a batch with something to show, OPENDIR to its listing, the others stop. */
  function Onward(cfg: Config, v: View, nonce: nat): Next
    requires v.seen != []
  {
    if Pages(v.t, v.packet) then
      var m, h := DecodeHandle(v.packet.typ, v.packet.payload).value, Paged(v.t, v.packet);
      var end := h.pos + |v.seen|;
      var items := Collect(ItemsSeen(cfg, h, nonce, v.seen), h.pos, end);
      if end < |h.entries| && (|v.seen| % READDIR_BATCH != 0 || items == []) then More
      else Over(v.t[m.handle := h.(pos := end)], if items != [] then Name(m.id, items) else StatusReply(m.id, EOF, []))
    else
      var r := Serve(StatAt(cfg, v.seen[0]), v.base.(fs := v.seen[|v.seen| - 1]), v.t, v.packet, nonce);
      if |r.calls| > |v.seen| then More else Over(r.t, r.reply)
  }

  // ---------- the machine ----------

  /** The server's state, with the files as the bytes moved so far have left them. part
      holds what a job inside the driver has moved: the bytes a READ has read or a
      WRITE has written, or the file a rewrite has read. A looking request stands in the log
      with a reply that is not yet its own. The journal of calls is not kept. */
  datatype Fine = Fine(st: State, part: map<nat, bytes>, views: map<nat, View>)

  const UNKNOWN: Message := StatusReply(0, FAILURE, [])

  function FineStart(w: World, sessions: nat): Fine { Fine(Start(w, sessions), map[], map[]) }

  /** Entry k is a looking request still in progress. */
  predicate InView(f: Fine, k: nat) { k in f.views && f.views[k].open }

  predicate Looking(f: Fine, s: nat)
  {
    exists k :: 0 <= k < |f.st.log| && InView(f, k) && f.st.log[k].session == s
  }

  /** The lock can be had: by jobs inside the driver and by looking requests it is held
      in a way that may be shared, or nobody holds it. */
  predicate Free(cfg: Config, f: Fine, l: Lock)
  {
    LockFree(cfg, f.st, l) && forall k | k in f.views :: InView(f, k) ==> Shares(cfg, l) && Shares(cfg, PathLock)
  }

  /** A WRITE in place that has written some of its bytes and not all. */
  predicate Partly(f: Fine, k: nat)
  {
    && k < |f.st.log| && f.st.log[k].work.InFlight? && f.st.log[k].work.phase.Running?
    && f.st.log[k].work.job.op.WriteOp? && f.st.log[k].work.job.op.positional
    && k in f.part && |f.part[k]| < |f.st.log[k].work.job.op.data|
  }

  /** What is left of it. */
  function RestOf(op: Op, n: nat): Op
    requires op.WriteOp? && n <= |op.data|
  {
    WriteOp(op.path, op.off + n, op.data[n..], true)
  }

  /** What the WRITEs under way have still to do. */
  function Rests(f: Fine): (cs: seq<Core>)
    ensures |cs| == |f.st.log|
  {
    seq(|f.st.log|, k requires 0 <= k < |f.st.log| => RestAt(f, k))
  }

  function RestAt(f: Fine, k: nat): Core
    requires k < |f.st.log|
  {
    if Partly(f, k) then
      var j := f.st.log[k].work.job;
      Pending(j.(op := RestOf(j.op, |f.part[k]|)))
    else Replied(UNKNOWN)
  }

  /** The world with the WRITEs under way completed. */
  function Completed(f: Fine): World { WithFiles(f.st.w, DrainFiles(f.st.w.fs.files, Rests(f))) }

  /** One driver call, one byte, or one step of the server that touches no file. */
  datatype Move = By(step: Step) | Touch(k: nat) | Begin(session: nat, packet: Packet) | Look(k: nat) | Close(k: nat)

  ghost predicate Allowed(cfg: Config, f: Fine, mv: Move)
  {
    match mv
    case By(step) =>
      Legal(cfg, f.st, step) &&
      (match step
       case Arrive(s, _) => !Looking(f, s)
       case Enter(k) => Free(cfg, f, f.st.log[k].work.job.lock)
       case Do(_) => false
       case Leave(_) => true
       case Send(k) => !InView(f, k)
       case Alone(s, p) =>
         Serve(cfg, f.st.w, f.st.ts[s], p, |f.st.log|).calls != [] ==> !Looks(p) && Free(cfg, f, BarrierLock(p.typ))
       case End(s, _) => !Looking(f, s))
    case Touch(k) => k < |f.st.log| && f.st.log[k].work.InFlight? && f.st.log[k].work.phase.Running?
    case Begin(s, p) =>
      && s < |f.st.ts| && !f.st.Ended(s) && f.st.Idle(s) && !Prepare(cfg, f.st.ts[s], p).Run? && Looks(p)
      && Serve(cfg, f.st.w, f.st.ts[s], p, |f.st.log|).calls != [] && Free(cfg, f, PathLock)
    case Look(k) => k < |f.st.log| && InView(f, k) && f.views[k].seen != [] && Onward(cfg, f.views[k], k).More?
    case Close(k) =>
      && k < |f.st.log| && InView(f, k) && f.views[k].seen != [] && Onward(cfg, f.views[k], k).Over?
      && f.st.log[k].session < |f.st.ts|
  }

  /** Job k is through with the files. */
  function Through(f: Fine, k: nat, files: Files, out: Outcome): Fine
    requires k < |f.st.log| && f.st.log[k].work.InFlight?
  {
    f.(st := SetPhase(f.st, k, Acted(out)).(w := WithFiles(f.st.w, files)), part := f.part - {k})
  }

  function Moved(f: Fine, k: nat): bytes { if k in f.part then f.part[k] else [] }

  /** Job k has moved this much, and the files are these. */
  function Moving(f: Fine, k: nat, files: Files, moved: bytes): Fine
  {
    f.(st := f.st.(w := WithFiles(f.st.w, files)), part := f.part[k := moved])
  }

  /** The next byte of job k, or its end. */
  function Touched(f: Fine, k: nat): Fine
    requires k < |f.st.log| && f.st.log[k].work.InFlight?
  {
    var files, op, moved := f.st.w.fs.files, f.st.log[k].work.job.op, Moved(f, k);
    if op.path !in files then Through(f, k, files, Missing)
    else
      var file := files[op.path];
      match op
      case ReadOp(path, off, n) =>
        if |moved| < n && off + |moved| < |file| then Moving(f, k, files, moved + [file[off + |moved|]])
        else Through(f, k, files, if moved == [] then Eof else Chunk(moved))
      case WriteOp(path, off, data, true) =>
        if |moved| + 1 < |data| then
          Moving(f, k, files[path := Splice(file, off + |moved|, [data[|moved|]])], moved + [data[|moved|]])
        else if |moved| <= |data| then
          Through(f, k, files[path := Splice(file, off + |moved|, data[|moved|..])], Written)
        else Through(f, k, files, Written)
      case WriteOp(path, off, data, false) =>
        if k !in f.part then Moving(f, k, files, file)
        else if Accepts(|moved|, off, |data|) then Through(f, k, files[path := Splice(moved, off, data)], Written)
        else Through(f, k, files, Refused)
  }

  function Advance(cfg: Config, f: Fine, mv: Move): Fine
    requires Allowed(cfg, f, mv)
  {
    match mv
    case By(step) => f.(st := Apply(cfg, f.st, step).(calls := []))
    case Touch(k) => Touched(f, k)
    case Begin(s, p) =>
      f.(st := f.st.(log := f.st.log + [Entry(s, p, Answered(UNKNOWN), false)]),
         views := f.views[|f.st.log| := View(p, f.st.ts[s], Completed(f), [f.st.w.fs], true)])
    case Look(k) => f.(views := f.views[k := f.views[k].(seen := f.views[k].seen + [f.st.w.fs])])
    case Close(k) =>
      var over, s := Onward(cfg, f.views[k], k), f.st.log[k].session;
      f.(st := f.st.(log := f.st.log[k := f.st.log[k].(work := Answered(over.reply))], ts := f.st.ts[s := over.t]),
         views := f.views[k := f.views[k].(open := false)])
  }

  // ---------- runs ----------

  ghost function FineAfter(cfg: Config, f: Fine, moves: seq<Move>): Fine
  {
    if moves == [] then f
    else
      var n := |moves| - 1;
      var prev := FineAfter(cfg, f, moves[..n]);
      if Allowed(cfg, prev, moves[n]) then Advance(cfg, prev, moves[n]) else prev
  }

  ghost predicate FineRun(cfg: Config, f: Fine, moves: seq<Move>)
  {
    forall n :: 0 <= n < |moves| ==> Allowed(cfg, FineAfter(cfg, f, moves[..n]), moves[n])
  }

  lemma FineLast(cfg: Config, f: Fine, moves: seq<Move>)
    requires moves != [] && FineRun(cfg, f, moves)
    ensures var n := |moves| - 1;
            var prev := FineAfter(cfg, f, moves[..n]);
            && FineRun(cfg, f, moves[..n]) && Allowed(cfg, prev, moves[n])
            && FineAfter(cfg, f, moves) == Advance(cfg, prev, moves[n])
  {
    hide Allowed, Advance;
    var n := |moves| - 1;
    assert forall i :: 0 <= i < n ==> moves[..n][..i] == moves[..i] && moves[..n][i] == moves[i];
  }

  lemma FineExtends(cfg: Config, f: Fine, moves: seq<Move>, mv: Move)
    requires FineRun(cfg, f, moves) && Allowed(cfg, FineAfter(cfg, f, moves), mv)
    ensures FineRun(cfg, f, moves + [mv])
    ensures FineAfter(cfg, f, moves + [mv]) == Advance(cfg, FineAfter(cfg, f, moves), mv)
  {
    hide Allowed, Advance;
    var moves' := moves + [mv];
    assert moves'[..|moves|] == moves;
    assert forall n :: 0 <= n < |moves| ==> moves'[..n] == moves[..n] && moves'[n] == moves[n];
  }

  lemma FineNone(cfg: Config, f: Fine)
    ensures FineAfter(cfg, f, []) == f && FineRun(cfg, f, [])
  {
    hide Serve, Prepare, Onward, Legal, Advance;
  }
}

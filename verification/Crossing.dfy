/** The one thing the range rule does not order, at its smallest: a READ that
    reaches past the end of its file, beside a WRITE that moves that end without
    touching the READ's range. Every such pair, on every driver that writes in
    place, has a run of the concurrent server whose replies no one-at-a-time server
    would give. */
module Crossing {
  import opened Bytes
  import opened Codec
  import opened Messages
  import opened Packets
  import opened Content
  import opened DataOps
  import opened Server
  import opened Safety
  import opened Pool
  import opened Runs
  import opened Client
  import opened Schedules
  import Paths
  import Wire

  // ---------- what READ and WRITE packets become ----------

  /** A READ becomes a job exactly when its handle names an open file and it asks
      for something: a job on the bytes asked for, as far as one READ goes, under
      the shared lock if the driver opened the file. Any other is answered at once. */
  lemma ReadPrepared(cfg: Config, t: Table, id: uint32, tok: bytes, off: uint64, n: uint32)
    requires |tok| <= DEFAULT_LIMIT
    ensures var r := Prepare(cfg, t, Wire.PacketOf(Read(id, tok, off, n)));
            && (r.Run? <==> tok in t && !t[tok].dir && n > 0) && !r.Barrier?
            && (r.Run? ==> r.job == Job(id, ReadOp(t[tok].path, off, Min(n, cfg.ReadLength())), t[tok].file,
                                        if t[tok].file.Some? then Shared else PathLock))
  {
    hide DecodeRead, Encode;
    DecodeEncode(Read(id, tok, off, n));
  }

  /** A WRITE becomes a job exactly when the export and its handle may be written
      and the offset can be held: a positional one under the shared lock if the file
      writes in place, a rewrite of the whole file under the exclusive lock if not.
      Any other is answered at once. */
  lemma WritePrepared(cfg: Config, t: Table, id: uint32, tok: bytes, off: uint64, data: bytes)
    requires |tok| <= DEFAULT_LIMIT && |data| <= DEFAULT_LIMIT
    ensures var r := Prepare(cfg, t, Wire.PacketOf(Write(id, tok, off, data)));
            && (r.Run? <==> tok in t && !t[tok].dir && !cfg.ro && t[tok].write && off <= MAX_INT64) && !r.Barrier?
            && (r.Run? ==> r.job == Job(id, WriteOp(t[tok].path, off, data, t[tok].writable),
                                        if t[tok].writable then t[tok].file else None,
                                        if t[tok].writable then Shared else Exclusive))
  {
    hide DecodeWrite, Encode;
    DecodeEncode(Write(id, tok, off, data));
  }

  // ---------- open, read, write ----------

  /** A file path that the export's driver opens for writing in place. */
  predicate OpensInPlace(cfg: Config, w: World, path: bytes, tok: bytes)
  {
    && !cfg.ro && cfg.drv.opener && path in w.fs.files && Paths.Clean(path) == Some(path) && |path| <= DEFAULT_LIMIT
    && cfg.drv.stat(w.fs, path, 0, 0).Found? && !cfg.drv.stat(w.fs, path, 0, 0).stat.IsDir()
    && cfg.drv.openFile(w.fs, path, 0) == Opened(true)
    && cfg.drv.mint(0) == Some(tok) && |tok| <= DEFAULT_LIMIT
  }

  function OpenIt(path: bytes): Message { Open(0, path, FXF_WRITE, Attributes(0, 0, 0, 0, 0, 0, 0, [])) }

  lemma OpenServed(cfg: Config, w: World, path: bytes, tok: bytes)
    requires OpensInPlace(cfg, w, path, tok)
    ensures var r := Serve(cfg, w, map[], Wire.PacketOf(OpenIt(path)), 0);
            r.w.fs == w.fs && r.t == map[tok := OpenFile(path, false, [], 0, Some(w.issued), true, true)]
  {
    hide DecodeOpen, Encode;
    DecodeEncode(OpenIt(path));
    assert Has(FXF_WRITE, FXF_WRITE) && !Has(FXF_WRITE, FXF_EXCL) && !Has(FXF_WRITE, FXF_TRUNC);
  }

  function ThreePackets(path: bytes, tok: bytes, off: uint64, n: uint32, woff: uint64, data: bytes): (ps: seq<Packet>)
    ensures |ps| == 3
  {
    [Wire.PacketOf(OpenIt(path)), Wire.PacketOf(Read(1, tok, off, n)), Wire.PacketOf(Write(2, tok, woff, data))]
  }

  lemma ServedFirst(cfg: Config, w: World, ps: seq<Packet>)
    requires |ps| >= 2 && Prepare(cfg, Serve(cfg, w, map[], ps[0], 0).t, ps[1]).Run?
    ensures var r := Serve(cfg, w, map[], ps[0], 0);
            && ServeAll(cfg, w, map[], ps[..1]).w == r.w && ServeAll(cfg, w, map[], ps[..1]).t == r.t
            && ServeAll(cfg, w, map[], ps[..2]).t == r.t
  {
    hide Serve, Prepare;
    var r := Serve(cfg, w, map[], ps[0], 0);
    assert ps[..1][..0] == [] && ps[..1][0] == ps[0];
    assert ps[..2][..1] == ps[..1] && ps[..2][1] == ps[1];
    JobKeepsTable(cfg, r.w, r.t, ps[1], 1);
  }

  /** The READ and the WRITE cross. */
  lemma ThreeCross(cfg: Config, w: World, path: bytes, tok: bytes, off: uint64, n: uint32, woff: uint64, data: bytes)
    requires OpensInPlace(cfg, w, path, tok)
    requires 0 < n <= cfg.ReadLength() && woff <= MAX_INT64 && |data| <= DEFAULT_LIMIT
    requires Disjoint(off, off + n, woff, woff + |data|)
    requires !Stable(off, off + n, woff + |data|, |w.fs.files[path]|)
    ensures Crosses(cfg, w, ThreePackets(path, tok, off, n, woff, data), 1, 2)
  {
    hide Serve, Prepare, ServeAll, Wire.PacketOf;
    OpenServed(cfg, w, path, tok);
    var ps := ThreePackets(path, tok, off, n, woff, data);
    var t := map[tok := OpenFile(path, false, [], 0, Some(w.issued), true, true)];
    ReadPrepared(cfg, t, 1, tok, off, n);
    WritePrepared(cfg, t, 2, tok, woff, data);
    ServedFirst(cfg, w, ps);
    assert PreparedAt(cfg, w, ps, 1).Run? && PreparedAt(cfg, w, ps, 2).Run?;
    var ops := Ops(cfg, w, ps, 1, 2);
    assert ops[0] == ReadOp(path, off, n) && ops[1] == WriteOp(path, woff, data, true);
    assert !Waits(ops, 0, 1);
    var files := ServeAll(cfg, w, map[], ps[..1]).w.fs.files;
    assert RunNeeded(files, ops, 1, 1) == files;
  }

  /** For every file open in place, every READ and every WRITE with no byte in
      common that meet across its end, the client can be sent a stream of replies
      that differs from the one-at-a-time server's. */
  lemma CrossingShows(cfg: Config, w: World, path: bytes, tok: bytes, off: uint64, n: uint32, woff: uint64, data: bytes)
    returns (steps: seq<Step>)
    requires OpensInPlace(cfg, w, path, tok)
    requires 0 < n <= cfg.ReadLength() && woff <= MAX_INT64 && |data| <= DEFAULT_LIMIT
    requires Disjoint(off, off + n, woff, woff + |data|)
    requires !Stable(off, off + n, woff + |data|, |w.fs.files[path]|)
    ensures var ps := ThreePackets(path, tok, off, n, woff, data);
            TakesAll(cfg, w, ps, steps) && After(cfg, Start(w, 1), steps).out != [ServeAll(cfg, w, map[], ps).replies]
  {
    hide After, ServeAll, TakesAll, ThreePackets, Crosses, Start, QuietRun;
    var ps := ThreePackets(path, tok, off, n, woff, data);
    ThreeCross(cfg, w, path, tok, off, n, woff, data);
    steps := CrossedRun(cfg, w, ps, 1, 2);
    RunSerialIffQuiet(cfg, w, ps, steps);
  }
}

/** How OPEN and OPENDIR refuse: what is said when no handle is given, and what the
    flags and limits are in numbers. What they give is in Opening and Lifecycle. */
module Granting {
  import opened Bytes
  import opened Codec
  import opened Messages
  import opened Packets
  import opened Paths
  import opened Server
  import opened Opening
  import opened Transfers
  import opened Changing
  import Wire

  /** The flags WRITE, APPEND, CREAT, TRUNC and EXCL are bits 1 to 5; any of them means
      writing. */
  predicate ForWriting(pflags: uint32)
  {
    || pflags / 2 % 2 == 1 || pflags / 4 % 2 == 1 || pflags / 8 % 2 == 1 || pflags / 16 % 2 == 1
    || pflags / 32 % 2 == 1
  }

  predicate Creating(pflags: uint32) { pflags / 8 % 2 == 1 }

  predicate Emptying(pflags: uint32) { pflags / 16 % 2 == 1 }

  predicate Exclusively(pflags: uint32) { pflags / 32 % 2 == 1 }

  /** The type bits 12 to 15 of a mode are those of a directory. */
  predicate Directory(answer: StatAnswer) { answer.Found? && answer.stat.mode / 4096 % 16 == 4 }

  /** The words of Opening in numbers: what the flags mean, the permissions a file is
      created with, and how many handles are too many. */
  lemma FlagsMean(pflags: uint32, a: Attributes, t: Table, answer: StatAnswer)
    ensures WantsWrite(pflags) <==> ForWriting(pflags)
    ensures Has(pflags, FXF_CREAT) <==> Creating(pflags)
    ensures Has(pflags, FXF_TRUNC) <==> Emptying(pflags)
    ensures Has(pflags, FXF_EXCL) <==> Exclusively(pflags)
    ensures Perm(a, 420) == Permitted(a, 420) && (Full(t) <==> |t| >= 1024)
    ensures answer.Found? ==> (answer.stat.IsDir() <==> Directory(answer))
  {
  }

  /** What is said of a file that is not there: the driver's error, or, of a driver that
      says neither yes nor no, nothing bad at all. */
  function Absence(id: uint32, answer: StatAnswer): Message
  {
    if answer.StatFailed? then Blames(id, answer.err, 2) else Says(id, 0, [])
  }

  /** Why OPEN of a resolved path is refused before anything is changed, if it is. */
  function OpenRefusal(cfg: Config, t: Table, id: uint32, pflags: uint32, answer: StatAnswer): Option<Message>
  {
    if ForWriting(pflags) && cfg.ro then Some(Says(id, 3, Ascii("export is read-only")))
    else if |t| >= 1024 then Some(Says(id, 4, Ascii("too many open handles")))
    else if Directory(answer) then Some(Says(id, 4, Ascii("is a directory")))
    else if answer.Found? && Exclusively(pflags) then Some(Says(id, 4, Ascii("file already exists")))
    else if !answer.Found? && !Creating(pflags) then Some(Absence(id, answer))
    else None
  }

  /** What is said when a file that is there gets no handle: that the driver does not
      open it, or does not close again what cannot be written in place and should be, or
      that no token can be made. */
  function OpenFailure(cfg: Config, fs: Fs, id: uint32, path: bytes, write: bool, fid: nat, k: nat): Message
  {
    if cfg.drv.opener then
      match cfg.drv.openFile(fs, path, k)
      case OpenFailed(err) => Blames(id, err, 4)
      case NoFile => Says(id, 4, Ascii("driver returned no file"))
      case Opened(writable) =>
        var err := cfg.drv.close(fid, k);
        if write && !writable && err.Some? then Blames(id, err.value, 4)
        else Says(id, 4, Ascii("random source failed"))
    else Says(id, 4, Ascii("random source failed"))
  }

  /** What OPEN says and asks when it is refused. When it is not, it first asks about the
      file, and then creates or empties it if need be, with the permissions given or
      0644; and if it gives no handle after all, it says why. */
  predicate Opened(cfg: Config, w: World, t: Table, id: uint32, p: bytes, pflags: uint32, a: Attributes, k: nat, r: Res)
  {
    if Clean(p).None? then Only(w, t, Says(id, 4, Ascii("invalid path")), r)
    else
      var path := Clean(p).value;
      var answer, create := cfg.drv.stat(w.fs, path, k, 0), CWriteFile(path, Permitted(a, 420));
      var refusal := OpenRefusal(cfg, t, id, pflags, answer);
      if refusal.Some? then
        r == Res(w, t, refusal.value, if (ForWriting(pflags) && cfg.ro) || |t| >= 1024 then [] else [CStat(path)])
      else if !answer.Found? || (ForWriting(pflags) && Emptying(pflags)) then
        && (cfg.drv.change(w.fs, create, k).1.None? && !r.reply.Handle? ==>
              r.reply == OpenFailure(cfg, r.w.fs, id, path, ForWriting(pflags), w.issued, k))
        && [CStat(path), create] <= r.calls && r.w.fs == cfg.drv.change(w.fs, create, k).0
        && (cfg.drv.change(w.fs, create, k).1.Some? ==>
              && r.calls == [CStat(path), create] && r.t == t && r.w == w.(fs := r.w.fs)
              && r.reply == Blames(id, cfg.drv.change(w.fs, create, k).1.value, 4))
      else
        && [CStat(path)] <= r.calls && r.w.fs == w.fs && create !in r.calls
        && (!r.reply.Handle? ==> r.reply == OpenFailure(cfg, w.fs, id, path, ForWriting(pflags), w.issued, k))
  }

  lemma RegisterAsks(cfg: Config, w: World, t: Table, id: uint32, h: OpenFile, calls: seq<Call>, k: nat)
    ensures var r := Register(cfg, w, t, id, h, calls, k);
            && calls <= r.calls && r.w.fs == w.fs && (forall c: Call :: c in r.calls && c.CWriteFile? ==> c in calls)
            && (!r.reply.Handle? ==> r.reply == Says(id, 4, Ascii("random source failed")))
  {
    hide Ascii;
  }

  lemma FinishAsks(cfg: Config, w: World, t: Table, id: uint32, path: bytes, write: bool, calls: seq<Call>, k: nat)
    ensures var r := FinishOpen(cfg, w, t, id, path, write, calls, k);
            calls <= r.calls && r.w.fs == w.fs && forall c: Call :: c in r.calls && c.CWriteFile? ==> c in calls
    ensures var r := FinishOpen(cfg, w, t, id, path, write, calls, k);
            !r.reply.Handle? ==> r.reply == OpenFailure(cfg, w.fs, id, path, write, w.issued, k)
  {
    hide Ascii, StatusFor, Register;
    var h, fid, asked := OpenFile(path, false, [], 0, None, false, write), w.issued, calls + [COpenFile(path)];
    var w1 := w.(issued := fid + 1);
    RegisterAsks(cfg, w, t, id, h, calls, k);
    RegisterAsks(cfg, w1, t, id, h.(file := Some(fid), writable := write), asked, k);
    RegisterAsks(cfg, CloseFile(w1, fid), t, id, h, asked + [CClose(fid)], k);
  }

  lemma OpOpenSays(cfg: Config, w: World, t: Table, m: Message, k: nat)
    requires m.Open?
    ensures Opened(cfg, w, t, m.id, m.path, m.pflags, m.attrs, k, OpOpen(cfg, w, t, m, k))
  {
    hide Ascii, Clean, FinishOpen, StatusFor, WantsWrite, Has, Full, ForWriting, Creating, Emptying, Exclusively,
      Permitted, Perm, Directory, OpenFailure;
    if Clean(m.path).Some? {
      var path := Clean(m.path).value;
      FlagsMean(m.pflags, m.attrs, t, cfg.drv.stat(w.fs, path, k, 0));
      WritingFlags(m.pflags);
      var stat, create := CStat(path), CWriteFile(path, Permitted(m.attrs, 420));
      var w1 := w.(fs := cfg.drv.change(w.fs, create, k).0);
      FinishAsks(cfg, w, t, m.id, path, false, [stat], k);
      FinishAsks(cfg, w, t, m.id, path, true, [stat], k);
      FinishAsks(cfg, w1, t, m.id, path, true, [stat] + [create], k);
      assert [stat] + [create] == [stat, create];
      NotStat(cfg, w, path, k);
    }
  }

  lemma WritingFlags(pflags: uint32)
    ensures Creating(pflags) || Emptying(pflags) || Exclusively(pflags) ==> ForWriting(pflags)
  {
  }

  lemma NotStat(cfg: Config, w: World, path: bytes, k: nat)
    ensures Directory(cfg.drv.stat(w.fs, path, k, 0)) ==> cfg.drv.stat(w.fs, path, k, 0).Found?
  {
  }

  /** OPEN of every packet. */
  lemma OpenSays(cfg: Config, w: World, t: Table, id: uint32, p: bytes, pflags: uint32, a: Attributes, k: nat)
    requires |p| <= 0x4_0000 && a.Fits()
    ensures Opened(cfg, w, t, id, p, pflags, a, k, Serve(cfg, w, t, Wire.PacketOf(Open(id, p, pflags, a)), k))
  {
    hide Serve, Opened, OpOpen, Wire.PacketOf;
    Performs(cfg, w, t, Open(id, p, pflags, a), k);
    OpOpenSays(cfg, w, t, Open(id, p, pflags, a.Zeroed()), k);
    SamePermissions(cfg, w, t, id, p, pflags, a, k, OpOpen(cfg, w, t, Open(id, p, pflags, a.Zeroed()), k));
  }

  lemma SamePermissions(cfg: Config, w: World, t: Table, id: uint32, p: bytes, pflags: uint32, a: Attributes, k: nat,
                        r: Res)
    ensures Opened(cfg, w, t, id, p, pflags, a, k, r) <==> Opened(cfg, w, t, id, p, pflags, a.Zeroed(), k, r)
  {
    hide Clean, OpenRefusal, Ascii, StatusFor, OpenFailure;
    assert Permitted(a, 420) == Permitted(a.Zeroed(), 420);
  }

  /** Why OPENDIR gives no handle, if a token can be made. */
  function OpendirRefusal(cfg: Config, w: World, t: Table, id: uint32, path: bytes, k: nat): Option<Message>
  {
    var answer := cfg.drv.stat(w.fs, path, k, 0);
    if |t| >= 1024 then Some(Says(id, 4, Ascii("too many open handles")))
    else if answer.StatFailed? then Some(Blames(id, answer.err, 2))
    else if answer.NoStat? then Some(Says(id, 4, Ascii("driver returned no stat")))
    else if !Directory(answer) then Some(Says(id, 4, Ascii("not a directory")))
    else match cfg.drv.listDir(w.fs, path, k)
      case No(err) => Some(Blames(id, err, 4))
      case Yes(_) => None
  }

  predicate DirOpened(cfg: Config, w: World, t: Table, id: uint32, p: bytes, k: nat, r: Res)
  {
    if Clean(p).None? then Only(w, t, Says(id, 4, Ascii("invalid path")), r)
    else
      var path := Clean(p).value;
      var refusal, tok := OpendirRefusal(cfg, w, t, id, path, k), cfg.drv.mint(k);
      var listed := if Directory(cfg.drv.stat(w.fs, path, k, 0)) then [CListDir(path)] else [];
      && r.w == w && r.calls == (if |t| >= 1024 then [] else [CStat(path)] + listed)
      && if refusal.Some? then r.t == t && r.reply == refusal.value
         else if tok.None? then r.t == t && r.reply == Says(id, 4, Ascii("random source failed"))
         else
           && cfg.drv.listDir(w.fs, path, k).Yes? && r.reply == Handle(id, tok.value)
           && r.t == t[tok.value :=
                OpenFile(path, true, cfg.drv.listDir(w.fs, path, k).value, 0, None, false, false)]
  }

  lemma Registers(cfg: Config, w: World, t: Table, id: uint32, h: OpenFile, calls: seq<Call>, k: nat)
    requires h.file.None?
    ensures Register(cfg, w, t, id, h, calls, k) ==
            match cfg.drv.mint(k)
            case Some(tok) => Res(w, t[tok := h], Handle(id, tok), calls)
            case None => Res(w, t, Says(id, 4, Ascii("random source failed")), calls)
  {
    hide Ascii;
  }

  lemma OpOpendirSays(cfg: Config, w: World, t: Table, id: uint32, p: bytes, k: nat)
    ensures DirOpened(cfg, w, t, id, p, k, OpOpendir(cfg, w, t, id, p, k))
  {
    hide Ascii, Clean, StatusFor, Register;
    if Clean(p).Some? {
      var path := Clean(p).value;
      var listing := cfg.drv.listDir(w.fs, path, k);
      if listing.Yes? {
        Registers(cfg, w, t, id, OpenFile(path, true, listing.value, 0, None, false, false),
                  [CStat(path), CListDir(path)], k);
      }
    }
  }

  /** OPENDIR gives a snapshot of the listing that the driver makes of a directory, or
      says why not. */
  lemma OpendirSays(cfg: Config, w: World, t: Table, id: uint32, p: bytes, k: nat)
    requires |p| <= 0x4_0000
    ensures DirOpened(cfg, w, t, id, p, k, Serve(cfg, w, t, Wire.PacketOf(PathRequest(11, id, p)), k))
  {
    hide Serve, DirOpened, OpOpendir, Wire.PacketOf, Ascii;
    Performs(cfg, w, t, PathRequest(11, id, p), k);
    OpOpendirSays(cfg, w, t, id, p, k);
  }
}

/** What the requests that change the export ask of the driver and say: RENAME, REMOVE,
    RMDIR, MKDIR, SYMLINK, SETSTAT and FSETSTAT, from the packet to the driver's calls
    and the status, told with the numbers of draft-ietf-secsh-filexfer-02. */
module Changing {
  import opened Bytes
  import opened Codec
  import opened Messages
  import opened Packets
  import opened Paths
  import opened Server
  import opened Transfers
  import Wire

  /** Nothing is done and m is said. */
  predicate Only(w: World, t: Table, m: Message, r: Res) { r == Res(w, t, m, []) }

  /** One driver call is made, its filesystem is the export's, and the reply is success
      exactly when it carries no error. */
  predicate OneCall(cfg: Config, w: World, t: Table, id: uint32, c: Call, fallback: uint32, k: nat, r: Res)
  {
    var (fs, err) := cfg.drv.change(w.fs, c, k);
    && r.calls == [c] && r.t == t && r.w == w.(fs := fs) && r.reply.Status? && (r.reply.code == 0 <==> err.None?)
    && r.reply == if err.None? then Says(id, 0, []) else Blames(id, err.value, fallback)
  }

  /** A request on one resolved path: refused on a read-only export and for a path that
      does not resolve, and otherwise one call. */
  predicate ChangesOne(cfg: Config, w: World, t: Table, id: uint32, path: Option<bytes>, c: bytes -> Call,
                       fallback: uint32, k: nat, r: Res)
  {
    if cfg.ro then Only(w, t, Says(id, 3, Ascii("export is read-only")), r)
    else if path.None? then Only(w, t, Says(id, 4, Ascii("invalid path")), r)
    else OneCall(cfg, w, t, id, c(path.value), fallback, k, r)
  }

  lemma OneChange(cfg: Config, w: World, t: Table, id: uint32, c: Call, fallback: uint32, k: nat)
    requires fallback != 0
    ensures OneCall(cfg, w, t, id, c, fallback, k, ChangeAll(cfg, w, t, id, [c], fallback, k))
  {
    hide StatusFor;
    var (fs, err) := cfg.drv.change(w.fs, c, k);
    if err.None? {
      assert [c][1..] == [];
      assert Changes(cfg, fs, [c][1..], k) == (fs, None, []);
      assert Changes(cfg, w.fs, [c], k) == (fs, None, [c] + []);
      assert [c] + [] == [c];
    }
  }

  // ---------- RENAME, REMOVE, RMDIR, SYMLINK ----------

  predicate Renamed(cfg: Config, w: World, t: Table, id: uint32, p: bytes, q: bytes, k: nat, r: Res)
  {
    ChangesOne(cfg, w, t, id, if Clean(p).None? then None else Clean(q),
               (to: bytes) => CRename(if Clean(p).Some? then Clean(p).value else [], to), 4, k, r)
  }

  /** RENAME moves what the first path resolves to to what the second resolves to. */
  lemma RenameAnswered(cfg: Config, w: World, t: Table, id: uint32, p: bytes, q: bytes, k: nat)
    requires |p| <= 0x4_0000 && |q| <= 0x4_0000
    ensures Renamed(cfg, w, t, id, p, q, k, Serve(cfg, w, t, Wire.PacketOf(Rename(id, p, q)), k))
  {
    hide Serve, Clean, ChangeAll, OneCall, Ascii, Wire.PacketOf;
    Performs(cfg, w, t, Rename(id, p, q), k);
    if Clean(p).Some? && Clean(q).Some? {
      OneChange(cfg, w, t, id, CRename(Clean(p).value, Clean(q).value), 4, k);
    }
  }

  /** REMOVE deletes a file. */
  lemma RemoveAnswered(cfg: Config, w: World, t: Table, id: uint32, p: bytes, k: nat)
    requires |p| <= 0x4_0000
    ensures ChangesOne(cfg, w, t, id, Clean(p), path => CDeleteFile(path), 2, k,
                       Serve(cfg, w, t, Wire.PacketOf(PathRequest(13, id, p)), k))
  {
    hide Serve, Clean, ChangeAll, OneCall, Ascii, Wire.PacketOf;
    Performs(cfg, w, t, PathRequest(13, id, p), k);
    if Clean(p).Some? {
      OneChange(cfg, w, t, id, CDeleteFile(Clean(p).value), 2, k);
    }
  }

  /** RMDIR deletes a directory. */
  lemma RmdirAnswered(cfg: Config, w: World, t: Table, id: uint32, p: bytes, k: nat)
    requires |p| <= 0x4_0000
    ensures ChangesOne(cfg, w, t, id, Clean(p), path => CDeleteDir(path), 2, k,
                       Serve(cfg, w, t, Wire.PacketOf(PathRequest(15, id, p)), k))
  {
    hide Serve, Clean, ChangeAll, OneCall, Ascii, Wire.PacketOf;
    Performs(cfg, w, t, PathRequest(15, id, p), k);
    if Clean(p).Some? {
      OneChange(cfg, w, t, id, CDeleteDir(Clean(p).value), 2, k);
    }
  }

  predicate Linked(cfg: Config, w: World, t: Table, id: uint32, target: bytes, p: bytes, k: nat, r: Res)
  {
    if !cfg.ro && Clean(p).Some? && !cfg.drv.symlinker then
      Only(w, t, Says(id, 8, Ascii("driver cannot create symlinks")), r)
    else ChangesOne(cfg, w, t, id, Clean(p), path => CSymlink(target, path), 4, k, r)
  }

  /** SYMLINK makes a link at its second path to its first, which is not resolved. */
  lemma SymlinkAnswered(cfg: Config, w: World, t: Table, id: uint32, target: bytes, p: bytes, k: nat)
    requires |target| <= 0x4_0000 && |p| <= 0x4_0000
    ensures Linked(cfg, w, t, id, target, p, k, Serve(cfg, w, t, Wire.PacketOf(Symlink(id, target, p)), k))
  {
    hide Serve, Clean, ChangeAll, OneCall, Ascii, Wire.PacketOf;
    Performs(cfg, w, t, Symlink(id, target, p), k);
    if Clean(p).Some? {
      OneChange(cfg, w, t, id, CSymlink(target, Clean(p).value), 4, k);
    }
  }

  // ---------- MKDIR ----------

  /** Bit 2 of the flags announces permissions; the type bits among them are dropped. */
  function Permitted(a: Attributes, default: nat): nat
  {
    if a.flags / 4 % 2 == 1 then a.permissions % 4096 else default
  }

  /** MKDIR makes a directory with the permissions the client gives, or 0755. */
  lemma MkdirAnswered(cfg: Config, w: World, t: Table, id: uint32, p: bytes, a: Attributes, k: nat)
    requires |p| <= 0x4_0000 && a.Fits()
    ensures ChangesOne(cfg, w, t, id, Clean(p), path => CMkDir(path, Permitted(a, 493)), 4, k,
                       Serve(cfg, w, t, Wire.PacketOf(Setstat(14, id, p, a)), k))
  {
    hide Serve, Clean, ChangeAll, OneCall, Ascii, Wire.PacketOf;
    Performs(cfg, w, t, Setstat(14, id, p, a), k);
    if Clean(p).Some? {
      OneChange(cfg, w, t, id, CMkDir(Clean(p).value, Permitted(a, 493)), 4, k);
    }
  }

  // ---------- SETSTAT and FSETSTAT ----------

  /** The calls that attributes ask for, in order. What the driver cannot set is left
      out, but for the size. */
  function Wanted(cfg: Config, path: bytes, a: Attributes): seq<Call>
  {
    (if a.flags % 2 == 1 then [CTruncate(path, a.size)] else []) +
    (if cfg.drv.metadataSetter && a.flags / 4 % 2 == 1 then [CChmod(path, a.permissions % 4096)] else []) +
    (if cfg.drv.metadataSetter && a.flags / 2 % 2 == 1 then [CChown(path, a.uid, a.gid)] else []) +
    (if cfg.drv.metadataSetter && a.flags / 8 % 2 == 1 then [CChtimes(path, a.atime, a.mtime)] else [])
  }

  /** The i-th call is made on the i-th filesystem and gives the next. */
  predicate Chained(cfg: Config, fss: seq<Fs>, calls: seq<Call>, k: nat)
  {
    |fss| == |calls| + 1 && forall i :: 0 <= i < |calls| ==> fss[i + 1] == cfg.drv.change(fss[i], calls[i], k).0
  }

  /** Call i of these goes through. */
  predicate Goes(cfg: Config, fss: seq<Fs>, calls: seq<Call>, k: nat, i: nat)
  {
    i < |calls| && i < |fss| && cfg.drv.change(fss[i], calls[i], k).1.None?
  }

  /** The wanted calls are made one after another up to the first that fails, each on
      what the one before left. */
  predicate UpTo(cfg: Config, fss: seq<Fs>, wanted: seq<Call>, calls: seq<Call>, k: nat, id: uint32, m: Message)
  {
    && Chained(cfg, fss, calls, k) && calls <= wanted
    && (forall i: nat :: i < |calls| - 1 ==> Goes(cfg, fss, calls, k, i))
    && if calls == [] || Goes(cfg, fss, calls, k, |calls| - 1) then calls == wanted && m == Says(id, 0, [])
       else m == Blames(id, cfg.drv.change(fss[|calls| - 1], calls[|calls| - 1], k).1.value, 4) && m.code != 0
  }

  ghost predicate InTurn(cfg: Config, w: World, t: Table, id: uint32, wanted: seq<Call>, k: nat, r: Res)
  {
    && r.t == t
    && exists fss: seq<Fs> ::
         && UpTo(cfg, fss, wanted, r.calls, k, id, r.reply)
         && fss[0] == w.fs && r.w == w.(fs := fss[|fss| - 1])
  }

  ghost predicate AttributesSet(cfg: Config, w: World, t: Table, id: uint32, path: bytes, a: Attributes, k: nat, r: Res)
  {
    if cfg.ro then Only(w, t, Says(id, 3, Ascii("export is read-only")), r)
    else if a.flags % 2 == 1 && !cfg.drv.truncater then Only(w, t, Says(id, 8, Ascii("driver cannot truncate")), r)
    else if a.flags % 2 == 1 && a.size >= 0x8000_0000_0000_0000 then
      Only(w, t, Says(id, 4, Ascii("size beyond what a file can hold")), r)
    else InTurn(cfg, w, t, id, Wanted(cfg, path, a), k, r)
  }

  lemma {:induction false} ChangesChain(cfg: Config, fs: Fs, wanted: seq<Call>, k: nat) returns (fss: seq<Fs>)
    ensures var (fs', err, calls) := Changes(cfg, fs, wanted, k);
            && Chained(cfg, fss, calls, k) && calls <= wanted && fss[0] == fs && fss[|fss| - 1] == fs'
            && (forall i: nat :: i < |calls| - 1 ==> Goes(cfg, fss, calls, k, i))
            && (err.None? ==> calls == wanted && forall i: nat :: i < |calls| ==> Goes(cfg, fss, calls, k, i))
            && (err.Some? ==> calls != [] && cfg.drv.change(fss[|calls| - 1], calls[|calls| - 1], k).1 == err)
    decreases |wanted|
  {
    hide Chained, Goes;
    if wanted == [] {
      fss := [fs];
      Alone(cfg, fs, k);
    } else {
      var (fs1, err) := cfg.drv.change(fs, wanted[0], k);
      if err.Some? {
        fss := [fs] + [fs1];
        Alone(cfg, fs1, k);
        Before(cfg, fs, wanted[0], [fs1], [], k);
        assert [wanted[0]] + [] == [wanted[0]] && [wanted[0]] <= wanted;
      } else {
        var rest := ChangesChain(cfg, fs1, wanted[1..], k);
        fss := [fs] + rest;
        var done := Changes(cfg, fs1, wanted[1..], k).2;
        Before(cfg, fs, wanted[0], rest, done, k);
        assert wanted == [wanted[0]] + wanted[1..];
        AllGo(cfg, fs, wanted[0], rest, done, k);
      }
    }
  }

  lemma Alone(cfg: Config, fs: Fs, k: nat)
    ensures Chained(cfg, [fs], [], k)
  {
  }

  /** One more call in front of a chain. */
  lemma Before(cfg: Config, fs: Fs, c: Call, rest: seq<Fs>, done: seq<Call>, k: nat)
    requires Chained(cfg, rest, done, k) && rest[0] == cfg.drv.change(fs, c, k).0
    ensures Chained(cfg, [fs] + rest, [c] + done, k)
    ensures done != [] ==> ([fs] + rest)[|done|] == rest[|done| - 1] && ([c] + done)[|done|] == done[|done| - 1]
  {
    forall i | 0 <= i < |[c] + done|
      ensures ([fs] + rest)[i + 1] == cfg.drv.change(([fs] + rest)[i], ([c] + done)[i], k).0
    {
      if i > 0 {
        assert ([c] + done)[i] == done[i - 1] && ([fs] + rest)[i] == rest[i - 1] && ([fs] + rest)[i + 1] == rest[i];
      }
    }
  }

  lemma AllGo(cfg: Config, fs: Fs, c: Call, rest: seq<Fs>, done: seq<Call>, k: nat)
    requires Chained(cfg, rest, done, k) && cfg.drv.change(fs, c, k).1.None?
    ensures forall i: nat :: i <= |done| && (i > 0 ==> Goes(cfg, rest, done, k, i - 1)) ==>
              Goes(cfg, [fs] + rest, [c] + done, k, i)
  {
    forall i: nat | i <= |done| && (i > 0 ==> Goes(cfg, rest, done, k, i - 1))
      ensures Goes(cfg, [fs] + rest, [c] + done, k, i)
    {
      if i > 0 {
        assert ([c] + done)[i] == done[i - 1] && ([fs] + rest)[i] == rest[i - 1];
      }
    }
  }

  lemma ChangeInTurn(cfg: Config, w: World, t: Table, id: uint32, wanted: seq<Call>, k: nat)
    ensures InTurn(cfg, w, t, id, wanted, k, ChangeAll(cfg, w, t, id, wanted, 4, k))
  {
    hide StatusFor, Changes, Goes, Chained;
    var fss := ChangesChain(cfg, w.fs, wanted, k);
    var (fs', err, calls) := Changes(cfg, w.fs, wanted, k);
    if err.Some? {
      FailedStops(cfg, fss, calls, k);
    }
    assert UpTo(cfg, fss, wanted, calls, k, id, ChangeAll(cfg, w, t, id, wanted, 4, k).reply);
  }

  lemma FailedStops(cfg: Config, fss: seq<Fs>, calls: seq<Call>, k: nat)
    requires Chained(cfg, fss, calls, k) && calls != []
    requires cfg.drv.change(fss[|calls| - 1], calls[|calls| - 1], k).1.Some?
    ensures !Goes(cfg, fss, calls, k, |calls| - 1)
  {
  }

  lemma WantedCalls(cfg: Config, path: bytes, a: Attributes)
    ensures SetstatCalls(cfg, path, a.Zeroed()) == Wanted(cfg, path, a)
  {
  }

  lemma SetsAttributes(cfg: Config, w: World, t: Table, id: uint32, path: bytes, a: Attributes, k: nat)
    ensures AttributesSet(cfg, w, t, id, path, a, k, OpSetstat(cfg, w, t, id, path, a.Zeroed(), k))
  {
    hide ChangeAll, InTurn, Ascii, SetstatCalls, Wanted;
    WantedCalls(cfg, path, a);
    ChangeInTurn(cfg, w, t, id, Wanted(cfg, path, a), k);
  }

  /** SETSTAT sets exactly the announced attributes, in the order size, permissions,
      owner and times, of its path as it stands, and stops at the first failure. */
  lemma SetstatAnswered(cfg: Config, w: World, t: Table, id: uint32, path: bytes, a: Attributes, k: nat)
    requires |path| <= 0x4_0000 && a.Fits()
    ensures AttributesSet(cfg, w, t, id, path, a, k, Serve(cfg, w, t, Wire.PacketOf(Setstat(9, id, path, a)), k))
  {
    hide Serve, AttributesSet, OpSetstat, Wire.PacketOf;
    Performs(cfg, w, t, Setstat(9, id, path, a), k);
    SetsAttributes(cfg, w, t, id, path, a, k);
  }

  ghost predicate HandleSet(cfg: Config, w: World, t: Table, id: uint32, tok: bytes, a: Attributes, k: nat, r: Res)
  {
    if tok !in t then Only(w, t, Says(id, 4, Ascii("unknown handle")), r)
    else AttributesSet(cfg, w, t, id, t[tok].path, a, k, r)
  }

  /** FSETSTAT does so to the path of its handle. */
  lemma FsetstatAnswered(cfg: Config, w: World, t: Table, id: uint32, tok: bytes, a: Attributes, k: nat)
    requires |tok| <= 0x4_0000 && a.Fits()
    ensures HandleSet(cfg, w, t, id, tok, a, k, Serve(cfg, w, t, Wire.PacketOf(Fsetstat(id, tok, a)), k))
  {
    hide Serve, AttributesSet, OpSetstat, Wire.PacketOf, Ascii;
    Performs(cfg, w, t, Fsetstat(id, tok, a), k);
    if tok in t {
      SetsAttributes(cfg, w, t, id, t[tok].path, a, k);
    }
  }
}

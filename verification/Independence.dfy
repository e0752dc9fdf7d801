/** Requests that ask the driver nothing about its files: their outcome does not
    depend on file contents, and they leave them alone. */
module Independence {
  import opened Bytes
  import opened Codec
  import opened Messages
  import opened Packets
  import opened Paths
  import opened DataOps
  import opened Directory
  import opened Opening
  import opened Server

  /** Some call other than Sync and Close was made. */
  predicate Touches(calls: seq<Call>)
  {
    exists i :: 0 <= i < |calls| && !calls[i].CSync? && !calls[i].CClose?
  }

  function WithFiles(w: World, files: Files): World { w.(fs := w.fs.(files := files)) }

  /** r' is r in a world with other file contents, which neither changes. */
  predicate SameBut(r: Res, r': Res, w: World, files: Files)
  {
    r.w.fs == w.fs && r' == r.(w := WithFiles(r.w, files))
  }

  /** An admitted OPEN asks for the file's Stat. */
  lemma OpenTouches(cfg: Config, w: World, t: Table, m: Message, nonce: nat)
    requires m.Open? && Admitted(cfg, t, m)
    ensures Touches(OpOpen(cfg, w, t, m, nonce).calls)
  {
    hide Clean, Has, Full, FinishOpen;
    var r := OpOpen(cfg, w, t, m, nonce);
    var path := Clean(m.path).value;
    var stat, create := CStat(path), CWriteFile(path, Perm(m.attrs, 0x1A4));
    var w1 := w.(fs := cfg.drv.change(w.fs, create, nonce).0);
    FinishCalls(cfg, w, t, m.id, path, false, [stat], nonce);
    FinishCalls(cfg, w, t, m.id, path, true, [stat], nonce);
    FinishCalls(cfg, w1, t, m.id, path, true, [stat] + [create], nonce);
    assert stat in [stat] && stat in [stat] + [create];
    assert stat in r.calls;
  }

  lemma OpenBlind(cfg: Config, w: World, t: Table, m: Message, nonce: nat, files: Files)
    requires m.Open? && !Touches(OpOpen(cfg, w, t, m, nonce).calls)
    ensures SameBut(OpOpen(cfg, w, t, m, nonce), OpOpen(cfg, WithFiles(w, files), t, m, nonce), w, files)
  {
    hide Clean, Has, Full, FinishOpen, Touches;
    if Admitted(cfg, t, m) {
      OpenTouches(cfg, w, t, m, nonce);
    }
  }

  /** Entries that cost no call have names that do not join. */
  lemma {:induction false} EntryCallsNone(h: OpenFile, lo: nat, hi: nat)
    requires EntryCalls(h, lo, hi) == []
    ensures forall i :: lo <= i < hi && i < |h.entries| ==> JoinName(h.path, h.entries[i]).None?
    decreases hi - lo
  {
    hide JoinName;
    if lo < hi && lo < |h.entries| {
      EntryCallsNone(h, lo + 1, hi);
    }
  }

  lemma {:induction false} EntryCallsTouch(h: OpenFile, lo: nat, hi: nat)
    ensures EntryCalls(h, lo, hi) == [] || Touches(EntryCalls(h, lo, hi))
    decreases hi - lo
  {
    hide JoinName;
    if lo < hi && lo < |h.entries| {
      var calls := EntryCalls(h, lo, hi);
      EntryCallsTouch(h, lo + 1, hi);
      if JoinName(h.path, h.entries[lo]).Some? {
        assert calls[0].CStat?;
      } else {
        assert calls == EntryCalls(h, lo + 1, hi);
      }
    }
  }

  lemma {:induction false} NothingCollected<T>(look: nat -> Option<T>, lo: nat, hi: nat)
    requires forall i: nat :: lo <= i < hi ==> look(i).None?
    ensures Collect(look, lo, hi) == []
    decreases hi - lo
  {
    if lo < hi {
      NothingCollected(look, lo + 1, hi);
    }
  }

  lemma ReaddirBlind(cfg: Config, w: World, t: Table, id: uint32, tok: bytes, nonce: nat, files: Files)
    requires !Touches(OpReaddir(cfg, w, t, id, tok, nonce).calls)
    ensures SameBut(OpReaddir(cfg, w, t, id, tok, nonce), OpReaddir(cfg, WithFiles(w, files), t, id, tok, nonce),
                    w, files)
  {
    hide JoinName, AttrsFromStat, Collect, EntryCalls;
    if tok in t && t[tok].dir {
      var h := t[tok];
      if h.pos <= |h.entries| {
        PageBlind(cfg, w, h, nonce, files);
      }
    }
  }

  lemma PageBlind(cfg: Config, w: World, h: OpenFile, nonce: nat, files: Files)
    requires h.pos <= |h.entries|
    requires !Touches(EntryCalls(h, h.pos, Page(Shown(cfg, w.fs, h, nonce), h.pos, |h.entries|).0))
    ensures Page(Shown(cfg, WithFiles(w, files).fs, h, nonce), h.pos, |h.entries|) ==
            Page(Shown(cfg, w.fs, h, nonce), h.pos, |h.entries|)
  {
    hide JoinName, AttrsFromStat, Collect, EntryCalls, Page;
    var n, look, look' := |h.entries|, Shown(cfg, w.fs, h, nonce), Shown(cfg, WithFiles(w, files).fs, h, nonce);
    var p := Page(look, h.pos, n).0;
    EntryCallsTouch(h, h.pos, p);
    EntryCallsNone(h, h.pos, p);
    PageSteps(look, h.pos, n);
    NothingCollected(look, h.pos, p);
    assert p == n;
    NothingCollected(look', h.pos, n);
    PageSteps(look', h.pos, n);
    NothingCollected(look', h.pos, Page(look', h.pos, n).0);
  }

  /** Metadata calls all touch the filesystem. */
  predicate AllTouch(calls: seq<Call>)
  {
    forall i :: 0 <= i < |calls| ==> !calls[i].CSync? && !calls[i].CClose?
  }

  lemma ChangeAllBlind(cfg: Config, w: World, t: Table, id: uint32, calls: seq<Call>, fallback: uint32, nonce: nat,
                       files: Files)
    requires AllTouch(calls) && !Touches(ChangeAll(cfg, w, t, id, calls, fallback, nonce).calls)
    ensures SameBut(ChangeAll(cfg, w, t, id, calls, fallback, nonce),
                    ChangeAll(cfg, WithFiles(w, files), t, id, calls, fallback, nonce), w, files)
  {
    hide Touches;
    ChangeAllTouches(cfg, w, t, id, calls, fallback, nonce);
  }

  lemma ChangeAllTouches(cfg: Config, w: World, t: Table, id: uint32, calls: seq<Call>, fallback: uint32, nonce: nat)
    requires AllTouch(calls)
    ensures calls == [] || Touches(ChangeAll(cfg, w, t, id, calls, fallback, nonce).calls)
  {
    if calls != [] {
      assert ChangeAll(cfg, w, t, id, calls, fallback, nonce).calls[0] == calls[0];
    }
  }

  lemma SetstatBlind(cfg: Config, w: World, t: Table, id: uint32, path: bytes, a: Attributes, nonce: nat, files: Files)
    requires !Touches(OpSetstat(cfg, w, t, id, path, a, nonce).calls)
    ensures SameBut(OpSetstat(cfg, w, t, id, path, a, nonce),
                    OpSetstat(cfg, WithFiles(w, files), t, id, path, a, nonce), w, files)
  {
    hide Has, ChangeAll, Touches;
    var calls := SetstatCalls(cfg, path, a);
    assert AllTouch(calls);
    if !Touches(ChangeAll(cfg, w, t, id, calls, FAILURE, nonce).calls) {
      ChangeAllBlind(cfg, w, t, id, calls, FAILURE, nonce, files);
    }
  }

  /** Requests that make a single metadata call. */
  lemma ChangeBlind(cfg: Config, w: World, t: Table, m: Message, nonce: nat, files: Files)
    requires || (m.PathRequest? && m.kind !in {FXP_LSTAT, FXP_STAT, FXP_OPENDIR, FXP_REALPATH, FXP_READLINK})
             || m.Rename? || m.Symlink? || (m.Setstat? && m.kind != FXP_SETSTAT)
    requires !Touches(Perform(cfg, w, t, m, nonce).calls)
    ensures SameBut(Perform(cfg, w, t, m, nonce), Perform(cfg, WithFiles(w, files), t, m, nonce), w, files)
  {
    hide Clean, ChangeAll, Touches;
    forall c: Call, fallback: uint32 | !c.CSync? && !c.CClose?
      ensures Touches(ChangeAll(cfg, w, t, m.id, [c], fallback, nonce).calls)
    {
      ChangeAllTouches(cfg, w, t, m.id, [c], fallback, nonce);
    }
  }

  /** Requests that make a single call and change nothing. */
  lemma LookBlind(cfg: Config, w: World, t: Table, m: Message, nonce: nat, files: Files)
    requires m.PathRequest? && m.kind in {FXP_LSTAT, FXP_STAT, FXP_REALPATH, FXP_READLINK}
    requires !Touches(Perform(cfg, w, t, m, nonce).calls)
    ensures SameBut(Perform(cfg, w, t, m, nonce), Perform(cfg, WithFiles(w, files), t, m, nonce), w, files)
  {
    hide Clean, AttrsFromStat;
    var calls := Perform(cfg, w, t, m, nonce).calls;
    assert calls != [] && (calls[0].CStat? || calls[0].CReadLink?) ==> Touches(calls);
  }

  lemma OpendirBlind(cfg: Config, w: World, t: Table, id: uint32, p: bytes, nonce: nat, files: Files)
    requires !Touches(OpOpendir(cfg, w, t, id, p, nonce).calls)
    ensures SameBut(OpOpendir(cfg, w, t, id, p, nonce), OpOpendir(cfg, WithFiles(w, files), t, id, p, nonce), w, files)
  {
    hide Clean, Full, Touches;
    OpendirTouches(cfg, w, t, id, p, nonce);
  }

  lemma OpendirTouches(cfg: Config, w: World, t: Table, id: uint32, p: bytes, nonce: nat)
    ensures var calls := OpOpendir(cfg, w, t, id, p, nonce).calls; calls == [] || Touches(calls)
  {
    hide Clean, Full;
    var calls := OpOpendir(cfg, w, t, id, p, nonce).calls;
    if calls != [] {
      assert calls[0].CStat?;
    }
  }

  lemma HandleBlind(cfg: Config, w: World, t: Table, m: Message, nonce: nat, files: Files)
    requires m.HandleRequest? && !Touches(Perform(cfg, w, t, m, nonce).calls)
    ensures SameBut(Perform(cfg, w, t, m, nonce), Perform(cfg, WithFiles(w, files), t, m, nonce), w, files)
  {
    hide Clean, AttrsFromStat, OpReaddir;
    var calls := Perform(cfg, w, t, m, nonce).calls;
    assert calls != [] && calls[0].CStat? ==> Touches(calls);
    if m.kind != FXP_CLOSE && m.kind != FXP_FSTAT {
      ReaddirBlind(cfg, w, t, m.id, m.handle, nonce, files);
    }
  }

  lemma ExtendedBlind(cfg: Config, w: World, t: Table, id: uint32, name: bytes, data: bytes, nonce: nat, files: Files)
    requires !Touches(OpExtended(cfg, w, t, id, name, data, nonce).calls)
    ensures SameBut(OpExtended(cfg, w, t, id, name, data, nonce),
                    OpExtended(cfg, WithFiles(w, files), t, id, name, data, nonce), w, files)
  {
    hide DecodeCopy, CopyCount, CopyInto, CopyRefusal, Touches;
    ExtendedTouches(cfg, w, t, id, name, data, nonce);
  }

  lemma ExtendedTouches(cfg: Config, w: World, t: Table, id: uint32, name: bytes, data: bytes, nonce: nat)
    ensures var calls := OpExtended(cfg, w, t, id, name, data, nonce).calls; calls == [] || Touches(calls)
  {
    hide DecodeCopy, CopyCount, CopyInto, CopyRefusal;
    var calls := OpExtended(cfg, w, t, id, name, data, nonce).calls;
    if calls != [] {
      assert calls[0].CCopy?;
    }
  }

  lemma PerformBlind(cfg: Config, w: World, t: Table, m: Message, nonce: nat, files: Files)
    requires !Touches(Perform(cfg, w, t, m, nonce).calls)
    ensures SameBut(Perform(cfg, w, t, m, nonce), Perform(cfg, WithFiles(w, files), t, m, nonce), w, files)
  {
    hide OpOpen, OpOpendir, OpSetstat, OpExtended, OpStat, OpMkdir, OpRemove, OpRename, OpSymlink, OpReadlink,
      OpRealpath, OpClose, OpFstat, OpReaddir, Touches;
    match m
    case Open(_, _, _, _) => OpenBlind(cfg, w, t, m, nonce, files);
    case HandleRequest(_, _, _) => HandleBlind(cfg, w, t, m, nonce, files);
    case PathRequest(kind, id, path) =>
      if kind == FXP_OPENDIR {
        OpendirBlind(cfg, w, t, id, path, nonce, files);
      } else if kind == FXP_LSTAT || kind == FXP_STAT || kind == FXP_REALPATH || kind == FXP_READLINK {
        LookBlind(cfg, w, t, m, nonce, files);
      } else {
        ChangeBlind(cfg, w, t, m, nonce, files);
      }
    case Setstat(kind, id, path, a) =>
      if kind == FXP_SETSTAT {
        SetstatBlind(cfg, w, t, id, path, a, nonce, files);
      } else {
        ChangeBlind(cfg, w, t, m, nonce, files);
      }
    case Fsetstat(id, tok, a) =>
      if tok in t {
        SetstatBlind(cfg, w, t, id, t[tok].path, a, nonce, files);
      }
    case Rename(_, _, _) => ChangeBlind(cfg, w, t, m, nonce, files);
    case Symlink(_, _, _) => ChangeBlind(cfg, w, t, m, nonce, files);
    case Extended(id, name, data) => ExtendedBlind(cfg, w, t, id, name, data, nonce, files);
    case _ =>
  }

  /** A packet that is not a READ or WRITE and asks the driver for nothing but Sync
      and Close is served alike whatever the files hold, and leaves them alone. */
  lemma ServeBlind(cfg: Config, w: World, t: Table, p: Packet, nonce: nat, files: Files)
    requires !Prepare(cfg, t, p).Run? && !Touches(Serve(cfg, w, t, p, nonce).calls)
    ensures SameBut(Serve(cfg, w, t, p, nonce), Serve(cfg, WithFiles(w, files), t, p, nonce), w, files)
  {
    hide Decode, Perform, Touches, Prepare, RequestId;
    var d := Decode(p.typ, p.payload);
    if Prepare(cfg, t, p).Barrier? && IsBarrierType(p.typ) && d.Some? && d.value.Got? {
      PerformBlind(cfg, w, t, d.value.value, nonce, files);
    }
  }
}

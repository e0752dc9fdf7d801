/** Requests that look at paths one driver call at a time: what they answer is what
    they would answer at once if the driver gave them those answers. */
module Views {
  import opened Bytes
  import opened Messages
  import opened Packets
  import opened Paths
  import opened DataOps
  import opened Directory
  import opened Server
  import opened Listing
  import opened Pool
  import opened Grain

  /** Entry i of a listing has a name that can be asked about. */
  predicate Joins(h: OpenFile, i: nat) { i < |h.entries| && JoinName(h.path, h.entries[i]).Some? }

  /** At request k, served at once on the world at its first call, the driver of c'
      gives the answers that v got. */
  ghost predicate Gives(cfg: Config, c': Config, v: View, k: nat)
  {
    && v.seen != []
    && c' == cfg.(drv := cfg.drv.(stat := c'.drv.stat, listDir := c'.drv.listDir, readLink := c'.drv.readLink))
    && if Pages(v.t, v.packet) then
         var h := Paged(v.t, v.packet);
         forall p, i: nat :: h.pos <= i < h.pos + |v.seen| && Joins(h, i) ==>
           c'.drv.stat(v.base.fs, p, k, i) == cfg.drv.stat(v.seen[i - h.pos], p, k, i)
       else
         && (forall p :: c'.drv.stat(v.base.fs, p, k, 0) == cfg.drv.stat(v.seen[0], p, k, 0))
         && (forall p :: c'.drv.listDir(v.base.fs, p, k) == cfg.drv.listDir(v.seen[|v.seen| - 1], p, k))
         && (forall p :: c'.drv.readLink(v.base.fs, p, k) == cfg.drv.readLink(v.seen[|v.seen| - 1], p, k))
  }

  /** A listing in progress is within the entries, and showed nothing at the end of
      any batch it went past. */
  ghost predicate ViewSound(cfg: Config, v: View, k: nat)
  {
    && v.seen != [] && Looks(v.packet) && !Prepare(cfg, v.t, v.packet).Run?
    && (Pages(v.t, v.packet) ==>
          var h := Paged(v.t, v.packet);
          && h.pos + |v.seen| <= |h.entries|
          && forall e: nat :: h.pos < e < h.pos + |v.seen| && (e - h.pos) % READDIR_BATCH == 0 ==>
               Collect(ItemsSeen(cfg, h, k, v.seen), h.pos, e) == [])
  }

  /** One READDIR ends where its entries end or at the first batch with something to
      show. */
  lemma {:induction false} PageReaches<T>(look: nat -> Option<T>, pos: nat, n: nat, m: nat)
    requires 0 < m && pos + m <= n
    requires forall e: nat :: pos < e < pos + m && (e - pos) % READDIR_BATCH == 0 ==> Collect(look, pos, e) == []
    requires pos + m == n || (m % READDIR_BATCH == 0 && Collect(look, pos, pos + m) != [])
    ensures Page(look, pos, n) == (pos + m, Collect(look, pos, pos + m))
    decreases m
  {
    hide Collect;
    if m > READDIR_BATCH {
      var mid, m' := pos + READDIR_BATCH, m - READDIR_BATCH;
      assert Collect(look, pos, mid) == [];
      CollectSplit(look, pos, mid, pos + m);
      forall e: nat | mid < e < mid + m' && (e - mid) % READDIR_BATCH == 0 ensures Collect(look, mid, e) == [] {
        assert (e - pos) % READDIR_BATCH == 0;
        assert Collect(look, pos, e) == [];
        CollectSplit(look, pos, mid, e);
      }
      assert m' % READDIR_BATCH == m % READDIR_BATCH;
      PageReaches(look, mid, n, m');
      assert mid + m' == pos + m;
      assert Page(look, pos, n) == Page(look, mid, n);
      assert Collect(look, pos, pos + m) == Collect(look, mid, pos + m);
    } else if Collect(look, pos, pos + m) == [] {
      assert Page(look, n, n) == (n, []);
    }
  }

  /** What is shown of an entry, given its own moment's answer. */
  lemma SameItem(cfg: Config, c': Config, fs: Fs, fs': Fs, h: OpenFile, i: nat, k: nat)
    requires c' == cfg.(drv := cfg.drv.(stat := c'.drv.stat, listDir := c'.drv.listDir, readLink := c'.drv.readLink))
    requires Joins(h, i) ==> forall p :: c'.drv.stat(fs', p, k, i) == cfg.drv.stat(fs, p, k, i)
    ensures ItemAt(c', fs', h, i, k) == ItemAt(cfg, fs, h, i, k)
  {
    hide JoinName;
  }

  lemma PageServed(cfg: Config, c': Config, v: View, k: nat)
    requires ViewSound(cfg, v, k) && Gives(cfg, c', v, k) && Pages(v.t, v.packet) && Onward(cfg, v, k).Over?
    ensures var m := DecodeHandle(v.packet.typ, v.packet.payload).value;
            var r := OpReaddir(c', v.base, v.t, m.id, m.handle, k);
            r.w == v.base && Onward(cfg, v, k) == Over(r.t, r.reply)
  {
    hide Collect, ItemAt, DecodeHandle, EntryCalls, Page, Prepare, Serve;
    var h := Paged(v.t, v.packet);
    var look, look' := ItemsSeen(cfg, h, k, v.seen), Shown(c', v.base.fs, h, k);
    forall i: nat | h.pos <= i < h.pos + |v.seen| ensures look(i) == look'(i) {
      SameItem(cfg, c', v.seen[i - h.pos], v.base.fs, h, i, k);
    }
    forall e: nat | h.pos <= e <= h.pos + |v.seen| ensures Collect(look, h.pos, e) == Collect(look', h.pos, e) {
      CollectSame(look, look', h.pos, e);
    }
    PageReaches(look', h.pos, |h.entries|, |v.seen|);
  }

  /** A READDIR packet that pages. */
  lemma PagesDispatch(cfg: Config, w: World, t: Table, p: Packet, k: nat)
    requires Pages(t, p)
    ensures var m := DecodeHandle(p.typ, p.payload).value;
            Serve(cfg, w, t, p, k) == OpReaddir(cfg, w, t, m.id, m.handle, k)
  {
    assert DecodeHandle(p.typ, p.payload).value.kind == p.typ;
    hide DecodeHandle, OpReaddir;
    assert Decode(p.typ, p.payload) == Some(DecodeHandle(p.typ, p.payload));
  }

  /** The other looking requests, decoded. */
  lemma PlainPerformed(cfg: Config, a: Config, b: Config, w: World, w': World, t: Table, m: Message, k: nat)
    requires a == cfg.(drv := cfg.drv.(stat := a.drv.stat, listDir := a.drv.listDir, readLink := a.drv.readLink))
    requires b == cfg.(drv := cfg.drv.(stat := b.drv.stat, listDir := b.drv.listDir, readLink := b.drv.readLink))
    requires forall p :: a.drv.stat(w.fs, p, k, 0) == b.drv.stat(w'.fs, p, k, 0)
    requires forall p :: a.drv.listDir(w.fs, p, k) == b.drv.listDir(w'.fs, p, k)
    requires forall p :: a.drv.readLink(w.fs, p, k) == b.drv.readLink(w'.fs, p, k)
    requires || (m.PathRequest? && m.kind in {FXP_STAT, FXP_LSTAT, FXP_OPENDIR, FXP_READLINK})
             || (m.HandleRequest? && m.kind == FXP_FSTAT)
             || (m.HandleRequest? && m.kind == FXP_READDIR && !(m.handle in t && t[m.handle].dir &&
                                                                t[m.handle].pos < |t[m.handle].entries|))
    ensures Perform(a, w, t, m, k).w == w && Perform(a, w, t, m, k) == Perform(b, w', t, m, k).(w := w)
  {
    hide OpStat, OpOpendir, OpReadlink;
    match m
    case PathRequest(kind, id, path) =>
      StatSame(cfg, a, b, w, w', t, id, path, k);
      OpendirSame(cfg, a, b, w, w', t, id, path, k);
      ReadlinkSame(a, b, w, w', t, id, path, k);
    case HandleRequest(kind, id, tok) =>
      if tok in t {
        StatSame(cfg, a, b, w, w', t, id, t[tok].path, k);
      }
  }

  lemma StatSame(cfg: Config, a: Config, b: Config, w: World, w': World, t: Table, id: uint32, path: bytes, k: nat)
    requires a == cfg.(drv := cfg.drv.(stat := a.drv.stat, listDir := a.drv.listDir, readLink := a.drv.readLink))
    requires b == cfg.(drv := cfg.drv.(stat := b.drv.stat, listDir := b.drv.listDir, readLink := b.drv.readLink))
    requires forall p :: a.drv.stat(w.fs, p, k, 0) == b.drv.stat(w'.fs, p, k, 0)
    ensures OpStat(a, w, t, id, path, k).w == w
    ensures OpStat(a, w, t, id, path, k) == OpStat(b, w', t, id, path, k).(w := w)
  {
    hide Clean, AttrsFromStat, ErrReply, StatusReply, Ascii;
    SameAttrs(cfg, a, b);
  }

  lemma OpendirSame(cfg: Config, a: Config, b: Config, w: World, w': World, t: Table, id: uint32, path: bytes, k: nat)
    requires a == cfg.(drv := cfg.drv.(stat := a.drv.stat, listDir := a.drv.listDir, readLink := a.drv.readLink))
    requires b == cfg.(drv := cfg.drv.(stat := b.drv.stat, listDir := b.drv.listDir, readLink := b.drv.readLink))
    requires forall p :: a.drv.stat(w.fs, p, k, 0) == b.drv.stat(w'.fs, p, k, 0)
    requires forall p :: a.drv.listDir(w.fs, p, k) == b.drv.listDir(w'.fs, p, k)
    ensures OpOpendir(a, w, t, id, path, k).w == w
    ensures OpOpendir(a, w, t, id, path, k) == OpOpendir(b, w', t, id, path, k).(w := w)
  {
    hide Clean, Full, Ascii, Register, ErrReply, StatusReply;
    var name := Clean(path);
    if name.Some? {
      var listing := a.drv.listDir(w.fs, name.value, k);
      if listing.Yes? {
        RegisterSame(a, b, w, w', t, id, OpenFile(name.value, true, listing.value, 0, None, false, false),
                     [CStat(name.value), CListDir(name.value)], k);
      }
    }
  }

  lemma RegisterSame(a: Config, b: Config, w: World, w': World, t: Table, id: uint32, h: OpenFile, calls: seq<Call>,
                     k: nat)
    requires h.file.None? && a.drv.mint(k) == b.drv.mint(k)
    ensures Register(a, w, t, id, h, calls, k).w == w
    ensures Register(a, w, t, id, h, calls, k) == Register(b, w', t, id, h, calls, k).(w := w)
  {
  }

  lemma ReadlinkSame(a: Config, b: Config, w: World, w': World, t: Table, id: uint32, path: bytes, k: nat)
    requires forall p :: a.drv.readLink(w.fs, p, k) == b.drv.readLink(w'.fs, p, k)
    ensures OpReadlink(a, w, t, id, path, k).w == w
    ensures OpReadlink(a, w, t, id, path, k) == OpReadlink(b, w', t, id, path, k).(w := w)
  {
    hide Clean, Ascii;
  }

  lemma SameAttrs(cfg: Config, a: Config, b: Config)
    requires a.ro == b.ro && a.start == b.start
    ensures forall st: Stat :: AttrsFromStat(a, st) == AttrsFromStat(b, st)
  {
  }

  /** What a looking packet decodes to. */
  lemma LookDecodes(typ: byte, b: bytes)
    requires BarrierLock(typ) == PathLock
    ensures Decode(typ, b).Some? && IsBarrierType(typ)
    ensures Decode(typ, b).value.Got? ==>
              var m := Decode(typ, b).value.value;
              || (m.PathRequest? && m.kind in {FXP_STAT, FXP_LSTAT, FXP_OPENDIR, FXP_READLINK})
              || (m.HandleRequest? && m.kind == typ && typ in {FXP_FSTAT, FXP_READDIR} &&
                  Decode(typ, b) == Some(DecodeHandle(typ, b)))
  {
  }

  lemma PlainServed(cfg: Config, c': Config, v: View, k: nat)
    requires ViewSound(cfg, v, k) && Gives(cfg, c', v, k) && !Pages(v.t, v.packet) && Onward(cfg, v, k).Over?
    ensures var r := Serve(c', v.base, v.t, v.packet, k);
            r.w == v.base && Onward(cfg, v, k) == Over(r.t, r.reply)
  {
    hide DecodeHandle, Perform, Decode, RequestId;
    LookDecodes(v.packet.typ, v.packet.payload);
    var a, w := StatAt(cfg, v.seen[0]), v.base.(fs := v.seen[|v.seen| - 1]);
    var d := Decode(v.packet.typ, v.packet.payload).value;
    if d.Got? {
      PlainPerformed(cfg, a, c', w, v.base, v.t, d.value, k);
      PlainPerformed(cfg, c', a, v.base, w, v.t, d.value, k);
    }
  }

  /** What a looking request answers when it is over, and the table it leaves, are
      those of serving it at once on the world of its first call, under any driver
      that then gives the answers it got. */
  lemma LookIsServe(cfg: Config, c': Config, v: View, k: nat)
    requires ViewSound(cfg, v, k) && Gives(cfg, c', v, k) && Onward(cfg, v, k).Over?
    ensures var r := Serve(c', v.base, v.t, v.packet, k);
            r.w == v.base && Onward(cfg, v, k) == Over(r.t, r.reply)
  {
    hide Onward, Serve, Gives, ViewSound, Pages;
    if Pages(v.t, v.packet) {
      PagesDispatch(c', v.base, v.t, v.packet, k);
      PageServed(cfg, c', v, k);
    } else {
      PlainServed(cfg, c', v, k);
    }
  }

  /** Looking changes nothing but the table. */
  lemma LookKeepsWorld(cfg: Config, w: World, t: Table, p: Packet, k: nat)
    requires Looks(p)
    ensures Serve(cfg, w, t, p, k).w == w
  {
    LookDecodes(p.typ, p.payload);
    hide Decode, DecodeHandle, RequestId, Perform;
    var d := Decode(p.typ, p.payload).value;
    if d.Got? {
      LookPerformed(cfg, w, t, d.value, k);
    }
  }

  lemma LookPerformed(cfg: Config, w: World, t: Table, m: Message, k: nat)
    requires || (m.PathRequest? && m.kind in {FXP_STAT, FXP_LSTAT, FXP_OPENDIR, FXP_READLINK})
             || (m.HandleRequest? && m.kind in {FXP_FSTAT, FXP_READDIR})
    ensures Perform(cfg, w, t, m, k).w == w
  {
    hide Clean, AttrsFromStat, Full, Page, EntryCalls;
  }

  /** One more call. */
  lemma LookOn(cfg: Config, v: View, fs: Fs, k: nat)
    requires ViewSound(cfg, v, k) && Onward(cfg, v, k).More?
    ensures ViewSound(cfg, v.(seen := v.seen + [fs]), k)
  {
    hide Collect, ItemAt, DecodeHandle, Serve, Prepare;
    if Pages(v.t, v.packet) {
      var h := Paged(v.t, v.packet);
      var seen' := v.seen + [fs];
      var look, look' := ItemsSeen(cfg, h, k, v.seen), ItemsSeen(cfg, h, k, seen');
      forall e: nat | h.pos < e < h.pos + |seen'| && (e - h.pos) % READDIR_BATCH == 0
        ensures Collect(look', h.pos, e) == []
      {
        CollectSame(look, look', h.pos, e);
      }
    }
  }
}

/** When the answer of a looking request, made of single driver calls, is that of one
    moment: of its first call, and of any. */
module Stillness {
  import opened Bytes
  import opened Messages
  import opened Packets
  import opened Paths
  import opened Directory
  import opened Server
  import opened Listing
  import opened Pool
  import opened Grain
  import opened Views
  import opened Refinement
  import opened Simulation
  import opened Atomicity

  // ---------- drivers that lead a request the way it went ----------

  type Stats = (Fs, bytes, nat, nat) -> StatAnswer
  type Lists = (Fs, bytes, nat) -> Answer<seq<bytes>>
  type Links = (Fs, bytes, nat) -> Answer<bytes>

  /** The driver with other answers about paths. */
  function Telling(cfg: Config, stat: Stats, list: Lists, link: Links): Config
  {
    cfg.(drv := cfg.drv.(stat := stat, listDir := list, readLink := link))
  }

  /** A request that is no listing, served on what each of its calls saw. */
  function Plainly(cfg: Config, v: View, k: nat): Res
    requires v.seen != []
  {
    Serve(StatAt(cfg, v.seen[0]), v.base.(fs := v.seen[|v.seen| - 1]), v.t, v.packet, k)
  }

  /** Under this driver the request makes exactly the calls it made, and is over. */
  ghost predicate Leads(cfg: Config, v: View, k: nat)
  {
    && ViewSound(cfg, v, k) && Onward(cfg, v, k).Over?
    && (!Pages(v.t, v.packet) ==> |Plainly(cfg, v, k).calls| == |v.seen|)
  }

  /** The answer is that of serving the request at once on these files. */
  ghost predicate AnsweredOn(cfg: Config, v: View, k: nat, fs: Fs)
  {
    && v.seen != []
    && var r := Serve(cfg, v.base.(fs := fs), v.t, v.packet, k);
    Onward(cfg, v, k) == Over(r.t, r.reply)
  }

  lemma AnsweredOnBase(cfg: Config, v: View, k: nat)
    ensures AnsweredOn(cfg, v, k, v.base.fs) <==> AnsweredAs(cfg, cfg, v, k)
  {
    hide Serve, Onward;
    assert v.base.(fs := v.base.fs) == v.base;
  }

  /** Entry i of a listing was asked about. */
  predicate AskedOf(h: OpenFile, seen: seq<Fs>, i: nat) { h.pos <= i < h.pos + |seen| && Joins(h, i) }

  predicate Disturbed(h: OpenFile, base: Fs, seen: seq<Fs>, i: nat)
  {
    AskedOf(h, seen, i) && seen[i - h.pos] != base
  }

  /** Each call, or for a READDIR each call about an entry, met the files as they were
      at the first call with every WRITE then under way completed: no WRITE was half
      done at the first call, and none moved a byte before the last. */
  ghost predicate Still(v: View)
  {
    if Pages(v.t, v.packet) then
      var h := Paged(v.t, v.packet);
      forall i: nat :: !Disturbed(h, v.base.fs, v.seen, i)
    else forall i :: 0 <= i < |v.seen| ==> v.seen[i] == v.base.fs
  }

  /** All calls met the same files. */
  ghost predicate SawOne(v: View)
  {
    if Pages(v.t, v.packet) then
      var h := Paged(v.t, v.packet);
      forall i: nat, j: nat :: AskedOf(h, v.seen, i) && AskedOf(h, v.seen, j) ==> v.seen[i - h.pos] == v.seen[j - h.pos]
    else forall i :: 0 <= i < |v.seen| ==> v.seen[i] == v.seen[0]
  }

  /** Whatever the driver says of paths, if it leads the request the way it went, the
      answer is that of the request's first moment. */
  ghost predicate Sure(cfg: Config, v: View, k: nat)
  {
    forall stat: Stats, list: Lists, link: Links ::
      var c' := Telling(cfg, stat, list, link); Leads(c', v, k) ==> AnsweredAs(c', c', v, k)
  }

  /** The same with any moment: some files. */
  ghost predicate OfOneMoment(cfg: Config, v: View, k: nat)
  {
    forall stat: Stats, list: Lists, link: Links ::
      var c' := Telling(cfg, stat, list, link); Leads(c', v, k) ==> exists fs :: AnsweredOn(c', v, k, fs)
  }

  // ---------- enough ----------

  lemma StillAnswered(cfg: Config, v: View, k: nat)
    requires ViewSound(cfg, v, k) && Onward(cfg, v, k).Over? && Still(v)
    ensures AnsweredAs(cfg, cfg, v, k)
  {
    hide Pages, Paged, Onward, Serve, ViewSound, Joins;
    SeenSomething(cfg, v, k);
    if Pages(v.t, v.packet) {
      var h := Paged(v.t, v.packet);
      forall p, i: nat | h.pos <= i < h.pos + |v.seen| && Joins(h, i)
        ensures cfg.drv.stat(v.base.fs, p, k, i) == cfg.drv.stat(v.seen[i - h.pos], p, k, i)
      {
        assert !Disturbed(h, v.base.fs, v.seen, i);
      }
    }
    assert Gives(cfg, cfg, v, k);
    hide Gives, Still;
    LookIsServe(cfg, cfg, v, k);
  }

  /** A request that began on other files of the same world. */
  lemma SameElsewhere(cfg: Config, v: View, k: nat, fs: Fs)
    requires ViewSound(cfg, v, k)
    ensures var v' := v.(base := v.base.(fs := fs));
            && ViewSound(cfg, v', k) && Onward(cfg, v', k) == Onward(cfg, v, k)
            && (AnsweredAs(cfg, cfg, v', k) ==> AnsweredOn(cfg, v, k, fs))
  {
    hide Serve, Collect, ItemAt, DecodeHandle, Prepare;
    var v' := v.(base := v.base.(fs := fs));
    var last := v.seen[|v.seen| - 1];
    assert v'.base.(fs := last) == v.base.(fs := last);
  }

  lemma SawOneAnswered(cfg: Config, v: View, k: nat) returns (fs: Fs)
    requires ViewSound(cfg, v, k) && Onward(cfg, v, k).Over? && SawOne(v)
    ensures AnsweredOn(cfg, v, k, fs)
  {
    hide Pages, Paged, Onward, Serve, ViewSound, Joins, AnsweredOn, AnsweredAs;
    SeenSomething(cfg, v, k);
    fs := v.seen[0];
    if Pages(v.t, v.packet) {
      var h := Paged(v.t, v.packet);
      if i: nat :| AskedOf(h, v.seen, i) {
        fs := v.seen[i - h.pos];
      }
    }
    var v' := v.(base := v.base.(fs := fs));
    SameElsewhere(cfg, v, k, fs);
    assert Still(v');
    StillAnswered(cfg, v', k);
  }

  // ---------- needed: listings ----------

  /** One more or one less is shown. */
  lemma {:induction false} CollectFlip<T>(look: nat -> Option<T>, look': nat -> Option<T>, lo: nat, hi: nat, i: nat)
    requires lo <= i < hi && look(i).Some? != look'(i).Some?
    requires forall j: nat :: lo <= j < hi && j != i ==> look(j) == look'(j)
    ensures Collect(look, lo, hi) != Collect(look', lo, hi)
  {
    hide Collect;
    CollectSplit(look, lo, i, hi);
    CollectSplit(look', lo, i, hi);
    CollectSame(look, look', lo, i);
    CollectSame(look, look', i + 1, hi);
    CollectFirst(look, i, hi);
    CollectFirst(look', i, hi);
  }

  lemma CollectFirst<T>(look: nat -> Option<T>, lo: nat, hi: nat)
    requires lo < hi
    ensures Collect(look, lo, hi) == (if look(lo).Some? then [look(lo).value] else []) + Collect(look, lo + 1, hi)
  {
  }

  const REGULAR: Stat := Stat(0x8000, 0, None)

  function Opposite(cfg: Config, h: OpenFile, seen: seq<Fs>, k: nat, i: nat): StatAnswer
  {
    if ItemSeen(cfg, h, k, seen, i).Some? then NoStat else Found(REGULAR)
  }

  /** A Stat that says what was seen of each entry, and on files fs the opposite of entry
      flip(fs). */
  function PageContrary(cfg: Config, h: OpenFile, seen: seq<Fs>, k: nat, flip: Fs -> nat): Stats
  {
    (fs: Fs, p: bytes, n: nat, i: nat) =>
      if i == flip(fs) then Opposite(cfg, h, seen, k, i)
      else if h.pos <= i < h.pos + |seen| then cfg.drv.stat(seen[i - h.pos], p, n, i) else NoStat
  }

  /** What was seen stays as it was. */
  predicate Spares(pos: nat, seen: seq<Fs>, flip: Fs -> nat)
  {
    forall c: nat | c < |seen| :: flip(seen[c]) != pos + c
  }

  lemma ItemGiven(cfg: Config, fs: Fs, h: OpenFile, i: nat, k: nat, a: StatAnswer)
    requires Joins(h, i) && forall p :: cfg.drv.stat(fs, p, k, i) == a
    ensures ItemAt(cfg, fs, h, i, k).Some? <==> a.Found?
  {
    hide JoinName, AttrsFromStat;
  }

  function PageTeller(cfg: Config, h: OpenFile, seen: seq<Fs>, k: nat, flip: Fs -> nat): Config
  {
    Telling(cfg, PageContrary(cfg, h, seen, k, flip), cfg.drv.listDir, cfg.drv.readLink)
  }

  lemma TellerAlike(cfg: Config, stat: Stats, list: Lists, link: Links)
    ensures Alike(cfg, Telling(cfg, stat, list, link))
  {
  }

  /** What it says of entry i on files fs. */
  lemma PageSays(cfg: Config, h: OpenFile, seen: seq<Fs>, k: nat, flip: Fs -> nat, fs: Fs, i: nat)
    requires h.pos <= i < h.pos + |seen|
    ensures var c' := PageTeller(cfg, h, seen, k, flip);
            && (i != flip(fs) ==> forall p :: c'.drv.stat(fs, p, k, i) == cfg.drv.stat(seen[i - h.pos], p, k, i))
            && (i == flip(fs) ==> forall p :: c'.drv.stat(fs, p, k, i) == Opposite(cfg, h, seen, k, i))
  {
    hide Opposite;
  }

  lemma PageItems(cfg: Config, h: OpenFile, seen: seq<Fs>, k: nat, flip: Fs -> nat, fs: Fs, i: nat)
    requires h.pos <= i < h.pos + |seen|
    ensures var c' := PageTeller(cfg, h, seen, k, flip);
            && (i != flip(fs) ==> ItemAt(c', fs, h, i, k) == ItemAt(cfg, seen[i - h.pos], h, i, k))
            && (i == flip(fs) && Joins(h, i) ==>
                  ItemAt(c', fs, h, i, k).Some? != ItemAt(cfg, seen[i - h.pos], h, i, k).Some?)
  {
    hide Joins, ItemAt, PageContrary;
    var c' := PageTeller(cfg, h, seen, k, flip);
    TellerAlike(cfg, PageContrary(cfg, h, seen, k, flip), cfg.drv.listDir, cfg.drv.readLink);
    PageSays(cfg, h, seen, k, flip, fs, i);
    hide PageTeller;
    if i != flip(fs) {
      SameItem(cfg, c', seen[i - h.pos], fs, h, i, k);
    } else if Joins(h, i) {
      ItemGiven(c', fs, h, i, k, Opposite(cfg, h, seen, k, i));
    }
  }

  /** A READDIR whose page on files fs would end elsewhere, or show other entries. */
  lemma PageDiffers(cfg: Config, v: View, k: nat, fs: Fs, at: nat -> Option<NameItem>)
    requires Pages(v.t, v.packet) && v.seen != [] && Onward(cfg, v, k).Over?
    requires var h := Paged(v.t, v.packet);
             && h.pos + |v.seen| <= |h.entries| && at == Shown(cfg, fs, h, k)
             && Collect(at, h.pos, h.pos + |v.seen|) != Collect(ItemsSeen(cfg, h, k, v.seen), h.pos, h.pos + |v.seen|)
    ensures !AnsweredOn(cfg, v, k, fs)
  {
    hide Collect, ItemAt, DecodeHandle, EntryCalls, Page, ItemsSeen, Shown, Serve;
    var h, m := Paged(v.t, v.packet), DecodeHandle(v.packet.typ, v.packet.payload).value;
    var w := v.base.(fs := fs);
    PageSteps(at, h.pos, |h.entries|);
    PagesDispatch(cfg, w, v.t, v.packet, k);
    var r, o := OpReaddir(cfg, w, v.t, m.id, m.handle, k), Onward(cfg, v, k);
    assert o.t[m.handle].pos == h.pos + |v.seen| && r.t[m.handle].pos == Page(at, h.pos, |h.entries|).0;
  }

  /** Such a driver leads the listing the same way. */
  lemma PageLed(cfg: Config, v: View, k: nat, flip: Fs -> nat)
    requires ViewSound(cfg, v, k) && Onward(cfg, v, k).Over? && Pages(v.t, v.packet)
    requires Spares(Paged(v.t, v.packet).pos, v.seen, flip)
    ensures var h := Paged(v.t, v.packet);
            var c' := PageTeller(cfg, h, v.seen, k, flip);
            && Leads(c', v, k)
            && forall e: nat :: h.pos <= e <= h.pos + |v.seen| ==>
                 Collect(ItemsSeen(c', h, k, v.seen), h.pos, e) == Collect(ItemsSeen(cfg, h, k, v.seen), h.pos, e)
  {
    hide Collect, ItemAt, DecodeHandle, Prepare, PageContrary, Paged, Joins;
    var h := Paged(v.t, v.packet);
    var c' := PageTeller(cfg, h, v.seen, k, flip);
    TellerAlike(cfg, PageContrary(cfg, h, v.seen, k, flip), cfg.drv.listDir, cfg.drv.readLink);
    SamePrepare(cfg, c', v.t, v.packet);
    hide PageTeller;
    var end := h.pos + |v.seen|;
    var seen, seen' := ItemsSeen(cfg, h, k, v.seen), ItemsSeen(c', h, k, v.seen);
    forall i: nat | h.pos <= i < end ensures seen'(i) == seen(i) {
      assert flip(v.seen[i - h.pos]) != h.pos + (i - h.pos);
      PageItems(cfg, h, v.seen, k, flip, v.seen[i - h.pos], i);
    }
    forall e: nat | h.pos <= e <= end ensures Collect(seen', h.pos, e) == Collect(seen, h.pos, e) {
      CollectSame(seen', seen, h.pos, e);
    }
  }

  /** Under it the answer is not that of files on which it flips an entry asked about. */
  lemma PageTorn(cfg: Config, v: View, k: nat, flip: Fs -> nat, fs: Fs)
    requires ViewSound(cfg, v, k) && Onward(cfg, v, k).Over? && Pages(v.t, v.packet)
    requires Spares(Paged(v.t, v.packet).pos, v.seen, flip) && AskedOf(Paged(v.t, v.packet), v.seen, flip(fs))
    ensures !AnsweredOn(PageTeller(cfg, Paged(v.t, v.packet), v.seen, k, flip), v, k, fs)
  {
    hide Collect, ItemAt, DecodeHandle, Prepare, PageTeller, Paged, Joins, Pages, Onward, AnsweredOn, Spares, Serve;
    var h := Paged(v.t, v.packet);
    var c', end := PageTeller(cfg, h, v.seen, k, flip), h.pos + |v.seen|;
    PageLed(cfg, v, k, flip);
    var seen, seen', at := ItemsSeen(cfg, h, k, v.seen), ItemsSeen(c', h, k, v.seen), Shown(c', fs, h, k);
    forall i: nat | h.pos <= i < end
      ensures i != flip(fs) ==> at(i) == seen(i)
      ensures i == flip(fs) ==> at(i).Some? != seen(i).Some?
    {
      PageItems(cfg, h, v.seen, k, flip, fs, i);
    }
    CollectFlip(seen, at, h.pos, end, flip(fs));
    hide ItemsSeen, Shown;
    PageDiffers(c', v, k, fs, at);
  }

  // ---------- needed: the other requests ----------

  /** A decoded looking request that is no listing. */
  predicate IsPlain(t: Table, m: Message)
  {
    || (m.PathRequest? && m.kind in {FXP_STAT, FXP_LSTAT, FXP_OPENDIR, FXP_READLINK})
    || (m.HandleRequest? && m.kind == FXP_FSTAT)
    || (m.HandleRequest? && m.kind == FXP_READDIR &&
        !(m.handle in t && t[m.handle].dir && t[m.handle].pos < |t[m.handle].entries|))
  }

  function PlainOp(c: Config, w: World, t: Table, m: Message, k: nat): Res
    requires IsPlain(t, m)
  {
    match m
    case PathRequest(kind, id, path) =>
      if kind == FXP_OPENDIR then OpOpendir(c, w, t, id, path, k)
      else if kind == FXP_READLINK then OpReadlink(c, w, t, id, path, k)
      else OpStat(c, w, t, id, path, k)
    case HandleRequest(kind, id, tok) =>
      if kind == FXP_FSTAT then OpFstat(c, w, t, id, tok, k) else OpReaddir(c, w, t, id, tok, k)
  }

  lemma PlainPerforms(c: Config, w: World, t: Table, m: Message, k: nat)
    requires IsPlain(t, m)
    ensures Perform(c, w, t, m, k) == PlainOp(c, w, t, m, k)
  {
    hide OpStat, OpFstat, OpOpendir, OpReadlink, OpReaddir, OpOpen, OpClose, OpRealpath, OpMkdir, OpRemove, OpRename,
      OpSymlink, OpSetstat, OpExtended;
  }

  function NoStatReply(id: uint32): Message { StatusReply(id, FAILURE, Ascii("driver returned no stat")) }

  predicate ReadsLink(m: Message) { m.PathRequest? && m.kind == FXP_READLINK }

  lemma StatFirst(c: Config, w: World, t: Table, id: uint32, path: bytes, k: nat)
    ensures var r := OpStat(c, w, t, id, path, k);
            && |r.calls| <= 1 && (r.reply.Status? ==> r.reply.id == id)
            && (r.calls != [] && (forall p :: c.drv.stat(w.fs, p, k, 0) == NoStat) ==> r.reply == NoStatReply(id))
            && (r.calls != [] && (forall p :: c.drv.stat(w.fs, p, k, 0) == Found(REGULAR)) ==>
                  r.reply != NoStatReply(id))
  {
    hide Clean, AttrsFromStat, ErrText, StatusFor, Ascii;
  }

  lemma OpendirFirst(c: Config, w: World, t: Table, id: uint32, path: bytes, k: nat)
    ensures var r := OpOpendir(c, w, t, id, path, k);
            && |r.calls| <= 2 && (r.reply.Status? ==> r.reply.id == id)
            && (r.calls != [] && (forall p :: c.drv.stat(w.fs, p, k, 0) == NoStat) ==> r.reply == NoStatReply(id))
            && (r.calls != [] && (forall p :: c.drv.stat(w.fs, p, k, 0) == Found(REGULAR)) ==>
                  r.reply != NoStatReply(id))
  {
    hide Clean, Full, ErrText, StatusFor, Ascii;
    assert !REGULAR.IsDir();
    DifferentTexts();
  }

  lemma DirRegistered(a: Config, b: Config, w: World, w': World, t: Table, id: uint32, h: OpenFile, calls: seq<Call>,
                      k: nat)
    requires Alike(a, b) && h.file.None?
    ensures Register(a, w, t, id, h, calls, k) == Register(b, w', t, id, h, calls, k).(w := w)
  {
    hide Ascii;
  }

  lemma DirCalls(c: Config, w: World, t: Table, id: uint32, dir: bytes, k: nat)
    ensures forall list :: var h := OpenFile(dir, true, list, 0, None, false, false);
              Register(c, w, t, id, h, [CStat(dir), CListDir(dir)], k).calls == [CStat(dir), CListDir(dir)]
  {
    hide Ascii;
  }

  lemma OpendirTold(a: Config, b: Config, w: World, w': World, t: Table, id: uint32, path: bytes, k: nat)
    requires Alike(a, b) && forall p :: a.drv.stat(w.fs, p, k, 0) == b.drv.stat(w'.fs, p, k, 0)
    ensures var r, r' := OpOpendir(a, w, t, id, path, k), OpOpendir(b, w', t, id, path, k);
            && |r.calls| == |r'.calls|
            && (|r.calls| == 2 && (forall p :: a.drv.listDir(w.fs, p, k) == b.drv.listDir(w'.fs, p, k)) ==>
                  r == r'.(w := w))
            && (|r.calls| != 2 ==> r == r'.(w := w))
  {
    hide Clean, Full, ErrReply, Ascii, Register;
    if Clean(path).Some? {
      var dir := Clean(path).value;
      var list := a.drv.listDir(w.fs, dir, k);
      if list.Yes? {
        var h := OpenFile(dir, true, list.value, 0, None, false, false);
        DirRegistered(a, b, w, w', t, id, h, [CStat(dir), CListDir(dir)], k);
      }
      DirCalls(a, w, t, id, dir, k);
      DirCalls(b, w', t, id, dir, k);
    }
  }

  lemma StatTold(a: Config, b: Config, w: World, w': World, t: Table, id: uint32, path: bytes, k: nat)
    requires Alike(a, b) && forall p :: a.drv.stat(w.fs, p, k, 0) == b.drv.stat(w'.fs, p, k, 0)
    ensures OpStat(a, w, t, id, path, k) == OpStat(b, w', t, id, path, k).(w := w)
  {
    hide Clean, AttrsFromStat, ErrText, StatusFor, Ascii;
    SameAttrs(a, a, b);
  }

  lemma LinkTold(a: Config, b: Config, w: World, w': World, t: Table, id: uint32, path: bytes, k: nat)
    requires forall p :: a.drv.readLink(w.fs, p, k) == b.drv.readLink(w'.fs, p, k)
    ensures OpReadlink(a, w, t, id, path, k) == OpReadlink(b, w', t, id, path, k).(w := w)
  {
    hide Clean, ErrText, StatusFor, Ascii;
  }

  /** A READDIR that has nothing left to list asks nothing. */
  lemma ListedOut(a: Config, b: Config, w: World, w': World, t: Table, id: uint32, tok: bytes, k: nat)
    requires !(tok in t && t[tok].dir && t[tok].pos < |t[tok].entries|)
    ensures OpReaddir(a, w, t, id, tok, k) == OpReaddir(b, w', t, id, tok, k).(w := w)
    ensures OpReaddir(a, w, t, id, tok, k).calls == []
  {
    hide Ascii, ItemAt;
  }

  /** What the first call decides. */
  lemma PlainFirst(c: Config, w: World, t: Table, m: Message, k: nat)
    requires IsPlain(t, m) && Perform(c, w, t, m, k).calls != []
    ensures var r := Perform(c, w, t, m, k);
            && |r.calls| <= 2
            && (!ReadsLink(m) && (forall p :: c.drv.stat(w.fs, p, k, 0) == NoStat) ==> r.reply == NoStatReply(m.id))
            && (!ReadsLink(m) && (forall p :: c.drv.stat(w.fs, p, k, 0) == Found(REGULAR)) ==>
                  r.reply != NoStatReply(m.id))
            && (r.reply.Status? ==> r.reply.id == m.id)
  {
    hide Perform, OpStat, OpOpendir, OpReaddir, Clean, ErrText, StatusFor, Ascii;
    PlainPerforms(c, w, t, m, k);
    match m
    case PathRequest(_, id, path) =>
      StatFirst(c, w, t, id, path, k);
      OpendirFirst(c, w, t, id, path, k);
    case HandleRequest(kind, id, tok) =>
      if kind == FXP_READDIR {
        ListedOut(c, c, w, w, t, id, tok, k);
      } else if tok in t {
        StatFirst(c, w, t, id, t[tok].path, k);
      }
  }

  lemma PlainLink(c: Config, w: World, t: Table, m: Message, k: nat, e: Error)
    requires IsPlain(t, m) && ReadsLink(m) && Perform(c, w, t, m, k).calls != []
    requires forall p :: c.drv.readLink(w.fs, p, k) == No(e)
    ensures Perform(c, w, t, m, k).reply == ErrReply(m.id, e, NO_SUCH_FILE)
  {
    hide Perform, Clean, ErrText, StatusFor, Ascii;
    PlainPerforms(c, w, t, m, k);
  }

  lemma DifferentTexts()
    ensures Ascii("driver returned no stat") != Ascii("not a directory")
  {
    assert |Ascii("driver returned no stat")| == 23 && |Ascii("not a directory")| == 15;
  }

  /** What the second does. */
  lemma PlainSecond(c: Config, w: World, t: Table, m: Message, k: nat, e: Error)
    requires IsPlain(t, m) && |Perform(c, w, t, m, k).calls| == 2 && forall p :: c.drv.listDir(w.fs, p, k) == No(e)
    ensures Perform(c, w, t, m, k).reply == ErrReply(m.id, e, FAILURE)
  {
    hide Perform, Clean, AttrsFromStat, Full, ErrText, StatusFor, Ascii, JoinName;
    PlainPerforms(c, w, t, m, k);
  }

  /** It asks, whatever the driver and the files. */
  lemma PlainAsks(c: Config, c': Config, w: World, w': World, t: Table, m: Message, k: nat)
    requires IsPlain(t, m) && Perform(c, w, t, m, k).calls != []
    ensures Perform(c', w', t, m, k).calls != []
  {
    hide Perform, Clean, AttrsFromStat, Full, ErrText, StatusFor, Ascii, JoinName;
    PlainPerforms(c, w, t, m, k);
    PlainPerforms(c', w', t, m, k);
  }

  /** What each call is told decides everything. */
  lemma PlainTold(a: Config, b: Config, w: World, w': World, t: Table, m: Message, k: nat)
    requires IsPlain(t, m) && Alike(a, b)
    requires !ReadsLink(m) ==> forall p :: a.drv.stat(w.fs, p, k, 0) == b.drv.stat(w'.fs, p, k, 0)
    requires |Perform(a, w, t, m, k).calls| == 2 ==> forall p :: a.drv.listDir(w.fs, p, k) == b.drv.listDir(w'.fs, p, k)
    requires ReadsLink(m) ==> forall p :: a.drv.readLink(w.fs, p, k) == b.drv.readLink(w'.fs, p, k)
    ensures Perform(a, w, t, m, k) == Perform(b, w', t, m, k).(w := w)
  {
    hide Perform, OpStat, OpOpendir, OpReaddir, OpReadlink;
    PlainPerforms(a, w, t, m, k);
    PlainPerforms(b, w', t, m, k);
    match m
    case PathRequest(kind, id, path) =>
      if kind == FXP_OPENDIR {
        OpendirTold(a, b, w, w', t, id, path, k);
      } else if kind == FXP_READLINK {
        LinkTold(a, b, w, w', t, id, path, k);
      } else {
        StatTold(a, b, w, w', t, id, path, k);
      }
    case HandleRequest(kind, id, tok) =>
      if kind == FXP_READDIR {
        ListedOut(a, b, w, w', t, id, tok, k);
      } else if tok in t {
        StatTold(a, b, w, w', t, id, t[tok].path, k);
      }
  }

  /** How many calls it makes depends on the first. */
  lemma PlainCount(a: Config, b: Config, w: World, w': World, t: Table, m: Message, k: nat)
    requires IsPlain(t, m) && Alike(a, b)
    requires !ReadsLink(m) ==> forall p :: a.drv.stat(w.fs, p, k, 0) == b.drv.stat(w'.fs, p, k, 0)
    ensures |Perform(a, w, t, m, k).calls| == |Perform(b, w', t, m, k).calls|
  {
    hide Perform, OpStat, OpOpendir, OpReaddir, Clean, ErrText, StatusFor, Ascii;
    PlainPerforms(a, w, t, m, k);
    PlainPerforms(b, w', t, m, k);
    match m
    case PathRequest(kind, id, path) =>
      if kind == FXP_OPENDIR {
        OpendirTold(a, b, w, w', t, id, path, k);
      } else if kind != FXP_READLINK {
        StatTold(a, b, w, w', t, id, path, k);
      }
    case HandleRequest(kind, id, tok) =>
      if kind == FXP_READDIR {
        ListedOut(a, b, w, w', t, id, tok, k);
      } else if tok in t {
        StatTold(a, b, w, w', t, id, t[tok].path, k);
      }
  }

  /** A looking packet that is no listing and asks, decoded. */
  lemma PlainDecodes(c: Config, w: World, t: Table, p: Packet, k: nat) returns (m: Message)
    requires Looks(p) && !Pages(t, p) && Serve(c, w, t, p, k).calls != []
    ensures IsPlain(t, m) && Decode(p.typ, p.payload).Some? && Decode(p.typ, p.payload).value.Got?
    ensures m == Decode(p.typ, p.payload).value.value
  {
    hide DecodeHandle, Perform, Decode, RequestId;
    LookDecodes(p.typ, p.payload);
    m := Decode(p.typ, p.payload).value.value;
  }

  lemma PlainServes(c: Config, w: World, t: Table, p: Packet, k: nat)
    requires Looks(p) && Decode(p.typ, p.payload).Some? && Decode(p.typ, p.payload).value.Got?
    ensures Serve(c, w, t, p, k) == Perform(c, w, t, Decode(p.typ, p.payload).value.value, k)
  {
    hide Perform, Decode, RequestId;
    LookDecodes(p.typ, p.payload);
  }

  const WRONG := Error(Unmarked, [1])
  const WORSE := Error(Unmarked, [2])

  /** Answers that do not lead to this reply. */
  function OtherStat(m: Message): StatAnswer { if m.Status? && m == NoStatReply(m.id) then Found(REGULAR) else NoStat }

  function OtherError(m: Message, fallback: uint32): Error
  {
    if m.Status? && m == ErrReply(m.id, WRONG, fallback) then WORSE else WRONG
  }

  lemma OtherErrorDiffers(m: Message, fallback: uint32, id: uint32)
    requires m.Status? ==> m.id == id
    ensures ErrReply(id, OtherError(m, fallback), fallback) != m
  {
    assert WRONG.text[0] != WORSE.text[0];
  }

  /** A driver that says what each call was told, and on files fs something else to call
      flip(fs). */
  function PlainTeller(cfg: Config, v: View, k: nat, flip: Fs -> nat): Config
    requires v.seen != []
  {
    var m, last := Plainly(cfg, v, k).reply, v.seen[|v.seen| - 1];
    Telling(cfg,
            (fs: Fs, p: bytes, n: nat, i: nat) =>
              if flip(fs) == 0 then OtherStat(m) else cfg.drv.stat(v.seen[0], p, n, i),
            (fs: Fs, p: bytes, n: nat) =>
              if flip(fs) == 1 then No(OtherError(m, FAILURE)) else cfg.drv.listDir(last, p, n),
            (fs: Fs, p: bytes, n: nat) =>
              if flip(fs) == 0 then No(OtherError(m, NO_SUCH_FILE)) else cfg.drv.readLink(last, p, n))
  }

  lemma PlainSays(cfg: Config, v: View, k: nat, flip: Fs -> nat, fs: Fs)
    requires v.seen != []
    ensures var c', m, last := PlainTeller(cfg, v, k, flip), Plainly(cfg, v, k).reply, v.seen[|v.seen| - 1];
            && Alike(cfg, c')
            && (forall p :: c'.drv.stat(fs, p, k, 0) ==
                  if flip(fs) == 0 then OtherStat(m) else cfg.drv.stat(v.seen[0], p, k, 0))
            && (forall p :: c'.drv.listDir(fs, p, k) ==
                  if flip(fs) == 1 then No(OtherError(m, FAILURE)) else cfg.drv.listDir(last, p, k))
            && (forall p :: c'.drv.readLink(fs, p, k) ==
                  if flip(fs) == 0 then No(OtherError(m, NO_SUCH_FILE)) else cfg.drv.readLink(last, p, k))
  {
    hide Plainly, OtherStat, OtherError;
  }

  lemma PlainLed(cfg: Config, v: View, k: nat, flip: Fs -> nat)
    requires Leads(cfg, v, k) && !Pages(v.t, v.packet) && Spares(0, v.seen, flip)
    ensures v.seen != []
    ensures var c' := PlainTeller(cfg, v, k, flip);
            && Plainly(c', v, k) == Plainly(cfg, v, k) && Onward(c', v, k) == Onward(cfg, v, k) && Leads(c', v, k)
  {
    hide Serve, PlainTeller, Pages, Decode, Perform, Looks, OtherStat, OtherError, Prepare;
    var c' := PlainTeller(cfg, v, k, flip);
    var a, b := StatAt(cfg, v.seen[0]), StatAt(c', v.seen[0]);
    var last := v.seen[|v.seen| - 1];
    var w := v.base.(fs := last);
    var m := PlainDecodes(a, w, v.t, v.packet, k);
    PlainServes(a, w, v.t, v.packet, k);
    PlainServes(b, w, v.t, v.packet, k);
    PlainFirst(a, w, v.t, m, k);
    PlainSays(cfg, v, k, flip, v.seen[0]);
    PlainSays(cfg, v, k, flip, last);
    SamePrepare(cfg, c', v.t, v.packet);
    assert flip(v.seen[0]) != 0;
    assert |v.seen| == 2 ==> flip(v.seen[1]) != 1;
    if ReadsLink(m) {
      LinkCalls(a, w, v.t, m, k);
    }
    PlainTold(a, b, w, w, v.t, m, k);
    LookPerformed(b, w, v.t, m, k);
  }

  lemma OnwardPlainly(cfg: Config, v: View, k: nat)
    requires v.seen != [] && !Pages(v.t, v.packet) && Onward(cfg, v, k).Over?
    ensures Onward(cfg, v, k).reply == Plainly(cfg, v, k).reply
  {
    hide Serve, Pages;
  }

  lemma LinkCalls(c: Config, w: World, t: Table, m: Message, k: nat)
    requires IsPlain(t, m) && ReadsLink(m)
    ensures |Perform(c, w, t, m, k).calls| <= 1
  {
    hide Perform, Clean, ErrText, StatusFor, Ascii;
    PlainPerforms(c, w, t, m, k);
  }

  lemma PlainTorn(cfg: Config, v: View, k: nat, flip: Fs -> nat, fs: Fs)
    requires Leads(cfg, v, k) && !Pages(v.t, v.packet) && Spares(0, v.seen, flip) && flip(fs) < |v.seen|
    ensures !AnsweredOn(PlainTeller(cfg, v, k, flip), v, k, fs)
  {
    hide Serve, PlainTeller, Pages, Decode, Perform, Looks, OtherError, Prepare, Ascii, ErrReply, Onward;
    var c', a := PlainTeller(cfg, v, k, flip), StatAt(cfg, v.seen[0]);
    PlainLed(cfg, v, k, flip);
    var w, w' := v.base.(fs := v.seen[|v.seen| - 1]), v.base.(fs := fs);
    var m := PlainDecodes(a, w, v.t, v.packet, k);
    PlainServes(a, w, v.t, v.packet, k);
    PlainServes(c', w', v.t, v.packet, k);
    PlainFirst(a, w, v.t, m, k);
    PlainAsks(a, c', w, w', v.t, m, k);
    PlainFirst(c', w', v.t, m, k);
    PlainSays(cfg, v, k, flip, fs);
    var orig := Plainly(cfg, v, k).reply;
    OnwardPlainly(c', v, k);
    OtherErrorDiffers(orig, FAILURE, m.id);
    OtherErrorDiffers(orig, NO_SUCH_FILE, m.id);
    if ReadsLink(m) {
      LinkCalls(a, w, v.t, m, k);
      PlainLink(c', w', v.t, m, k, OtherError(orig, NO_SUCH_FILE));
    } else if flip(fs) == 1 {
      PlainCount(a, c', w, w', v.t, m, k);
      PlainSecond(c', w', v.t, m, k, OtherError(orig, FAILURE));
    }
  }

  // ---------- exactly ----------

  /** The first moment: a listing. */
  lemma PageUnsure(cfg: Config, v: View, k: nat, i: nat)
    requires Leads(cfg, v, k) && Pages(v.t, v.packet) && Disturbed(Paged(v.t, v.packet), v.base.fs, v.seen, i)
    ensures !Sure(cfg, v, k)
  {
    hide Pages, Paged, Onward, Serve, ViewSound, Joins, AnsweredOn, AnsweredAs, PageContrary;
    var h := Paged(v.t, v.packet);
    var flip := (fs: Fs) => if fs == v.base.fs then i else h.pos + |v.seen|;
    assert Spares(h.pos, v.seen, flip);
    PageLed(cfg, v, k, flip);
    PageTorn(cfg, v, k, flip, v.base.fs);
    var c' := PageTeller(cfg, h, v.seen, k, flip);
    AnsweredOnBase(c', v, k);
    assert c' == Telling(cfg, PageContrary(cfg, h, v.seen, k, flip), cfg.drv.listDir, cfg.drv.readLink);
  }

  lemma PlainUnsure(cfg: Config, v: View, k: nat, i: nat)
    requires Leads(cfg, v, k) && !Pages(v.t, v.packet) && i < |v.seen| && v.seen[i] != v.base.fs
    ensures !Sure(cfg, v, k)
  {
    hide Pages, Paged, Onward, Serve, ViewSound, AnsweredOn, AnsweredAs, Plainly, PlainTeller, Leads;
    var flip := (fs: Fs) => if fs == v.base.fs then i else |v.seen|;
    assert Spares(0, v.seen, flip);
    PlainLed(cfg, v, k, flip);
    PlainTorn(cfg, v, k, flip, v.base.fs);
    var c' := PlainTeller(cfg, v, k, flip);
    AnsweredOnBase(c', v, k);
    PlainTells(cfg, v, k, flip);
    assert c' == Telling(cfg, c'.drv.stat, c'.drv.listDir, c'.drv.readLink);
  }

  lemma PlainTells(cfg: Config, v: View, k: nat, flip: Fs -> nat)
    requires v.seen != []
    ensures var c' := PlainTeller(cfg, v, k, flip); c' == Telling(cfg, c'.drv.stat, c'.drv.listDir, c'.drv.readLink)
  {
    hide Plainly, OtherStat, OtherError;
  }

  lemma StillSure(cfg: Config, v: View, k: nat)
    requires Still(v)
    ensures Sure(cfg, v, k)
  {
    hide Onward, Serve, Pages, ViewSound, AnsweredAs, Still, Telling;
    forall stat: Stats, list: Lists, link: Links
      ensures var c' := Telling(cfg, stat, list, link); Leads(c', v, k) ==> AnsweredAs(c', c', v, k)
    {
      var c' := Telling(cfg, stat, list, link);
      if Leads(c', v, k) {
        StillAnswered(c', v, k);
      }
    }
  }

  /** The answer of a looking request that is over is, whatever the driver says of paths,
      that of its first moment, if and only if each of its calls met the files of that
      moment. */
  lemma SureIffStill(cfg: Config, v: View, k: nat)
    requires Leads(cfg, v, k)
    ensures Sure(cfg, v, k) <==> Still(v)
  {
    hide Leads, Disturbed, Pages, Paged, Sure;
    if Still(v) {
      StillSure(cfg, v, k);
    } else if Pages(v.t, v.packet) {
      var i: nat :| Disturbed(Paged(v.t, v.packet), v.base.fs, v.seen, i);
      PageUnsure(cfg, v, k, i);
    } else {
      var i :| 0 <= i < |v.seen| && v.seen[i] != v.base.fs;
      PlainUnsure(cfg, v, k, i);
    }
  }

  lemma PageAsunder(cfg: Config, v: View, k: nat, i: nat, j: nat)
    requires Leads(cfg, v, k) && Pages(v.t, v.packet)
    requires var h := Paged(v.t, v.packet);
             AskedOf(h, v.seen, i) && AskedOf(h, v.seen, j) && v.seen[i - h.pos] != v.seen[j - h.pos]
    ensures !OfOneMoment(cfg, v, k)
  {
    hide Pages, Paged, Onward, Serve, ViewSound, Joins, AnsweredOn, PageContrary;
    var h := Paged(v.t, v.packet);
    var flip := (fs: Fs) => if fs == v.seen[i - h.pos] then j else i;
    assert Spares(h.pos, v.seen, flip);
    PageLed(cfg, v, k, flip);
    var c' := PageTeller(cfg, h, v.seen, k, flip);
    forall fs ensures !AnsweredOn(c', v, k, fs) {
      PageTorn(cfg, v, k, flip, fs);
    }
    assert c' == Telling(cfg, PageContrary(cfg, h, v.seen, k, flip), cfg.drv.listDir, cfg.drv.readLink);
  }

  lemma PlainAsunder(cfg: Config, v: View, k: nat, i: nat)
    requires Leads(cfg, v, k) && !Pages(v.t, v.packet) && i < |v.seen| && v.seen[i] != v.seen[0]
    ensures !OfOneMoment(cfg, v, k)
  {
    hide Pages, Paged, Onward, Serve, AnsweredOn, PlainTeller, Prepare, Looks;
    TwoCalls(cfg, v, k);
    hide Leads, Plainly, ViewSound;
    var flip := (fs: Fs) => if fs == v.seen[0] then 1 else 0;
    assert Spares(0, v.seen, flip);
    PlainLed(cfg, v, k, flip);
    var c' := PlainTeller(cfg, v, k, flip);
    forall fs ensures !AnsweredOn(c', v, k, fs) {
      PlainTorn(cfg, v, k, flip, fs);
    }
    PlainTells(cfg, v, k, flip);
    assert c' == Telling(cfg, c'.drv.stat, c'.drv.listDir, c'.drv.readLink);
  }

  lemma TwoCalls(cfg: Config, v: View, k: nat)
    requires Leads(cfg, v, k) && !Pages(v.t, v.packet)
    ensures |v.seen| <= 2
  {
    hide Serve, Pages, Decode, Perform, Prepare, Onward;
    var a, w := StatAt(cfg, v.seen[0]), v.base.(fs := v.seen[|v.seen| - 1]);
    var m := PlainDecodes(a, w, v.t, v.packet, k);
    PlainServes(a, w, v.t, v.packet, k);
    PlainFirst(a, w, v.t, m, k);
  }

  lemma SawOneSure(cfg: Config, v: View, k: nat)
    requires SawOne(v)
    ensures OfOneMoment(cfg, v, k)
  {
    hide Onward, Serve, Pages, ViewSound, AnsweredOn, SawOne, Telling;
    forall stat: Stats, list: Lists, link: Links
      ensures var c' := Telling(cfg, stat, list, link); Leads(c', v, k) ==> exists fs :: AnsweredOn(c', v, k, fs)
    {
      var c' := Telling(cfg, stat, list, link);
      if Leads(c', v, k) {
        var fs := SawOneAnswered(c', v, k);
      }
    }
  }

  /** It is, whatever the driver says of paths, that of some one moment, if and only if all
      of its calls met the same files. */
  lemma OneMomentIffSawOne(cfg: Config, v: View, k: nat)
    requires Leads(cfg, v, k)
    ensures OfOneMoment(cfg, v, k) <==> SawOne(v)
  {
    hide Leads, AskedOf, Pages, Paged, OfOneMoment;
    if SawOne(v) {
      SawOneSure(cfg, v, k);
    } else if Pages(v.t, v.packet) {
      var h := Paged(v.t, v.packet);
      AskedWhere(h, v.seen);
      var i: nat, j: nat :| AskedOf(h, v.seen, i) && AskedOf(h, v.seen, j) && v.seen[i - h.pos] != v.seen[j - h.pos];
      PageAsunder(cfg, v, k, i, j);
    } else {
      var i :| 0 <= i < |v.seen| && v.seen[i] != v.seen[0];
      PlainAsunder(cfg, v, k, i);
    }
  }

  lemma AskedWhere(h: OpenFile, seen: seq<Fs>)
    ensures forall i: nat :: AskedOf(h, seen, i) ==> h.pos <= i < h.pos + |seen|
  {
  }
}

/** What the requests that look at the export show: STAT, LSTAT, FSTAT, READDIR,
    READLINK and REALPATH, from the packet to the driver's calls and every field of the
    reply, told with the numbers of draft-ietf-secsh-filexfer-02. */
module Showing {
  import opened Bytes
  import opened Codec
  import opened Messages
  import opened Packets
  import opened Paths
  import opened Directory
  import opened Server
  import opened Listing
  import opened Transfers
  import opened Changing
  import Wire

  // ---------- bits ----------

  function Two(i: nat): (p: nat)
    ensures p > 0
  {
    if i == 0 then 1 else 2 * Two(i - 1)
  }

  /** Bit i of v, counted from the lowest. */
  predicate Bit(v: nat, i: nat) { if i == 0 then v % 2 == 1 else Bit(v / 2, i - 1) }

  /** Two(j) more than a number without bit j differs from it in that bit alone. */
  lemma {:induction false} OneBitMore(v: nat, j: nat, i: nat)
    requires !Bit(v, j)
    ensures Bit(v + Two(j), i) <==> Bit(v, i) || i == j
    decreases j
  {
    if j == 0 {
      assert (v + 1) / 2 == v / 2;
    } else if i > 0 {
      assert (v + 2 * Two(j - 1)) / 2 == v / 2 + Two(j - 1);
      OneBitMore(v / 2, j - 1, i - 1);
    }
  }

  /** A number with bit j is at least Two(j), and loses it with that. */
  lemma {:induction false} OneBitLess(v: nat, j: nat)
    requires Bit(v, j)
    ensures v >= Two(j) && !Bit(v - Two(j), j)
    decreases j
  {
    if j > 0 {
      OneBitLess(v / 2, j - 1);
      assert (v - 2 * Two(j - 1)) / 2 == v / 2 - Two(j - 1);
    }
  }

  lemma SkipThree(v: nat, i: nat)
    requires i >= 3
    ensures Bit(v, i) == Bit(v / 8, i - 3)
  {
    assert Bit(v, i) == Bit(v / 2, i - 1) == Bit(v / 2 / 2, i - 2);
    assert Bit(v / 2 / 2, i - 2) == Bit(v / 2 / 2 / 2, i - 3);
    assert v / 2 / 2 / 2 == v / 8;
  }

  lemma SkipFour(v: nat, i: nat)
    requires i >= 4
    ensures Bit(v, i) == Bit(v / 16, i - 4)
  {
    SkipThree(v, i);
    assert Bit(v / 8, i - 3) == Bit(v / 8 / 2, i - 4);
    assert v / 8 / 2 == v / 16;
  }

  /** Some bits as parities of quotients. */
  lemma BitAt(v: nat)
    ensures Bit(v, 1) <==> v / 2 % 2 == 1
    ensures Bit(v, 4) <==> v / 16 % 2 == 1
    ensures Bit(v, 7) <==> v / 128 % 2 == 1
    ensures Bit(v, 15) <==> v / 0x8000 % 2 == 1
  {
    assert Bit(v, 1) <==> Bit(v / 2, 0);
    SkipFour(v, 4);
    SkipFour(v, 7);
    SkipThree(v / 16, 3);
    assert v / 16 / 8 == v / 128;
    SkipFour(v, 15);
    SkipFour(v / 16, 11);
    SkipFour(v / 16 / 16, 7);
    SkipThree(v / 16 / 16 / 16, 3);
    assert v / 16 / 16 / 16 / 8 == v / 0x8000;
  }

  // ---------- attributes ----------

  /** The permissions shown for a driver's mode: its bits, the write bits (1, 4 and 7)
      cleared on a read-only export, and the type of a regular file (bit 15) added if
      it has no type. */
  ghost predicate ShowsMode(ro: bool, mode: uint32, perm: uint32)
  {
    forall i: nat :: i < 32 ==>
      (Bit(perm, i) <==> if i in {1, 4, 7} then Bit(mode, i) && !ro
                         else Bit(mode, i) || (i == 15 && mode / 0x1000 % 16 == 0))
  }

  /** Everything announced and nothing else: size, owner 0 and 0, permissions, and both
      times, the driver's or the start of the server. */
  ghost predicate Shows(cfg: Config, st: Stat, a: Attributes)
  {
    && a.flags == 15 && a.size == st.size && a.uid == 0 && a.gid == 0 && ShowsMode(cfg.ro, st.mode, a.permissions)
    && a.atime == a.mtime == (if st.mtime.Some? then st.mtime.value else cfg.start) && a.extended == []
  }

  lemma BitValues()
    ensures Two(1) == 2 && Two(4) == 16 && Two(7) == 128 && Two(15) == 0x8000
  {
    assert Two(3) == 8;
    assert Two(6) == 64;
    assert Two(9) == 512;
    assert Two(12) == 4096;
  }

  lemma Cleared(v: uint32, j: nat, i: nat)
    requires j in {1, 4, 7}
    ensures Bit(Without(v, Two(j)), i) <==> Bit(v, i) && i != j
  {
    hide Two, Bit;
    BitValues();
    BitAt(v);
    if Bit(v, j) {
      OneBitLess(v, j);
      OneBitMore(v - Two(j), j, i);
    }
  }

  lemma Typed(mode: uint32, i: nat)
    requires mode / 0x1000 % 16 == 0
    ensures mode + 0x8000 < 0x1_0000_0000
    ensures Bit(mode + 0x8000, i) <==> Bit(mode, i) || i == 15
  {
    hide Two, Bit;
    BitValues();
    BitAt(mode);
    assert mode / 0x8000 % 2 == 0;
    OneBitMore(mode, 15, i);
  }

  lemma ModeShown(cfg: Config, st: Stat)
    ensures ShowsMode(cfg.ro, st.mode, AttrsFromStat(cfg, st).permissions)
  {
    hide Two, Bit, Without;
    BitValues();
    var mode: uint32 := st.mode;
    if st.mode / 0x1000 % 16 == 0 {
      Typed(st.mode, 0);
      mode := st.mode + 0x8000;
    }
    var perm := AttrsFromStat(cfg, st).permissions;
    var v1 := Without(mode, 0x80);
    var v2 := Without(v1, 0x10);
    assert perm == if cfg.ro then Without(v2, 0x2) else mode;
    forall i: nat | i < 32
      ensures Bit(perm, i) <==> if i in {1, 4, 7} then Bit(st.mode, i) && !cfg.ro
                                else Bit(st.mode, i) || (i == 15 && st.mode / 0x1000 % 16 == 0)
    {
      if st.mode / 0x1000 % 16 == 0 {
        Typed(st.mode, i);
      }
      Cleared(mode, 7, i);
      Cleared(v1, 4, i);
      Cleared(v2, 1, i);
    }
  }

  lemma StatShown(cfg: Config, st: Stat)
    ensures Shows(cfg, st, AttrsFromStat(cfg, st))
  {
    hide ShowsMode, Without;
    ModeShown(cfg, st);
  }

  // ---------- STAT, LSTAT, FSTAT ----------

  /** What is said of a driver's answer to Stat. */
  ghost predicate Tells(cfg: Config, id: uint32, answer: StatAnswer, m: Message)
  {
    match answer
    case Found(st) => m.Attrs? && m.id == id && Shows(cfg, st, m.attrs)
    case NoStat => m == Says(id, 4, Ascii("driver returned no stat"))
    case StatFailed(err) => m == Blames(id, err, 2)
  }

  ghost predicate Statted(cfg: Config, w: World, t: Table, id: uint32, p: bytes, k: nat, r: Res)
  {
    match Clean(p)
    case None => Only(w, t, Says(id, 4, Ascii("invalid path")), r)
    case Some(path) =>
      r.w == w && r.t == t && r.calls == [CStat(path)] && Tells(cfg, id, cfg.drv.stat(w.fs, path, k, 0), r.reply)
  }

  lemma StatTells(cfg: Config, w: World, t: Table, id: uint32, p: bytes, k: nat)
    ensures Statted(cfg, w, t, id, p, k, OpStat(cfg, w, t, id, p, k))
  {
    hide Clean, Shows, AttrsFromStat, Ascii, StatusFor;
    if Clean(p).Some? {
      var answer := cfg.drv.stat(w.fs, Clean(p).value, k, 0);
      if answer.Found? {
        StatShown(cfg, answer.stat);
      }
    }
  }

  /** STAT and LSTAT ask the driver once about the resolved path and show its answer. */
  lemma StatAnswered(cfg: Config, w: World, t: Table, kind: byte, id: uint32, p: bytes, k: nat)
    requires kind in {7, 17} && |p| <= 0x4_0000
    ensures Statted(cfg, w, t, id, p, k, Serve(cfg, w, t, Wire.PacketOf(PathRequest(kind, id, p)), k))
  {
    hide Serve, Statted, OpStat, Wire.PacketOf, Ascii;
    Performs(cfg, w, t, PathRequest(kind, id, p), k);
    StatTells(cfg, w, t, id, p, k);
  }

  ghost predicate HandleStatted(cfg: Config, w: World, t: Table, id: uint32, tok: bytes, k: nat, r: Res)
  {
    if tok !in t then Only(w, t, Says(id, 4, Ascii("unknown handle")), r)
    else Statted(cfg, w, t, id, t[tok].path, k, r)
  }

  /** FSTAT does so for the path of its handle. */
  lemma FstatAnswered(cfg: Config, w: World, t: Table, id: uint32, tok: bytes, k: nat)
    requires |tok| <= 0x4_0000
    ensures HandleStatted(cfg, w, t, id, tok, k, Serve(cfg, w, t, Wire.PacketOf(HandleRequest(8, id, tok)), k))
  {
    hide Serve, Statted, OpStat, Wire.PacketOf, Ascii;
    Performs(cfg, w, t, HandleRequest(8, id, tok), k);
    if tok in t {
      StatTells(cfg, w, t, id, t[tok].path, k);
    }
  }

  // ---------- REALPATH and READLINK ----------

  /** A NAME reply with one name, twice, and no attributes. */
  predicate NamesOne(m: Message, id: uint32, s: bytes)
  {
    m == Name(id, [NameItem(s, s, Attributes(0, 0, 0, 0, 0, 0, 0, []))])
  }

  predicate Resolved(w: World, t: Table, id: uint32, p: bytes, r: Res)
  {
    if 0 in p || |p| > 4096 then Only(w, t, Says(id, 4, Ascii("invalid path")), r)
    else r.w == w && r.t == t && r.calls == [] && Clean(p).Some? && NamesOne(r.reply, id, Clean(p).value)
  }

  /** REALPATH answers with the resolved path and asks the driver nothing; only a path
      with a zero byte or of more than 4096 bytes does not resolve. */
  lemma RealpathAnswered(cfg: Config, w: World, t: Table, id: uint32, p: bytes, k: nat)
    requires |p| <= 0x4_0000
    ensures Resolved(w, t, id, p, Serve(cfg, w, t, Wire.PacketOf(PathRequest(16, id, p)), k))
  {
    hide Serve, Walk, Split, Absolute, Wire.PacketOf, Ascii;
    Performs(cfg, w, t, PathRequest(16, id, p), k);
  }

  predicate LinkRead(cfg: Config, w: World, t: Table, id: uint32, p: bytes, k: nat, r: Res)
  {
    match Clean(p)
    case None => Only(w, t, Says(id, 4, Ascii("invalid path")), r)
    case Some(path) =>
      && r.w == w && r.t == t && r.calls == [CReadLink(path)]
      && match cfg.drv.readLink(w.fs, path, k)
         case Yes(target) => NamesOne(r.reply, id, target)
         case No(err) => r.reply == Blames(id, err, 2)
  }

  /** READLINK answers with the target as the driver has it. */
  lemma ReadlinkAnswered(cfg: Config, w: World, t: Table, id: uint32, p: bytes, k: nat)
    requires |p| <= 0x4_0000
    ensures LinkRead(cfg, w, t, id, p, k, Serve(cfg, w, t, Wire.PacketOf(PathRequest(19, id, p)), k))
  {
    hide Serve, Clean, Wire.PacketOf, Ascii, StatusFor;
    Performs(cfg, w, t, PathRequest(19, id, p), k);
  }

  // ---------- READDIR ----------

  /** Entry i of the listing can be shown: its name joins, and the driver finds it. */
  predicate Showable(cfg: Config, fs: Fs, h: OpenFile, k: nat, i: nat)
  {
    && i < |h.entries| && JoinName(h.path, h.entries[i]).Some?
    && cfg.drv.stat(fs, JoinName(h.path, h.entries[i]).value, k, i).Found?
  }

  /** It is shown as this item. */
  ghost predicate ShowsEntry(cfg: Config, fs: Fs, h: OpenFile, k: nat, i: nat, item: NameItem)
  {
    && Showable(cfg, fs, h, k, i) && item.filename == h.entries[i]
    && Shows(cfg, cfg.drv.stat(fs, JoinName(h.path, h.entries[i]).value, k, i).stat, item.attrs)
    && item.longname == cfg.drv.longName(h.entries[i], item.attrs)
  }

  predicate Increasing(at: seq<nat>) { forall j, l :: 0 <= j < l < |at| ==> at[j] < at[l] }

  /** Exactly the entries in [lo, hi) that can be shown, in order. */
  ghost predicate Picks(cfg: Config, fs: Fs, h: OpenFile, k: nat, at: seq<nat>, lo: nat, hi: nat)
  {
    Increasing(at) && forall i: nat :: i in at <==> lo <= i < hi && Showable(cfg, fs, h, k, i)
  }

  function InFront(i: nat, taken: bool, rest: seq<nat>): seq<nat> { if taken then [i] + rest else rest }

  lemma NoneIncreasing()
    ensures Increasing([])
  {
  }

  lemma PutInFront(lo: nat, taken: bool, rest: seq<nat>)
    requires Increasing(rest) && forall i: nat :: i in rest ==> lo < i
    ensures Increasing(InFront(lo, taken, rest))
    ensures forall i: nat :: i in InFront(lo, taken, rest) <==> (taken && i == lo) || i in rest
  {
    if taken {
      forall l | 0 <= l < |rest| ensures lo < rest[l] {
        assert rest[l] in rest;
      }
    }
  }

  lemma {:induction false} CollectPicks<T>(look: nat -> Option<T>, lo: nat, hi: nat) returns (at: seq<nat>)
    ensures Increasing(at) && forall i: nat :: i in at <==> lo <= i < hi && look(i).Some?
    ensures |at| == |Collect(look, lo, hi)|
    ensures forall j :: 0 <= j < |at| ==> Some(Collect(look, lo, hi)[j]) == look(at[j])
    decreases hi - lo
  {
    hide Increasing;
    at := [];
    assert Increasing(at) by { NoneIncreasing(); }
    if lo < hi {
      var rest := CollectPicks(look, lo + 1, hi);
      at := InFront(lo, look(lo).Some?, rest);
      PutInFront(lo, look(lo).Some?, rest);
    }
  }

  predicate Joinable(h: OpenFile, i: nat) { i < |h.entries| && JoinName(h.path, h.entries[i]).Some? }

  predicate AsksAbout(h: OpenFile, i: nat, c: Call)
  {
    Joinable(h, i) && c == CStat(JoinName(h.path, h.entries[i]).value)
  }

  /** The calls are a Stat of every entry from lo to hi whose name joins, in order. */
  ghost predicate AsksEach(h: OpenFile, lo: nat, hi: nat, calls: seq<Call>)
  {
    exists at: seq<nat> ::
      && Increasing(at) && (forall i: nat :: i in at <==> lo <= i < hi && Joinable(h, i)) && |at| == |calls|
      && forall j :: 0 <= j < |at| ==> AsksAbout(h, at[j], calls[j])
  }

  lemma NextAsked(h: OpenFile, lo: nat, hi: nat)
    requires lo < hi && lo < |h.entries|
    ensures var calls, rest := EntryCalls(h, lo, hi), EntryCalls(h, lo + 1, hi);
            if Joinable(h, lo) then calls != [] && AsksAbout(h, lo, calls[0]) && calls[1..] == rest else calls == rest
  {
    hide JoinName;
  }

  lemma NoneAsked(h: OpenFile, lo: nat, hi: nat)
    requires lo >= hi || lo >= |h.entries|
    ensures EntryCalls(h, lo, hi) == [] && Increasing([]) && forall i: nat :: lo <= i < hi ==> !Joinable(h, i)
  {
    hide JoinName;
  }

  lemma {:induction false} EntriesAsked(h: OpenFile, lo: nat, hi: nat) returns (at: seq<nat>)
    ensures Increasing(at) && (forall i: nat :: i in at <==> lo <= i < hi && Joinable(h, i))
    ensures |at| == |EntryCalls(h, lo, hi)|
    ensures forall j :: 0 <= j < |at| ==> AsksAbout(h, at[j], EntryCalls(h, lo, hi)[j])
    decreases hi - lo
  {
    hide Increasing, EntryCalls, Joinable, AsksAbout;
    at := [];
    if lo >= hi || lo >= |h.entries| {
      NoneAsked(h, lo, hi);
    } else {
      var rest := EntriesAsked(h, lo + 1, hi);
      at := InFront(lo, Joinable(h, lo), rest);
      PutInFront(lo, Joinable(h, lo), rest);
      NextAsked(h, lo, hi);
      var calls, later := EntryCalls(h, lo, hi), EntryCalls(h, lo + 1, hi);
      if Joinable(h, lo) {
        assert forall j :: 0 <= j < |rest| ==> at[j + 1] == rest[j] && calls[j + 1] == calls[1..][j];
      }
    }
  }

  /** What one READDIR on a directory handle shows, from its position to the next. */
  ghost predicate Paged(cfg: Config, w: World, h: OpenFile, id: uint32, k: nat, next: nat, m: Message)
  {
    && h.pos <= next && (h.pos < |h.entries| ==> h.pos < next <= |h.entries|)
    && exists at: seq<nat> ::
         && Picks(cfg, w.fs, h, k, at, h.pos, next)
         && if at == [] then m == Says(id, 1, []) && next >= |h.entries|
            else m.Name? && m.id == id && |m.items| == |at| <= 64 &&
                 forall j :: 0 <= j < |at| ==> ShowsEntry(cfg, w.fs, h, k, at[j], m.items[j])
  }

  ghost predicate Readdirred(cfg: Config, w: World, t: Table, id: uint32, tok: bytes, k: nat, r: Res)
  {
    if tok !in t then Only(w, t, Says(id, 4, Ascii("unknown handle")), r)
    else if !t[tok].dir then Only(w, t, Says(id, 4, Ascii("handle is not a directory")), r)
    else
      && r.w == w && tok in r.t && r.t == t[tok := t[tok].(pos := r.t[tok].pos)]
      && Paged(cfg, w, t[tok], id, k, r.t[tok].pos, r.reply)
      && AsksEach(t[tok], t[tok].pos, r.t[tok].pos, r.calls)
  }

  lemma EntryShown(cfg: Config, fs: Fs, h: OpenFile, k: nat, i: nat)
    ensures var item := ItemAt(cfg, fs, h, i, k);
            (item.Some? <==> Showable(cfg, fs, h, k, i)) && (item.Some? ==> ShowsEntry(cfg, fs, h, k, i, item.value))
  {
    hide JoinName, AttrsFromStat, Shows;
    if Showable(cfg, fs, h, k, i) {
      StatShown(cfg, cfg.drv.stat(fs, JoinName(h.path, h.entries[i]).value, k, i).stat);
    }
  }

  lemma PageShown(cfg: Config, w: World, h: OpenFile, id: uint32, k: nat)
    requires h.pos <= |h.entries|
    ensures var (next, items) := Page(Shown(cfg, w.fs, h, k), h.pos, |h.entries|);
            Paged(cfg, w, h, id, k, next, if items != [] then Name(id, items) else StatusReply(id, EOF, []))
  {
    hide Page, Collect, ItemAt, Showable, ShowsEntry;
    var look := Shown(cfg, w.fs, h, k);
    var (next, items) := Page(look, h.pos, |h.entries|);
    PageSteps(look, h.pos, |h.entries|);
    var at := CollectPicks(look, h.pos, next);
    forall i: nat ensures look(i) == ItemAt(cfg, w.fs, h, i, k) && (look(i).Some? <==> Showable(cfg, w.fs, h, k, i)) {
      EntryShown(cfg, w.fs, h, k, i);
    }
    forall j | 0 <= j < |at| ensures ShowsEntry(cfg, w.fs, h, k, at[j], items[j]) {
      assert Some(items[j]) == look(at[j]);
      EntryShown(cfg, w.fs, h, k, at[j]);
    }
    assert Picks(cfg, w.fs, h, k, at, h.pos, next);
  }

  lemma PastEnd(cfg: Config, w: World, h: OpenFile, id: uint32, k: nat)
    requires h.pos > |h.entries|
    ensures Page(Shown(cfg, w.fs, h, k), h.pos, |h.entries|) == (h.pos, [])
    ensures Paged(cfg, w, h, id, k, h.pos, StatusReply(id, EOF, []))
  {
    var at: seq<nat> := [];
    assert Picks(cfg, w.fs, h, k, at, h.pos, h.pos);
  }

  lemma AskedAll(h: OpenFile, lo: nat, hi: nat)
    ensures AsksEach(h, lo, hi, EntryCalls(h, lo, hi))
  {
    hide JoinName, EntryCalls;
    var at := EntriesAsked(h, lo, hi);
  }

  /** READDIR shows, in order and at most 64 at a time, exactly the entries it passes
      whose names join and which the driver finds, each under its name with the
      attributes of the driver's answer about it; when it passes none it has passed
      them all, and says so. It asks about each entry whose name joins, once. */
  lemma ReaddirAnswered(cfg: Config, w: World, t: Table, id: uint32, tok: bytes, k: nat)
    requires |tok| <= 0x4_0000
    ensures Readdirred(cfg, w, t, id, tok, k, Serve(cfg, w, t, Wire.PacketOf(HandleRequest(12, id, tok)), k))
  {
    hide Serve, Paged, Page, EntryCalls, Wire.PacketOf, Ascii, Shown, AsksEach;
    Performs(cfg, w, t, HandleRequest(12, id, tok), k);
    if tok in t && t[tok].dir {
      var h := t[tok];
      AskedAll(h, h.pos, Page(Shown(cfg, w.fs, h, k), h.pos, |h.entries|).0);
      if h.pos <= |h.entries| {
        PageShown(cfg, w, h, id, k);
      } else {
        PastEnd(cfg, w, h, id, k);
      }
    }
  }
}

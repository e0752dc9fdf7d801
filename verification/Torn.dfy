/** A READDIR torn in two: with path calls let in beside data calls, another session's
    WRITE between the Stat calls of one reply. */
module Torn {
  import opened Bytes
  import opened Codec
  import opened Messages
  import opened Packets
  import opened Content
  import opened Paths
  import opened DataOps
  import opened Directory
  import opened Server
  import opened Pool
  import opened Grain
  import opened Views
  import opened Simulation
  import opened Linearity
  import opened Linearization
  import Crossing
  import Wire
  import Instances

  // ---------- an export with one file under two names ----------

  const PATH: bytes := Instances.PATH
  const TOKEN: bytes := Instances.TOKEN
  const NAMES: seq<bytes> := [Instances.Letters(1), Instances.Letters(2)]

  function SizeOf(fs: Fs): uint64 { if PATH in fs.files then |fs.files[PATH]| % 0x1_0000_0000_0000_0000 else 0 }

  /** A root directory that lists two names, and one file behind every path. */
  const DRIVER: Driver :=
    Instances.SameDriver(NoStat).(
      stat := (fs: Fs, p: bytes, n: nat, i: nat) =>
                Found(Stat(if p == ROOT then 0x41ED else 0x81A4, SizeOf(fs), None)),
      listDir := (fs: Fs, p: bytes, n: nat) => Yes(NAMES))

  const EXPORT := Config(false, 0, 0, true, DRIVER)

  const WORLD := Instances.FreshWorld([])

  const OPEN := Wire.PacketOf(Crossing.OpenIt(PATH))
  const OPENDIR := Wire.PacketOf(PathRequest(FXP_OPENDIR, 1, ROOT))
  const READDIR := Wire.PacketOf(HandleRequest(FXP_READDIR, 2, TOKEN))
  const WRITE := Wire.PacketOf(Write(1, TOKEN, 0, [9]))

  const OPENED := OpenFile(PATH, false, [], 0, Some(0), true, true)
  const LISTED := OpenFile(ROOT, true, NAMES, 0, None, false, false)

  // ---------- runs one move longer ----------

  /** Everything taken is answered and sent. */
  predicate AllDone(f: Fine)
  {
    && f.part == map[] && f.st.ends == [] && (forall k | k in f.views :: !f.views[k].open)
    && (forall i :: 0 <= i < |f.st.log| ==> f.st.log[i].sent && f.st.log[i].work.Answered?)
    && |f.st.out| == |f.st.ts|
  }

  /** A barrier that does not look, served and answered. */
  lemma FineAlone(cfg: Config, f0: Fine, moves: seq<Move>, s: nat, p: Packet) returns (moves': seq<Move>)
    requires FineRun(cfg, f0, moves) && AllDone(FineAfter(cfg, f0, moves)) && !Looks(p)
    requires var f := FineAfter(cfg, f0, moves); s < |f.st.ts| && !Prepare(cfg, f.st.ts[s], p).Run?
    ensures FineRun(cfg, f0, moves') && AllDone(FineAfter(cfg, f0, moves'))
    ensures var f, f' := FineAfter(cfg, f0, moves), FineAfter(cfg, f0, moves');
            var r := Serve(cfg, f.st.w, f.st.ts[s], p, |f.st.log|);
            && f'.st.w == r.w && f'.st.ts == f.st.ts[s := r.t] && f'.views == f.views
            && f'.st.log == f.st.log + [Entry(s, p, Answered(r.reply), true)]
  {
    hide FineRun, FineAfter, Serve, Prepare;
    var f := FineAfter(cfg, f0, moves);
    var n := |f.st.log|;
    FineExtends(cfg, f0, moves, By(Alone(s, p)));
    moves' := moves + [By(Alone(s, p))];
    var f1 := FineAfter(cfg, f0, moves');
    assert f1.st.log == f.st.log + [Entry(s, p, f1.st.log[n].work, false)];
    FineExtends(cfg, f0, moves', By(Send(n)));
    moves' := moves' + [By(Send(n))];
  }

  /** A request of session s that looks in two calls, with nothing beside it. */
  ghost predicate LooksTwice(cfg: Config, f: Fine, s: nat, p: Packet, t: Table, reply: Message)
  {
    && AllDone(f) && Looks(p) && s < |f.st.ts| && !Prepare(cfg, f.st.ts[s], p).Run? && |f.st.log| !in f.views
    && Serve(cfg, f.st.w, f.st.ts[s], p, |f.st.log|).calls != []
    && var fs := f.st.w.fs;
    && Onward(cfg, View(p, f.st.ts[s], f.st.w, [fs], true), |f.st.log|) == More
    && Onward(cfg, View(p, f.st.ts[s], f.st.w, [fs, fs], true), |f.st.log|) == Over(t, reply)
  }

  /** It has made both calls. */
  ghost predicate LookedTwice(f: Fine, f': Fine, s: nat, p: Packet)
  {
    var fs, n := f.st.w.fs, |f.st.log|;
    && s < |f.st.ts| && f'.st == f.st.(log := f.st.log + [Entry(s, p, Answered(UNKNOWN), false)]) && f'.part == f.part
    && f'.views == f.views[n := View(p, f.st.ts[s], f.st.w, [fs, fs], true)]
  }

  /** It is over, and its reply sent. */
  ghost predicate Listed(f: Fine, f': Fine, s: nat, p: Packet, t: Table, reply: Message)
  {
    && AllDone(f') && s < |f.st.ts| && f'.st.w == f.st.w && f'.st.ts == f.st.ts[s := t]
    && f'.views.Keys == f.views.Keys + {|f.st.log|} && f'.st.log == f.st.log + [Entry(s, p, Answered(reply), true)]
  }

  lemma FineBegins(cfg: Config, f0: Fine, moves: seq<Move>, s: nat, p: Packet, t: Table, reply: Message)
    returns (moves': seq<Move>)
    requires FineRun(cfg, f0, moves) && LooksTwice(cfg, FineAfter(cfg, f0, moves), s, p, t, reply)
    ensures FineRun(cfg, f0, moves') && LookedTwice(FineAfter(cfg, f0, moves), FineAfter(cfg, f0, moves'), s, p)
  {
    hide FineRun, FineAfter, Serve, Prepare, Onward, Completed, Touched, Looks;
    var f := FineAfter(cfg, f0, moves);
    var n := |f.st.log|;
    NothingPartly(f);
    FineExtends(cfg, f0, moves, Begin(s, p));
    moves' := moves + [Begin(s, p)];
    var f1 := FineAfter(cfg, f0, moves');
    assert f1.views[n] == View(p, f.st.ts[s], f.st.w, [f.st.w.fs], true) && InView(f1, n);
    FineExtends(cfg, f0, moves', Look(n));
    moves' := moves' + [Look(n)];
    var v := View(p, f.st.ts[s], f.st.w, [f.st.w.fs, f.st.w.fs], true);
    assert [f.st.w.fs] + [f.st.w.fs] == v.seen;
    assert f1.views[n := v] == f.views[n := v];
  }

  lemma FineLooks(cfg: Config, f0: Fine, moves: seq<Move>, s: nat, p: Packet, t: Table, reply: Message)
    returns (moves': seq<Move>)
    requires FineRun(cfg, f0, moves) && LooksTwice(cfg, FineAfter(cfg, f0, moves), s, p, t, reply)
    ensures FineRun(cfg, f0, moves') && Listed(FineAfter(cfg, f0, moves), FineAfter(cfg, f0, moves'), s, p, t, reply)
  {
    hide FineRun, FineAfter, Serve, Prepare, Onward, Completed, Touched, Looks;
    var f := FineAfter(cfg, f0, moves);
    var n := |f.st.log|;
    moves' := FineBegins(cfg, f0, moves, s, p, t, reply);
    var f2 := FineAfter(cfg, f0, moves');
    assert InView(f2, n) && f2.views[n] == View(p, f.st.ts[s], f.st.w, [f.st.w.fs, f.st.w.fs], true);
    FineExtends(cfg, f0, moves', Close(n));
    moves' := moves' + [Close(n)];
    var f3 := FineAfter(cfg, f0, moves');
    assert f3.st.log == f.st.log + [Entry(s, p, Answered(reply), false)];
    FineExtends(cfg, f0, moves', By(Send(n)));
    moves' := moves' + [By(Send(n))];
  }

  // ---------- what the packets do ----------

  lemma OpenServed()
    ensures var r := Serve(EXPORT, WORLD, map[], OPEN, 0);
            r.w.fs == WORLD.fs && r.t == map[TOKEN := OPENED]
    ensures !Prepare(EXPORT, map[], OPEN).Run? && !Looks(OPEN)
  {
    Instances.PathResolves();
    var st := EXPORT.drv.stat(WORLD.fs, PATH, 0, 0);
    assert st.Found? && !st.stat.IsDir() by { assert PATH != ROOT; }
    hide Clean, Serve, Instances.Letters, Ascii;
    Crossing.OpenServed(EXPORT, WORLD, PATH, TOKEN);
  }

  lemma RootResolves()
    ensures Clean(ROOT) == Some(ROOT)
  {
    CanonicalIsFixed(ROOT);
  }

  /** OPENDIR of the root under a driver that answers it as this one does. */
  lemma OpendirServed(c: Config, w: World, n: nat)
    requires c.drv.stat(w.fs, ROOT, n, 0).Found? && c.drv.stat(w.fs, ROOT, n, 0).stat.IsDir()
    requires c.drv.listDir(w.fs, ROOT, n) == Yes(NAMES) && c.drv.mint(n) == Some(TOKEN)
    ensures Serve(c, w, map[], OPENDIR, n) ==
            Res(w, map[TOKEN := LISTED], Handle(1, TOKEN), [CStat(ROOT), CListDir(ROOT)])
    ensures !Prepare(c, map[], OPENDIR).Run? && Looks(OPENDIR) && !Pages(map[], OPENDIR)
  {
    hide Clean, Encode, Decode, Ascii;
    RootResolves();
    DecodeEncode(PathRequest(FXP_OPENDIR, 1, ROOT));
    hide Clean, Encode, Decode, Ascii;
    assert Serve(c, w, map[], OPENDIR, n) == OpOpendir(c, w, map[], 1, ROOT, n);
  }

  lemma OpendirOnward(w: World, n: nat)
    ensures var fs := w.fs;
            && Onward(EXPORT, View(OPENDIR, map[], w, [fs], true), n) == More
            && Onward(EXPORT, View(OPENDIR, map[], w, [fs, fs], true), n) ==
                  Over(map[TOKEN := LISTED], Handle(1, TOKEN))
    ensures Serve(EXPORT, w, map[], OPENDIR, n).calls != []
    ensures !Prepare(EXPORT, map[], OPENDIR).Run? && Looks(OPENDIR)
  {
    var c := StatAt(EXPORT, w.fs);
    assert c.drv.stat(w.fs, ROOT, n, 0) == EXPORT.drv.stat(w.fs, ROOT, n, 0) == Found(Stat(0x41ED, SizeOf(w.fs), None));
    assert w.(fs := w.fs) == w;
    OpendirServed(c, w, n);
    OpendirServed(EXPORT, w, n);
    hide Serve, Encode, Ascii, Instances.Letters, Wire.PacketOf, Pages, StatAt, SizeOf;
  }

  lemma ReaddirDecodes()
    ensures READDIR.typ == FXP_READDIR && Looks(READDIR)
    ensures DecodeHandle(READDIR.typ, READDIR.payload) == Got(HandleRequest(FXP_READDIR, 2, TOKEN), [])
    ensures Decode(READDIR.typ, READDIR.payload) == Some(Got(HandleRequest(FXP_READDIR, 2, TOKEN), []))
  {
    DecodeEncode(HandleRequest(FXP_READDIR, 2, TOKEN));
    hide Encode, DecodeHandle, Ascii;
  }

  lemma ReaddirServed(c: Config, w: World, t: Table, n: nat)
    ensures Serve(c, w, t, READDIR, n) == OpReaddir(c, w, t, 2, TOKEN, n) && !Prepare(c, t, READDIR).Run?
  {
    ReaddirDecodes();
    hide Encode, Decode, DecodeHandle, OpReaddir, Ascii;
  }

  /** What is shown of an entry carries the size the file then had. */
  lemma SizeShown(fs: Fs, h: OpenFile, i: nat, n: nat)
    ensures var item := ItemAt(EXPORT, fs, h, i, n); item.Some? ==> item.value.attrs.size == SizeOf(fs)
    ensures Joins(h, i) ==> ItemAt(EXPORT, fs, h, i, n).Some?
  {
    hide JoinName, SizeOf;
  }

  /** At once, every entry of a reply has the same size. */
  lemma OneSize(w: World, t: Table, n: nat, a: NameItem)
    requires var m := Serve(EXPORT, w, t, READDIR, n).reply; m.Name? && a in m.items
    ensures a.attrs.size == SizeOf(w.fs)
  {
    ReaddirServed(EXPORT, w, t, n);
    hide Serve, Encode, Ascii, ItemAt, Collect, Page, SizeOf;
    var h := t[TOKEN];
    var look := Shown(EXPORT, w.fs, h, n);
    PageIsCollect(look, h.pos, |h.entries|);
    CollectMember(look, h.pos, Page(look, h.pos, |h.entries|).0, a);
    var i :| h.pos <= i < Page(look, h.pos, |h.entries|).0 && look(i) == Some(a);
    SizeShown(w.fs, h, i, n);
  }

  lemma PageIsCollect<T>(look: nat -> Option<T>, pos: nat, n: nat)
    requires Page(look, pos, n).1 != []
    ensures var (next, items) := Page(look, pos, n); pos <= next && items == Collect(look, pos, next)
  {
    hide Collect;
    if pos <= n {
      PageSteps(look, pos, n);
    }
  }

  lemma BothJoin()
    ensures |NAMES| == 2 && Joins(LISTED, 0) && Joins(LISTED, 1)
  {
    LettersJoin(1);
    LettersJoin(2);
  }

  lemma LettersJoin(n: nat)
    requires n > 0
    ensures JoinName(ROOT, Instances.Letters(n)).Some?
  {
    assert Instances.Letters(n)[0] == 97;
  }

  lemma ListingPages()
    ensures Pages(map[TOKEN := LISTED], READDIR) && Paged(map[TOKEN := LISTED], READDIR) == LISTED
  {
    ReaddirDecodes();
    BothJoin();
    hide DecodeHandle, Encode, Ascii, Instances.Letters;
  }

  lemma ReaddirCalls(w: World, n: nat)
    ensures Serve(EXPORT, w, map[TOKEN := LISTED], READDIR, n).calls != []
  {
    ReaddirServed(EXPORT, w, map[TOKEN := LISTED], n);
    BothJoin();
    hide Serve, Encode, Ascii, Instances.Letters, Page;
    PageSteps(Shown(EXPORT, w.fs, LISTED, n), 0, 2);
  }

  /** The two entries of the listing, each seen at its own moment. */
  lemma ReaddirOnward(w: World, first: Fs, second: Fs, n: nat)
    ensures var t := map[TOKEN := LISTED];
            && Onward(EXPORT, View(READDIR, t, w, [first], true), n) == More
            && var o := Onward(EXPORT, View(READDIR, t, w, [first, second], true), n);
            && o.Over? && o.reply.Name? && |o.reply.items| == 2
            && o.reply.items[0].attrs.size == SizeOf(first) && o.reply.items[1].attrs.size == SizeOf(second)
  {
    hide Pages, Paged, ItemAt, Encode, Ascii, Instances.Letters, SizeOf, Serve, DecodeHandle;
    ListingPages();
    BothJoin();
    SizeShown(first, LISTED, 0, n);
    SizeShown(second, LISTED, 1, n);
    ReaddirDecodes();
    var look := ItemsSeen(EXPORT, LISTED, n, [first, second]);
    assert look(0) == ItemAt(EXPORT, first, LISTED, 0, n) && look(1) == ItemAt(EXPORT, second, LISTED, 1, n);
    assert Collect(look, 2, 2) == [];
    assert Collect(look, 1, 2) == [look(1).value];
    assert Collect(look, 0, 2) == [look(0).value, look(1).value];
  }

  lemma WriteRuns()
    ensures Prepare(EXPORT, map[TOKEN := OPENED], WRITE) == Run(Job(1, WriteOp(PATH, 0, [9], true), Some(0), Shared))
  {
    assert |TOKEN| == 32;
    hide Prepare, Encode, Ascii, Instances.Letters;
    Crossing.WritePrepared(EXPORT, map[TOKEN := OPENED], 1, TOKEN, 0, [9]);
  }

  // ---------- the run ----------

  /** The file is open in session 1 and the directory in session 0. */
  ghost predicate OpenBoth(sessions: nat, f: Fine)
  {
    && AllDone(f) && |f.st.log| == 2 && f.st.w.fs == WORLD.fs && |f.st.ts| == sessions >= 2
    && f.st.ts[0] == map[TOKEN := LISTED] && f.st.ts[1] == map[TOKEN := OPENED] && 2 !in f.views && 3 !in f.views
  }

  lemma BothOpen(sessions: nat) returns (moves: seq<Move>)
    requires sessions >= 2
    ensures FineRun(EXPORT, FineStart(WORLD, sessions), moves)
    ensures OpenBoth(sessions, FineAfter(EXPORT, FineStart(WORLD, sessions), moves))
  {
    hide Serve, Prepare, Encode, Onward, Apply, Allowed, Advance;
    var f0 := FineStart(WORLD, sessions);
    FineNone(EXPORT, f0);
    assert AllDone(f0) && f0.st.ts[0] == f0.st.ts[1] == map[] && f0.st.w == WORLD && f0.st.log == []
           && f0.views == map[];
    OpenServed();
    hide Ascii, Instances.Letters, Wire.PacketOf, FineRun, FineAfter, FineStart, Looks;
    moves := FineAlone(EXPORT, f0, [], 1, OPEN);
    var f1 := FineAfter(EXPORT, f0, moves);
    OpendirOnward(f1.st.w, 1);
    moves := FineLooks(EXPORT, f0, moves, 0, OPENDIR, map[TOKEN := LISTED], Handle(1, TOKEN));
  }

  /** A looking request of session 0 makes its first call; then a job of session 1
      that shares the lock is taken and let into the driver. */
  lemma Beside(cfg: Config, f0: Fine, moves: seq<Move>, rd: Packet, wr: Packet, job: Job) returns (moves': seq<Move>)
    requires cfg.pathConcurrent && FineRun(cfg, f0, moves) && AllDone(FineAfter(cfg, f0, moves))
    requires var f := FineAfter(cfg, f0, moves);
             && |f.st.log| == 2 && |f.st.ts| >= 2 && Looks(rd) && !Prepare(cfg, f.st.ts[0], rd).Run?
             && Serve(cfg, f.st.w, f.st.ts[0], rd, 2).calls != []
             && Prepare(cfg, f.st.ts[1], wr) == Run(job) && job.lock == Shared
    ensures FineRun(cfg, f0, moves')
    ensures var f, f' := FineAfter(cfg, f0, moves), FineAfter(cfg, f0, moves');
            && |f'.st.log| == 4 && f'.st.w.fs == f.st.w.fs && |f'.st.ts| == |f.st.ts| && f'.part == map[]
            && 2 in f'.views && f'.views[2] == View(rd, f.st.ts[0], f'.views[2].base, [f.st.w.fs], true)
            && f'.st.log[2] == Entry(0, rd, Answered(UNKNOWN), false)
            && f'.st.log[3] == Entry(1, wr, InFlight(job, Running), false)
  {
    hide Serve, Prepare, FineRun, FineAfter, Completed, Looks, Onward;
    var f := FineAfter(cfg, f0, moves);
    FineExtends(cfg, f0, moves, Begin(0, rd));
    moves' := moves + [Begin(0, rd)];
    var f1 := FineAfter(cfg, f0, moves');
    assert f1.st.log[2].session == 0 && !Looking(f1, 1);
    FineExtends(cfg, f0, moves', By(Arrive(1, wr)));
    moves' := moves' + [By(Arrive(1, wr))];
    var f2 := FineAfter(cfg, f0, moves');
    assert f2.st.log[3] == Entry(1, wr, InFlight(job, Waiting), false) && f2.views == f1.views;
    assert Unopposed(f2.st.log, 3) && LockFree(cfg, f2.st, Shared) && Free(cfg, f2, Shared);
    FineExtends(cfg, f0, moves', By(Enter(3)));
    moves' := moves' + [By(Enter(3))];
  }

  /** The job takes effect, and the request makes its second call and is over. */
  lemma Lands(cfg: Config, f0: Fine, moves: seq<Move>, fs: Fs) returns (moves': seq<Move>)
    requires FineRun(cfg, f0, moves)
    requires var f := FineAfter(cfg, f0, moves);
             && |f.st.log| == 4 && f.st.log[3].work.InFlight? && f.st.log[3].work.phase.Running? && InView(f, 2)
             && |f.views[2].seen| == 1 && f.st.log[2].session < |f.st.ts|
             && var f', v := Touched(f, 3), f.views[2];
             && f'.st.w.fs == fs && f'.views == f.views && f'.st.ts == f.st.ts && |f'.st.log| == 4
             && f'.st.log[2] == f.st.log[2]
             && Onward(cfg, v, 2) == More && Onward(cfg, v.(seen := v.seen + [fs]), 2).Over?
    ensures FineRun(cfg, f0, moves')
    ensures var f, f' := FineAfter(cfg, f0, moves), FineAfter(cfg, f0, moves');
            && |f'.st.log| == 4 && f'.st.log[2].packet == f.st.log[2].packet && !InView(f', 2)
            && var v := f.views[2];
            f'.st.log[2].work == Answered(Onward(cfg, v.(seen := v.seen + [fs]), 2).reply)
  {
    hide FineRun, FineAfter, Onward, Touched, Serve, Prepare, Legal;
    FineExtends(cfg, f0, moves, Touch(3));
    moves' := moves + [Touch(3)];
    FineExtends(cfg, f0, moves', Look(2));
    moves' := moves' + [Look(2)];
    FineExtends(cfg, f0, moves', Close(2));
    moves' := moves' + [Close(2)];
  }

  /** The file after the WRITE. */
  const GROWN: Fs := WORLD.fs.(files := WORLD.fs.files[PATH := [9]])

  lemma Sizes()
    ensures SizeOf(WORLD.fs) == 0 && SizeOf(GROWN) == 1
  {
  }

  lemma WriteTouches(f: Fine)
    requires |f.st.log| == 4 && f.st.w.fs == WORLD.fs && f.part == map[]
    requires f.st.log[3].work == InFlight(Job(1, WriteOp(PATH, 0, [9], true), Some(0), Shared), Running)
    ensures var f' := Touched(f, 3);
            && f'.st.w.fs == GROWN && f'.views == f.views && f'.st.ts == f.st.ts && |f'.st.log| == 4
            && f'.st.log[2] == f.st.log[2]
  {
    hide Encode, Ascii, Instances.Letters, Wire.PacketOf;
    assert Splice([], 0, [9]) == [9];
  }

  lemma {:induction false} RepliesServe(cfg: Config, w: World, sessions: nat, log: seq<Entry>, order: seq<Instant>,
                                        k: nat)
    requires k in OneByOne(cfg, w, sessions, log, order).replies
    ensures k < |log|
    ensures exists w', t ::
              OneByOne(cfg, w, sessions, log, order).replies[k] == Serve(cfg, w', t, log[k].packet, k).reply
  {
    hide Serve;
    if order != [] {
      var prev := OneByOne(cfg, w, sessions, log, order[..|order| - 1]);
      if k in prev.replies {
        RepliesServe(cfg, w, sessions, log, order[..|order| - 1], k);
      }
    }
  }

  /** Two sizes in one reply: no order of the requests gives it. */
  lemma TwoSizes(w: World, sessions: nat, f: Fine, order: seq<Instant>)
    requires |f.st.log| > 2 && f.st.log[2].packet == READDIR && f.st.log[2].work.Answered? && !InView(f, 2)
    requires var m := f.st.log[2].work.reply;
             m.Name? && |m.items| == 2 && m.items[0].attrs.size != m.items[1].attrs.size
    ensures !InOneOrder(EXPORT, w, sessions, f, order)
  {
    hide OneByOne, Serve, Completed, Respects, Encode, Ascii, SizeOf;
    if InOneOrder(EXPORT, w, sessions, f, order) {
      var m := f.st.log[2].work.reply;
      RepliesServe(EXPORT, w, sessions, f.st.log, order, 2);
      var w', t :| m == Serve(EXPORT, w', t, READDIR, 2).reply;
      OneSize(w', t, 2, m.items[0]);
      OneSize(w', t, 2, m.items[1]);
    }
  }

  /** Entry 2, a READDIR, was answered with two sizes of one file; no order of the
      requests gives that reply. */
  ghost predicate Shows(sessions: nat, f: Fine)
  {
    && |f.st.log| == 4 && f.st.log[2].packet == READDIR && f.st.log[2].work.Answered? && !InView(f, 2)
    && var m := f.st.log[2].work.reply;
    && m.Name? && |m.items| == 2 && m.items[0].attrs.size == 0 && m.items[1].attrs.size == 1
    && forall order :: !InOneOrder(EXPORT, WORLD, sessions, f, order)
  }

  /** One file under two names, listed while another session writes to it, with path
      calls let in beside data calls. */
  lemma TornReaddir(sessions: nat) returns (moves: seq<Move>)
    requires sessions >= 2
    ensures EXPORT.pathConcurrent && FineRun(EXPORT, FineStart(WORLD, sessions), moves)
    ensures Shows(sessions, FineAfter(EXPORT, FineStart(WORLD, sessions), moves))
  {
    hide Serve, Prepare, FineRun, FineAfter, FineStart, Encode, Ascii, Instances.Letters, Wire.PacketOf, Looks, Shows,
      AllDone;
    var f0 := FineStart(WORLD, sessions);
    var both := BothOpen(sessions);
    var f := FineAfter(EXPORT, f0, both);
    WriteRuns();
    ReaddirDecodes();
    ReaddirCalls(f.st.w, 2);
    ReaddirServed(EXPORT, f.st.w, f.st.ts[0], 2);
    var beside := Beside(EXPORT, f0, both, READDIR, WRITE, Job(1, WriteOp(PATH, 0, [9], true), Some(0), Shared));
    moves := Finally(sessions, beside);
  }

  /** The READDIR has looked at one name of two; the WRITE is in the driver. */
  ghost predicate HalfListed(sessions: nat, f: Fine)
  {
    && |f.st.log| == 4 && f.st.w.fs == WORLD.fs && |f.st.ts| == sessions && f.part == map[]
    && 2 in f.views && f.views[2] == View(READDIR, map[TOKEN := LISTED], f.views[2].base, [WORLD.fs], true)
    && f.st.log[2] == Entry(0, READDIR, Answered(UNKNOWN), false)
    && f.st.log[3].work == InFlight(Job(1, WriteOp(PATH, 0, [9], true), Some(0), Shared), Running)
  }

  lemma Finally(sessions: nat, beside: seq<Move>) returns (moves: seq<Move>)
    requires sessions >= 2
    requires FineRun(EXPORT, FineStart(WORLD, sessions), beside)
    requires HalfListed(sessions, FineAfter(EXPORT, FineStart(WORLD, sessions), beside))
    ensures FineRun(EXPORT, FineStart(WORLD, sessions), moves)
    ensures Shows(sessions, FineAfter(EXPORT, FineStart(WORLD, sessions), moves))
  {
    hide FineRun, FineAfter, FineStart, Onward, Touched, InOneOrder, SizeOf, Encode, Ascii, Instances.Letters,
      Wire.PacketOf;
    var f0 := FineStart(WORLD, sessions);
    var f := FineAfter(EXPORT, f0, beside);
    Sizes();
    WriteTouches(f);
    ReaddirOnward(f.views[2].base, WORLD.fs, GROWN, 2);
    assert [WORLD.fs] + [GROWN] == [WORLD.fs, GROWN];
    moves := Lands(EXPORT, f0, beside, GROWN);
    var f' := FineAfter(EXPORT, f0, moves);
    forall order ensures !InOneOrder(EXPORT, WORLD, sessions, f', order) {
      TwoSizes(WORLD, sessions, f', order);
    }
  }

  // ---------- exactly when there is an order ----------

  /** Every run of so many sessions, for every driver and every world, with path calls
      shared or not, is that of some order of the requests. */
  ghost predicate AlwaysOrdered(shared: bool, sessions: nat)
  {
    forall cfg: Config, w: World, moves: seq<Move> ::
      cfg.pathConcurrent == shared && FineRun(cfg, FineStart(w, sessions), moves) ==>
        exists order :: InOneOrder(cfg, w, sessions, FineAfter(cfg, FineStart(w, sessions), moves), order)
  }

  lemma OrderedWhole(cfg: Config, w: World, sessions: nat, moves: seq<Move>)
    requires FineRun(cfg, FineStart(w, sessions), moves) && (!cfg.pathConcurrent || sessions <= 1)
    ensures InOneOrder(cfg, w, sessions, FineAfter(cfg, FineStart(w, sessions), moves),
                       Moments(cfg, w, sessions, moves))
  {
    hide FineRun, FineAfter, FineStart, InOneOrder, Moments;
    LinearizableAlways(cfg, w, sessions, moves);
    assert moves[..|moves|] == moves;
  }

  /** That is so if and only if the lock is exclusive for path calls or there is at most
      one session. */
  lemma OrderedExactly(shared: bool, sessions: nat)
    ensures AlwaysOrdered(shared, sessions) <==> !shared || sessions <= 1
  {
    hide FineRun, FineAfter, FineStart, InOneOrder, Moments;
    if !shared || sessions <= 1 {
      forall cfg: Config, w: World, moves: seq<Move>
        | cfg.pathConcurrent == shared && FineRun(cfg, FineStart(w, sessions), moves)
        ensures exists order :: InOneOrder(cfg, w, sessions, FineAfter(cfg, FineStart(w, sessions), moves), order)
      {
        OrderedWhole(cfg, w, sessions, moves);
      }
    } else {
      var moves := TornReaddir(sessions);
    }
  }
}

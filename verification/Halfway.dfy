/** A WRITE seen half done: with path calls let in beside data calls, the single call of a
    STAT between the two bytes of another session's WRITE. */
module Halfway {
  import opened Bytes
  import opened Codec
  import opened Messages
  import opened Packets
  import opened Content
  import opened Paths
  import opened DataOps
  import opened Server
  import opened Lifecycle
  import opened Independence
  import opened Reordering
  import opened Pool
  import opened Grain
  import opened Views
  import opened Stillness
  import opened Linearity
  import opened Linearization
  import opened Torn
  import Crossing
  import Wire
  import Instances

  const TWO: bytes := [9, 9]
  const WRITE_TWO := Wire.PacketOf(Write(1, TOKEN, 0, TWO))
  const STAT := Wire.PacketOf(PathRequest(FXP_STAT, 2, PATH))
  const JOB := Job(1, WriteOp(PATH, 0, TWO, true), Some(0), Shared)

  // ---------- what the packets do, in any order and any table ----------

  /** The file is empty or holds both bytes. */
  predicate Whole(fs: Fs) { PATH in fs.files && (fs.files[PATH] == [] || fs.files[PATH] == TWO) }

  lemma WriteWhole(files: Files, op: Op)
    requires Whole(Fs(files, Meta({}, map[], map[]))) && op.WriteOp? && op.off == 0 && op.data == TWO
    ensures Whole(Fs(Act(files, op).0, Meta({}, map[], map[])))
  {
    hide Instances.Letters;
    assert Splice([], 0, TWO) == TWO && Splice(TWO, 0, TWO) == TWO;
  }

  lemma WriteKeeps(w: World, t: Table, n: nat)
    requires Whole(w.fs)
    ensures Whole(Serve(EXPORT, w, t, WRITE_TWO, n).w.fs)
  {
    assert |TOKEN| == 32;
    hide Prepare, Encode, Ascii, Instances.Letters, Act, Render, Dispatch, Wire.PacketOf;
    Crossing.WritePrepared(EXPORT, t, 1, TOKEN, 0, TWO);
    var r := Prepare(EXPORT, t, WRITE_TWO);
    if r.Run? {
      WriteWhole(w.fs.files, r.job.op);
    }
  }

  lemma OpenKeeps(w: World, t: Table, n: nat)
    ensures Serve(EXPORT, w, t, OPEN, n).w.fs == w.fs
  {
    DecodeEncode(Crossing.OpenIt(PATH));
    hide Decode, Encode, Ascii, Instances.Letters, OpOpen;
    assert Serve(EXPORT, w, t, OPEN, n) == OpOpen(EXPORT, w, t, Crossing.OpenIt(PATH), n);
    OpOpenKeeps(w, t, n);
  }

  lemma OpOpenKeeps(w: World, t: Table, n: nat)
    ensures OpOpen(EXPORT, w, t, Crossing.OpenIt(PATH), n).w.fs == w.fs
  {
    hide Clean, Has, Full, Ascii, Instances.Letters, SizeOf;
  }

  lemma StatDecodes()
    ensures STAT.typ == FXP_STAT && Looks(STAT) && !Pages(map[], STAT)
    ensures Decode(STAT.typ, STAT.payload) == Some(Got(PathRequest(FXP_STAT, 2, PATH), []))
  {
    hide Encode, Ascii, Instances.Letters;
    DecodeEncode(PathRequest(FXP_STAT, 2, PATH));
  }

  /** STAT tells the size of the file. */
  lemma StatTells(c: Config, w: World, t: Table, n: nat)
    requires forall p :: c.drv.stat(w.fs, p, n, 0) == EXPORT.drv.stat(w.fs, p, n, 0)
    ensures var r := Serve(c, w, t, STAT, n);
            r.w == w && r.t == t && r.reply.Attrs? && r.reply.attrs.size == SizeOf(w.fs) && |r.calls| == 1
  {
    hide Encode, Ascii, Instances.Letters, Decode, Clean, OpStat, Dispatch, Wire.PacketOf;
    StatDecodes();
    StatServes(c, w, t, n);
    Instances.PathResolves();
    OpStatTells(c, w, t, n);
  }

  lemma StatServes(c: Config, w: World, t: Table, n: nat)
    ensures Serve(c, w, t, STAT, n) == OpStat(c, w, t, 2, PATH, n)
  {
    hide Encode, Ascii, Instances.Letters, Decode, Clean, OpStat;
    StatDecodes();
  }

  lemma OpStatTells(c: Config, w: World, t: Table, n: nat)
    requires Clean(PATH) == Some(PATH) && forall p :: c.drv.stat(w.fs, p, n, 0) == EXPORT.drv.stat(w.fs, p, n, 0)
    ensures var r := OpStat(c, w, t, 2, PATH, n);
            r.w == w && r.t == t && r.reply.Attrs? && r.reply.attrs.size == SizeOf(w.fs) && |r.calls| == 1
  {
    hide Clean, SizeOf, Instances.Letters, Ascii;
  }

  // ---------- no order ----------

  /** Along every order of these requests the file is whole, and every STAT saw it so. */
  lemma {:induction false} AllWhole(w: World, sessions: nat, log: seq<Entry>, order: seq<Instant>)
    requires Whole(w.fs) && forall k :: 0 <= k < |log| ==> log[k].packet in {OPEN, WRITE_TWO, STAT}
    ensures var turn := OneByOne(EXPORT, w, sessions, log, order);
            && Whole(turn.w.fs)
            && forall k: nat :: k in turn.replies && k < |log| && log[k].packet == STAT ==>
                 turn.replies[k].Attrs? && turn.replies[k].attrs.size in {0, 2}
  {
    hide Serve, Whole, Ascii, Instances.Letters, Encode, Wire.PacketOf;
    if order != [] {
      var n := |order| - 1;
      AllWhole(w, sessions, log, order[..n]);
      var prev, m := OneByOne(EXPORT, w, sessions, log, order[..n]), order[n];
      if m.Effect? && m.k < |log| && log[m.k].session < |prev.ts| {
        OneWhole(prev.w, prev.ts[log[m.k].session], log[m.k].packet, m.k);
      }
    }
  }

  lemma OneWhole(w: World, t: Table, p: Packet, n: nat)
    requires Whole(w.fs) && p in {OPEN, WRITE_TWO, STAT}
    ensures var r := Serve(EXPORT, w, t, p, n);
            Whole(r.w.fs) && (p == STAT ==> r.reply.Attrs? && r.reply.attrs.size in {0, 2})
  {
    hide Serve, Ascii, Instances.Letters, Encode, Wire.PacketOf;
    if p == OPEN {
      OpenKeeps(w, t, n);
    } else if p == WRITE_TWO {
      WriteKeeps(w, t, n);
    }
    if p == STAT {
      StatTells(EXPORT, w, t, n);
    }
  }

  // ---------- the run ----------

  lemma WriteTwoRuns()
    ensures Prepare(EXPORT, map[TOKEN := OPENED], WRITE_TWO) == Run(JOB)
  {
    assert |TOKEN| == 32;
    hide Prepare, Encode, Ascii, Instances.Letters;
    Crossing.WritePrepared(EXPORT, map[TOKEN := OPENED], 1, TOKEN, 0, TWO);
  }

  /** The file is open in session 1. */
  ghost predicate OpenOne(sessions: nat, f: Fine)
  {
    && AllDone(f) && |f.st.log| == 1 && f.st.log[0].session == 1 && f.st.log[0].packet == OPEN && f.views == map[]
    && f.st.w.fs == WORLD.fs && |f.st.ts| == sessions >= 2 && f.st.ts[0] == map[] && f.st.ts[1] == map[TOKEN := OPENED]
  }

  lemma FileOpen(sessions: nat) returns (moves: seq<Move>)
    requires sessions >= 2
    ensures FineRun(EXPORT, FineStart(WORLD, sessions), moves)
    ensures OpenOne(sessions, FineAfter(EXPORT, FineStart(WORLD, sessions), moves))
  {
    hide Serve, Prepare, Onward, Advance;
    var f0 := FineStart(WORLD, sessions);
    FineNone(EXPORT, f0);
    assert AllDone(f0) && f0.st.ts[0] == f0.st.ts[1] == map[] && f0.st.w == WORLD && f0.st.log == []
           && f0.views == map[];
    hide Serve, Prepare, Encode, Ascii, Instances.Letters, Wire.PacketOf, FineRun, FineAfter, FineStart, Looks;
    Torn.OpenServed();
    moves := FineAlone(EXPORT, f0, [], 1, OPEN);
  }

  /** A job of session 1 that shares the lock is taken and let into the driver. */
  lemma LetIn(cfg: Config, f0: Fine, moves: seq<Move>, wr: Packet, job: Job) returns (moves': seq<Move>)
    requires FineRun(cfg, f0, moves) && AllDone(FineAfter(cfg, f0, moves))
    requires var f := FineAfter(cfg, f0, moves);
             && |f.st.log| == 1 && f.views == map[] && |f.st.ts| >= 2
             && Prepare(cfg, f.st.ts[1], wr) == Run(job) && job.lock == Shared
    ensures FineRun(cfg, f0, moves')
    ensures var f, f' := FineAfter(cfg, f0, moves), FineAfter(cfg, f0, moves');
            && f'.st.w == f.st.w && f'.st.ts == f.st.ts && f'.st.ends == [] && f'.views == map[] && f'.part == map[]
            && f'.st.log == f.st.log + [Entry(1, wr, InFlight(job, Running), false)]
  {
    hide Serve, Prepare, FineRun, FineAfter;
    var f := FineAfter(cfg, f0, moves);
    assert forall s: nat :: !Looking(f, s);
    FineExtends(cfg, f0, moves, By(Arrive(1, wr)));
    moves' := moves + [By(Arrive(1, wr))];
    var f1 := FineAfter(cfg, f0, moves');
    assert f1.st.log == f.st.log + [Entry(1, wr, InFlight(job, Waiting), false)] && f1.views == f.views;
    assert Unopposed(f1.st.log, 1) && LockFree(cfg, f1.st, Shared) && Free(cfg, f1, Shared);
    FineExtends(cfg, f0, moves', By(Enter(1)));
    moves' := moves' + [By(Enter(1))];
  }

  /** A job of session 1 is in the driver; with its next byte the files are fs, and then
      session 0 may ask with one call. */
  ghost predicate MayAsk(cfg: Config, f: Fine, rd: Packet, fs: Fs)
  {
    && cfg.pathConcurrent && |f.st.log| == 2 && f.views == map[] && f.st.ends == [] && |f.st.ts| >= 2 && Looks(rd)
    && f.st.log[0].session == 1 && f.st.log[0].work.Answered? && f.st.log[1].session == 1
    && f.st.log[1].work.InFlight? && f.st.log[1].work.job.lock == Shared && f.st.log[1].work.phase.Running?
    && var f1 := Touched(f, 1);
    && f1.st == f.st.(w := f1.st.w) && f1.views == map[] && f1.st.w.fs == fs
    && !Prepare(cfg, f.st.ts[0], rd).Run? && Serve(cfg, f1.st.w, f.st.ts[0], rd, 2).calls != []
    && forall base :: Onward(cfg, View(rd, f.st.ts[0], base, [fs], true), 2).Over?
  }

  ghost predicate AnsweredFrom(cfg: Config, work: Work, v: View)
  {
    v.seen != [] && Onward(cfg, v, 2).Over? && work == Answered(Onward(cfg, v, 2).reply)
  }

  /** It has asked, and is answered. */
  ghost predicate AskedHalfway(cfg: Config, f: Fine, f': Fine, rd: Packet, fs: Fs)
  {
    && |f.st.ts| >= 2 && |f'.st.log| == 3 && f'.st.log[..2] == f.st.log && f'.st.log[2].packet == rd && 2 in f'.views
    && !f'.views[2].open && f'.views[2].seen == [fs]
    && exists base :: AnsweredFrom(cfg, f'.st.log[2].work, View(rd, f.st.ts[0], base, [fs], true))
  }

  /** The job moves one byte; then session 0 asks with one call. */
  lemma AsksHalfway(cfg: Config, f0: Fine, moves: seq<Move>, rd: Packet, fs: Fs) returns (moves': seq<Move>)
    requires FineRun(cfg, f0, moves) && MayAsk(cfg, FineAfter(cfg, f0, moves), rd, fs)
    ensures FineRun(cfg, f0, moves') && AskedHalfway(cfg, FineAfter(cfg, f0, moves), FineAfter(cfg, f0, moves'), rd, fs)
  {
    hide FineRun, FineAfter, Onward, Touched, Serve, Prepare, Looks, Completed;
    var f := FineAfter(cfg, f0, moves);
    FineExtends(cfg, f0, moves, Touch(1));
    moves' := moves + [Touch(1)];
    var f1 := FineAfter(cfg, f0, moves');
    assert Free(cfg, f1, PathLock);
    FineExtends(cfg, f0, moves', Begin(0, rd));
    moves' := moves' + [Begin(0, rd)];
    var f2 := FineAfter(cfg, f0, moves');
    assert f2.views[2] == View(rd, f.st.ts[0], Completed(f1), [fs], true) && InView(f2, 2);
    FineExtends(cfg, f0, moves', Close(2));
    moves' := moves' + [Close(2)];
    assert AnsweredFrom(cfg, FineAfter(cfg, f0, moves').st.log[2].work, f2.views[2]);
  }

  /** The file with one byte of two. */
  const HALF: Fs := WORLD.fs.(files := WORLD.fs.files[PATH := [9]])

  lemma HalfTouched(f: Fine)
    requires |f.st.log| == 2 && f.st.w.fs == WORLD.fs && f.part == map[] && f.st.log[1].work == InFlight(JOB, Running)
    ensures var f' := Touched(f, 1); f'.st == f.st.(w := f'.st.w) && f'.views == f.views && f'.st.w.fs == HALF
  {
    hide Instances.Letters;
    assert Splice([], 0, [9]) == [9];
  }

  lemma HalfTold(base: World)
    ensures var o := Onward(EXPORT, View(STAT, map[], base, [HALF], true), 2);
            o.Over? && o.reply.Attrs? && o.reply.attrs.size == 1
  {
    hide Serve, Encode, Ascii, Instances.Letters, Wire.PacketOf, Pages;
    assert SizeOf(HALF) == 1;
    StatDecodes();
    StatTells(StatAt(EXPORT, HALF), base.(fs := HALF), map[], 2);
  }

  lemma HalfAsks(w: World)
    ensures Serve(EXPORT, w, map[], STAT, 2).calls != [] && !Prepare(EXPORT, map[], STAT).Run?
  {
    StatDecodes();
    StatTells(EXPORT, w, map[], 2);
  }

  /** Entry 2, a STAT that made one call, was told of a file of one byte; no order of the
      requests gives that reply. */
  ghost predicate ShowsHalf(sessions: nat, f: Fine)
  {
    && |f.st.log| == 3 && f.st.log[2].packet == STAT && f.st.log[2].work.Answered? && 2 in f.views
    && !f.views[2].open && |f.views[2].seen| == 1
    && var m := f.st.log[2].work.reply;
    && m.Attrs? && m.attrs.size == 1
    && forall order :: !InOneOrder(EXPORT, WORLD, sessions, f, order)
  }

  lemma NoOrder(sessions: nat, f: Fine, order: seq<Instant>)
    requires |f.st.log| == 3 && f.st.log[0].packet == OPEN && f.st.log[1].packet == WRITE_TWO
    requires f.st.log[2].packet == STAT
    requires f.st.log[2].work.Answered? && !InView(f, 2)
    requires f.st.log[2].work.reply.Attrs? && f.st.log[2].work.reply.attrs.size == 1
    ensures !InOneOrder(EXPORT, WORLD, sessions, f, order)
  {
    hide Serve, Encode, Completed;
    assert Whole(WORLD.fs);
    hide OneByOne, Serve, Completed, Respects, Encode, Ascii, Whole, Instances.Letters, Wire.PacketOf;
    AllWhole(WORLD, sessions, f.st.log, order);
  }

  /** A STAT beside another session's WRITE of two bytes. */
  lemma TornStat(sessions: nat) returns (moves: seq<Move>)
    requires sessions >= 2
    ensures FineRun(EXPORT, FineStart(WORLD, sessions), moves)
    ensures ShowsHalf(sessions, FineAfter(EXPORT, FineStart(WORLD, sessions), moves))
  {
    hide FineRun, FineAfter, FineStart, Onward, Touched, InOneOrder, Encode, Ascii, Instances.Letters, Wire.PacketOf,
      Serve, Prepare, Looks, Decode;
    assert EXPORT.pathConcurrent && JOB.lock == Shared;
    hide FineRun, FineAfter, FineStart, Onward, Touched, InOneOrder, Encode, Ascii, Instances.Letters, Wire.PacketOf,
      Serve, Prepare, Looks;
    var f0 := FineStart(WORLD, sessions);
    var first := FileOpen(sessions);
    WriteTwoRuns();
    var inside := LetIn(EXPORT, f0, first, WRITE_TWO, JOB);
    var f := FineAfter(EXPORT, f0, inside);
    HalfTouched(f);
    HalfAsks(Touched(f, 1).st.w);
    StatDecodes();
    forall base ensures Onward(EXPORT, View(STAT, map[], base, [HALF], true), 2).Over? {
      HalfTold(base);
    }
    moves := AsksHalfway(EXPORT, f0, inside, STAT, HALF);
    var f' := FineAfter(EXPORT, f0, moves);
    var base :| AnsweredFrom(EXPORT, f'.st.log[2].work, View(STAT, map[], base, [HALF], true));
    HalfTold(base);
    assert f'.st.log[0] == f'.st.log[..2][0] && f'.st.log[1] == f'.st.log[..2][1];
    forall order ensures !InOneOrder(EXPORT, WORLD, sessions, f', order) {
      NoOrder(sessions, f', order);
    }
  }
}

/** Whole runs at the grain of the driver, and when they are runs of the server whose
    requests take effect at once under the very same driver. */
module Atomicity {
  import opened Bytes
  import opened Codec
  import opened Messages
  import opened Packets
  import opened Paths
  import opened DataOps
  import opened Directory
  import opened Server
  import opened Lifecycle
  import opened Listing
  import opened Independence
  import opened Reordering
  import opened Pool
  import opened Runs
  import opened DriverUse
  import opened Schedules
  import opened Grain
  import opened Views
  import opened Refinement
  import opened Simulation

  // ---------- the simulation of a run ----------

  /** The move is nothing, or one step, and keeps everything. */
  ghost predicate Matched(cfg: Config, c': Config, f: Fine, g: State, mv: Move)
  {
    var add := Effected(f, mv);
    && |add| <= 1 && (add == [] ==> Stays(cfg, c', f, g, mv))
    && (|add| == 1 ==> Follows(cfg, c', f, g, mv, add[0]))
  }

  /** After the move, too, the answers are explained. */
  ghost predicate ExplainsAfter(cfg: Config, c': Config, f: Fine, mv: Move)
  {
    && Allowed(cfg, f, mv)
    && var f' := Advance(cfg, f, mv); Explained(cfg, c', f')
  }

  lemma RelMove(cfg: Config, c': Config, f: Fine, g: State, mv: Move)
    requires ExplainsAfter(cfg, c', f, mv) && Inv(cfg, f) && Rel(c', f, g) && Sound(g) && Excludes(c', g)
    ensures Matched(cfg, c', f, g, mv)
  {
    hide Inv, Rel, Sound, Excludes, Explained, Alike, Touched, Legal, Apply, Serve, Prepare, Onward, Completed,
      Follows, Stays;
    var f' := Advance(cfg, f, mv);
    ExplainedAlike(cfg, c', f');
    match mv
    case By(step) =>
      match step {
        case Arrive(s, p) => RelArrive(cfg, c', f, g, s, p);
        case Enter(k) => RelEnter(cfg, c', f, g, k);
        case Leave(k) => RelLeave(cfg, c', f, g, k);
        case Send(k) => RelSend(cfg, c', f, g, k);
        case Alone(s, p) =>
          AloneGrows(cfg, c', f, s, p);
          RelAlone(cfg, c', f, g, s, p);
        case End(s, order) => RelEnd(cfg, c', f, g, s, order);
        case Do(_) =>
      }
    case Touch(k) => TouchMatched(cfg, c', f, g, k);
    case Begin(s, p) => RelBegin(cfg, c', f, g, s, p);
    case Look(k) => RelLook(cfg, c', f, g, k);
    case Close(k) =>
      ClosedAnswer(cfg, c', f, k);
      RelClose(cfg, c', f, g, k);
  }

  lemma ExplainedAlike(cfg: Config, c': Config, f: Fine)
    requires Explained(cfg, c', f)
    ensures Alike(cfg, c')
  {
    hide Serve, AnsweredAs;
  }

  lemma TouchMatched(cfg: Config, c': Config, f: Fine, g: State, k: nat)
    requires AtWork(f, k) && Inv(cfg, f) && Rel(c', f, g) && Sound(g) && Excludes(c', g)
    ensures Matched(cfg, c', f, g, Touch(k))
  {
    hide Rel, Sound, Excludes, Parts, Viewed, Touched, Legal, Apply, Serve, Prepare, Onward, TakesEffect;
    var add := RelTouch(cfg, c', f, g, k);
    TouchKeepsViews(cfg, f, k);
  }

  lemma AloneGrows(cfg: Config, c': Config, f: Fine, s: nat, p: Packet)
    requires ExplainsAfter(cfg, c', f, By(Alone(s, p)))
    ensures ExplainsNext(cfg, c', f)
  {
    hide Serve, Prepare, Explains;
  }

  lemma TouchKeepsViews(cfg: Config, f: Fine, k: nat)
    requires Inv(cfg, f) && AtWork(f, k) && Parts(Touched(f, k))
    ensures Inv(cfg, Touched(f, k))
  {
    hide Parts, ViewSound;
    TouchOnly(f, k);
    hide Touched;
    ViewsStill(cfg, f, Touched(f, k));
  }

  lemma ClosedAnswer(cfg: Config, c': Config, f: Fine, k: nat)
    requires ExplainsAfter(cfg, c', f, Close(k))
    ensures ClosesAs(cfg, c', f, k)
  {
    hide Serve, Onward, AnsweredAs;
    var f' := Advance(cfg, f, Close(k));
    assert k in f'.views && f'.views[k] == f.views[k].(open := false);
  }

  predicate Within(f: Fine) { forall k :: k in f.views ==> k < |f.st.log| }

  lemma WithinMove(cfg: Config, f: Fine, mv: Move)
    requires Allowed(cfg, f, mv) && Within(f)
    ensures Within(Advance(cfg, f, mv))
  {
    hide Serve, Onward, Touched, Prepare, Completed;
    if mv.Touch? {
      TouchOnly(f, mv.k);
    }
  }

  /** What explains a run explains it before its last move. */
  lemma ExplainsBefore(cfg: Config, c': Config, f: Fine, mv: Move)
    requires ExplainsAfter(cfg, c', f, mv) && Within(f)
    ensures Explained(cfg, c', f)
  {
    hide Serve, Onward, AnsweredAs, Touched, Prepare, Completed;
    var f' := Advance(cfg, f, mv);
    if mv.Touch? {
      TouchOnly(f, mv.k);
    }
    assert |f'.st.log| >= |f.st.log| && forall n :: n in f'.views && n < |f.st.log| ==> n in f.views;
    forall k | k in f.views && !f.views[k].open ensures AnsweredAs(cfg, c', f.views[k], k) {
      assert k in f'.views && f'.views[k] == f.views[k];
    }
  }

  lemma StartRel(cfg: Config, c': Config, w: World, sessions: nat)
    ensures var f, g := FineStart(w, sessions), Start(w, sessions);
            Inv(cfg, f) && Rel(c', f, g) && Sound(g) && Excludes(c', g) && Within(f)
  {
    hide Serve, Prepare;
    var f := FineStart(w, sessions);
    assert Rests(f) == [];
    StartContract(c', w, sessions);
  }

  lemma {:induction false} RunWithin(cfg: Config, w: World, sessions: nat, moves: seq<Move>)
    requires FineRun(cfg, FineStart(w, sessions), moves)
    ensures Within(FineAfter(cfg, FineStart(w, sessions), moves))
  {
    hide *;
    var f0 := FineStart(w, sessions);
    if moves == [] {
      FineNone(cfg, f0);
      StartRel(cfg, cfg, w, sessions);
    } else {
      var n := |moves| - 1;
      FineLast(cfg, f0, moves);
      RunWithin(cfg, w, sessions, moves[..n]);
      WithinMove(cfg, FineAfter(cfg, f0, moves[..n]), moves[n]);
    }
  }

  /** The run of the server whose requests take effect at once. */
  ghost function Coarse(cfg: Config, f: Fine, moves: seq<Move>): seq<Step>
  {
    if moves == [] then []
    else
      var n := |moves| - 1;
      Coarse(cfg, f, moves[..n]) + Effected(FineAfter(cfg, f, moves[..n]), moves[n])
  }

  lemma CoarseNone(cfg: Config, f: Fine)
    ensures Coarse(cfg, f, []) == []
  {
    hide Serve, Prepare, Onward, Legal;
  }

  lemma CoarseLast(cfg: Config, f: Fine, moves: seq<Move>)
    requires moves != []
    ensures var n := |moves| - 1;
            Coarse(cfg, f, moves) == Coarse(cfg, f, moves[..n]) + Effected(FineAfter(cfg, f, moves[..n]), moves[n])
  {
    hide Effected, FineAfter;
  }

  lemma {:induction false} CoarseGrows(cfg: Config, f: Fine, moves: seq<Move>, n: nat)
    requires n <= |moves|
    ensures Coarse(cfg, f, moves[..n]) <= Coarse(cfg, f, moves)
  {
    hide *;
    if n == |moves| {
      assert moves[..n] == moves;
    } else {
      var last := |moves| - 1;
      CoarseGrows(cfg, f, moves[..last], n);
      assert moves[..last][..n] == moves[..n];
      CoarseLast(cfg, f, moves);
    }
  }

  /** It is a run, for any driver that explains the answers given, and ends in the same
      state but for what is under way. */
  lemma {:induction false} Simulated(cfg: Config, c': Config, w: World, sessions: nat, moves: seq<Move>)
    requires FineRun(cfg, FineStart(w, sessions), moves)
    requires var f := FineAfter(cfg, FineStart(w, sessions), moves); Explained(cfg, c', f)
    ensures var steps := Coarse(cfg, FineStart(w, sessions), moves);
            var f, g := FineAfter(cfg, FineStart(w, sessions), moves), After(c', Start(w, sessions), steps);
            && LegalRun(c', Start(w, sessions), steps)
            && Inv(cfg, f) && Rel(c', f, g) && Sound(g) && Excludes(c', g)
  {
    hide FineStart, Start, FineAfter, FineRun, After, LegalRun, Coarse, Effected, Allowed, Advance, Legal, Apply,
      Parts, Viewed, Rel, Sound, Excludes, Explained, Serve, Within;
    var f0, g0 := FineStart(w, sessions), Start(w, sessions);
    if moves == [] {
      FineNone(cfg, f0);
      NoStepsLegal(c', g0);
      StartRel(cfg, c', w, sessions);
      CoarseNone(cfg, f0);
    } else {
      var n := |moves| - 1;
      FineLast(cfg, f0, moves);
      CoarseLast(cfg, f0, moves);
      RunWithin(cfg, w, sessions, moves[..n]);
      var prev := FineAfter(cfg, f0, moves[..n]);
      assert ExplainsAfter(cfg, c', prev, moves[n]);
      ExplainsBefore(cfg, c', prev, moves[n]);
      Simulated(cfg, c', w, sessions, moves[..n]);
      var before := Coarse(cfg, f0, moves[..n]);
      var g, add := After(c', g0, before), Effected(prev, moves[n]);
      RelMove(cfg, c', prev, g, moves[n]);
      if |add| == 1 {
        assert add == [add[0]];
        Extends(c', g0, before, add[0]);
        SoundStep(c', g, add[0]);
        LocksStep(c', g, add[0]);
      } else {
        assert before + add == before;
      }
    }
  }

  lemma NoStepsLegal(cfg: Config, st: State)
    ensures LegalRun(cfg, st, []) && After(cfg, st, []) == st
  {
  }

  // ---------- the driver that gave these answers ----------

  /** The filesystem that entry i of request n, or its first call, saw. */
  function SeenAt(views: map<nat, View>, n: nat, i: nat, fs: Fs): Fs
  {
    if n !in views || views[n].seen == [] then fs
    else
      var v := views[n];
      if !Pages(v.t, v.packet) then v.seen[0]
      else
        var pos := Paged(v.t, v.packet).pos;
        if pos <= i < pos + |v.seen| then v.seen[i - pos] else fs
  }

  function SeenLast(views: map<nat, View>, n: nat, fs: Fs): Fs
  {
    if n !in views || views[n].seen == [] then fs else views[n].seen[|views[n].seen| - 1]
  }

  /** The driver that tells each looking request at once what it saw call by call. */
  function Under(cfg: Config, views: map<nat, View>): Config
  {
    cfg.(drv := cfg.drv.(
           stat := (fs: Fs, p: bytes, n: nat, i: nat) => cfg.drv.stat(SeenAt(views, n, i, fs), p, n, i),
           listDir := (fs: Fs, p: bytes, n: nat) => cfg.drv.listDir(SeenLast(views, n, fs), p, n),
           readLink := (fs: Fs, p: bytes, n: nat) => cfg.drv.readLink(SeenLast(views, n, fs), p, n)))
  }

  lemma UnderSays(cfg: Config, views: map<nat, View>)
    ensures var c' := Under(cfg, views);
            && Alike(cfg, c')
            && (forall fs, p, n: nat, i: nat ::
                  c'.drv.stat(fs, p, n, i) == cfg.drv.stat(SeenAt(views, n, i, fs), p, n, i))
            && (forall fs, p, n: nat :: c'.drv.listDir(fs, p, n) == cfg.drv.listDir(SeenLast(views, n, fs), p, n))
            && (forall fs, p, n: nat :: c'.drv.readLink(fs, p, n) == cfg.drv.readLink(SeenLast(views, n, fs), p, n))
  {
  }

  lemma UnderGives(cfg: Config, views: map<nat, View>, k: nat)
    requires k in views && views[k].seen != []
    ensures Gives(cfg, Under(cfg, views), views[k], k)
  {
    UnderSays(cfg, views);
    hide Under, Pages, Paged;
  }

  /** Two drivers that answer request n alike. */
  ghost predicate AlikeAt(cfg: Config, c': Config, n: nat)
  {
    && Alike(cfg, c')
    && (forall fs, p, i :: c'.drv.stat(fs, p, n, i) == cfg.drv.stat(fs, p, n, i))
    && (forall fs, p :: c'.drv.listDir(fs, p, n) == cfg.drv.listDir(fs, p, n))
    && (forall fs, p :: c'.drv.readLink(fs, p, n) == cfg.drv.readLink(fs, p, n))
  }

  lemma UnderAlike(cfg: Config, views: map<nat, View>, n: nat)
    requires n !in views
    ensures AlikeAt(cfg, Under(cfg, views), n)
  {
    UnderSays(cfg, views);
    hide Under;
  }

  lemma {:induction false} ChangesSame(cfg: Config, c': Config, fs: Fs, calls: seq<Call>, n: nat)
    requires Alike(cfg, c')
    ensures Changes(c', fs, calls, n) == Changes(cfg, fs, calls, n)
    decreases |calls|
  {
    if calls != [] {
      ChangesSame(cfg, c', cfg.drv.change(fs, calls[0], n).0, calls[1..], n);
    }
  }

  lemma {:induction false} PageSame<T>(look: nat -> Option<T>, look': nat -> Option<T>, pos: nat, n: nat)
    requires forall i: nat :: look(i) == look'(i)
    ensures Page(look, pos, n) == Page(look', pos, n)
    decreases n - pos
  {
    hide Collect;
    if pos < n {
      var end := Min(pos + READDIR_BATCH, n);
      CollectSame(look, look', pos, end);
      PageSame(look, look', end, n);
    }
  }

  lemma ReaddirSame(cfg: Config, c': Config, w: World, t: Table, id: uint32, tok: bytes, n: nat)
    requires AlikeAt(cfg, c', n)
    ensures OpReaddir(c', w, t, id, tok, n) == OpReaddir(cfg, w, t, id, tok, n)
  {
    hide ItemAt, Page, EntryCalls;
    if tok in t {
      var h := t[tok];
      forall i: nat ensures Shown(c', w.fs, h, n)(i) == Shown(cfg, w.fs, h, n)(i) {
        SameItem(cfg, c', w.fs, w.fs, h, i, n);
      }
      PageSame(Shown(c', w.fs, h, n), Shown(cfg, w.fs, h, n), h.pos, |h.entries|);
    }
  }

  lemma OpenSame(cfg: Config, c': Config, w: World, t: Table, m: Message, n: nat)
    requires AlikeAt(cfg, c', n) && m.Open?
    ensures OpOpen(c', w, t, m, n) == OpOpen(cfg, w, t, m, n)
  {
    hide Clean, Has, Full, FinishOpen, Perm;
    assert Alike(cfg, c') && c'.drv.change == cfg.drv.change && c'.ro == cfg.ro;
    if Clean(m.path).Some? {
      var path := Clean(m.path).value;
      var calls, create := [CStat(path)], CWriteFile(path, Perm(m.attrs, 0x1A4));
      assert c'.drv.stat(w.fs, path, n, 0) == cfg.drv.stat(w.fs, path, n, 0);
      FinishSame(cfg, c', w, t, m.id, path, false, calls, n);
      FinishSame(cfg, c', w, t, m.id, path, true, calls, n);
      FinishSame(cfg, c', w.(fs := cfg.drv.change(w.fs, create, n).0), t, m.id, path, true, calls + [create], n);
    }
  }

  lemma FinishSame(cfg: Config, c': Config, w: World, t: Table, id: uint32, path: bytes, write: bool, calls: seq<Call>,
                   n: nat)
    requires Alike(cfg, c')
    ensures FinishOpen(c', w, t, id, path, write, calls, n) == FinishOpen(cfg, w, t, id, path, write, calls, n)
  {
  }

  lemma ChangeSame(cfg: Config, c': Config, w: World, t: Table, m: Message, n: nat)
    requires Alike(cfg, c')
    requires || (m.PathRequest? && m.kind !in {FXP_LSTAT, FXP_STAT, FXP_OPENDIR, FXP_REALPATH, FXP_READLINK})
             || m.Rename? || m.Symlink?
    ensures Perform(c', w, t, m, n) == Perform(cfg, w, t, m, n)
  {
    hide Clean, ChangeAll;
    forall calls, fallback
      ensures ChangeAll(c', w, t, m.id, calls, fallback, n) == ChangeAll(cfg, w, t, m.id, calls, fallback, n)
    {
      ChangeAllSame(cfg, c', w, t, m.id, calls, fallback, n);
    }
  }

  lemma ChangeAllSame(cfg: Config, c': Config, w: World, t: Table, id: uint32, calls: seq<Call>, fallback: uint32,
                      n: nat)
    requires Alike(cfg, c')
    ensures ChangeAll(c', w, t, id, calls, fallback, n) == ChangeAll(cfg, w, t, id, calls, fallback, n)
  {
    hide Changes;
    ChangesSame(cfg, c', w.fs, calls, n);
  }

  lemma SetSame(cfg: Config, c': Config, w: World, t: Table, m: Message, n: nat)
    requires Alike(cfg, c') && (m.Setstat? || m.Fsetstat?)
    ensures Perform(c', w, t, m, n) == Perform(cfg, w, t, m, n)
  {
    hide Clean, ChangeAll, SetstatCalls, Has;
    forall calls, fallback
      ensures ChangeAll(c', w, t, m.id, calls, fallback, n) == ChangeAll(cfg, w, t, m.id, calls, fallback, n)
    {
      ChangeAllSame(cfg, c', w, t, m.id, calls, fallback, n);
    }
    forall path, a ensures SetstatCalls(c', path, a) == SetstatCalls(cfg, path, a) {
      SetstatCallsSame(cfg, c', path, a);
    }
  }

  lemma SetstatCallsSame(cfg: Config, c': Config, path: bytes, a: Attributes)
    requires Alike(cfg, c')
    ensures SetstatCalls(c', path, a) == SetstatCalls(cfg, path, a)
  {
  }

  lemma CloseUnchanged(cfg: Config, c': Config, w: World, t: Table, id: uint32, tok: bytes, n: nat)
    requires Alike(cfg, c')
    ensures OpClose(c', w, t, id, tok, n) == OpClose(cfg, w, t, id, tok, n)
  {
    hide Ascii, Ack;
  }

  lemma ExtendedUnchanged(cfg: Config, c': Config, w: World, t: Table, id: uint32, name: bytes, data: bytes, n: nat)
    requires Alike(cfg, c')
    ensures OpExtended(c', w, t, id, name, data, n) == OpExtended(cfg, w, t, id, name, data, n)
  {
    hide Ascii, DecodeCopy, CopyCount, CopyInto, CopyRefusal, ErrReply, BE64;
  }

  lemma LookSame(cfg: Config, c': Config, w: World, t: Table, m: Message, n: nat)
    requires AlikeAt(cfg, c', n)
    requires || (m.PathRequest? && m.kind in {FXP_LSTAT, FXP_STAT, FXP_OPENDIR, FXP_REALPATH, FXP_READLINK})
             || (m.HandleRequest? && m.kind in {FXP_CLOSE, FXP_FSTAT}) || m.Extended?
    ensures Perform(c', w, t, m, n) == Perform(cfg, w, t, m, n)
  {
    hide OpStat, OpOpendir, OpReadlink, OpClose, OpExtended, Ascii, Clean;
    match m
    case PathRequest(_, id, path) =>
      StatSame(cfg, c', cfg, w, w, t, id, path, n);
      StatSame(cfg, cfg, c', w, w, t, id, path, n);
      OpendirSame(cfg, c', cfg, w, w, t, id, path, n);
      OpendirSame(cfg, cfg, c', w, w, t, id, path, n);
      ReadlinkSame(c', cfg, w, w, t, id, path, n);
      ReadlinkSame(cfg, c', w, w, t, id, path, n);
    case HandleRequest(_, id, tok) =>
      CloseUnchanged(cfg, c', w, t, id, tok, n);
      if tok in t {
        StatSame(cfg, c', cfg, w, w, t, id, t[tok].path, n);
        StatSame(cfg, cfg, c', w, w, t, id, t[tok].path, n);
      }
    case Extended(id, name, data) => ExtendedUnchanged(cfg, c', w, t, id, name, data, n);
  }

  lemma PerformSame(cfg: Config, c': Config, w: World, t: Table, m: Message, n: nat)
    requires AlikeAt(cfg, c', n)
    ensures Perform(c', w, t, m, n) == Perform(cfg, w, t, m, n)
  {
    hide OpOpen, OpReaddir, AlikeAt, OpStat, OpFstat, OpOpendir, OpReadlink, OpRealpath, OpClose, OpExtended,
      OpSetstat, OpMkdir, OpRemove, OpRename, OpSymlink;
    assert AlikeAt(cfg, c', n) ==> Alike(cfg, c') by { AlikeHere(cfg, c', n); }
    match m
    case Open(_, _, _, _) => OpenSame(cfg, c', w, t, m, n);
    case HandleRequest(kind, id, tok) =>
      if kind == FXP_CLOSE || kind == FXP_FSTAT {
        LookSame(cfg, c', w, t, m, n);
      } else {
        ReaddirSame(cfg, c', w, t, id, tok, n);
      }
    case PathRequest(kind, _, _) =>
      if kind in {FXP_LSTAT, FXP_STAT, FXP_OPENDIR, FXP_REALPATH, FXP_READLINK} {
        LookSame(cfg, c', w, t, m, n);
      } else {
        ChangeSame(cfg, c', w, t, m, n);
      }
    case Setstat(_, _, _, _) => SetSame(cfg, c', w, t, m, n);
    case Fsetstat(_, _, _) => SetSame(cfg, c', w, t, m, n);
    case Rename(_, _, _) => ChangeSame(cfg, c', w, t, m, n);
    case Symlink(_, _, _) => ChangeSame(cfg, c', w, t, m, n);
    case Extended(_, _, _) => LookSame(cfg, c', w, t, m, n);
    case _ =>
  }

  lemma AlikeHere(cfg: Config, c': Config, n: nat)
    ensures AlikeAt(cfg, c', n) ==> Alike(cfg, c')
  {
  }

  /** A request is served alike under drivers that answer it alike. */
  lemma ServeSame(cfg: Config, c': Config, w: World, t: Table, p: Packet, n: nat)
    requires AlikeAt(cfg, c', n)
    ensures Serve(c', w, t, p, n) == Serve(cfg, w, t, p, n)
  {
    hide Prepare, Decode, Perform, Act, RequestId;
    SamePrepare(cfg, c', t, p);
    var d := Decode(p.typ, p.payload);
    if d.Some? && d.value.Got? {
      PerformSame(cfg, c', w, t, d.value.value, n);
    }
  }

  /** Looking requests that are over saw everything they had to. */
  ghost predicate SeenOut(cfg: Config, f: Fine)
  {
    forall k :: k in f.views && !f.views[k].open ==> ViewSound(cfg, f.views[k], k) && Onward(cfg, f.views[k], k).Over?
  }

  lemma UnderExplains(cfg: Config, f: Fine)
    requires SeenOut(cfg, f)
    ensures Explained(cfg, Under(cfg, f.views), f)
  {
    var c' := Under(cfg, f.views);
    assert Alike(cfg, c');
    hide Under, Serve, Onward, AlikeAt, Gives;
    forall w, t, p, n: nat | n < |f.st.log| && n !in f.views ensures Serve(c', w, t, p, n) == Serve(cfg, w, t, p, n) {
      UnderAlike(cfg, f.views, n);
      ServeSame(cfg, c', w, t, p, n);
    }
    forall k | k in f.views && !f.views[k].open ensures AnsweredAs(cfg, c', f.views[k], k) {
      SeenSomething(cfg, f.views[k], k);
      UnderGives(cfg, f.views, k);
      LookIsServe(cfg, c', f.views[k], k);
    }
  }

  lemma SeenSomething(cfg: Config, v: View, k: nat)
    requires ViewSound(cfg, v, k)
    ensures v.seen != []
  {
  }

  lemma SeenOutMove(cfg: Config, f: Fine, mv: Move)
    requires Allowed(cfg, f, mv) && Viewed(cfg, f) && SeenOut(cfg, f)
    ensures SeenOut(cfg, Advance(cfg, f, mv))
  {
    hide Serve, Onward, Touched, Prepare, Completed, ViewSound;
    if mv.Touch? {
      TouchOnly(f, mv.k);
    }
    if mv.Close? {
      assert InView(f, mv.k) && ViewOk(cfg, f, mv.k);
      SoundClosed(cfg, f.views[mv.k], mv.k);
    }
  }

  lemma SoundClosed(cfg: Config, v: View, k: nat)
    requires ViewSound(cfg, v, k)
    ensures ViewSound(cfg, v.(open := false), k) && Onward(cfg, v.(open := false), k) == Onward(cfg, v, k)
  {
    hide Collect, DecodeHandle, Prepare;
    OnwardOpen(cfg, v, k);
    hide Onward;
  }

  lemma SeenOutStart(cfg: Config, w: World, sessions: nat)
    ensures SeenOut(cfg, FineStart(w, sessions))
  {
  }

  lemma {:induction false} RunSeenOut(cfg: Config, w: World, sessions: nat, moves: seq<Move>)
    requires FineRun(cfg, FineStart(w, sessions), moves)
    ensures SeenOut(cfg, FineAfter(cfg, FineStart(w, sessions), moves))
  {
    hide FineRun, FineAfter, FineStart, SeenOut, Explained, Under, Advance, Allowed, LegalRun, After, Start, Rel,
      Sound, Excludes, Parts, Viewed, Coarse;
    var f0 := FineStart(w, sessions);
    if moves == [] {
      FineNone(cfg, f0);
      SeenOutStart(cfg, w, sessions);
    } else {
      var n := |moves| - 1;
      FineLast(cfg, f0, moves);
      RunSeenOut(cfg, w, sessions, moves[..n]);
      var prev := FineAfter(cfg, f0, moves[..n]);
      UnderExplains(cfg, prev);
      Simulated(cfg, Under(cfg, prev.views), w, sessions, moves[..n]);
      SeenOutMove(cfg, prev, moves[n]);
    }
  }
}

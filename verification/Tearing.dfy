/** When every looking request of a run answers as if at once. */
module Tearing {
  import opened Bytes
  import opened Messages
  import opened Packets
  import opened Paths
  import opened DataOps
  import opened Directory
  import opened Server
  import opened Lifecycle
  import opened Listing
  import opened Independence
  import opened Reordering
  import opened Pool
  import opened Runs
  import opened DriverUse
  import opened Grain
  import opened Views
  import opened Refinement
  import opened Simulation
  import opened Atomicity
  import opened Stillness

  // ---------- every request of a run ----------

  ghost predicate Untorn(cfg: Config, f: Fine)
  {
    forall k :: k in f.views && !f.views[k].open ==> AnsweredAs(cfg, cfg, f.views[k], k)
  }

  ghost predicate Undisturbed(f: Fine)
  {
    forall k :: k in f.views && !f.views[k].open ==> Still(f.views[k])
  }

  lemma UndisturbedUntorn(cfg: Config, f: Fine)
    requires SeenOut(cfg, f) && Undisturbed(f)
    ensures Untorn(cfg, f)
  {
    hide Still, ViewSound, Onward, AnsweredAs;
    forall k | k in f.views && !f.views[k].open ensures AnsweredAs(cfg, cfg, f.views[k], k) {
      StillAnswered(cfg, f.views[k], k);
    }
  }

  lemma UntornExplains(cfg: Config, f: Fine)
    requires Untorn(cfg, f)
    ensures Explained(cfg, cfg, f)
  {
    hide Serve, AnsweredAs;
  }

  predicate Waits(cfg: Config, e: Entry)
  {
    e.Ready() || (e.work.phase.Waiting? && !cfg.pathConcurrent)
  }

  predicate Level(v: View) { forall i :: 0 <= i < |v.seen| ==> v.seen[i] == v.base.fs }

  /** While a request looks no job runs, and the files stay as they were at its first
      call. */
  ghost predicate Held(cfg: Config, f: Fine)
  {
    && (forall k: nat :: InView(f, k) ==> f.views[k].base.fs == f.st.w.fs)
    && (forall k: nat, i: nat :: InView(f, k) && i < |f.st.log| ==> Waits(cfg, f.st.log[i]))
  }

  ghost predicate Apace(cfg: Config, f: Fine)
  {
    && (forall i :: 0 <= i < |f.st.log| ==> f.st.log[i].session < |f.st.ts| && (f.st.log[i].sent ==>
          f.st.log[i].Ready()))
    && (forall k :: k in f.views ==> Level(f.views[k]))
    && Held(cfg, f)
  }

  /** The lock is exclusive for path calls too, or there is one session. */
  predicate OneAtATime(cfg: Config, sessions: nat) { !cfg.pathConcurrent || sessions <= 1 }

  lemma ApaceMove(cfg: Config, f: Fine, mv: Move)
    requires Allowed(cfg, f, mv) && Viewed(cfg, f) && Apace(cfg, f) && OneAtATime(cfg, |f.st.ts|)
    ensures Apace(cfg, Advance(cfg, f, mv)) && |Advance(cfg, f, mv).st.ts| == |f.st.ts|
  {
    hide Serve, Prepare, Onward, ViewSound, Completed, Touched, Unopposed, ClosesAll, Viewed, Legal;
    match mv
    case By(step) => ApaceStep(cfg, f, step);
    case Touch(k) => ApaceTouch(cfg, f, k);
    case Begin(s, p) => ApaceBegin(cfg, f, s, p);
    case Look(k) =>
    case Close(k) =>
  }

  lemma ApaceKept(cfg: Config, f: Fine, f': Fine)
    requires Apace(cfg, f) && f'.views == f.views && |f'.st.ts| == |f.st.ts|
    requires forall i :: 0 <= i < |f'.st.log| ==>
               f'.st.log[i].session < |f'.st.ts| && (f'.st.log[i].sent ==> f'.st.log[i].Ready())
    requires forall k: nat :: InView(f, k) ==>
               f'.st.w.fs == f.st.w.fs && forall i :: 0 <= i < |f'.st.log| ==> Waits(cfg, f'.st.log[i])
    ensures Apace(cfg, f')
  {
    hide Level;
    assert forall k: nat :: InView(f', k) == InView(f, k);
  }

  lemma ApaceTouch(cfg: Config, f: Fine, k: nat)
    requires AtWork(f, k) && Apace(cfg, f)
    ensures Apace(cfg, Touched(f, k)) && |Touched(f, k).st.ts| == |f.st.ts|
  {
    TouchOnly(f, k);
    hide Touched;
    assert forall j: nat :: InView(f, j) ==> Waits(cfg, f.st.log[k]);
    ApaceKept(cfg, f, Touched(f, k));
  }

  lemma ApaceBegin(cfg: Config, f: Fine, s: nat, p: Packet)
    requires Allowed(cfg, f, Begin(s, p)) && Viewed(cfg, f) && Apace(cfg, f) && OneAtATime(cfg, |f.st.ts|)
    ensures Apace(cfg, Advance(cfg, f, Begin(s, p)))
  {
    hide Serve, Prepare, Onward, ViewSound, Completed, Viewed, Legal;
    assert forall k :: 0 <= k < |f.st.log| ==> Waits(cfg, f.st.log[k]);
    NothingPartly(f);
  }

  /** With one session at most, one that looks takes nothing. */
  lemma ApaceSole(cfg: Config, f: Fine, s: nat)
    requires Viewed(cfg, f) && OneAtATime(cfg, |f.st.ts|) && s < |f.st.ts| && !Looking(f, s)
    ensures forall k: nat :: InView(f, k) ==> !cfg.pathConcurrent
  {
    hide ViewSound;
    forall k: nat | InView(f, k) ensures !cfg.pathConcurrent {
      assert ViewOk(cfg, f, k);
    }
  }

  lemma ApaceStep(cfg: Config, f: Fine, step: Step)
    requires Allowed(cfg, f, By(step)) && Viewed(cfg, f) && Apace(cfg, f) && OneAtATime(cfg, |f.st.ts|)
    ensures Apace(cfg, Advance(cfg, f, By(step))) && |Advance(cfg, f, By(step)).st.ts| == |f.st.ts|
  {
    hide Serve, Prepare, Onward, ViewSound, Completed, Unopposed, ClosesAll, Touches, Level, Viewed;
    match step
    case Alone(s, p) => ApaceAlone(cfg, f, s, p);
    case Arrive(s, p) =>
      ApaceSole(cfg, f, s);
      ApaceKept(cfg, f, Advance(cfg, f, By(step)));
    case Enter(k) =>
      var e := f.st.log[k];
      assert forall j: nat :: InView(f, j) ==> Waits(cfg, e);
      ApaceKept(cfg, f, Advance(cfg, f, By(step)));
    case Leave(_) => ApaceKept(cfg, f, Advance(cfg, f, By(step)));
    case Send(_) => ApaceKept(cfg, f, Advance(cfg, f, By(step)));
    case End(_, _) => ApaceKept(cfg, f, Advance(cfg, f, By(step)));
    case Do(_) =>
  }

  lemma ApaceAlone(cfg: Config, f: Fine, s: nat, p: Packet)
    requires Allowed(cfg, f, By(Alone(s, p))) && Viewed(cfg, f) && Apace(cfg, f) && OneAtATime(cfg, |f.st.ts|)
    ensures var f' := Advance(cfg, f, By(Alone(s, p))); Apace(cfg, f') && |f'.st.ts| == |f.st.ts|
  {
    hide Serve, Prepare, Onward, ViewSound, Completed, Touches, LockFree;
    var r := Serve(cfg, f.st.w, f.st.ts[s], p, |f.st.log|);
    if r.calls == [] {
      NoCalls(r.calls);
      ServeBlind(cfg, f.st.w, f.st.ts[s], p, |f.st.log|, f.st.w.fs.files);
    } else {
      assert forall k: nat :: !InView(f, k);
    }
    ApaceKept(cfg, f, Advance(cfg, f, By(Alone(s, p))));
  }

  lemma ApaceStart(cfg: Config, w: World, sessions: nat)
    ensures var f := FineStart(w, sessions); Apace(cfg, f) && |f.st.ts| == sessions
  {
  }

  /** Every run in which path calls are not shared, or of one session. */
  lemma {:induction false} RunApace(cfg: Config, w: World, sessions: nat, moves: seq<Move>)
    requires FineRun(cfg, FineStart(w, sessions), moves) && OneAtATime(cfg, sessions)
    ensures var f := FineAfter(cfg, FineStart(w, sessions), moves); Apace(cfg, f) && |f.st.ts| == sessions
  {
    hide FineRun, FineAfter, FineStart, Apace, Advance, Allowed, Viewed, Parts, OneAtATime;
    var f0 := FineStart(w, sessions);
    if moves == [] {
      FineNone(cfg, f0);
      ApaceStart(cfg, w, sessions);
    } else {
      var n := |moves| - 1;
      FineLast(cfg, f0, moves);
      RunApace(cfg, w, sessions, moves[..n]);
      RunInv(cfg, w, sessions, moves[..n]);
      ApaceMove(cfg, FineAfter(cfg, f0, moves[..n]), moves[n]);
    }
  }

  lemma RunInv(cfg: Config, w: World, sessions: nat, moves: seq<Move>)
    requires FineRun(cfg, FineStart(w, sessions), moves)
    ensures Inv(cfg, FineAfter(cfg, FineStart(w, sessions), moves))
  {
    hide *;
    var f := FineAfter(cfg, FineStart(w, sessions), moves);
    RunSeenOut(cfg, w, sessions, moves);
    UnderExplains(cfg, f);
    Simulated(cfg, Under(cfg, f.views), w, sessions, moves);
  }

  lemma LevelStill(v: View)
    requires Level(v)
    ensures Still(v)
  {
    hide Pages, Paged, Joins;
  }

  // ---------- each answer ----------

  /** Every call made was called for. */
  ghost predicate Earned(cfg: Config, v: View, k: nat)
  {
    v.seen != [] && Looks(v.packet) && (!Pages(v.t, v.packet) ==> |v.seen| <= |Plainly(cfg, v, k).calls|)
  }

  ghost predicate AllEarned(cfg: Config, f: Fine) { forall k :: k in f.views ==> Earned(cfg, f.views[k], k) }

  lemma BeginEarned(cfg: Config, v: View, k: nat, w: World)
    requires v.seen == [w.fs] && Looks(v.packet) && Serve(cfg, w, v.t, v.packet, k).calls != []
    ensures Earned(cfg, v, k)
  {
    hide Serve, Pages, Decode, Perform, Looks;
    if !Pages(v.t, v.packet) {
      var m := PlainDecodes(cfg, w, v.t, v.packet, k);
      PlainServes(cfg, w, v.t, v.packet, k);
      var a, w' := StatAt(cfg, v.seen[0]), v.base.(fs := v.seen[0]);
      PlainServes(a, w', v.t, v.packet, k);
      PlainAsks(cfg, a, w, w', v.t, m, k);
    }
  }

  lemma LookEarned(cfg: Config, v: View, k: nat, fs: Fs)
    requires Earned(cfg, v, k) && Onward(cfg, v, k).More?
    ensures Earned(cfg, v.(seen := v.seen + [fs]), k)
  {
    hide Serve, Pages, Decode, Perform, Looks;
    if !Pages(v.t, v.packet) {
      var v', a := v.(seen := v.seen + [fs]), StatAt(cfg, v.seen[0]);
      var w, w' := v.base.(fs := v.seen[|v.seen| - 1]), v.base.(fs := fs);
      var m := PlainDecodes(a, w, v.t, v.packet, k);
      PlainServes(a, w, v.t, v.packet, k);
      PlainServes(a, w', v.t, v.packet, k);
      PlainCount(a, a, w, w', v.t, m, k);
      assert v'.seen[0] == v.seen[0];
    }
  }

  lemma EarnedMove(cfg: Config, f: Fine, mv: Move)
    requires Allowed(cfg, f, mv) && AllEarned(cfg, f)
    ensures AllEarned(cfg, Advance(cfg, f, mv))
  {
    hide Serve, Onward, Touched, Prepare, Completed, Earned, Looks;
    match mv
    case Touch(k) => TouchOnly(f, k);
    case Begin(s, p) =>
      var f', n := Advance(cfg, f, mv), |f.st.log|;
      BeginEarned(cfg, f'.views[n], n, f.st.w);
    case Look(k) => LookEarned(cfg, f.views[k], k, f.st.w.fs);
    case Close(k) => EarnedClosed(cfg, f.views[k], k);
    case By(_) =>
  }

  lemma EarnedClosed(cfg: Config, v: View, k: nat)
    requires Earned(cfg, v, k)
    ensures Earned(cfg, v.(open := false), k)
  {
    hide Serve, Pages, Looks;
  }

  lemma {:induction false} RunEarned(cfg: Config, w: World, sessions: nat, moves: seq<Move>)
    requires FineRun(cfg, FineStart(w, sessions), moves)
    ensures AllEarned(cfg, FineAfter(cfg, FineStart(w, sessions), moves))
  {
    hide FineRun, FineAfter, Earned, Advance, Allowed;
    var f0 := FineStart(w, sessions);
    if moves == [] {
      FineNone(cfg, f0);
    } else {
      var n := |moves| - 1;
      FineLast(cfg, f0, moves);
      RunEarned(cfg, w, sessions, moves[..n]);
      EarnedMove(cfg, FineAfter(cfg, f0, moves[..n]), moves[n]);
    }
  }

  lemma EarnedLeads(cfg: Config, v: View, k: nat)
    requires ViewSound(cfg, v, k) && Onward(cfg, v, k).Over? && Earned(cfg, v, k)
    ensures Leads(cfg, v, k)
  {
    hide Serve, Pages, Looks, ViewSound;
  }

  /** Every looking request that is over, in every run: its answer is sure to be that of
      its first moment exactly if each of its calls met the files of that moment, and
      that of some one moment exactly if they all met the same. */
  lemma EveryAnswer(cfg: Config, w: World, sessions: nat, moves: seq<Move>, k: nat)
    requires FineRun(cfg, FineStart(w, sessions), moves)
    requires var f := FineAfter(cfg, FineStart(w, sessions), moves); k in f.views && !f.views[k].open
    ensures var v := FineAfter(cfg, FineStart(w, sessions), moves).views[k];
            (Sure(cfg, v, k) <==> Still(v)) && (OfOneMoment(cfg, v, k) <==> SawOne(v))
  {
    hide FineRun, FineAfter, FineStart, Earned, Leads, ViewSound, Onward, Sure, Still, OfOneMoment, SawOne;
    var v := FineAfter(cfg, FineStart(w, sessions), moves).views[k];
    RunSeenOut(cfg, w, sessions, moves);
    RunEarned(cfg, w, sessions, moves);
    EarnedLeads(cfg, v, k);
    SureIffStill(cfg, v, k);
    OneMomentIffSawOne(cfg, v, k);
  }

  // ---------- undisturbed runs ----------

  /** If path calls are not shared, or there is one session, each call of a looking
      request meets the files of its first moment, with no WRITE half done. */
  lemma NeverDisturbed(cfg: Config, w: World, sessions: nat, moves: seq<Move>)
    requires FineRun(cfg, FineStart(w, sessions), moves) && OneAtATime(cfg, sessions)
    ensures Undisturbed(FineAfter(cfg, FineStart(w, sessions), moves))
  {
    hide FineRun, FineAfter, FineStart, OneAtATime, Level, Still, Held;
    RunApace(cfg, w, sessions, moves);
    var f := FineAfter(cfg, FineStart(w, sessions), moves);
    forall k | k in f.views ensures Still(f.views[k]) {
      LevelStill(f.views[k]);
    }
  }

  /** A run in which each call of a looking request meets the files of its first
      moment, with no WRITE half done, is a run in which every request takes effect at
      once: the same packets taken, the same replies sent, the same sessions ended, and
      the files and tables the same but for what is under way. */
  lemma AtomicWhenUndisturbed(cfg: Config, w: World, sessions: nat, moves: seq<Move>)
    requires FineRun(cfg, FineStart(w, sessions), moves) && Undisturbed(FineAfter(cfg, FineStart(w, sessions), moves))
    ensures var f0, st0 := FineStart(w, sessions), Start(w, sessions);
            var steps := Coarse(cfg, f0, moves);
            LegalRun(cfg, st0, steps) && Rel(cfg, FineAfter(cfg, f0, moves), After(cfg, st0, steps))
  {
    hide *;
    var f := FineAfter(cfg, FineStart(w, sessions), moves);
    RunSeenOut(cfg, w, sessions, moves);
    UndisturbedUntorn(cfg, f);
    UntornExplains(cfg, f);
    Simulated(cfg, cfg, w, sessions, moves);
  }

  /** Every run is one in which every request takes effect at once, under some driver
      that differs from the real one only in what it tells of paths to the looking
      requests: each gets at its first call the answers it got over all of them. */
  lemma AtomicUnderItsAnswers(cfg: Config, w: World, sessions: nat, moves: seq<Move>)
    requires FineRun(cfg, FineStart(w, sessions), moves)
    ensures var f0, st0 := FineStart(w, sessions), Start(w, sessions);
            var f, steps := FineAfter(cfg, f0, moves), Coarse(cfg, f0, moves);
            var c' := Under(cfg, f.views);
            LegalRun(c', st0, steps) && Rel(c', f, After(c', st0, steps))
  {
    hide *;
    var f := FineAfter(cfg, FineStart(w, sessions), moves);
    RunSeenOut(cfg, w, sessions, moves);
    UnderExplains(cfg, f);
    Simulated(cfg, Under(cfg, f.views), w, sessions, moves);
  }
}

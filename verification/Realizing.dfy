/** Every run of requests that take effect at once is a run at the grain of the driver:
    let each be through before another begins. So what a client may rely on is exact
    at that grain too. */
module Realizing {
  import opened Bytes
  import opened Messages
  import opened Packets
  import opened Content
  import opened DataOps
  import opened Server
  import opened Lifecycle
  import opened Independence
  import opened Reordering
  import opened Pool
  import opened Runs
  import opened DriverUse
  import opened Schedules
  import opened Client
  import opened Safety
  import opened Grain
  import opened Views
  import opened Refinement
  import opened Simulation
  import opened Atomicity
  import opened Stillness
  import opened Tearing
  import opened Linearization
  import opened Finishing

  /** Nothing is under way: no byte half moved, no request looking. */
  ghost predicate Quiescent(f: Fine)
  {
    f.part == map[] && (forall k: nat :: !InView(f, k)) && forall k :: k in f.views ==> Level(f.views[k])
  }

  /** What the simulation keeps. */
  ghost predicate Keeps(cfg: Config, f: Fine, g: State)
  {
    Inv(cfg, f) && Rel(cfg, f, g) && Sound(g) && Excludes(cfg, g)
  }

  /** The step can be taken, and leads here. */
  ghost predicate Landed(cfg: Config, f: Fine, g: State, step: Step)
  {
    Legal(cfg, g, step) && Keeps(cfg, f, Apply(cfg, g, step))
  }

  /** The request makes driver calls. */
  predicate Asks(cfg: Config, g: State, s: nat, p: Packet)
  {
    s < |g.ts| && Serve(cfg, g.w, g.ts[s], p, |g.log|).calls != []
  }

  predicate LooksAndAsks(cfg: Config, g: State, step: Step)
  {
    step.Alone? && Looks(step.packet) && Asks(cfg, g, step.session, step.packet)
  }

  /** The move can be made, and leaves nothing under way. */
  ghost predicate KeepsQuiet(cfg: Config, f: Fine, mv: Move)
  {
    Allowed(cfg, f, mv) && Quiescent(Advance(cfg, f, mv))
  }

  lemma QuiescentSame(cfg: Config, f: Fine, g: State)
    requires Rel(cfg, f, g) && Quiescent(f)
    ensures g == f.st.(calls := g.calls)
  {
    hide AtOnce, Completed;
    NothingPartly(f);
    assert g.log == f.st.log;
    forall s | 0 <= s < |g.ts| ensures g.ts[s] == f.st.ts[s] {
      assert !Looking(f, s);
    }
    assert g.ts == f.st.ts;
  }

  // ---------- a job, byte by byte ----------

  /** The job that was let in goes on to its end, with nothing beside it. */
  lemma {:induction false} TouchesThrough(cfg: Config, f0: Fine, moves: seq<Move>, g: State, k: nat)
    returns (moves': seq<Move>)
    requires FineRun(cfg, f0, moves) && AtWork(FineAfter(cfg, f0, moves), k) && Keeps(cfg, FineAfter(cfg, f0, moves), g)
    ensures FineRun(cfg, f0, moves')
    ensures var f, f' := FineAfter(cfg, f0, moves), FineAfter(cfg, f0, moves');
            var add := if Partly(f, k) then [] else [Do(k)];
            && Coarse(cfg, f0, moves') == Coarse(cfg, f0, moves) + add
            && (add == [] ==> Keeps(cfg, f', g))
            && (add == [Do(k)] ==> Landed(cfg, f', g, Do(k)))
            && f'.views == f.views && k !in f'.part && f'.part.Keys <= f.part.Keys
    decreases Outstanding(FineAfter(cfg, f0, moves))
  {
    hide FineRun, FineAfter, Touched, Outstanding, Sound, Excludes, Parts, Viewed, Rel, Coarse, Legal, Apply, Partly,
      Effected, Serve;
    var f := FineAfter(cfg, f0, moves);
    var f1 := Touched(f, k);
    var add := RelTouch(cfg, cfg, f, g, k);
    TouchStage(f, k);
    TouchNearer(cfg, f, k);
    FineExtends(cfg, f0, moves, Touch(k));
    moves' := moves + [Touch(k)];
    CoarseMore(cfg, f0, moves, Touch(k));
    var g1 := g;
    if add == [Do(k)] {
      g1 := Apply(cfg, g, Do(k));
      SoundStep(cfg, g, Do(k));
      LocksStep(cfg, g, Do(k));
    }
    TouchKeepsViews(cfg, f, k);
    if AtWork(f1, k) {
      var before := moves';
      moves' := TouchesThrough(cfg, f0, before, g1, k);
      assert Coarse(cfg, f0, moves) + add + [] == Coarse(cfg, f0, moves) + add;
      assert Coarse(cfg, f0, moves) + [] == Coarse(cfg, f0, moves);
    }
  }

  lemma CoarseMore(cfg: Config, f: Fine, moves: seq<Move>, mv: Move)
    ensures Coarse(cfg, f, moves + [mv]) == Coarse(cfg, f, moves) + Effected(FineAfter(cfg, f, moves), mv)
  {
    hide Effected, FineAfter;
    assert (moves + [mv])[..|moves|] == moves;
  }

  /** Where one touch leaves the job. */
  lemma TouchStage(f: Fine, k: nat)
    requires AtWork(f, k) && Parts(f)
    ensures var f', add := Touched(f, k), Effected(f, Touch(k));
            && f'.views == f.views && f'.part.Keys <= f.part.Keys + {k}
            && (add == [] || add == [Do(k)]) && (Partly(f, k) ==> add == [])
            && (if AtWork(f', k) then Partly(f', k) == (Partly(f, k) || add == [Do(k)])
                else k !in f'.part && (add == [] ==> Partly(f, k)))
  {
    hide Splice, Accepts;
  }

  // ---------- a looking request, call by call ----------

  /** The request in view meets, at every call, the files it first met. */
  ghost predicate Steadily(f: Fine, k: nat)
  {
    && InView(f, k) && f.views[k].base.fs == f.st.w.fs && f.part == map[]
    && (forall j: nat :: InView(f, j) ==> j == k) && forall j :: j in f.views ==> Level(f.views[j])
  }

  lemma LevelAnswered(cfg: Config, f: Fine, k: nat)
    requires Viewed(cfg, f) && Allowed(cfg, f, Close(k)) && Steadily(f, k)
    ensures ClosesAs(cfg, cfg, f, k)
  {
    hide Onward, ViewSound, AnsweredAs, Still, Serve;
    ViewedOk(cfg, f, k);
    var v := f.views[k].(open := false);
    SoundClosed(cfg, f.views[k], k);
    LevelStill(v);
    StillAnswered(cfg, v, k);
  }

  lemma {:induction false} LooksThrough(cfg: Config, f0: Fine, moves: seq<Move>, g: State, k: nat)
    returns (moves': seq<Move>)
    requires FineRun(cfg, f0, moves) && Steadily(FineAfter(cfg, f0, moves), k)
    requires Keeps(cfg, FineAfter(cfg, f0, moves), g)
    ensures FineRun(cfg, f0, moves') && Coarse(cfg, f0, moves') == Coarse(cfg, f0, moves)
    ensures Keeps(cfg, FineAfter(cfg, f0, moves'), g) && Quiescent(FineAfter(cfg, f0, moves'))
    decreases Outstanding(FineAfter(cfg, f0, moves))
  {
    hide FineRun, FineAfter, Outstanding, Sound, Excludes, Parts, Viewed, Rel, Coarse, Onward, ViewSound, Allowed,
      Advance, Steadily, Quiescent, AnsweredAs;
    var f := FineAfter(cfg, f0, moves);
    var mv := LookAllowed(cfg, f, k);
    FineExtends(cfg, f0, moves, mv);
    CoarseMore(cfg, f0, moves, mv);
    assert Coarse(cfg, f0, moves) + [] == Coarse(cfg, f0, moves);
    moves' := moves + [mv];
    if mv.Look? {
      RelLook(cfg, cfg, f, g, k);
      LooksNearer(cfg, f, k);
      LookSteady(cfg, f, k);
      var before := moves';
      moves' := LooksThrough(cfg, f0, before, g, k);
    } else {
      CloseQuiets(cfg, f, k);
      RelClose(cfg, cfg, f, g, k);
    }
  }

  lemma LookAllowed(cfg: Config, f: Fine, k: nat) returns (mv: Move)
    requires Viewed(cfg, f) && Steadily(f, k)
    ensures mv in {Look(k), Close(k)} && Allowed(cfg, f, mv)
  {
    hide Onward, ViewSound, Serve;
    assert ViewOk(cfg, f, k);
    SeenSomething(cfg, f.views[k], k);
    mv := if Onward(cfg, f.views[k], k).More? then Look(k) else Close(k);
  }

  lemma LookSteady(cfg: Config, f: Fine, k: nat)
    requires Allowed(cfg, f, Look(k)) && Steadily(f, k)
    ensures Steadily(Advance(cfg, f, Look(k)), k)
  {
    hide Onward, Serve;
    var f' := Advance(cfg, f, Look(k));
    assert forall j: nat :: InView(f', j) == InView(f, j);
    assert Level(f'.views[k]);
  }

  lemma CloseQuiets(cfg: Config, f: Fine, k: nat)
    requires Allowed(cfg, f, Close(k)) && Steadily(f, k) && Viewed(cfg, f)
    ensures KeepsQuiet(cfg, f, Close(k)) && ClosesAs(cfg, cfg, f, k)
  {
    hide Onward, Serve, AnsweredAs, Viewed;
    LevelAnswered(cfg, f, k);
    var f' := Advance(cfg, f, Close(k));
    assert forall j: nat :: InView(f', j) <==> InView(f, j) && j != k;
    assert Level(f'.views[k]);
  }

  // ---------- one step ----------

  /** A request that looks begins, and looks its fill. */
  lemma LooksAtOnce(cfg: Config, f0: Fine, moves: seq<Move>, g: State, s: nat, p: Packet) returns (moves': seq<Move>)
    requires FineRun(cfg, f0, moves) && Quiescent(FineAfter(cfg, f0, moves)) && Keeps(cfg, FineAfter(cfg, f0, moves), g)
    requires Legal(cfg, g, Alone(s, p)) && Looks(p) && Asks(cfg, g, s, p)
    ensures FineRun(cfg, f0, moves') && Coarse(cfg, f0, moves') == Coarse(cfg, f0, moves) + [Alone(s, p)]
    ensures Quiescent(FineAfter(cfg, f0, moves')) && Landed(cfg, FineAfter(cfg, f0, moves'), g, Alone(s, p))
  {
    hide FineRun, FineAfter, Sound, Excludes, Parts, Viewed, Rel, Coarse, Legal, Apply, Serve, Looks, Steadily,
      Allowed, Advance;
    var f := FineAfter(cfg, f0, moves);
    BeginSteady(cfg, f, g, s, p);
    FineExtends(cfg, f0, moves, Begin(s, p));
    CoarseMore(cfg, f0, moves, Begin(s, p));
    var before := moves + [Begin(s, p)];
    RelBegin(cfg, cfg, f, g, s, p);
    SoundStep(cfg, g, Alone(s, p));
    LocksStep(cfg, g, Alone(s, p));
    moves' := LooksThrough(cfg, f0, before, Apply(cfg, g, Alone(s, p)), |f.st.log|);
  }

  ghost predicate BeginsSteadily(cfg: Config, f: Fine, s: nat, p: Packet)
  {
    Allowed(cfg, f, Begin(s, p)) && Steadily(Advance(cfg, f, Begin(s, p)), |f.st.log|)
  }

  lemma BeginSteady(cfg: Config, f: Fine, g: State, s: nat, p: Packet)
    requires Quiescent(f) && Keeps(cfg, f, g) && Legal(cfg, g, Alone(s, p)) && Looks(p)
    requires Asks(cfg, g, s, p)
    ensures BeginsSteadily(cfg, f, s, p)
  {
    hide Serve, Prepare, Onward, Sound, Excludes, Rel, Completed, Parts, ViewOk, LockFree;
    QuiescentSame(cfg, f, g);
    NothingPartly(f);
    BeginAllowed(cfg, f, g, s, p);
    hide Legal, Looks;
    var f', n := Advance(cfg, f, Begin(s, p)), |f.st.log|;
    assert forall k: nat :: InView(f', k) <==> InView(f, k) || k == n;
    assert Level(f'.views[n]);
  }

  lemma BeginAllowed(cfg: Config, f: Fine, g: State, s: nat, p: Packet)
    requires Quiescent(f) && g == f.st.(calls := g.calls) && Legal(cfg, g, Alone(s, p)) && Looks(p)
    requires Asks(cfg, g, s, p)
    ensures Allowed(cfg, f, Begin(s, p))
  {
    hide Serve, Prepare, Level;
  }

  /** Any other step. */
  lemma StepAllowed(cfg: Config, f: Fine, g: State, step: Step)
    requires Quiescent(f) && Keeps(cfg, f, g) && Legal(cfg, g, step) && !step.Do?
    requires !LooksAndAsks(cfg, g, step)
    ensures KeepsQuiet(cfg, f, By(step))
  {
    hide Serve, Prepare, Onward, Sound, Excludes, Rel, Parts, Viewed, ClosesAll, Unopposed;
    QuiescentSame(cfg, f, g);
    assert forall s: nat :: !Looking(f, s);
    LegalSame(cfg, g, f.st, step);
    StepQuiet(cfg, f, step);
  }

  lemma LegalSame(cfg: Config, g: State, st: State, step: Step)
    requires Legal(cfg, g, step) && g == st.(calls := g.calls)
    ensures Legal(cfg, st, step)
  {
    hide Serve, Prepare, ClosesAll, Unopposed;
    if step.End? {
      assert forall s: nat :: st.Ended(s) == g.Ended(s);
    }
  }

  lemma StepQuiet(cfg: Config, f: Fine, step: Step)
    requires Allowed(cfg, f, By(step)) && Quiescent(f)
    ensures KeepsQuiet(cfg, f, By(step))
  {
    hide Serve, Prepare, ClosesAll, Unopposed, LockFree;
    assert forall k: nat :: InView(Advance(cfg, f, By(step)), k) == InView(f, k);
  }

  /** One step, made of as many moves as it takes. */
  lemma RealizesStep(cfg: Config, w: World, sessions: nat, moves: seq<Move>, g: State, step: Step)
    returns (moves': seq<Move>)
    requires FineRun(cfg, FineStart(w, sessions), moves) && Legal(cfg, g, step)
    requires var f := FineAfter(cfg, FineStart(w, sessions), moves); Quiescent(f) && Keeps(cfg, f, g)
    ensures FineRun(cfg, FineStart(w, sessions), moves')
    ensures var f0 := FineStart(w, sessions);
            && Coarse(cfg, f0, moves') == Coarse(cfg, f0, moves) + [step]
            && Quiescent(FineAfter(cfg, f0, moves')) && Landed(cfg, FineAfter(cfg, f0, moves'), g, step)
  {
    hide FineRun, FineAfter, FineStart, Coarse, Keeps, Apply, Serve, Looks, Quiescent;
    var f0 := FineStart(w, sessions);
    var f := FineAfter(cfg, f0, moves);
    if step.Do? {
      moves' := RealizesDo(cfg, f0, moves, g, step.k);
    } else if LooksAndAsks(cfg, g, step) {
      moves' := LooksAtOnce(cfg, f0, moves, g, step.session, step.packet);
    } else {
      QuiescentUntorn(cfg, w, sessions, moves);
      moves' := RealizesPlain(cfg, f0, moves, g, step);
    }
  }

  lemma RealizesDo(cfg: Config, f0: Fine, moves: seq<Move>, g: State, k: nat) returns (moves': seq<Move>)
    requires FineRun(cfg, f0, moves) && Quiescent(FineAfter(cfg, f0, moves)) && Keeps(cfg, FineAfter(cfg, f0, moves), g)
    requires Legal(cfg, g, Do(k))
    ensures FineRun(cfg, f0, moves') && Coarse(cfg, f0, moves') == Coarse(cfg, f0, moves) + [Do(k)]
    ensures Quiescent(FineAfter(cfg, f0, moves')) && Landed(cfg, FineAfter(cfg, f0, moves'), g, Do(k))
  {
    hide FineRun, FineAfter, Coarse, Apply, Sound, Excludes, Parts, Viewed, Rel;
    var f := FineAfter(cfg, f0, moves);
    QuiescentSame(cfg, f, g);
    assert AtWork(f, k) && !Partly(f, k);
    moves' := TouchesThrough(cfg, f0, moves, g, k);
    var f' := FineAfter(cfg, f0, moves');
    assert forall j: nat :: InView(f', j) == InView(f, j);
    assert f'.part == map[];
  }

  lemma RealizesPlain(cfg: Config, f0: Fine, moves: seq<Move>, g: State, step: Step) returns (moves': seq<Move>)
    requires FineRun(cfg, f0, moves) && Quiescent(FineAfter(cfg, f0, moves)) && Keeps(cfg, FineAfter(cfg, f0, moves), g)
    requires Legal(cfg, g, step) && !step.Do? && Untorn(cfg, FineAfter(cfg, f0, moves))
    requires !LooksAndAsks(cfg, g, step)
    ensures FineRun(cfg, f0, moves') && Coarse(cfg, f0, moves') == Coarse(cfg, f0, moves) + [step]
    ensures Quiescent(FineAfter(cfg, f0, moves')) && Landed(cfg, FineAfter(cfg, f0, moves'), g, step)
  {
    hide FineRun, FineAfter, Coarse, Apply, Sound, Excludes, Parts, Viewed, Rel, Legal, Allowed, Advance, Quiescent,
      Serve, Looks, Untorn;
    var f := FineAfter(cfg, f0, moves);
    StepAllowed(cfg, f, g, step);
    FineExtends(cfg, f0, moves, By(step));
    CoarseMore(cfg, f0, moves, By(step));
    moves' := moves + [By(step)];
    SoundStep(cfg, g, step);
    LocksStep(cfg, g, step);
    RelPlain(cfg, f, g, step);
  }

  lemma RelPlain(cfg: Config, f: Fine, g: State, step: Step)
    requires Keeps(cfg, f, g) && Untorn(cfg, f) && Allowed(cfg, f, By(step)) && Legal(cfg, g, step)
    ensures Follows(cfg, cfg, f, g, By(step), step)
  {
    hide Sound, Excludes, Parts, Viewed, Rel, Legal, Apply, AnsweredAs, Explained, Serve, Follows;
    var f' := Advance(cfg, f, By(step));
    assert f'.views == f.views;
    UntornExplains(cfg, f');
    assert ExplainsAfter(cfg, cfg, f, By(step));
    RelMove(cfg, cfg, f, g, By(step));
  }

  lemma QuiescentUntorn(cfg: Config, w: World, sessions: nat, moves: seq<Move>)
    requires FineRun(cfg, FineStart(w, sessions), moves) && Quiescent(FineAfter(cfg, FineStart(w, sessions), moves))
    ensures var f := FineAfter(cfg, FineStart(w, sessions), moves); Untorn(cfg, f) && Undisturbed(f)
  {
    hide FineRun, FineAfter, FineStart, Untorn, SeenOut, Level, Still;
    var f := FineAfter(cfg, FineStart(w, sessions), moves);
    RunSeenOut(cfg, w, sessions, moves);
    forall k | k in f.views ensures Still(f.views[k]) {
      LevelStill(f.views[k]);
    }
    UndisturbedUntorn(cfg, f);
  }

  // ---------- runs ----------

  /** A run at the grain of the driver that is this run when requests take effect at
      once, undisturbed, and ends in the same state. */
  lemma {:induction false} Realized(cfg: Config, w: World, sessions: nat, steps: seq<Step>) returns (moves: seq<Move>)
    requires LegalRun(cfg, Start(w, sessions), steps)
    ensures FineRun(cfg, FineStart(w, sessions), moves) && Coarse(cfg, FineStart(w, sessions), moves) == steps
    ensures var f, g := FineAfter(cfg, FineStart(w, sessions), moves), After(cfg, Start(w, sessions), steps);
            Quiescent(f) && Undisturbed(f) && Keeps(cfg, f, g) && g == f.st.(calls := g.calls)
  {
    hide FineStart, Start, FineAfter, FineRun, After, LegalRun, Coarse, Legal, Apply, Keeps, Quiescent, Undisturbed,
      Serve, Rel, Untorn;
    var f0, g0 := FineStart(w, sessions), Start(w, sessions);
    if steps == [] {
      moves := [];
      FineNone(cfg, f0);
      CoarseNone(cfg, f0);
      NoStepsLegal(cfg, g0);
      StartKeeps(cfg, w, sessions);
    } else {
      var n := |steps| - 1;
      LastStep(cfg, g0, steps);
      var before := Realized(cfg, w, sessions, steps[..n]);
      moves := RealizesStep(cfg, w, sessions, before, After(cfg, g0, steps[..n]), steps[n]);
      assert steps[..n] + [steps[n]] == steps;
    }
    QuiescentUntorn(cfg, w, sessions, moves);
    RelOf(cfg, FineAfter(cfg, f0, moves), After(cfg, g0, steps));
    QuiescentSame(cfg, FineAfter(cfg, f0, moves), After(cfg, g0, steps));
  }

  lemma StartKeeps(cfg: Config, w: World, sessions: nat)
    ensures Quiescent(FineStart(w, sessions)) && Keeps(cfg, FineStart(w, sessions), Start(w, sessions))
  {
    StartRel(cfg, cfg, w, sessions);
  }

  lemma RelOf(cfg: Config, f: Fine, g: State)
    requires Keeps(cfg, f, g)
    ensures Rel(cfg, f, g)
  {
  }

  // ---------- the client's view, exact at the grain of the driver ----------

  /** A run of one session that takes exactly these packets and answers them all. */
  ghost predicate TakesThem(cfg: Config, w: World, ps: seq<Packet>, moves: seq<Move>)
  {
    && FineRun(cfg, FineStart(w, 1), moves)
    && var st := FineAfter(cfg, FineStart(w, 1), moves).st;
    Delivered(st) && PacketsIn(st.log) == ps
  }

  lemma TakesToo(cfg: Config, w: World, ps: seq<Packet>, steps: seq<Step>) returns (moves: seq<Move>)
    requires TakesAll(cfg, w, ps, steps)
    ensures TakesThem(cfg, w, ps, moves)
    ensures FineAfter(cfg, FineStart(w, 1), moves).st.out == After(cfg, Start(w, 1), steps).out
  {
    hide LegalRun, After, Start, FineRun, FineAfter, FineStart, Coarse, Keeps, Quiescent, Undisturbed;
    moves := Realized(cfg, w, 1, steps);
    var f, g := FineAfter(cfg, FineStart(w, 1), moves), After(cfg, Start(w, 1), steps);
    assert f.st.log == g.log && f.st.out == g.out;
  }

  /** What a client may rely on, at the grain of bytes: every run that takes its packets
      sends it the replies of the one-at-a-time server, if and only if no two of its
      packets cross. And some run takes them. */
  lemma ClientBytes(cfg: Config, w: World, ps: seq<Packet>)
    ensures (forall moves :: TakesThem(cfg, w, ps, moves) ==>
               FineAfter(cfg, FineStart(w, 1), moves).st.out == [ServeAll(cfg, w, map[], ps).replies]) <==>
            (forall i, j :: !Crosses(cfg, w, ps, i, j))
    ensures exists moves :: TakesThem(cfg, w, ps, moves)
  {
    hide TakesAll, After, Start, FineAfter, FineStart, FineRun, ServeAll, Crosses, Delivered;
    ClientOrder(cfg, w, ps);
    var steps :| TakesAll(cfg, w, ps, steps);
    var moves := TakesToo(cfg, w, ps, steps);
    if forall i, j :: !Crosses(cfg, w, ps, i, j) {
      forall moves | TakesThem(cfg, w, ps, moves)
        ensures FineAfter(cfg, FineStart(w, 1), moves).st.out == [ServeAll(cfg, w, map[], ps).replies]
      {
        OneClient(cfg, w, ps, moves);
      }
    } else {
      var bad :| TakesAll(cfg, w, ps, bad) && After(cfg, Start(w, 1), bad).out != [ServeAll(cfg, w, map[], ps).replies];
      var shows := TakesToo(cfg, w, ps, bad);
    }
  }
}

/** What the driver may rely on, at its own grain: in every state of every run. */
module Contract {
  import opened Messages
  import opened Packets
  import opened DataOps
  import opened Server
  import opened Lifecycle
  import opened Independence
  import opened Reordering
  import opened Pool
  import opened Runs
  import opened DriverUse
  import opened Grain
  import opened Views
  import opened Refinement
  import opened Simulation
  import opened Atomicity
  import opened Tearing

  /** A looking request is in the driver only beside jobs, and beside other looking
      requests, that share the lock with it. */
  ghost predicate Together(cfg: Config, f: Fine)
  {
    && (forall k: nat, i: nat :: InView(f, k) && i < |f.st.log| && f.st.log[i].InDriver() ==>
          Shares(cfg, PathLock) && Shares(cfg, f.st.log[i].work.job.lock))
    && (forall j: nat, k: nat :: InView(f, j) && InView(f, k) && j != k ==> Shares(cfg, PathLock))
  }

  /** Moves that let nobody in. */
  lemma TogetherKept(cfg: Config, f: Fine, f': Fine)
    requires Together(cfg, f) && |f.st.log| <= |f'.st.log| && forall k: nat :: InView(f', k) ==> InView(f, k)
    requires forall i :: 0 <= i < |f'.st.log| && f'.st.log[i].InDriver() ==>
               i < |f.st.log| && f.st.log[i].InDriver() && f'.st.log[i].work.job == f.st.log[i].work.job
    ensures Together(cfg, f')
  {
  }

  lemma TogetherStep(cfg: Config, f: Fine, step: Step)
    requires Allowed(cfg, f, By(step)) && Together(cfg, f)
    ensures Together(cfg, Advance(cfg, f, By(step)))
  {
    hide Serve, Prepare, Unopposed, ClosesAll, Render, Together;
    var f' := Advance(cfg, f, By(step));
    assert f'.views == f.views;
    if step.Enter? {
      TogetherEnter(cfg, f, step.k);
    } else {
      TogetherKept(cfg, f, f');
    }
  }

  lemma TogetherEnter(cfg: Config, f: Fine, k: nat)
    requires Allowed(cfg, f, By(Enter(k))) && Together(cfg, f)
    ensures Together(cfg, Advance(cfg, f, By(Enter(k))))
  {
    hide Serve, Prepare, Unopposed;
    var f' := Advance(cfg, f, By(Enter(k)));
    assert forall j: nat :: InView(f', j) == InView(f, j);
  }

  lemma TogetherBegin(cfg: Config, f: Fine, s: nat, p: Packet)
    requires Allowed(cfg, f, Begin(s, p)) && Together(cfg, f)
    ensures Together(cfg, Advance(cfg, f, Begin(s, p)))
  {
    hide Serve, Prepare, Completed, Looks;
    var f', n := Advance(cfg, f, Begin(s, p)), |f.st.log|;
    assert forall j: nat :: InView(f', j) && j != n ==> InView(f, j);
  }

  lemma TogetherMove(cfg: Config, f: Fine, mv: Move)
    requires Allowed(cfg, f, mv) && Together(cfg, f)
    ensures Together(cfg, Advance(cfg, f, mv))
  {
    hide Serve, Prepare, Onward, Touched, Completed, Together, Looks, Legal, Apply;
    match mv
    case By(step) => TogetherStep(cfg, f, step);
    case Touch(k) =>
      TouchOnly(f, k);
      TogetherKept(cfg, f, Touched(f, k));
    case Begin(s, p) => TogetherBegin(cfg, f, s, p);
    case Look(_) => TogetherKept(cfg, f, Advance(cfg, f, mv));
    case Close(_) => TogetherKept(cfg, f, Advance(cfg, f, mv));
  }

  lemma {:induction false} RunTogether(cfg: Config, w: World, sessions: nat, moves: seq<Move>)
    requires FineRun(cfg, FineStart(w, sessions), moves)
    ensures Together(cfg, FineAfter(cfg, FineStart(w, sessions), moves))
  {
    hide FineRun, FineAfter, Advance, Allowed;
    var f0 := FineStart(w, sessions);
    if moves == [] {
      FineNone(cfg, f0);
    } else {
      hide Together;
      var n := |moves| - 1;
      FineLast(cfg, f0, moves);
      RunTogether(cfg, w, sessions, moves[..n]);
      TogetherMove(cfg, FineAfter(cfg, f0, moves[..n]), moves[n]);
    }
  }

  /** No job in the driver uses a closed file. */
  ghost predicate UsesOpen(st: State)
  {
    forall k :: 0 <= k < |st.log| && UsesFile(st.log[k]) ==> st.log[k].work.job.file.value !in st.w.closes
  }

  lemma SameUse(cfg: Config, c': Config, f: Fine, g: State)
    requires Viewed(cfg, f) && Rel(c', f, g) && Excludes(c', g) && UsesOpen(g) && Alike(cfg, c')
    ensures Excludes(cfg, f.st) && UsesOpen(f.st)
  {
    hide AtOnce, ViewSound, Conflict, DrainFiles, Rests;
    assert g.w.closes == f.st.w.closes;
    hide Completed;
    assert forall k: nat :: InView(f, k) ==> k < |f.st.log| && f.st.log[k].work.Answered?;
    forall k | 0 <= k < |f.st.log| && f.st.log[k].InDriver()
      ensures g.log[k].InDriver() && g.log[k].work.job == f.st.log[k].work.job
    {
      assert !InView(f, k);
    }
  }

  /** In every state of every run, any sessions, any driver: two jobs in the driver never
      conflict and share the lock; a job in the driver uses no closed file, and no file
      was closed twice; and a looking request has only such beside it as share the lock
      with it, so with path calls exclusive no job and no other. */
  lemma DriverBytes(cfg: Config, w: World, sessions: nat, moves: seq<Move>)
    requires FineRun(cfg, FineStart(w, sessions), moves) && Sane(w, Start(w, sessions).ts)
    ensures var f := FineAfter(cfg, FineStart(w, sessions), moves);
            && Excludes(cfg, f.st) && UsesOpen(f.st) && Once(f.st.w.closes) && Together(cfg, f)
            && (!cfg.pathConcurrent ==> forall k: nat :: InView(f, k) ==>
                  && (forall i :: 0 <= i < |f.st.log| ==> !f.st.log[i].InDriver())
                  && (forall j: nat :: InView(f, j) ==> j == k))
  {
    hide FineRun, FineAfter, FineStart, Coarse, LegalRun, After, Start, Parts, Sound, Excludes, Explained, Under,
      SeenOut, Viewed, UsesOpen, Rel, Life, Sane, SparesRun, Alike;
    var f, steps := FineAfter(cfg, FineStart(w, sessions), moves), Coarse(cfg, FineStart(w, sessions), moves);
    RunTogether(cfg, w, sessions, moves);
    RunSeenOut(cfg, w, sessions, moves);
    UnderExplains(cfg, f);
    var c' := Under(cfg, f.views);
    ExplainedAlike(cfg, c', f);
    Simulated(cfg, c', w, sessions, moves);
    DriverSafety(c', w, sessions, steps);
    var g := After(c', Start(w, sessions), steps);
    UsesOpenNow(g);
    SameUse(cfg, c', f, g);
    ClosedOnce(c', f, g);
  }

  lemma UsesOpenNow(st: State)
    requires forall k :: 0 <= k < |st.log| && UsesFile(st.log[k]) ==> st.log[k].work.job.file.value !in st.w.closes
    ensures UsesOpen(st)
  {
  }

  lemma ClosedOnce(c': Config, f: Fine, g: State)
    requires Rel(c', f, g) && Sane(g.w, g.ts)
    ensures Once(f.st.w.closes)
  {
    hide SameLog, SameTables, Rests, DrainFiles;
  }
}

/** The theorem about whole runs at the grain of the driver: the server is as if it took
    the requests of all sessions one at a time, each at one moment between its arrival
    and its reply. */
module Linearization {
  import opened Messages
  import opened Packets
  import opened DataOps
  import opened Server
  import opened Lifecycle
  import opened Independence
  import opened Reordering
  import opened Pool
  import opened Runs
  import opened DriverUse
  import opened Linearity
  import opened Grain
  import opened Views
  import opened Refinement
  import opened Atomicity
  import opened Simulation
  import opened Stillness
  import opened Tearing
  import opened Client
  import opened Schedules
  import opened Safety

  /** The moments at which the requests of a run took effect, and its sessions ended: a
      WRITE in place with its first byte, a READ and a rewrite with their last, a
      looking request with its first driver call, any other barrier with its step. */
  ghost function Moments(cfg: Config, w: World, sessions: nat, moves: seq<Move>): seq<Instant>
  {
    Order(cfg, Start(w, sessions), Coarse(cfg, FineStart(w, sessions), moves))
  }

  /** Entry k has taken effect. */
  predicate Begun(f: Fine, k: nat)
  {
    && k < |f.st.log|
    && (match f.st.log[k].work
        case Answered(_) => true
        case InFlight(_, phase) => phase.Acted? || phase.Finished? || Partly(f, k))
  }

  /** The one-at-a-time server on the same packets in this order leaves the same files,
      once WRITEs under way are done, and the same tables; it gives every reply that
      is out or on its way. The order holds exactly what has taken effect, each once,
      and only sessions that have ended; requests that conflict, or of one session
      with a barrier among them, stand in it as they arrived. */
  ghost predicate InOneOrder(cfg: Config, w: World, sessions: nat, f: Fine, order: seq<Instant>)
  {
    var turn := OneByOne(cfg, w, sessions, f.st.log, order);
    && turn.w == Completed(f)
    && |turn.ts| == |f.st.ts| && (forall s :: 0 <= s < |f.st.ts| && !Looking(f, s) ==> turn.ts[s] == f.st.ts[s])
    && (forall k: nat :: k < |f.st.log| && f.st.log[k].Ready() && !InView(f, k) ==>
          k in turn.replies && turn.replies[k] == f.st.log[k].Core().reply)
    && (forall k: nat :: Effect(k) in order <==> Begun(f, k))
    && (forall i, j :: 0 <= i < j < |order| && order[i].Effect? ==> order[i] != order[j])
    && (forall i :: 0 <= i < |order| && order[i].Ends? ==> f.st.Ended(order[i].session))
    && Respects(f.st.log, order)
  }

  /** Who sent what, and what kind of work it is, are the same in both. */
  lemma SameEntries(cfg: Config, c': Config, f: Fine, g: State)
    requires SameLog(c', f, g) && Viewed(cfg, f)
    ensures |g.log| == |f.st.log|
    ensures forall k :: 0 <= k < |g.log| ==>
              && f.st.log[k].session == g.log[k].session && f.st.log[k].packet == g.log[k].packet
              && f.st.log[k].work.InFlight? == g.log[k].work.InFlight?
              && (g.log[k].work.InFlight? ==> f.st.log[k].work.job == g.log[k].work.job)
    ensures forall k :: 0 <= k < |g.log| ==> g.log[k].Core().Replied? == Begun(f, k)
    ensures forall k :: 0 <= k < |g.log| && f.st.log[k].Ready() && !InView(f, k) ==>
          g.log[k].Core() == f.st.log[k].Core()
  {
    hide AtOnce, ViewSound, Render;
    forall k | 0 <= k < |g.log| && InView(f, k) ensures f.st.log[k].work.Answered? {
      assert ViewOk(cfg, f, k);
    }
  }

  lemma AgreedEffects(cfg: Config, w: World, sessions: nat, f: Fine, g: State, order: seq<Instant>)
    requires Viewed(cfg, f) && SameLog(cfg, f, g) && Agrees(cfg, w, sessions, g, order)
    ensures forall k: nat :: Effect(k) in order <==> Begun(f, k)
  {
    SameEntries(cfg, cfg, f, g);
    hide Render, OneByOne, Viewed, SameLog, Partly;
    assert forall k: nat :: Begun(f, k) ==> k < |f.st.log|;
    hide Begun;
  }

  lemma AgreedReplies(cfg: Config, w: World, sessions: nat, f: Fine, g: State, order: seq<Instant>)
    requires Viewed(cfg, f) && SameLog(cfg, f, g) && Agrees(cfg, w, sessions, g, order)
    ensures var turn := OneByOne(cfg, w, sessions, g.log, order);
            forall k: nat :: k < |f.st.log| && f.st.log[k].Ready() && !InView(f, k) ==>
              k in turn.replies && turn.replies[k] == f.st.log[k].Core().reply
  {
    SameEntries(cfg, cfg, f, g);
    hide OneByOne, Viewed, SameLog, Begun, Render;
  }

  lemma Agreed(cfg: Config, w: World, sessions: nat, f: Fine, g: State, order: seq<Instant>)
    requires Viewed(cfg, f) && Rel(cfg, f, g) && Agrees(cfg, w, sessions, g, order) && Orderly(g, order)
    ensures InOneOrder(cfg, w, sessions, f, order)
  {
    hide AtOnce, Render, OneByOne, Respects, Begun, Viewed, SameLog, Completed, InView, Looking;
    SameEntries(cfg, cfg, f, g);
    EffectsWithin(cfg, w, sessions, g, order);
    AgreedEffects(cfg, w, sessions, f, g, order);
    AgreedReplies(cfg, w, sessions, f, g, order);
    hide AtOnce, Render, OneByOne, Respects, Begun, Viewed, SameLog, Completed, InView, Looking;
    OneByOneSame(cfg, w, sessions, g.log, f.st.log, order);
    RespectsSame(g.log, f.st.log, order);
  }

  /** One moment of a run in which no answer was torn. */
  lemma UntornInOrder(cfg: Config, w: World, sessions: nat, moves: seq<Move>)
    requires FineRun(cfg, FineStart(w, sessions), moves) && Untorn(cfg, FineAfter(cfg, FineStart(w, sessions), moves))
    ensures InOneOrder(cfg, w, sessions, FineAfter(cfg, FineStart(w, sessions), moves),
                       Moments(cfg, w, sessions, moves))
  {
    hide FineRun, FineAfter, FineStart, Untorn, Coarse, LegalRun, After, Start, Order, Agrees, Orderly, Viewed, Parts,
      Rel, Sound, Excludes, InOneOrder, Explained, Steady;
    var f, st0 := FineAfter(cfg, FineStart(w, sessions), moves), Start(w, sessions);
    UntornExplains(cfg, f);
    Simulated(cfg, cfg, w, sessions, moves);
    var steps := Coarse(cfg, FineStart(w, sessions), moves);
    TurnByTurn(cfg, w, sessions, steps);
    Agreed(cfg, w, sessions, f, After(cfg, st0, steps), Order(cfg, st0, steps));
  }

  /** An answer once given stays. */
  lemma {:induction false} UntornBefore(cfg: Config, w: World, sessions: nat, moves: seq<Move>, n: nat)
    requires FineRun(cfg, FineStart(w, sessions), moves) && n <= |moves|
    requires Untorn(cfg, FineAfter(cfg, FineStart(w, sessions), moves))
    ensures FineRun(cfg, FineStart(w, sessions), moves[..n])
    ensures Untorn(cfg, FineAfter(cfg, FineStart(w, sessions), moves[..n]))
  {
    hide FineRun, FineAfter, FineStart, Untorn, Explained, Allowed, Advance, Within, Serve;
    if n == |moves| {
      assert moves[..n] == moves;
    } else {
      var last := |moves| - 1;
      var f0 := FineStart(w, sessions);
      FineLast(cfg, f0, moves);
      RunWithin(cfg, w, sessions, moves[..last]);
      var prev := FineAfter(cfg, f0, moves[..last]);
      UntornExplains(cfg, Advance(cfg, prev, moves[last]));
      assert ExplainsAfter(cfg, cfg, prev, moves[last]);
      ExplainsBefore(cfg, cfg, prev, moves[last]);
      ExplainedUntorn(cfg, prev);
      UntornBefore(cfg, w, sessions, moves[..last], n);
      assert moves[..last][..n] == moves[..n];
    }
  }

  lemma ExplainedUntorn(cfg: Config, f: Fine)
    requires Explained(cfg, cfg, f)
    ensures Untorn(cfg, f)
  {
    hide AnsweredAs, Serve;
  }

  lemma MomentsGrow(cfg: Config, w: World, sessions: nat, moves: seq<Move>, n: nat)
    requires FineRun(cfg, FineStart(w, sessions), moves) && Untorn(cfg, FineAfter(cfg, FineStart(w, sessions), moves))
    requires n <= |moves|
    ensures Moments(cfg, w, sessions, moves[..n]) <= Moments(cfg, w, sessions, moves)
  {
    hide FineRun, FineAfter, FineStart, Untorn, Coarse, LegalRun, After, Start, Order, Agrees, Orderly, Viewed, Parts,
      Rel, Sound, Excludes, InOneOrder, Explained, Steady;
    var f, f0, st0 := FineAfter(cfg, FineStart(w, sessions), moves), FineStart(w, sessions), Start(w, sessions);
    UntornExplains(cfg, f);
    Simulated(cfg, cfg, w, sessions, moves);
    var steps, before := Coarse(cfg, f0, moves), Coarse(cfg, f0, moves[..n]);
    CoarseGrows(cfg, f0, moves, n);
    TurnByTurn(cfg, w, sessions, steps);
    assert before == steps[..|before|];
  }

  /** At each of its moments the run is the one-at-a-time server's run in the order of the
      effects so far, and that order only grows. So each request takes effect at one
      moment after it was taken and before its reply was known. */
  ghost predicate InOrderThroughout(cfg: Config, w: World, sessions: nat, moves: seq<Move>)
  {
    forall n :: 0 <= n <= |moves| ==>
      && InOneOrder(cfg, w, sessions, FineAfter(cfg, FineStart(w, sessions), moves[..n]),
                    Moments(cfg, w, sessions, moves[..n]))
      && Moments(cfg, w, sessions, moves[..n]) <= Moments(cfg, w, sessions, moves)
  }

  /** Every run at the grain of the driver, for any number of sessions, any packets and
      any driver, in which each call of a looking request met the files as they were at
      its first call with every WRITE then under way completed. */
  lemma Linearizable(cfg: Config, w: World, sessions: nat, moves: seq<Move>)
    requires FineRun(cfg, FineStart(w, sessions), moves) && Undisturbed(FineAfter(cfg, FineStart(w, sessions), moves))
    ensures InOrderThroughout(cfg, w, sessions, moves)
  {
    hide FineRun, FineAfter, FineStart, InOneOrder, Moments, Undisturbed, Untorn, SeenOut;
    RunSeenOut(cfg, w, sessions, moves);
    UndisturbedUntorn(cfg, FineAfter(cfg, FineStart(w, sessions), moves));
    forall n | 0 <= n <= |moves|
      ensures InOneOrder(cfg, w, sessions, FineAfter(cfg, FineStart(w, sessions), moves[..n]),
                         Moments(cfg, w, sessions, moves[..n]))
      ensures Moments(cfg, w, sessions, moves[..n]) <= Moments(cfg, w, sessions, moves)
    {
      UntornBefore(cfg, w, sessions, moves, n);
      UntornInOrder(cfg, w, sessions, moves[..n]);
      MomentsGrow(cfg, w, sessions, moves, n);
    }
  }

  /** With the lock as it is by default, and for a single session with any lock, that
      is every run. */
  lemma LinearizableAlways(cfg: Config, w: World, sessions: nat, moves: seq<Move>)
    requires FineRun(cfg, FineStart(w, sessions), moves) && (!cfg.pathConcurrent || sessions <= 1)
    ensures InOrderThroughout(cfg, w, sessions, moves)
  {
    hide FineRun, FineAfter, FineStart, InOrderThroughout, Undisturbed;
    NeverDisturbed(cfg, w, sessions, moves);
    Linearizable(cfg, w, sessions, moves);
  }

  // ---------- the reply streams ----------

  /** What each client was sent. */
  lemma SameStreams(cfg: Config, c': Config, f: Fine, g: State)
    requires Viewed(cfg, f) && Rel(c', f, g) && InOrder(g)
    ensures InOrder(f.st)
  {
    hide SentTo, AtOnce, ViewSound, Render, Completed;
    SameEntries(cfg, c', f, g);
    assert forall k: nat :: InView(f, k) ==> k < |f.st.log| && !f.st.log[k].sent;
    forall k | 0 <= k < |f.st.log| && f.st.log[k].sent
      ensures f.st.log[k].Ready() && !InView(f, k) && g.log[k].Core() == f.st.log[k].Core()
    {
      assert g.log[k].sent;
    }
    forall s | 0 <= s < |f.st.out| ensures f.st.out[s] == SentTo(f.st.log, s) {
      SentSame(g.log, f.st.log, s);
    }
  }

  /** In every run, disturbed or not, what each client was sent is the replies of its
      first requests, in the order it asked. */
  lemma RunStreams(cfg: Config, w: World, sessions: nat, moves: seq<Move>)
    requires FineRun(cfg, FineStart(w, sessions), moves)
    ensures InOrder(FineAfter(cfg, FineStart(w, sessions), moves).st)
  {
    hide FineRun, FineAfter, FineStart, Coarse, LegalRun, After, Start, Viewed, Parts, Rel, Sound, Excludes,
      Explained, Under, SeenOut, InOrder;
    var f, steps := FineAfter(cfg, FineStart(w, sessions), moves), Coarse(cfg, FineStart(w, sessions), moves);
    RunSeenOut(cfg, w, sessions, moves);
    UnderExplains(cfg, f);
    var c' := Under(cfg, f.views);
    Simulated(cfg, c', w, sessions, moves);
    RunInOrder(c', w, sessions, steps);
    SameStreams(cfg, c', f, After(c', Start(w, sessions), steps));
  }

  /** Once every reply is sent nothing is under way. */
  lemma DeliveredSame(cfg: Config, c': Config, f: Fine, g: State)
    requires Viewed(cfg, f) && Rel(c', f, g) && InOrder(f.st) && Delivered(f.st)
    ensures g == f.st.(calls := g.calls)
  {
    hide SentTo, AtOnce, ViewSound, Render, Completed;
    assert forall k: nat :: InView(f, k) ==> k < |f.st.log| && !f.st.log[k].sent;
    assert forall k: nat :: !Partly(f, k);
    NothingPartly(f);
    forall k | 0 <= k < |g.log| ensures g.log[k] == f.st.log[k] {
    }
    assert g.log == f.st.log;
    forall s | 0 <= s < |g.ts| ensures g.ts[s] == f.st.ts[s] {
      assert !Looking(f, s);
    }
    assert g.ts == f.st.ts;
  }

  /** Runs at the grain of the driver end as the same runs do when requests take effect
      at once: in the same state, every client sent the same. */
  lemma SameEnd(cfg: Config, w: World, sessions: nat, moves: seq<Move>)
    requires FineRun(cfg, FineStart(w, sessions), moves) && Undisturbed(FineAfter(cfg, FineStart(w, sessions), moves))
    requires Delivered(FineAfter(cfg, FineStart(w, sessions), moves).st)
    ensures var f, steps := FineAfter(cfg, FineStart(w, sessions), moves), Coarse(cfg, FineStart(w, sessions), moves);
            && LegalRun(cfg, Start(w, sessions), steps)
            && After(cfg, Start(w, sessions), steps) == f.st.(calls := After(cfg, Start(w, sessions), steps).calls)
  {
    hide FineRun, FineAfter, FineStart, Coarse, LegalRun, After, Start, Viewed, Parts, Rel, Sound, Excludes,
      Explained, SeenOut, InOrder, Undisturbed, Untorn, Delivered;
    var f, steps := FineAfter(cfg, FineStart(w, sessions), moves), Coarse(cfg, FineStart(w, sessions), moves);
    RunSeenOut(cfg, w, sessions, moves);
    UndisturbedUntorn(cfg, f);
    UntornExplains(cfg, f);
    Simulated(cfg, cfg, w, sessions, moves);
    RunStreams(cfg, w, sessions, moves);
    DeliveredSame(cfg, cfg, f, After(cfg, Start(w, sessions), steps));
  }

  /** For any number of sessions: if no barrier that asks about files began while a READ
      or WRITE was pending, the files and the tables are in the end those of the
      server that takes the packets as they arrived, and so is every client's stream,
      if and only if no request overtook another across the end of a file. */
  lemma Streams(cfg: Config, w: World, sessions: nat, moves: seq<Move>)
    requires FineRun(cfg, FineStart(w, sessions), moves) && Undisturbed(FineAfter(cfg, FineStart(w, sessions), moves))
    requires Delivered(FineAfter(cfg, FineStart(w, sessions), moves).st)
    requires ClearRun(cfg, Start(w, sessions), Coarse(cfg, FineStart(w, sessions), moves))
    ensures var st := FineAfter(cfg, FineStart(w, sessions), moves).st;
            var serial := Serial(cfg, w, sessions, st.log, st.ends);
            && st.w == serial.w && st.ts == serial.ts && |st.out| == sessions
            && ((forall s :: 0 <= s < sessions ==> st.out[s] == Project(st.log, serial.replies, s)) <==>
                QuietRun(cfg, Start(w, sessions), Coarse(cfg, FineStart(w, sessions), moves)))
  {
    hide FineRun, FineAfter, FineStart, Coarse, LegalRun, After, Start, Undisturbed, Delivered, QuietRun, ClearRun,
      Serial, Project;
    SameEnd(cfg, w, sessions, moves);
    var steps := Coarse(cfg, FineStart(w, sessions), moves);
    DeliveredToo(FineAfter(cfg, FineStart(w, sessions), moves).st, After(cfg, Start(w, sessions), steps));
    StreamEquivalence(cfg, w, sessions, steps);
  }

  /** A client whose READs and WRITEs do not cross at the end of a file, alone on the
      server, is sent exactly the replies of the one-at-a-time server, however the
      bytes of its requests interleave. */
  lemma OneClient(cfg: Config, w: World, ps: seq<Packet>, moves: seq<Move>)
    requires FineRun(cfg, FineStart(w, 1), moves)
    requires var st := FineAfter(cfg, FineStart(w, 1), moves).st; Delivered(st) && PacketsIn(st.log) == ps
    requires forall i, j :: !Crosses(cfg, w, ps, i, j)
    ensures FineAfter(cfg, FineStart(w, 1), moves).st.out == [ServeAll(cfg, w, map[], ps).replies]
  {
    hide FineRun, FineAfter, FineStart, Coarse, LegalRun, After, Start, Undisturbed, Delivered, ServeAll, Crosses,
      QuietRun;
    NeverDisturbed(cfg, w, 1, moves);
    SameEnd(cfg, w, 1, moves);
    var steps := Coarse(cfg, FineStart(w, 1), moves);
    DeliveredToo(FineAfter(cfg, FineStart(w, 1), moves).st, After(cfg, Start(w, 1), steps));
    UncrossedIsQuiet(cfg, w, steps);
    RunSerialIffQuiet(cfg, w, ps, steps);
  }

  lemma DeliveredToo(st: State, st': State)
    requires Delivered(st) && st' == st.(calls := st'.calls)
    ensures Delivered(st')
  {
  }
}

/** The same at the grain of the driver: from every state of every run some continuation
    moves every byte there is left to move, makes every call left to make, and sends
    every reply. */
module Finishing {
  import opened Bytes
  import opened Messages
  import opened Packets
  import opened Content
  import opened Paths
  import opened DataOps
  import opened Directory
  import opened Server
  import opened Lifecycle
  import opened Independence
  import opened Reordering
  import opened Pool
  import opened Runs
  import opened DriverUse
  import opened Grain
  import opened Bytewise
  import opened Views
  import opened Refinement
  import opened Atomicity
  import opened Stillness
  import opened Tearing
  import opened Linearization
  import Progress

  /** The touches a job has left, at most, before its last. */
  function TouchesLeft(op: Op, part: Option<bytes>): int
  {
    var n := if part.Some? then |part.value| else 0;
    match op
    case ReadOp(_, _, want) => want - n
    case WriteOp(_, _, data, true) => |data| - n
    case WriteOp(_, _, _, false) => if part.Some? then 0 else 1
  }

  /** The calls a looking request has left. */
  function CallsLeft(v: View): int
  {
    if Pages(v.t, v.packet) then |Paged(v.t, v.packet).entries| - Paged(v.t, v.packet).pos - |v.seen| else 2 - |v.seen|
  }

  function PartAt(f: Fine, k: nat): Option<bytes> { if k in f.part then Some(f.part[k]) else None }

  /** How far entry k is from being sent. */
  function Distance(f: Fine, k: nat): nat
    requires k < |f.st.log|
  {
    if InView(f, k) then 2 + Max(CallsLeft(f.views[k]), 0)
    else match f.st.log[k].work
      case InFlight(_, Acted(_)) => 2
      case InFlight(j, Running) => 3 + Max(TouchesLeft(j.op, PartAt(f, k)), 0)
      case InFlight(j, Waiting) => 4 + Max(TouchesLeft(j.op, None), 0)
      case _ => if f.st.log[k].sent then 0 else 1
  }

  function Sum(s: seq<nat>): nat { if s == [] then 0 else Sum(s[..|s| - 1]) + s[|s| - 1] }

  lemma {:induction false} SumLess(s: seq<nat>, s': seq<nat>, k: nat)
    requires |s| == |s'| && k < |s| && s'[k] < s[k] && forall i :: 0 <= i < |s| && i != k ==> s'[i] == s[i]
    ensures Sum(s') < Sum(s)
  {
    var n := |s| - 1;
    if k < n {
      SumLess(s[..n], s'[..n], k);
    } else {
      assert s[..n] == s'[..n];
    }
  }

  function Distances(f: Fine): (s: seq<nat>)
    ensures |s| == |f.st.log|
  {
    seq(|f.st.log|, k requires 0 <= k < |f.st.log| => Distance(f, k))
  }

  function Outstanding(f: Fine): nat { Sum(Distances(f)) }

  /** A move that brings entry k nearer and leaves the others where they are. */
  lemma Nearer(f: Fine, f': Fine, k: nat)
    requires |f'.st.log| == |f.st.log| && k < |f.st.log| && Distance(f', k) < Distance(f, k)
    requires forall i :: 0 <= i < |f.st.log| && i != k ==> Distance(f', i) == Distance(f, i)
    ensures Outstanding(f') < Outstanding(f)
  {
    hide Distance;
    SumLess(Distances(f), Distances(f'), k);
  }

  predicate Taken(f: Fine, f': Fine)
  {
    && |f'.st.log| == |f.st.log| && f'.st.ends == f.st.ends
    && forall i :: 0 <= i < |f.st.log| ==>
          f'.st.log[i].session == f.st.log[i].session && f'.st.log[i].packet == f.st.log[i].packet
  }

  // ---------- the moves ----------

  lemma PlainCalls(cfg: Config, w: World, t: Table, p: Packet, k: nat)
    requires Looks(p) && !Pages(t, p)
    ensures |Serve(cfg, w, t, p, k).calls| <= 2
  {
    LookDecodes(p.typ, p.payload);
    hide Decode, DecodeHandle, RequestId, Perform;
    var d := Decode(p.typ, p.payload).value;
    if d.Got? {
      PlainCalled(cfg, w, t, d.value, k);
    }
  }

  lemma PlainCalled(cfg: Config, w: World, t: Table, m: Message, k: nat)
    requires || (m.PathRequest? && m.kind in {FXP_STAT, FXP_LSTAT, FXP_OPENDIR, FXP_READLINK})
             || (m.HandleRequest? && m.kind == FXP_FSTAT)
             || (m.HandleRequest? && m.kind == FXP_READDIR && !(m.handle in t && t[m.handle].dir &&
                                                                t[m.handle].pos < |t[m.handle].entries|))
    ensures |Perform(cfg, w, t, m, k).calls| <= 2
  {
    hide Clean, AttrsFromStat, Full;
  }

  lemma MoreCalls(cfg: Config, v: View, k: nat)
    requires ViewSound(cfg, v, k) && Onward(cfg, v, k).More?
    ensures CallsLeft(v) > 0
  {
    if !Pages(v.t, v.packet) {
      PlainCalls(StatAt(cfg, v.seen[0]), v.base.(fs := v.seen[|v.seen| - 1]), v.t, v.packet, k);
    }
    hide Serve, DecodeHandle, Collect, StatAt, Prepare;
  }

  lemma LooksNearer(cfg: Config, f: Fine, k: nat)
    requires Allowed(cfg, f, Look(k)) && Viewed(cfg, f)
    ensures Outstanding(Advance(cfg, f, Look(k))) < Outstanding(f) && Taken(f, Advance(cfg, f, Look(k)))
  {
    hide Serve, Pages, Paged, Onward, Outstanding, TouchesLeft, ViewSound;
    assert ViewOk(cfg, f, k);
    MoreCalls(cfg, f.views[k], k);
    hide Viewed, ViewOk;
    Nearer(f, Advance(cfg, f, Look(k)), k);
  }

  lemma ClosesNearer(cfg: Config, f: Fine, k: nat)
    requires Allowed(cfg, f, Close(k)) && Viewed(cfg, f)
    ensures Outstanding(Advance(cfg, f, Close(k))) < Outstanding(f) && Taken(f, Advance(cfg, f, Close(k)))
  {
    hide Serve, Pages, Paged, Onward, Outstanding, CallsLeft, TouchesLeft;
    Nearer(f, Advance(cfg, f, Close(k)), k);
  }

  lemma TouchNearer(cfg: Config, f: Fine, k: nat)
    requires AtWork(f, k) && Parts(f) && Viewed(cfg, f)
    ensures Outstanding(Touched(f, k)) < Outstanding(f) && Taken(f, Touched(f, k))
  {
    hide Touched, Parts;
    TouchOnly(f, k);
    assert !InView(f, k) by { assert InView(f, k) ==> ViewOk(cfg, f, k); }
    TouchLess(f, k);
    hide Outstanding, CallsLeft, TouchesLeft, Touched, Viewed, PartOk;
    var f' := Touched(f, k);
    forall i | 0 <= i < |f.st.log| && i != k ensures Distance(f', i) == Distance(f, i) {
      assert PartAt(f', i) == PartAt(f, i);
    }
    Nearer(f, f', k);
  }

  /** One touch ends the job, or leaves it with fewer to go. */
  predicate Fewer(f: Fine, f': Fine, k: nat)
    requires AtWork(f, k) && k < |f'.st.log| && f'.st.log[k].work.InFlight?
  {
    var op := f.st.log[k].work.job.op;
    || f'.st.log[k].work.phase.Acted?
    || (&& AtWork(f', k) && f'.st.log[k].work == f.st.log[k].work && 0 < TouchesLeft(op, PartAt(f, k))
        && TouchesLeft(op, PartAt(f', k)) < TouchesLeft(op, PartAt(f, k)))
  }

  lemma ReadFewer(f: Fine, k: nat)
    requires AtWork(f, k) && f.st.log[k].work.job.op.ReadOp?
    ensures Fewer(f, Touched(f, k), k)
  {
  }

  lemma WriteFewer(f: Fine, k: nat)
    requires AtWork(f, k) && f.st.log[k].work.job.op.WriteOp?
    ensures Fewer(f, Touched(f, k), k)
  {
    hide Splice, Accepts;
  }

  lemma TouchLess(f: Fine, k: nat)
    requires AtWork(f, k)
    ensures Fewer(f, Touched(f, k), k)
  {
    hide Touched, Fewer;
    if f.st.log[k].work.job.op.ReadOp? {
      ReadFewer(f, k);
    } else {
      WriteFewer(f, k);
    }
  }

  lemma StepNearer(cfg: Config, f: Fine, step: Step)
    requires Allowed(cfg, f, By(step)) && Parts(f) && Viewed(cfg, f) && (step.Enter? || step.Leave? || step.Send?)
    ensures Outstanding(Advance(cfg, f, By(step))) < Outstanding(f) && Taken(f, Advance(cfg, f, By(step)))
  {
    hide Outstanding, CallsLeft, TouchesLeft, Serve, Prepare, Unopposed, PartOk, Render, LockFree, ViewSound, Onward;
    var f', k := Advance(cfg, f, By(step)), step.k;
    assert InView(f, k) ==> ViewOk(cfg, f, k);
    assert step.Enter? ==> k !in f.part;
    Nearer(f, f', k);
  }

  // ---------- never stuck ----------

  /** Every request is over and its reply sent, unless its session has ended. */
  predicate AllOver(f: Fine)
  {
    && (forall k | k in f.views :: !InView(f, k))
    && Progress.Settled(f.st)
  }

  predicate Shaped(f: Fine)
  {
    && |f.st.out| == |f.st.ts| && (forall i :: 0 <= i < |f.st.log| ==> f.st.log[i].session < |f.st.ts|)
    && (forall k | k in f.views :: k < |f.st.log|)
  }

  lemma EntersFree(cfg: Config, f: Fine) returns (k: nat)
    requires forall k | k in f.views :: !InView(f, k)
    requires exists i: nat :: i < |f.st.log| && f.st.log[i].work.InFlight? && f.st.log[i].work.phase.Waiting?
    requires forall i :: 0 <= i < |f.st.log| ==> !f.st.log[i].InDriver()
    ensures Allowed(cfg, f, By(Enter(k)))
  {
    k := Progress.WaitingEnters(cfg, f.st);
    hide Unopposed;
  }

  lemma CanGoOn(cfg: Config, f: Fine) returns (mv: Move)
    requires !AllOver(f) && Shaped(f) && Viewed(cfg, f)
    ensures Allowed(cfg, f, mv)
    ensures mv.Touch? || mv.Look? || mv.Close? || (mv.By? && (mv.step.Enter? || mv.step.Leave? || mv.step.Send?))
  {
    hide Unopposed, LockFree, Serve, Onward, ViewSound;
    if k: nat :| k in f.views && InView(f, k) {
      assert ViewOk(cfg, f, k);
      SeenSomething(cfg, f.views[k], k);
      mv := if Onward(cfg, f.views[k], k).More? then Look(k) else Close(k);
    } else if k: nat :| k < |f.st.log| && f.st.log[k].work.InFlight? && f.st.log[k].work.phase.Running? {
      mv := Touch(k);
    } else if k: nat :| k < |f.st.log| && f.st.log[k].work.InFlight? && f.st.log[k].work.phase.Acted? {
      mv := By(Leave(k));
    } else if k: nat :| k < |f.st.log| && f.st.log[k].work.InFlight? && f.st.log[k].work.phase.Waiting? {
      var j := EntersFree(cfg, f);
      mv := By(Enter(j));
    } else {
      var j := Progress.ReadySends(cfg, f.st);
      mv := By(Send(j));
    }
  }

  lemma MoveNearer(cfg: Config, f: Fine, mv: Move)
    requires Allowed(cfg, f, mv) && Inv(cfg, f)
    requires mv.Touch? || mv.Look? || mv.Close? || (mv.By? && (mv.step.Enter? || mv.step.Leave? || mv.step.Send?))
    ensures Outstanding(Advance(cfg, f, mv)) < Outstanding(f) && Taken(f, Advance(cfg, f, mv))
  {
    hide Outstanding, Taken, Parts, Viewed, Touched, Legal, Apply, Onward, Serve;
    match mv
    case Touch(k) => TouchNearer(cfg, f, k);
    case Look(k) => LooksNearer(cfg, f, k);
    case Close(k) => ClosesNearer(cfg, f, k);
    case By(step) => StepNearer(cfg, f, step);
    case Begin(_, _) =>
  }

  lemma RunShaped(cfg: Config, w: World, sessions: nat, moves: seq<Move>)
    requires FineRun(cfg, FineStart(w, sessions), moves)
    ensures var f := FineAfter(cfg, FineStart(w, sessions), moves); Shaped(f) && Inv(cfg, f)
  {
    hide FineRun, FineAfter, FineStart, Coarse, LegalRun, After, Start, Parts, Sound, Excludes, Explained, Under,
      SeenOut, Completed, AtOnce, ViewOk;
    var f, steps := FineAfter(cfg, FineStart(w, sessions), moves), Coarse(cfg, FineStart(w, sessions), moves);
    RunSeenOut(cfg, w, sessions, moves);
    UnderExplains(cfg, f);
    var c' := Under(cfg, f.views);
    Simulated(cfg, c', w, sessions, moves);
    RunSessions(c', w, sessions, steps);
    var g := After(c', Start(w, sessions), steps);
    assert forall i :: 0 <= i < |f.st.log| ==> g.log[i].session == f.st.log[i].session;
  }

  /** From any state of any run, of any number of sessions, some continuation takes no
      packet and ends no session, finishes every request, and sends every reply that
      still has a session to go to. */
  lemma {:induction false} Finishes(cfg: Config, w: World, sessions: nat, moves: seq<Move>) returns (more: seq<Move>)
    requires FineRun(cfg, FineStart(w, sessions), moves)
    ensures FineRun(cfg, FineStart(w, sessions), moves + more)
    ensures var f0 := FineStart(w, sessions);
            && AllOver(FineAfter(cfg, f0, moves + more))
            && Taken(FineAfter(cfg, f0, moves), FineAfter(cfg, f0, moves + more))
    decreases Outstanding(FineAfter(cfg, FineStart(w, sessions), moves))
  {
    hide FineStart, FineAfter, FineRun, Allowed, Advance, Outstanding, AllOver, Shaped, Parts, Viewed;
    var f0 := FineStart(w, sessions);
    var f := FineAfter(cfg, f0, moves);
    if AllOver(f) {
      more := [];
      assert moves + [] == moves;
    } else {
      RunShaped(cfg, w, sessions, moves);
      var mv := CanGoOn(cfg, f);
      FineExtends(cfg, f0, moves, mv);
      MoveNearer(cfg, f, mv);
      var rest := Finishes(cfg, w, sessions, moves + [mv]);
      more := [mv] + rest;
      assert moves + more == moves + [mv] + rest;
    }
  }
}

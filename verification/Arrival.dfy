/** Arrival order across sessions. With one session every run ends in the filesystem of
    the one-at-a-time server; with more it need not: the scheduler makes a request wait
    for its own session only, so a STAT may overtake another session's WRITE that came
    first and is still waiting. */
module Arrival {
  import opened Bytes
  import opened Messages
  import opened Packets
  import opened Content
  import opened DataOps
  import opened Server
  import opened Independence
  import opened Reordering
  import opened Pool
  import opened Runs
  import opened Schedules
  import opened Torn
  import opened Halfway
  import Instances
  import Wire

  /** The world, the tables and, along exactly the quiet runs, every session's stream
      are those of the one-at-a-time server in arrival order. */
  ghost predicate AsArrived(cfg: Config, w: World, sessions: nat, steps: seq<Step>)
  {
    var st := After(cfg, Start(w, sessions), steps);
    var serial := Serial(cfg, w, sessions, st.log, st.ends);
    && st.w == serial.w && st.ts == serial.ts && |st.out| == sessions
    && ((forall s :: 0 <= s < sessions ==> st.out[s] == Project(st.log, serial.replies, s)) <==>
        QuietRun(cfg, Start(w, sessions), steps))
  }

  /** So it is for every driver, every world and every run whose replies have all left. */
  ghost predicate AlwaysAsArrived(sessions: nat)
  {
    forall cfg, w, steps ::
      LegalRun(cfg, Start(w, sessions), steps) && Delivered(After(cfg, Start(w, sessions), steps)) ==>
        AsArrived(cfg, w, sessions, steps)
  }

  // ---------- one session ----------

  lemma FewAreClear(cfg: Config, w: World, sessions: nat, steps: seq<Step>)
    requires sessions <= 1 && LegalRun(cfg, Start(w, sessions), steps)
    ensures ClearRun(cfg, Start(w, sessions), steps)
  {
    hide After, Start, LegalRun, Serve;
    if sessions == 1 {
      OneSessionIsClear(cfg, w, steps);
    } else {
      forall n | 0 <= n < |steps| ensures Clear(cfg, After(cfg, Start(w, sessions), steps[..n]), steps[n]) {
        PrefixRun(cfg, Start(w, sessions), steps, n);
        RunSessions(cfg, w, sessions, steps[..n]);
      }
    }
  }

  lemma FewAsArrived(sessions: nat)
    requires sessions <= 1
    ensures AlwaysAsArrived(sessions)
  {
    hide After, Start, LegalRun, ClearRun, QuietRun, Serial, Project, Delivered;
    forall cfg, w, steps |
      LegalRun(cfg, Start(w, sessions), steps) && Delivered(After(cfg, Start(w, sessions), steps))
      ensures AsArrived(cfg, w, sessions, steps)
    {
      FewAreClear(cfg, w, sessions, steps);
      StreamEquivalence(cfg, w, sessions, steps);
    }
  }

  // ---------- a barrier that overtakes ----------

  lemma ExtendsQuietly(cfg: Config, st: State, steps: seq<Step>, x: Step)
    requires LegalRun(cfg, st, steps) && Legal(cfg, After(cfg, st, steps), x)
    requires QuietRun(cfg, st, steps) && Quiet(After(cfg, st, steps), x)
    ensures LegalRun(cfg, st, steps + [x]) && After(cfg, st, steps + [x]) == Apply(cfg, After(cfg, st, steps), x)
    ensures QuietRun(cfg, st, steps + [x])
  {
    hide Legal, Apply, Quiet;
    Extends(cfg, st, steps, x);
    var steps' := steps + [x];
    assert forall n :: 0 <= n < |steps| ==> steps'[..n] == steps[..n] && steps'[n] == steps[n];
    assert steps'[..|steps|] == steps;
  }

  ghost predicate QuietTo(cfg: Config, st0: State, steps: seq<Step>, st: State)
  {
    LegalRun(cfg, st0, steps) && QuietRun(cfg, st0, steps) && After(cfg, st0, steps) == st
  }

  lemma To(cfg: Config, st0: State, steps: seq<Step>, st: State, x: Step) returns (steps': seq<Step>)
    requires QuietTo(cfg, st0, steps, st) && Legal(cfg, st, x) && Quiet(st, x)
    ensures QuietTo(cfg, st0, steps', Apply(cfg, st, x))
  {
    hide LegalRun, QuietRun, After, Legal, Apply, Quiet;
    ExtendsQuietly(cfg, st0, steps, x);
    steps' := steps + [x];
  }

  /** Session 1 has its job waiting, and session 0 an answer. */
  ghost predicate Overtaken(w: World, t: Table, sessions: nat, st: State, op: Packet, wr: Packet, rd: Packet, job: Job,
                            reply: Message)
  {
    && st.w == w && |st.ts| == |st.out| == sessions >= 2 && st.ts[1] == t && st.ends == [] && st.out[0] == []
    && |st.log| == 3 && st.log[0].session == 1 && st.log[0].packet == op && st.log[0].work.Answered? && st.log[0].sent
    && st.log[1] == Entry(1, wr, InFlight(job, Waiting), false) && st.log[2] == Entry(0, rd, Answered(reply), false)
  }

  lemma Overtakes(cfg: Config, w: World, sessions: nat, op: Packet, wr: Packet, rd: Packet, job: Job)
    returns (steps: seq<Step>, st: State)
    requires sessions >= 2 && !Prepare(cfg, map[], op).Run? && !Prepare(cfg, map[], rd).Run?
    requires var r := Serve(cfg, w, map[], op, 0);
             Prepare(cfg, r.t, wr) == Run(job) && Serve(cfg, r.w, map[], rd, 2).w == r.w
    ensures QuietTo(cfg, Start(w, sessions), steps, st)
    ensures var r := Serve(cfg, w, map[], op, 0);
            Overtaken(r.w, r.t, sessions, st, op, wr, rd, job, Serve(cfg, r.w, map[], rd, 2).reply)
  {
    hide Serve, Prepare, QuietTo;
    var st0 := Start(w, sessions);
    steps, st := [], st0;
    assert QuietTo(cfg, st0, [], st0) by { Nowhere(cfg, st0); }
    var r := Serve(cfg, w, map[], op, 0);
    steps := To(cfg, st0, steps, st, Alone(1, op));
    st := Apply(cfg, st, Alone(1, op));
    assert st.log == [Entry(1, op, Answered(r.reply), false)];
    steps := To(cfg, st0, steps, st, Send(0));
    st := Apply(cfg, st, Send(0));
    assert st.ts[1] == r.t && st.ts[0] == map[] && st.w == r.w;
    steps := To(cfg, st0, steps, st, Arrive(1, wr));
    st := Apply(cfg, st, Arrive(1, wr));
    assert LockFree(cfg, st, BarrierLock(rd.typ)) && st.Idle(0);
    steps := To(cfg, st0, steps, st, Alone(0, rd));
    st := Apply(cfg, st, Alone(0, rd));
  }

  lemma Nowhere(cfg: Config, st: State)
    ensures QuietTo(cfg, st, [], st)
  {
    NoSteps(cfg, st);
  }

  /** Everything has left; session 0 was told what it was told then. */
  ghost predicate Told(w: World, sessions: nat, st: State, op: Packet, wr: Packet, rd: Packet, reply: Message)
  {
    && Delivered(st) && st.ends == [] && |st.out| == sessions >= 2 && st.out[0] == [reply] && st.w == w
    && |st.log| == 3 && st.log[0].session == 1 && st.log[0].packet == op
    && st.log[1].session == 1 && st.log[1].packet == wr && st.log[2].session == 0 && st.log[2].packet == rd
  }

  lemma OnlyOnePending(st: State)
    requires |st.log| == 3 && st.log[0].work.Answered? && Cores(st.log)[1].Pending?
    ensures Quiet(st, Do(1))
  {
    hide Settled, Act;
    assert Cores(st.log)[0].Replied?;
  }

  lemma ThenLands(cfg: Config, st0: State, steps: seq<Step>, w: World, t: Table, sessions: nat, st: State, op: Packet,
                  wr: Packet, rd: Packet, job: Job, reply: Message) returns (steps': seq<Step>, st': State)
    requires QuietTo(cfg, st0, steps, st) && Overtaken(w, t, sessions, st, op, wr, rd, job, reply)
    ensures QuietTo(cfg, st0, steps', st')
    ensures Told(WithFiles(w, Act(w.fs.files, job.op).0), sessions, st', op, wr, rd, reply)
  {
    hide Serve, Prepare, QuietTo, Act, Quietly, Render;
    steps' := To(cfg, st0, steps, st, Enter(1));
    st' := Apply(cfg, st, Enter(1));
    OnlyOnePending(st');
    steps' := To(cfg, st0, steps', st', Do(1));
    st' := Apply(cfg, st', Do(1));
    steps' := To(cfg, st0, steps', st', Leave(1));
    st' := Apply(cfg, st', Leave(1));
    steps' := To(cfg, st0, steps', st', Send(1));
    st' := Apply(cfg, st', Send(1));
    steps' := To(cfg, st0, steps', st', Send(2));
    st' := Apply(cfg, st', Send(2));
  }

  // ---------- what the one-at-a-time server says ----------

  /** The last of three packets, taken one after another. */
  lemma LastOfThree(cfg: Config, w: World, sessions: nat, log: seq<Entry>)
    requires |log| == 3 && sessions >= 2 && log[0].session == log[1].session == 1 && log[2].session == 0
    ensures var r := Serve(cfg, w, map[], log[0].packet, 0);
            var r' := Serve(cfg, r.w, r.t, log[1].packet, 1);
            Serial(cfg, w, sessions, log, []).replies[2] == Serve(cfg, r'.w, map[], log[2].packet, 2).reply
  {
    hide Serve, Serial;
    var none: seq<Entry> := [];
    assert Serial(cfg, w, sessions, none, []) == Serially(w, seq(sessions, _ => map[]), []) by {
      SerialNone(cfg, w, sessions);
    }
    SerialNext(cfg, w, sessions, none, [], log[0]);
    SerialNext(cfg, w, sessions, none + [log[0]], [], log[1]);
    SerialNext(cfg, w, sessions, none + [log[0]] + [log[1]], [], log[2]);
    assert none + [log[0]] + [log[1]] + [log[2]] == log;
  }

  lemma SerialNone(cfg: Config, w: World, sessions: nat)
    ensures Serial(cfg, w, sessions, [], []) == Serially(w, seq(sessions, _ => map[]), [])
  {
    hide Serve;
  }

  lemma OnlyTheLast(log: seq<Entry>, rs: seq<Message>)
    requires |log| == |rs| == 3 && log[0].session == log[1].session == 1 && log[2].session == 0
    ensures Project(log, rs, 0) == [rs[2]]
  {
    assert Project(log[..2], rs[..2], 0) == Project(log[..2][..1], rs[..2][..1], 0) == [];
  }

  lemma WriteServed(cfg: Config, w: World, t: Table, wr: Packet, job: Job, n: nat)
    requires Prepare(cfg, t, wr) == Run(job)
    ensures Serve(cfg, w, t, wr, n).w == WithFiles(w, Act(w.fs.files, job.op).0)
  {
    hide Prepare, Act, Render, Dispatch;
  }

  const WRITE_JOB := Job(1, WriteOp(PATH, 0, [9], true), Some(0), Shared)

  lemma Grows(w: World)
    requires w.fs == WORLD.fs
    ensures SizeOf(w.fs) == 0 && SizeOf(WithFiles(w, Act(w.fs.files, WRITE_JOB.op).0).fs) == 1
  {
    hide Instances.Letters;
    assert Splice([], 0, [9]) == [9];
  }

  /** Session 1 opens the file and sends a WRITE of one byte; before a worker takes it,
      session 0 is told that the file is empty. */
  lemma LateWrite(sessions: nat) returns (steps: seq<Step>)
    requires sessions >= 2
    ensures var st0 := Start(WORLD, sessions);
            && LegalRun(EXPORT, st0, steps) && Delivered(After(EXPORT, st0, steps))
            && QuietRun(EXPORT, st0, steps) && !AsArrived(EXPORT, WORLD, sessions, steps)
  {
    hide Serve, Prepare, Encode, Ascii, Instances.Letters, Wire.PacketOf, Act, Start, After, LegalRun, QuietRun, Serial,
      Project, SizeOf;
    OpenServed();
    WriteRuns();
    var r := Serve(EXPORT, WORLD, map[], OPEN, 0);
    HalfAsks(r.w);
    StatTells(EXPORT, r.w, map[], 2);
    var st;
    steps, st := Overtakes(EXPORT, WORLD, sessions, OPEN, WRITE, STAT, WRITE_JOB);
    var told := Serve(EXPORT, r.w, map[], STAT, 2).reply;
    steps, st := ThenLands(EXPORT, Start(WORLD, sessions), steps, r.w, r.t, sessions, st, OPEN, WRITE, STAT, WRITE_JOB,
                           told);
    LastOfThree(EXPORT, WORLD, sessions, st.log);
    var rs := Serial(EXPORT, WORLD, sessions, st.log, []).replies;
    OnlyTheLast(st.log, rs);
    WriteServed(EXPORT, r.w, r.t, WRITE, WRITE_JOB, 1);
    StatTells(EXPORT, st.w, map[], 2);
    Grows(r.w);
    assert st.out[0] != Project(st.log, rs, 0);
  }

  /** Exactly one session makes arrival order sure: every run of every driver and world
      is as arrived if and only if no two sessions share the export. */
  lemma ArrivalExactly(sessions: nat)
    ensures AlwaysAsArrived(sessions) <==> sessions <= 1
  {
    hide Serve, Encode, Ascii, Instances.Letters, Wire.PacketOf, Start, After, LegalRun, QuietRun, AsArrived, Delivered;
    if sessions <= 1 {
      FewAsArrived(sessions);
    } else {
      var steps := LateWrite(sessions);
    }
  }
}

/** Whole runs of the concurrent server against the one-at-a-time server. */
module Runs {
  import opened Messages
  import opened DataOps
  import opened Server
  import opened Independence
  import opened Lifecycle
  import opened Reordering
  import opened Pool

  // ---------- runs ----------

  /** The state after a list of steps; a step that is not allowed does nothing. */
  ghost function After(cfg: Config, st: State, steps: seq<Step>): State
  {
    if steps == [] then st
    else
      var n := |steps| - 1;
      var prev := After(cfg, st, steps[..n]);
      if Legal(cfg, prev, steps[n]) then Apply(cfg, prev, steps[n]) else prev
  }

  ghost predicate LegalRun(cfg: Config, st: State, steps: seq<Step>)
  {
    forall n :: 0 <= n < |steps| ==> Legal(cfg, After(cfg, st, steps[..n]), steps[n])
  }

  /** Every barrier of the run that asks about files finds nothing pending in any
      session. */
  ghost predicate ClearRun(cfg: Config, st: State, steps: seq<Step>)
  {
    forall n :: 0 <= n < |steps| ==> Clear(cfg, After(cfg, st, steps[..n]), steps[n])
  }

  /** No request of the run overtakes a pending one across the end of a file. */
  ghost predicate QuietRun(cfg: Config, st: State, steps: seq<Step>)
  {
    forall n :: 0 <= n < |steps| ==> Quiet(After(cfg, st, steps[..n]), steps[n])
  }

  lemma PrefixRun(cfg: Config, st: State, steps: seq<Step>, n: nat)
    requires n <= |steps|
    ensures LegalRun(cfg, st, steps) ==> LegalRun(cfg, st, steps[..n])
    ensures ClearRun(cfg, st, steps) ==> ClearRun(cfg, st, steps[..n])
    ensures QuietRun(cfg, st, steps) ==> QuietRun(cfg, st, steps[..n])
  {
    hide After, Legal, Clear, Quiet;
    assert forall i :: 0 <= i < n ==> steps[..n][..i] == steps[..i];
  }

  /** The step from n to n + 1. */
  lemma RunStep(cfg: Config, st: State, steps: seq<Step>, n: nat)
    requires n < |steps| && LegalRun(cfg, st, steps)
    ensures var prev := After(cfg, st, steps[..n]);
            Legal(cfg, prev, steps[n]) && After(cfg, st, steps[..n + 1]) == Apply(cfg, prev, steps[n])
  {
    hide Apply, Legal;
    assert steps[..n + 1][..n] == steps[..n];
  }

  /** The last step of a run, and the run before it. */
  lemma LastStep(cfg: Config, st: State, steps: seq<Step>)
    requires steps != [] && LegalRun(cfg, st, steps)
    ensures var n := |steps| - 1;
            var prev := After(cfg, st, steps[..n]);
            && LegalRun(cfg, st, steps[..n]) && Legal(cfg, prev, steps[n])
            && After(cfg, st, steps) == Apply(cfg, prev, steps[n])
            && (ClearRun(cfg, st, steps) ==> ClearRun(cfg, st, steps[..n]) && Clear(cfg, prev, steps[n]))
            && (QuietRun(cfg, st, steps) ==> QuietRun(cfg, st, steps[..n]) && Quiet(prev, steps[n]))
  {
    hide Legal, Apply, Clear, Quiet;
    PrefixRun(cfg, st, steps, |steps| - 1);
  }

  lemma NoSteps(cfg: Config, st: State)
    ensures After(cfg, st, []) == st
  {
  }

  /** Along every run the drained state is the serial one; along a quiet run the
      replies are too. */
  lemma {:induction false} RunFaithful(cfg: Config, w: World, sessions: nat, steps: seq<Step>)
    requires LegalRun(cfg, Start(w, sessions), steps) && ClearRun(cfg, Start(w, sessions), steps)
    ensures var st := After(cfg, Start(w, sessions), steps);
            && Sound(st) && Faithful(cfg, w, sessions, st)
            && (QuietRun(cfg, Start(w, sessions), steps) ==> Answering(cfg, w, sessions, st))
  {
    hide *;
    var st0 := Start(w, sessions);
    if steps == [] {
      NoSteps(cfg, st0);
      SoundStart(w, sessions);
      FaithfulStart(cfg, w, sessions);
    } else {
      var n := |steps| - 1;
      LastStep(cfg, st0, steps);
      RunFaithful(cfg, w, sessions, steps[..n]);
      var prev := After(cfg, st0, steps[..n]);
      SoundStep(cfg, prev, steps[n]);
      FaithfulStep(cfg, w, sessions, prev, steps[n]);
    }
  }

  /** No pending request overtaken now meets this one across the end of its file as
      that is now. */
  predicate SettledNow(st: State, step: Step)
  {
    step.Do? && step.k < |st.log| && Cores(st.log)[step.k].Pending? ==>
      forall i :: 0 <= i < step.k && Cores(st.log)[i].Pending? ==>
        Settled(st.w.fs.files, Cores(st.log)[i].job.op, Cores(st.log)[step.k].job.op)
  }

  /** A run of any number of sessions in which this can be said of every step is
      quiet. */
  lemma SettledRunIsQuiet(cfg: Config, st: State, steps: seq<Step>)
    requires forall n :: 0 <= n < |steps| ==> SettledNow(After(cfg, st, steps[..n]), steps[n])
    ensures QuietRun(cfg, st, steps)
  {
    hide After, Settled, Cores, Quietly;
    forall n | 0 <= n < |steps| ensures Quiet(After(cfg, st, steps[..n]), steps[n]) {
      var now, step := After(cfg, st, steps[..n]), steps[n];
      if step.Do? && step.k < |now.log| && Cores(now.log)[step.k].Pending? {
        SettledIsQuiet(now.w.fs.files, Cores(now.log), step.k);
      }
    }
  }

  // ---------- a run that is not quiet ----------

  lemma DoomStep(cfg: Config, st: State, step: Step, i: nat, owed: Message)
    requires Legal(cfg, st, step) && Clear(cfg, st, step)
    requires i < |st.log| && Doomed(st.w.fs.files, Cores(st.log)[i], owed)
    ensures var st' := Apply(cfg, st, step);
            i < |st'.log| && Doomed(st'.w.fs.files, Cores(st'.log)[i], owed)
  {
    hide Act, Prepare, Render, Serve, Touches, ReadLen, ReplyLen, ClosesAll;
    var st' := Apply(cfg, st, step);
    match step
    case Arrive(s, p) => CoresAppend(st.log, Entry(s, p, InFlight(Prepare(cfg, st.ts[s], p).job, Waiting), false));
    case Alone(s, p) =>
      CoresAppend(st.log, Entry(s, p, Answered(Serve(cfg, st.w, st.ts[s], p, |st.log|).reply), false));
      if Touches(Serve(cfg, st.w, st.ts[s], p, |st.log|).calls) {
        NothingPending(st);
      } else {
        ServeBlind(cfg, st.w, st.ts[s], p, |st.log|, st.w.fs.files);
      }
    case End(_, _) =>
    case Do(k) =>
      DoCores(cfg, st, k);
      var j := st.log[k].work.job;
      if k == i {
        DoomedRuns(st.w.fs.files, j, owed);
      } else {
        ActGrows(st.w.fs.files, j.op);
        DoomStays(st.w.fs.files, st'.w.fs.files, Cores(st.log)[i], owed);
      }
    case _ => SameCores(cfg, st, step);
  }

  /** A packet's serial reply does not depend on the packets after it. */
  lemma SerialKeeps(cfg: Config, w: World, sessions: nat, st: State, step: Step, i: nat)
    requires Legal(cfg, st, step) && Faithful(cfg, w, sessions, st) && i < |st.log|
    ensures var st' := Apply(cfg, st, step);
            |st'.log| >= |st.log| &&
            Serial(cfg, w, sessions, st'.log, st'.ends).replies[i] ==
            Serial(cfg, w, sessions, st.log, st.ends).replies[i]
  {
    hide Serve, Prepare, Act;
    var st' := Apply(cfg, st, step);
    match step
    case Arrive(_, _) => SerialNext(cfg, w, sessions, st.log, st.ends, st'.log[|st.log|]);
    case Alone(_, _) => SerialNext(cfg, w, sessions, st.log, st.ends, st'.log[|st.log|]);
    case End(_, _) => assert st'.ends[..|st.ends|] == st.ends;
    case Do(k) =>
      DoCores(cfg, st, k);
      SerialSame(cfg, w, sessions, st.log, st'.log, st.ends);
    case _ =>
      SameCores(cfg, st, step);
      SerialSame(cfg, w, sessions, st.log, st'.log, st.ends);
  }

  ghost predicate DoomedIn(cfg: Config, w: World, sessions: nat, st: State, i: nat)
  {
    i < |st.log| && Doomed(st.w.fs.files, Cores(st.log)[i], Serial(cfg, w, sessions, st.log, st.ends).replies[i])
  }

  lemma {:induction false} RunDoomed(cfg: Config, w: World, sessions: nat, steps: seq<Step>, from: nat, i: nat)
    requires LegalRun(cfg, Start(w, sessions), steps) && ClearRun(cfg, Start(w, sessions), steps)
    requires from <= |steps| && DoomedIn(cfg, w, sessions, After(cfg, Start(w, sessions), steps[..from]), i)
    ensures DoomedIn(cfg, w, sessions, After(cfg, Start(w, sessions), steps), i)
  {
    hide *;
    var st0 := Start(w, sessions);
    if from == |steps| {
      assert steps[..from] == steps;
    } else {
      var n := |steps| - 1;
      LastStep(cfg, st0, steps);
      assert steps[..n][..from] == steps[..from];
      RunDoomed(cfg, w, sessions, steps[..n], from, i);
      RunFaithful(cfg, w, sessions, steps[..n]);
      StaysDoomed(cfg, w, sessions, After(cfg, st0, steps[..n]), steps[n], i);
    }
  }

  lemma StaysDoomed(cfg: Config, w: World, sessions: nat, st: State, step: Step, i: nat)
    requires Legal(cfg, st, step) && Clear(cfg, st, step) && Faithful(cfg, w, sessions, st)
    requires DoomedIn(cfg, w, sessions, st, i)
    ensures DoomedIn(cfg, w, sessions, Apply(cfg, st, step), i)
  {
    hide Legal, Apply, Clear, Faithful, Doomed, Serial, Cores;
    SerialKeeps(cfg, w, sessions, st, step, i);
    DoomStep(cfg, st, step, i, Serial(cfg, w, sessions, st.log, st.ends).replies[i]);
  }

  /** A step that is not quiet dooms a request. */
  lemma UnquietStep(cfg: Config, w: World, sessions: nat, st: State, step: Step) returns (i: nat)
    requires Legal(cfg, st, step) && Sound(st) && Answering(cfg, w, sessions, st) && !Quiet(st, step)
    ensures DoomedIn(cfg, w, sessions, Apply(cfg, st, step), i)
  {
    hide Act, Prepare, Render, Dispatch, Doomed, Shows, Quietly, Unblocked;
    var k := step.k;
    DoCores(cfg, st, k);
    RunningUnblocked(st, k);
    i := UnquietShows(st.w.fs.files, Cores(st.log), k);
    ShowsDooms(st.w.fs.files, Cores(st.log), k, i);
    SerialSame(cfg, w, sessions, st.log, Apply(cfg, st, step).log, st.ends);
  }

  lemma UnquietRun(cfg: Config, w: World, sessions: nat, steps: seq<Step>) returns (i: nat)
    requires LegalRun(cfg, Start(w, sessions), steps) && ClearRun(cfg, Start(w, sessions), steps)
    requires !QuietRun(cfg, Start(w, sessions), steps)
    ensures DoomedIn(cfg, w, sessions, After(cfg, Start(w, sessions), steps), i)
  {
    hide Apply, Legal, Clear, Quiet, Sound, Faithful, Answering, DoomedIn, After, Start;
    var st0 := Start(w, sessions);
    var n := 0;
    while n < |steps| && Quiet(After(cfg, st0, steps[..n]), steps[n])
      invariant 0 <= n <= |steps|
      invariant forall m :: 0 <= m < n ==> Quiet(After(cfg, st0, steps[..m]), steps[m])
    {
      n := n + 1;
    }
    PrefixRun(cfg, st0, steps, n);
    assert QuietRun(cfg, st0, steps[..n]) by {
      assert forall m :: 0 <= m < n ==> steps[..n][..m] == steps[..m];
    }
    RunFaithful(cfg, w, sessions, steps[..n]);
    RunStep(cfg, st0, steps, n);
    i := UnquietStep(cfg, w, sessions, After(cfg, st0, steps[..n]), steps[n]);
    RunDoomed(cfg, w, sessions, steps, n + 1, i);
  }

  // ---------- serial equivalence ----------

  /** Every packet taken was answered with the reply of the same rank. */
  ghost predicate RepliedWith(log: seq<Entry>, replies: seq<Message>)
  {
    |log| == |replies| && forall i :: 0 <= i < |log| ==> log[i].Core() == Replied(replies[i])
  }

  /** Any number of sessions, any interleaving the rules allow, with no barrier that
      asks about files beside another session's pending requests: when everything has been done,
      the filesystem and the handle tables are those of the server that takes the
      same packets one at a time, and the replies are its replies if and only if
      no READ and WRITE overtook one another across the end of their file. */
  lemma SerialEquivalence(cfg: Config, w: World, sessions: nat, steps: seq<Step>)
    requires LegalRun(cfg, Start(w, sessions), steps) && ClearRun(cfg, Start(w, sessions), steps)
    requires !PendingAnywhere(After(cfg, Start(w, sessions), steps))
    ensures var st := After(cfg, Start(w, sessions), steps);
            var serial := Serial(cfg, w, sessions, st.log, st.ends);
            && st.w == serial.w && st.ts == serial.ts
            && (RepliedWith(st.log, serial.replies) <==> QuietRun(cfg, Start(w, sessions), steps))
  {
    hide After, LegalRun, ClearRun, QuietRun, Serial, Sound, Start;
    RunFaithful(cfg, w, sessions, steps);
    var st := After(cfg, Start(w, sessions), steps);
    var serial := Serial(cfg, w, sessions, st.log, st.ends);
    NothingPending(st);
    DrainSettled(st.w.fs.files, Cores(st.log));
    if QuietRun(cfg, Start(w, sessions), steps) {
      forall i | 0 <= i < |st.log| ensures st.log[i].Core() == Replied(serial.replies[i]) {
        assert Cores(st.log)[i] == st.log[i].Core();
      }
    } else {
      var i := UnquietRun(cfg, w, sessions, steps);
      assert Cores(st.log)[i] == st.log[i].Core();
    }
  }

  predicate AllFrom(st: State, sessions: nat)
  {
    |st.ts| == sessions && |st.out| == sessions && forall i :: 0 <= i < |st.log| ==> st.log[i].session < sessions
  }

  lemma SessionsStep(cfg: Config, st: State, step: Step, sessions: nat)
    requires Legal(cfg, st, step) && AllFrom(st, sessions)
    ensures AllFrom(Apply(cfg, st, step), sessions)
  {
    hide Serve, Prepare, Act, LockFree, Unopposed;
  }

  lemma StartSessions(w: World, sessions: nat)
    ensures AllFrom(Start(w, sessions), sessions)
  {
  }

  lemma {:induction false} RunSessions(cfg: Config, w: World, sessions: nat, steps: seq<Step>)
    requires LegalRun(cfg, Start(w, sessions), steps)
    ensures AllFrom(After(cfg, Start(w, sessions), steps), sessions) && Sound(After(cfg, Start(w, sessions), steps))
  {
    hide *;
    if steps == [] {
      NoSteps(cfg, Start(w, sessions));
      SoundStart(w, sessions);
      StartSessions(w, sessions);
    } else {
      var n := |steps| - 1;
      LastStep(cfg, Start(w, sessions), steps);
      RunSessions(cfg, w, sessions, steps[..n]);
      SoundStep(cfg, After(cfg, Start(w, sessions), steps[..n]), steps[n]);
      SessionsStep(cfg, After(cfg, Start(w, sessions), steps[..n]), steps[n], sessions);
    }
  }

  /** In a single session every barrier finds nothing pending: it waits for its own. */
  lemma OneSessionIsClear(cfg: Config, w: World, steps: seq<Step>)
    requires LegalRun(cfg, Start(w, 1), steps)
    ensures ClearRun(cfg, Start(w, 1), steps)
  {
    hide After, Apply, Start, Serve, Prepare, Unopposed, LockFree;
    forall n | 0 <= n < |steps| ensures Clear(cfg, After(cfg, Start(w, 1), steps[..n]), steps[n]) {
      PrefixRun(cfg, Start(w, 1), steps, n);
      RunSessions(cfg, w, 1, steps[..n]);
      var st := After(cfg, Start(w, 1), steps[..n]);
      assert Legal(cfg, st, steps[n]);
      if steps[n].Alone? {
        forall i | 0 <= i < |st.log| ensures !st.log[i].Core().Pending? {
          assert st.log[i].session == 0;
          assert st.log[i].sent && st.log[i].Ready();
        }
      }
    }
  }

  /** One session: every interleaving ends in the serial filesystem, and answers
      serially exactly when it is quiet. */
  lemma OneSessionSerial(cfg: Config, w: World, steps: seq<Step>)
    requires LegalRun(cfg, Start(w, 1), steps) && !PendingAnywhere(After(cfg, Start(w, 1), steps))
    ensures var st := After(cfg, Start(w, 1), steps);
            var serial := Serial(cfg, w, 1, st.log, st.ends);
            && st.w == serial.w && st.ts == serial.ts
            && (RepliedWith(st.log, serial.replies) <==> QuietRun(cfg, Start(w, 1), steps))
  {
    hide After, LegalRun, ClearRun, QuietRun, Serial, Start;
    OneSessionIsClear(cfg, w, steps);
    SerialEquivalence(cfg, w, 1, steps);
  }

  // ---------- the reply streams ----------

  /** The replies of session s among rs, in arrival order. */
  function Project(log: seq<Entry>, rs: seq<Message>, s: nat): seq<Message>
    requires |log| == |rs|
  {
    if log == [] then []
    else
      var n := |log| - 1;
      var earlier := Project(log[..n], rs[..n], s);
      if log[n].session == s then earlier + [rs[n]] else earlier
  }

  /** The replies of session s that have been sent, in arrival order. */
  function SentTo(log: seq<Entry>, s: nat): seq<Message>
  {
    if log == [] then []
    else
      var n := |log| - 1;
      var e, earlier := log[n], SentTo(log[..n], s);
      if e.session == s && e.sent && e.Core().Replied? then earlier + [e.Core().reply] else earlier
  }

  /** What a session was sent is what is marked sent, and nothing is sent past an
      earlier reply of the same session. */
  predicate InOrder(st: State)
  {
    && (forall s :: 0 <= s < |st.out| ==> st.out[s] == SentTo(st.log, s))
    && (forall j, k :: 0 <= j < k < |st.log| && st.log[j].session == st.log[k].session && st.log[k].sent ==>
          st.log[j].sent)
    && (forall k :: 0 <= k < |st.log| && st.log[k].sent ==> st.log[k].Ready())
  }

  /** Entries that look the same from outside leave the stream alone. */
  lemma {:induction false} SentSame(log: seq<Entry>, log': seq<Entry>, s: nat)
    requires |log| == |log'|
    requires forall i :: 0 <= i < |log| ==>
               || (log[i].session == log'[i].session && log[i].sent == log'[i].sent && log[i].Core() == log'[i].Core())
               || (log[i].session == log'[i].session != s)
               || (!log[i].sent && !log'[i].sent)
    ensures SentTo(log, s) == SentTo(log', s)
  {
    if log != [] {
      SentSame(log[..|log| - 1], log'[..|log| - 1], s);
    }
  }

  /** Sending the first unsent reply of a session extends its stream by it. */
  lemma {:induction false} SentOneMore(log: seq<Entry>, k: nat, s: nat)
    requires k < |log| && log[k].session == s && !log[k].sent && log[k].Core().Replied?
    requires forall j :: k < j < |log| && log[j].session == s ==> !log[j].sent
    ensures SentTo(log[k := log[k].(sent := true)], s) == SentTo(log, s) + [log[k].Core().reply]
    decreases |log|
  {
    var n := |log| - 1;
    var log' := log[k := log[k].(sent := true)];
    if k == n {
      assert log'[..n] == log[..n];
    } else {
      assert log'[..n] == log[..n][k := log[k].(sent := true)];
      SentOneMore(log[..n], k, s);
    }
  }

  lemma SendInOrder(cfg: Config, st: State, k: nat)
    requires InOrder(st) && Legal(cfg, st, Send(k))
    ensures InOrder(Apply(cfg, st, Send(k)))
  {
    hide SentTo, Serve, Prepare;
    var st' := Apply(cfg, st, Send(k));
    forall s | 0 <= s < |st'.out| ensures st'.out[s] == SentTo(st'.log, s) {
      if s == st.log[k].session {
        SentOneMore(st.log, k, s);
      } else {
        SentSame(st.log, st'.log, s);
      }
    }
  }

  lemma TakeInOrder(st: State, e: Entry)
    requires InOrder(st) && !e.sent
    ensures InOrder(st.(log := st.log + [e]))
  {
    assert (st.log + [e])[..|st.log|] == st.log;
  }

  lemma StepInOrder(cfg: Config, st: State, step: Step)
    requires InOrder(st) && Legal(cfg, st, step)
    ensures InOrder(Apply(cfg, st, step))
  {
    hide SentTo, Serve, Prepare, Act, LockFree, Unopposed;
    var st' := Apply(cfg, st, step);
    match step
    case Arrive(s, p) => TakeInOrder(st, st'.log[|st.log|]);
    case Alone(s, p) => TakeInOrder(st, st'.log[|st.log|]);
    case Send(k) => SendInOrder(cfg, st, k);
    case _ =>
      forall s | 0 <= s < |st.out| ensures st'.out[s] == SentTo(st'.log, s) {
        SentSame(st.log, st'.log, s);
      }
  }

  lemma StartInOrder(w: World, sessions: nat)
    ensures InOrder(Start(w, sessions))
  {
  }

  lemma {:induction false} RunInOrder(cfg: Config, w: World, sessions: nat, steps: seq<Step>)
    requires LegalRun(cfg, Start(w, sessions), steps)
    ensures InOrder(After(cfg, Start(w, sessions), steps))
  {
    hide *;
    if steps == [] {
      NoSteps(cfg, Start(w, sessions));
      StartInOrder(w, sessions);
    } else {
      var n := |steps| - 1;
      LastStep(cfg, Start(w, sessions), steps);
      RunInOrder(cfg, w, sessions, steps[..n]);
      StepInOrder(cfg, After(cfg, Start(w, sessions), steps[..n]), steps[n]);
    }
  }

  /** Every reply has left. */
  predicate Delivered(st: State) { forall i :: 0 <= i < |st.log| ==> st.log[i].sent }

  predicate AllSent(log: seq<Entry>)
  {
    forall i :: 0 <= i < |log| ==> log[i].sent && log[i].Ready()
  }

  lemma {:induction false} SentIsProject(log: seq<Entry>, rs: seq<Message>, s: nat)
    requires AllSent(log) && RepliedWith(log, rs)
    ensures SentTo(log, s) == Project(log, rs, s)
  {
    if log != [] {
      SentIsProject(log[..|log| - 1], rs[..|log| - 1], s);
    }
  }

  /** The streams of all sessions together determine every reply. */
  lemma {:induction false} ProjectionsDetermine(log: seq<Entry>, a: seq<Message>, b: seq<Message>, sessions: nat)
    requires |log| == |a| == |b| && forall i :: 0 <= i < |log| ==> log[i].session < sessions
    requires forall s :: 0 <= s < sessions ==> Project(log, a, s) == Project(log, b, s)
    ensures a == b
  {
    if log != [] {
      var n := |log| - 1;
      forall s | 0 <= s < sessions ensures Project(log[..n], a[..n], s) == Project(log[..n], b[..n], s) {
        LastReplies(log, a, b, s);
      }
      ProjectionsDetermine(log[..n], a[..n], b[..n], sessions);
      LastReplies(log, a, b, log[n].session);
      assert a == a[..n] + [a[n]] && b == b[..n] + [b[n]];
    }
  }

  lemma LastReplies(log: seq<Entry>, a: seq<Message>, b: seq<Message>, s: nat)
    requires |log| == |a| == |b| > 0 && Project(log, a, s) == Project(log, b, s)
    ensures var n := |log| - 1;
            && Project(log[..n], a[..n], s) == Project(log[..n], b[..n], s)
            && (log[n].session == s ==> a[n] == b[n])
  {
    var n := |log| - 1;
    var x, y := Project(log[..n], a[..n], s), Project(log[..n], b[..n], s);
    if log[n].session == s {
      var whole := x + [a[n]];
      assert Project(log, a, s) == whole && Project(log, b, s) == y + [b[n]] == whole;
      assert |x| == |y|;
      assert x == whole[..|x|] == y;
      assert whole[|x|] == a[n] == b[n];
    }
  }

  lemma GivenReplies(log: seq<Entry>) returns (rs: seq<Message>)
    requires AllSent(log)
    ensures RepliedWith(log, rs)
  {
    rs := seq(|log|, i requires 0 <= i < |log| => log[i].Core().reply);
  }

  /** When everything has been sent, every session's client has received exactly
      the replies the one-at-a-time server gives to its packets, in the order of
      its requests, if and only if the run was quiet. */
  lemma StreamEquivalence(cfg: Config, w: World, sessions: nat, steps: seq<Step>)
    requires LegalRun(cfg, Start(w, sessions), steps) && ClearRun(cfg, Start(w, sessions), steps)
    requires Delivered(After(cfg, Start(w, sessions), steps))
    ensures var st := After(cfg, Start(w, sessions), steps);
            var serial := Serial(cfg, w, sessions, st.log, st.ends);
            && st.w == serial.w && st.ts == serial.ts && |st.out| == sessions
            && ((forall s :: 0 <= s < sessions ==> st.out[s] == Project(st.log, serial.replies, s)) <==>
                QuietRun(cfg, Start(w, sessions), steps))
  {
    hide After, LegalRun, ClearRun, QuietRun, Serial, Sound, Start, SentTo, Project;
    var st := After(cfg, Start(w, sessions), steps);
    var serial := Serial(cfg, w, sessions, st.log, st.ends);
    RunSessions(cfg, w, sessions, steps);
    RunInOrder(cfg, w, sessions, steps);
    SerialEquivalence(cfg, w, sessions, steps);
    var rs := GivenReplies(st.log);
    forall s | 0 <= s < sessions ensures st.out[s] == Project(st.log, rs, s) {
      SentIsProject(st.log, rs, s);
    }
    if QuietRun(cfg, Start(w, sessions), steps) {
      assert rs == serial.replies;
    } else if forall s :: 0 <= s < sessions ==> st.out[s] == Project(st.log, serial.replies, s) {
      ProjectionsDetermine(st.log, rs, serial.replies, sessions);
    }
  }
}

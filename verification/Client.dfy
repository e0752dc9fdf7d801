/** One session seen from its client: which requests must be sent for the order of
    READs and WRITEs to show. */
module Client {
  import opened Bytes
  import opened Messages
  import opened Packets
  import opened DataOps
  import opened Server
  import opened Safety
  import opened Lifecycle
  import opened Independence
  import opened Reordering
  import opened Pool
  import opened Runs

  // ---------- requests between two barriers ----------

  /** How packet k of a session is prepared. */
  function PreparedAt(cfg: Config, w: World, ps: seq<Packet>, k: nat): Prepared
    requires k < |ps|
  {
    Prepare(cfg, ServeAll(cfg, w, map[], ps[..k]).t, ps[k])
  }

  /** Packets i to j are READs and WRITEs, with no barrier between them. */
  predicate Together(cfg: Config, w: World, ps: seq<Packet>, i: nat, j: nat)
  {
    i <= j < |ps| && forall k :: i <= k <= j ==> PreparedAt(cfg, w, ps, k).Run?
  }

  function Ops(cfg: Config, w: World, ps: seq<Packet>, i: nat, j: nat): (ops: seq<Op>)
    requires Together(cfg, w, ps, i, j)
    ensures |ops| == j - i + 1
  {
    seq(j - i + 1, k requires 0 <= k < j - i + 1 => PreparedAt(cfg, w, ps, i + k).job.op)
  }

  /** Request m waits for request l, directly or through requests between them. */
  predicate Waits(ops: seq<Op>, l: nat, m: nat)
    requires m < |ops|
    decreases m - l
  {
    l < m && (Conflict(ops[l], ops[m]) || exists q :: l < q < m && Conflict(ops[l], ops[q]) && Waits(ops, q, m))
  }

  /** The files after the requests from l on that m waits for. */
  function RunNeeded(files: Files, ops: seq<Op>, l: nat, m: nat): Files
    requires m < |ops|
    decreases m - l
  {
    if l >= m then files
    else RunNeeded(if Waits(ops, l, m) then Act(files, ops[l]).0 else files, ops, l + 1, m)
  }

  /** Packet j may run before packet i, and then one of the two is a READ that
      reaches past the end of a file which the other, a WRITE, moves. */
  ghost predicate Crosses(cfg: Config, w: World, ps: seq<Packet>, i: nat, j: nat)
  {
    i < j && Together(cfg, w, ps, i, j) &&
    var ops, m := Ops(cfg, w, ps, i, j), j - i;
    && !Waits(ops, 0, m)
    && !Settled(RunNeeded(ServeAll(cfg, w, map[], ps[..i]).w.fs.files, ops, 1, m), ops[0], ops[m])
  }

  // ---------- quietness, pair by pair ----------

  /** An overtaking is quiet exactly when every pending request overtaken is settled
      with it on the files it will find. */
  lemma {:induction false} QuietlyAt(files: Files, cs: seq<Core>, k: nat)
    requires k < |cs| && cs[k].Pending?
    ensures Quietly(files, cs, k) <==>
            forall i :: 0 <= i < k && cs[i].Pending? ==> Settled(DrainFiles(files, cs[..i]), cs[i].job.op, cs[k].job.op)
    decreases k
  {
    hide Settled, Act;
    if k > 0 {
      var files1 := CoreFiles(files, cs[0]);
      QuietlyAt(files1, cs[1..], k - 1);
      assert cs[..0] == [];
      forall i | 0 <= i < k - 1 ensures DrainFiles(files1, cs[1..][..i]) == DrainFiles(files, cs[..i + 1]) {
        assert cs[..i + 1][0] == cs[0] && cs[..i + 1][1..] == cs[1..][..i];
      }
      assert forall i :: 0 <= i < k - 1 ==> cs[1..][i] == cs[i + 1];
      forall i | 0 < i < k && cs[i].Pending?
        ensures Settled(DrainFiles(files, cs[..i]), cs[i].job.op, cs[k].job.op) <==>
                Settled(DrainFiles(files1, cs[1..][..i - 1]), cs[1..][i - 1].job.op, cs[k].job.op)
      {
      }
    }
  }

  // ---------- more requests run, larger files ----------

  lemma ActMonotone(files: Files, later: Files, op: Op)
    requires Grown(files, later)
    ensures Grown(Act(files, op).0, Act(later, op).0)
  {
  }

  lemma GrownTrans(a: Files, b: Files, c: Files)
    requires Grown(a, b) && Grown(b, c)
    ensures Grown(a, c)
  {
  }

  predicate Ran(e: Entry) { e.work.InFlight? && e.Core().Replied? }

  /** The files after the entries from lo on that have run, in arrival order. */
  function RunDone(files: Files, log: seq<Entry>, lo: nat): Files
    decreases |log| - lo
  {
    if lo >= |log| then files
    else RunDone(if Ran(log[lo]) then Act(files, log[lo].work.job.op).0 else files, log, lo + 1)
  }

  lemma {:induction false} RunDoneGrows(files: Files, log: seq<Entry>, lo: nat)
    ensures Grown(files, RunDone(files, log, lo))
    decreases |log| - lo
  {
    hide Act, Grown;
    GrownSelf(files);
    if lo < |log| {
      var files1 := if Ran(log[lo]) then Act(files, log[lo].work.job.op).0 else files;
      if Ran(log[lo]) {
        ActGrows(files, log[lo].work.job.op);
      }
      RunDoneGrows(files1, log, lo + 1);
      GrownTrans(files, files1, RunDone(files1, log, lo + 1));
    }
  }

  lemma GrownSelf(files: Files)
    ensures Grown(files, files)
  {
  }

  /** Entries i + l to i + m are jobs on ops. */
  predicate Match(log: seq<Entry>, i: nat, ops: seq<Op>)
  {
    i + |ops| <= |log| && forall n :: i <= n < i + |ops| ==> log[n].work.InFlight? && log[n].work.job.op == ops[n - i]
  }

  /** What has run includes what was needed, so the files are at least as large. */
  lemma {:induction false} NeededGrows(small: Files, large: Files, log: seq<Entry>, i: nat, ops: seq<Op>, l: nat,
                                       m: nat)
    requires l <= m < |ops| && Match(log, i, ops) && Grown(small, large)
    requires forall q :: l <= q < m && Waits(ops, q, m) ==> Ran(log[i + q])
    ensures Grown(RunNeeded(small, ops, l, m), RunDone(large, log, i + l))
    decreases m - l
  {
    hide Act, Waits, Grown;
    if l == m {
      RunDoneGrows(large, log, i + l);
      GrownTrans(small, large, RunDone(large, log, i + l));
    } else {
      var op := ops[l];
      assert log[i + l].work.job.op == op;
      ActMonotone(small, large, op);
      ActGrows(large, op);
      GrownTrans(small, large, Act(large, op).0);
      var small1 := if Waits(ops, l, m) then Act(small, op).0 else small;
      var large1 := if Ran(log[i + l]) then Act(large, op).0 else large;
      NeededGrows(small1, large1, log, i, ops, l + 1, m);
    }
  }

  // ---------- history in arrival order ----------

  /** Doing entry k later than entries after it that it does not conflict with is as
      good as doing it in its place. */
  lemma {:induction false} RunDoneInsert(files: Files, log: seq<Entry>, log': seq<Entry>, lo: nat, k: nat)
    requires lo <= k < |log| == |log'| && log[k].work.InFlight? && !Ran(log[k]) && Ran(log'[k])
    requires log'[k].work.job == log[k].work.job && log' == log[k := log'[k]]
    requires forall q :: k < q < |log| && Ran(log[q]) ==> !Conflict(log[k].work.job.op, log[q].work.job.op)
    ensures RunDone(files, log', lo) == Act(RunDone(files, log, lo), log[k].work.job.op).0
    decreases |log| - lo
  {
    hide Act, Conflict;
    if lo < k {
      RunDoneInsert(if Ran(log[lo]) then Act(files, log[lo].work.job.op).0 else files, log, log', lo + 1, k);
    } else {
      RunDonePast(files, log, k + 1, log[k].work.job.op);
      RunDoneSame(Act(files, log[k].work.job.op).0, log, log', k + 1);
    }
  }

  lemma {:induction false} RunDonePast(files: Files, log: seq<Entry>, lo: nat, op: Op)
    requires forall q :: lo <= q < |log| && Ran(log[q]) ==> !Conflict(op, log[q].work.job.op)
    ensures RunDone(Act(files, op).0, log, lo) == Act(RunDone(files, log, lo), op).0
    decreases |log| - lo
  {
    hide Act, Conflict;
    if lo < |log| {
      if Ran(log[lo]) {
        FilesCommute(files, op, log[lo].work.job.op);
        RunDonePast(Act(files, log[lo].work.job.op).0, log, lo + 1, op);
      } else {
        RunDonePast(files, log, lo + 1, op);
      }
    }
  }

  lemma {:induction false} RunDoneSame(files: Files, log: seq<Entry>, log': seq<Entry>, lo: nat)
    requires |log| <= |log'|
    requires forall q :: lo <= q < |log| ==>
               Ran(log[q]) == Ran(log'[q]) && (Ran(log[q]) ==> log[q].work.job == log'[q].work.job)
    requires forall q :: |log| <= q < |log'| && lo <= q ==> !Ran(log'[q])
    ensures RunDone(files, log, lo) == RunDone(files, log', lo)
    decreases |log'| - lo
  {
    hide Act;
    if lo < |log'| {
      RunDoneSame(if lo < |log| && Ran(log[lo]) then Act(files, log[lo].work.job.op).0 else files, log, log', lo + 1);
    }
  }

  // ---------- what a run of one session keeps ----------

  function PacketsIn(log: seq<Entry>): (ps: seq<Packet>)
    ensures |ps| == |log|
  {
    seq(|log|, i requires 0 <= i < |log| => log[i].packet)
  }

  predicate OneSession(st: State)
  {
    AllFrom(st, 1) && forall i :: 0 <= i < |st.ends| ==> st.ends[i].session == 0 && st.ends[i].at >= |st.log|
  }

  lemma OneSessionStep(cfg: Config, st: State, step: Step)
    requires Legal(cfg, st, step) && OneSession(st)
    ensures OneSession(Apply(cfg, st, step))
    ensures step.Arrive? || step.Alone? ==> st.ends == [] && step.session == 0
  {
    hide Serve, Prepare, Act, LockFree, Unopposed, ClosesAll;
    SessionsStep(cfg, st, step, 1);
    assert st.ends != [] ==> st.Ended(0) by {
      if st.ends != [] {
        assert st.ends[0].session == 0;
      }
    }
  }

  /** The serial server of one session, in other words. */
  lemma {:induction false} SerialIsServeAll(cfg: Config, w: World, log: seq<Entry>, ends: seq<Hangup>)
    requires forall i :: 0 <= i < |log| ==> log[i].session == 0
    requires forall i :: 0 <= i < |ends| ==> ends[i].at >= |log|
    ensures var serial, tr := Serial(cfg, w, 1, log, ends), ServeAll(cfg, w, map[], PacketsIn(log));
            serial.replies == tr.replies && (ends == [] ==> serial.w == tr.w && serial.ts == [tr.t])
    decreases |log| + |ends|
  {
    hide Serve;
    if ends != [] {
      SerialIsServeAll(cfg, w, log, ends[..|ends| - 1]);
    } else if log != [] {
      var n := |log| - 1;
      SerialIsServeAll(cfg, w, log[..n], ends);
      assert PacketsIn(log)[..n] == PacketsIn(log[..n]);
    }
  }

  /** Every entry was prepared as the serial server would, and an entry served alone
      came after everything before it was sent. */
  ghost predicate Matched(cfg: Config, w: World, st: State)
  {
    && (forall q :: 0 <= q < |st.log| ==>
          match st.log[q].work
          case InFlight(j, _) => PreparedAt(cfg, w, PacketsIn(st.log), q) == Run(j)
          case Answered(_) => !PreparedAt(cfg, w, PacketsIn(st.log), q).Run?)
    && (forall i, q :: 0 <= i < q < |st.log| && st.log[q].work.Answered? ==> st.log[i].sent)
  }

  lemma PacketsAppend(log: seq<Entry>, e: Entry)
    ensures PacketsIn(log + [e]) == PacketsIn(log) + [e.packet]
    ensures forall q :: 0 <= q <= |log| ==> PacketsIn(log + [e])[..q] == PacketsIn(log)[..q]
  {
  }

  lemma SamePacketsIn(log: seq<Entry>, log': seq<Entry>)
    requires SamePackets(log, log')
    ensures PacketsIn(log) == PacketsIn(log')
  {
  }

  lemma MatchedAppend(cfg: Config, w: World, st: State, e: Entry)
    requires Matched(cfg, w, st)
    requires match e.work
             case InFlight(j, _) => Prepare(cfg, ServeAll(cfg, w, map[], PacketsIn(st.log)).t, e.packet) == Run(j)
             case Answered(_) => !Prepare(cfg, ServeAll(cfg, w, map[], PacketsIn(st.log)).t, e.packet).Run?
    requires e.work.Answered? ==> forall i :: 0 <= i < |st.log| ==> st.log[i].sent
    ensures Matched(cfg, w, st.(log := st.log + [e]))
  {
    hide Prepare, ServeAll;
    PacketsAppend(st.log, e);
    var ps, ps' := PacketsIn(st.log), PacketsIn(st.log + [e]);
    assert ps'[..|st.log|] == ps;
    forall q | 0 <= q < |st.log| ensures PreparedAt(cfg, w, ps', q) == PreparedAt(cfg, w, ps, q) {
    }
  }

  lemma MatchedLog(cfg: Config, w: World, st: State, st': State)
    requires st.log == st'.log
    ensures Matched(cfg, w, st) <==> Matched(cfg, w, st')
  {
    hide PreparedAt;
  }

  lemma MatchedStep(cfg: Config, w: World, st: State, step: Step)
    requires Legal(cfg, st, step) && OneSession(st) && Faithful(cfg, w, 1, st) && Matched(cfg, w, st)
    ensures Matched(cfg, w, Apply(cfg, st, step))
  {
    hide Legal, Apply, Faithful, Matched, OneSession;
    if step.Arrive? || step.Alone? {
      MatchedTake(cfg, w, st, step);
    } else {
      MatchedSame(cfg, w, st, step);
    }
  }

  lemma MatchedTake(cfg: Config, w: World, st: State, step: Step)
    requires Legal(cfg, st, step) && OneSession(st) && Faithful(cfg, w, 1, st) && Matched(cfg, w, st)
    requires step.Arrive? || step.Alone?
    ensures Matched(cfg, w, Apply(cfg, st, step))
  {
    hide Serve, Prepare, LockFree, ClosesAll, PreparedAt, ServeAll, Matched, Touches;
    var st' := Apply(cfg, st, step);
    OneSessionStep(cfg, st, step);
    SerialIsServeAll(cfg, w, st.log, st.ends);
    MatchedAppend(cfg, w, st, st'.log[|st.log|]);
    assert st'.log == st.log + [st'.log[|st.log|]];
    MatchedLog(cfg, w, st', st.(log := st'.log));
  }

  lemma MatchedSame(cfg: Config, w: World, st: State, step: Step)
    requires Legal(cfg, st, step) && !step.Arrive? && !step.Alone? && Matched(cfg, w, st)
    ensures Matched(cfg, w, Apply(cfg, st, step))
  {
    hide Serve, Prepare, Act, LockFree, Unopposed, ClosesAll, PreparedAt;
    var st' := Apply(cfg, st, step);
    assert SamePackets(st.log, st'.log);
    SamePacketsIn(st.log, st'.log);
  }

  /** Where a pending request will find the files: where the serial server found
      them, and then whatever later requests have run. */
  ghost predicate History(cfg: Config, w: World, st: State)
  {
    forall i :: 0 <= i < |st.log| && st.log[i].Core().Pending? ==>
      DrainFiles(st.w.fs.files, Cores(st.log)[..i]) ==
      RunDone(ServeAll(cfg, w, map[], PacketsIn(st.log)[..i]).w.fs.files, st.log, i + 1)
  }

  lemma HistoryArrive(cfg: Config, w: World, st: State, p: Packet)
    requires Legal(cfg, st, Arrive(0, p)) && OneSession(st) && Faithful(cfg, w, 1, st) && History(cfg, w, st)
    ensures History(cfg, w, Apply(cfg, st, Arrive(0, p)))
  {
    hide Serve, Prepare, Act, ServeAll, DrainFiles, RunDone;
    var st', n := Apply(cfg, st, Arrive(0, p)), |st.log|;
    var e := st'.log[n];
    OneSessionStep(cfg, st, Arrive(0, p));
    SerialIsServeAll(cfg, w, st.log, st.ends);
    PacketsAppend(st.log, e);
    CoresAppend(st.log, e);
    forall i | 0 <= i < |st'.log| && st'.log[i].Core().Pending?
      ensures DrainFiles(st'.w.fs.files, Cores(st'.log)[..i]) ==
              RunDone(ServeAll(cfg, w, map[], PacketsIn(st'.log)[..i]).w.fs.files, st'.log, i + 1)
    {
      assert Cores(st'.log)[..i] == Cores(st.log)[..i];
      assert PacketsIn(st'.log)[..i] == PacketsIn(st.log)[..i];
      if i < n {
        RunDoneSame(ServeAll(cfg, w, map[], PacketsIn(st.log)[..i]).w.fs.files, st.log, st'.log, i + 1);
      } else {
        assert Cores(st.log)[..n] == Cores(st.log) && PacketsIn(st.log)[..n] == PacketsIn(st.log);
        RunDoneNone(SerialFiles(cfg, w, st), st'.log);
      }
    }
  }

  ghost function SerialFiles(cfg: Config, w: World, st: State): Files
  {
    ServeAll(cfg, w, map[], PacketsIn(st.log)).w.fs.files
  }

  lemma RunDoneNone(files: Files, log: seq<Entry>)
    ensures RunDone(files, log, |log|) == files
  {
  }

  lemma DrainDo(files: Files, cs: seq<Core>, op: Op)
    requires forall q :: 0 <= q < |cs| && cs[q].Pending? ==> !Conflict(cs[q].job.op, op)
    ensures DrainFiles(Act(files, op).0, cs) == Act(DrainFiles(files, cs), op).0
  {
    hide Act, Conflict, DrainFiles;
    var c := Pending(Job(0, op, None, Shared));
    var all, done := cs + [c], Replied(Data(0, []));
    DrainAppend(files, cs, c);
    EarlyFiles(files, all, |cs|, done.reply);
    assert all[|cs| := done] == cs + [done];
    DrainAppend(Act(files, op).0, cs, done);
  }

  lemma HistoryDo(cfg: Config, w: World, st: State, k: nat, i: nat)
    requires Legal(cfg, st, Do(k)) && Sound(st) && History(cfg, w, st)
    requires i < |st.log| && i != k && st.log[i].Core().Pending?
    ensures var st' := Apply(cfg, st, Do(k));
            DrainFiles(st'.w.fs.files, Cores(st'.log)[..i]) ==
            RunDone(ServeAll(cfg, w, map[], PacketsIn(st.log)[..i]).w.fs.files, st'.log, i + 1)
  {
    hide Act, Prepare, Conflict, ServeAll, DrainFiles, RunDone, Serve;
    var st', j := Apply(cfg, st, Do(k)), st.log[k].work.job;
    var files, start := st.w.fs.files, ServeAll(cfg, w, map[], PacketsIn(st.log)[..i]).w.fs.files;
    DoCores(cfg, st, k);
    RunningUnblocked(st, k);
    var cs := Cores(st.log)[..i];
    if k < i {
      EarlyFiles(files, cs, k, Done(files, j).reply);
      assert Cores(st'.log)[..i] == cs[k := Done(files, j)];
      RunDoneSame(start, st.log, st'.log, i + 1);
    } else {
      assert Cores(st'.log)[..i] == cs;
      DrainDo(files, cs, j.op);
      forall q | k < q < |st.log| && Ran(st.log[q]) ensures !Conflict(j.op, st.log[q].work.job.op) {
        assert Unopposed(st.log, q);
      }
      RunDoneInsert(start, st.log, st'.log, i + 1, k);
    }
  }

  lemma HistoryStep(cfg: Config, w: World, st: State, step: Step)
    requires Legal(cfg, st, step) && OneSession(st) && Sound(st) && Faithful(cfg, w, 1, st) && History(cfg, w, st)
    ensures History(cfg, w, Apply(cfg, st, step))
  {
    hide Serve, Prepare, Act, LockFree, Unopposed, ClosesAll, ServeAll, DrainFiles, RunDone, Faithful;
    var st' := Apply(cfg, st, step);
    match step
    case Arrive(s, p) =>
      OneSessionStep(cfg, st, step);
      HistoryArrive(cfg, w, st, p);
    case Alone(s, p) =>
      OneSessionStep(cfg, st, step);
      forall i | 0 <= i < |st'.log| ensures !st'.log[i].Core().Pending? {
        assert i < |st.log| ==> st.log[i].session == 0 && st.log[i].sent && st.log[i].Ready();
      }
    case Do(k) => HistoryAfterDo(cfg, w, st, k);
    case End(_, _) =>
    case _ => HistorySame(cfg, w, st, step);
  }

  lemma HistoryAfterDo(cfg: Config, w: World, st: State, k: nat)
    requires Legal(cfg, st, Do(k)) && Sound(st) && History(cfg, w, st)
    ensures History(cfg, w, Apply(cfg, st, Do(k)))
  {
    hide Act, Prepare, Sound, ServeAll, DrainFiles, RunDone, Serve, Legal;
    var st' := Apply(cfg, st, Do(k));
    DoCores(cfg, st, k);
    SamePacketsIn(st.log, st'.log);
    forall i | 0 <= i < |st'.log| && st'.log[i].Core().Pending?
      ensures DrainFiles(st'.w.fs.files, Cores(st'.log)[..i]) ==
              RunDone(ServeAll(cfg, w, map[], PacketsIn(st'.log)[..i]).w.fs.files, st'.log, i + 1)
    {
      assert i != k && st.log[i].Core().Pending?;
      HistoryDo(cfg, w, st, k, i);
    }
  }

  lemma HistorySame(cfg: Config, w: World, st: State, step: Step)
    requires Legal(cfg, st, step) && (step.Enter? || step.Leave? || step.Send?) && History(cfg, w, st)
    ensures History(cfg, w, Apply(cfg, st, step))
  {
    hide Serve, Prepare, LockFree, Unopposed, ServeAll, DrainFiles, RunDone;
    var st' := Apply(cfg, st, step);
    SameCores(cfg, st, step);
    SamePacketsIn(st.log, st'.log);
    forall i | 0 <= i < |st'.log| && st'.log[i].Core().Pending?
      ensures DrainFiles(st'.w.fs.files, Cores(st'.log)[..i]) ==
              RunDone(ServeAll(cfg, w, map[], PacketsIn(st'.log)[..i]).w.fs.files, st'.log, i + 1)
    {
      RunDoneSame(ServeAll(cfg, w, map[], PacketsIn(st.log)[..i]).w.fs.files, st.log, st'.log, i + 1);
    }
  }

  lemma StartTracks(cfg: Config, w: World)
    ensures OneSession(Start(w, 1)) && Matched(cfg, w, Start(w, 1)) && History(cfg, w, Start(w, 1))
  {
  }

  /** All of that, in every state of every run of one session. */
  lemma {:induction false} RunTracks(cfg: Config, w: World, steps: seq<Step>)
    requires LegalRun(cfg, Start(w, 1), steps)
    ensures var st := After(cfg, Start(w, 1), steps);
            && OneSession(st) && Sound(st) && Faithful(cfg, w, 1, st) && Matched(cfg, w, st) && History(cfg, w, st)
  {
    hide *;
    OneSessionIsClear(cfg, w, steps);
    RunFaithful(cfg, w, 1, steps);
    if steps == [] {
      NoSteps(cfg, Start(w, 1));
      StartTracks(cfg, w);
    } else {
      var n := |steps| - 1;
      LastStep(cfg, Start(w, 1), steps);
      RunTracks(cfg, w, steps[..n]);
      var prev := After(cfg, Start(w, 1), steps[..n]);
      OneSessionStep(cfg, prev, steps[n]);
      MatchedStep(cfg, w, prev, steps[n]);
      HistoryStep(cfg, w, prev, steps[n]);
    }
  }

  // ---------- no crossing, no surprise ----------

  /** Once a request is past waiting, those it waits for have finished. */
  lemma {:induction false} WaitsRan(st: State, i: nat, ops: seq<Op>, l: nat, m: nat)
    requires Sound(st) && Match(st.log, i, ops) && m < |ops| && Waits(ops, l, m)
    requires st.log[i + m].work.InFlight? && !st.log[i + m].work.phase.Waiting?
    ensures st.log[i + l].work.InFlight? && st.log[i + l].work.phase.Finished?
    decreases m - l
  {
    hide Conflict, Cores;
    if Conflict(ops[l], ops[m]) {
      assert Unopposed(st.log, i + m);
    } else {
      var q :| l < q < m && Conflict(ops[l], ops[q]) && Waits(ops, q, m);
      WaitsRan(st, i, ops, q, m);
      assert Unopposed(st.log, i + q);
    }
  }

  /** The requests from a pending one to a running one, both included. */
  lemma Between(cfg: Config, w: World, st: State, i: nat, k: nat)
    requires Sound(st) && Matched(cfg, w, st) && i < k < |st.log| && st.log[i].Core().Pending?
    requires st.log[k].work.InFlight?
    ensures var ps := PacketsIn(st.log); Together(cfg, w, ps, i, k) && Match(st.log, i, Ops(cfg, w, ps, i, k))
  {
    hide PreparedAt, Cores;
    forall q | i <= q <= k ensures st.log[q].work.InFlight? {
      assert !st.log[i].sent;
    }
  }

  lemma PairSettled(cfg: Config, w: World, st: State, i: nat, k: nat)
    requires Sound(st) && Matched(cfg, w, st) && History(cfg, w, st) && !Crosses(cfg, w, PacketsIn(st.log), i, k)
    requires i < k < |st.log| && st.log[i].Core().Pending? && st.log[k].work.InFlight? && !st.log[k].work.phase.Waiting?
    ensures Settled(DrainFiles(st.w.fs.files, Cores(st.log)[..i]), st.log[i].work.job.op, st.log[k].work.job.op)
  {
    hide Conflict, Act, Settled, ServeAll, DrainFiles, RunDone, RunNeeded, Waits, Sound, Matched, PreparedAt;
    Between(cfg, w, st, i, k);
    var ps, m := PacketsIn(st.log), k - i;
    var ops := Ops(cfg, w, ps, i, k);
    var files := ServeAll(cfg, w, map[], ps[..i]).w.fs.files;
    forall q | 0 <= q < m && Waits(ops, q, m) ensures q > 0 && Ran(st.log[i + q]) {
      WaitsRan(st, i, ops, q, m);
    }
    GrownSelf(files);
    NeededGrows(files, files, st.log, i, ops, 1, m);
    SettledGrows(RunNeeded(files, ops, 1, m), RunDone(files, st.log, i + 1), ops[0], ops[m]);
    assert ops[0] == st.log[i].work.job.op && ops[m] == st.log[i + m].work.job.op;
  }

  lemma StepQuiet(cfg: Config, w: World, st: State, step: Step)
    requires Legal(cfg, st, step) && Sound(st) && Matched(cfg, w, st) && History(cfg, w, st)
    requires forall i, j :: !Crosses(cfg, w, PacketsIn(st.log), i, j)
    ensures Quiet(st, step)
  {
    hide Conflict, Act, Settled, DrainFiles, Sound, Matched, History, Crosses, Quietly, Serve, Prepare, ClosesAll;
    if step.Do? {
      var k, cs, files := step.k, Cores(st.log), st.w.fs.files;
      forall i | 0 <= i < k && cs[i].Pending? ensures Settled(DrainFiles(files, cs[..i]), cs[i].job.op, cs[k].job.op) {
        PairSettled(cfg, w, st, i, k);
      }
      QuietlyAt(files, cs, k);
    }
  }

  lemma {:induction false} LogGrows(cfg: Config, st: State, steps: seq<Step>, n: nat)
    requires n <= |steps|
    ensures PacketsIn(After(cfg, st, steps[..n]).log) <= PacketsIn(After(cfg, st, steps).log)
  {
    hide Legal, Serve, Prepare, Act;
    if n == |steps| {
      assert steps[..n] == steps;
    } else {
      var last := |steps| - 1;
      assert steps[..last][..n] == steps[..n];
      LogGrows(cfg, st, steps[..last], n);
      StepGrows(cfg, After(cfg, st, steps[..last]), steps[last]);
    }
  }

  lemma StepGrows(cfg: Config, st: State, step: Step)
    ensures Legal(cfg, st, step) ==> PacketsIn(st.log) <= PacketsIn(Apply(cfg, st, step).log)
  {
    hide Serve, Prepare, Act, LockFree, Unopposed, ClosesAll;
  }

  lemma CrossesPrefix(cfg: Config, w: World, ps: seq<Packet>, n: nat, i: nat, j: nat)
    requires n <= |ps| && Crosses(cfg, w, ps[..n], i, j)
    ensures Crosses(cfg, w, ps, i, j)
  {
    hide Prepare, ServeAll, Settled, RunNeeded, Waits;
    assert forall k :: 0 <= k <= n ==> ps[..n][..k] == ps[..k];
    forall k | 0 <= k < n ensures PreparedAt(cfg, w, ps[..n], k) == PreparedAt(cfg, w, ps, k) {
    }
    assert Ops(cfg, w, ps[..n], i, j) == Ops(cfg, w, ps, i, j);
  }

  /** If no two packets cross, every run that takes them is quiet. */
  lemma UncrossedIsQuiet(cfg: Config, w: World, steps: seq<Step>)
    requires LegalRun(cfg, Start(w, 1), steps)
    requires forall i, j :: !Crosses(cfg, w, PacketsIn(After(cfg, Start(w, 1), steps).log), i, j)
    ensures QuietRun(cfg, Start(w, 1), steps)
  {
    hide After, Legal, Apply, OneSession, Sound, Faithful, Matched, History, Start, Crosses, Quiet, Serve;
    var ps := PacketsIn(After(cfg, Start(w, 1), steps).log);
    forall n | 0 <= n < |steps| ensures Quiet(After(cfg, Start(w, 1), steps[..n]), steps[n]) {
      var st := After(cfg, Start(w, 1), steps[..n]);
      PrefixRun(cfg, Start(w, 1), steps, n);
      RunTracks(cfg, w, steps[..n]);
      LogGrows(cfg, Start(w, 1), steps, n);
      var now := PacketsIn(st.log);
      assert ps[..|now|] == now;
      forall i, j ensures !Crosses(cfg, w, now, i, j) {
        if Crosses(cfg, w, now, i, j) {
          CrossesPrefix(cfg, w, ps, |now|, i, j);
        }
      }
      StepQuiet(cfg, w, st, steps[n]);
    }
  }
}

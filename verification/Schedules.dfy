/** Building runs of one session, and with them the client's view of order: every
    run that takes these packets answers as the one-at-a-time server would, if and
    only if no two of them cross. */
module Schedules {
  import opened Messages
  import opened Packets
  import opened DataOps
  import opened Server
  import opened Safety
  import opened Independence
  import opened Reordering
  import opened Pool
  import opened Runs
  import opened Client

  // ---------- one more step, one more job, one more reply ----------

  lemma Extends(cfg: Config, st: State, steps: seq<Step>, x: Step)
    requires LegalRun(cfg, st, steps) && Legal(cfg, After(cfg, st, steps), x)
    ensures LegalRun(cfg, st, steps + [x]) && After(cfg, st, steps + [x]) == Apply(cfg, After(cfg, st, steps), x)
    ensures QuietRun(cfg, st, steps + [x]) ==> QuietRun(cfg, st, steps) && Quiet(After(cfg, st, steps), x)
  {
    hide Legal, Apply, Quiet;
    var steps' := steps + [x];
    assert steps'[..|steps|] == steps;
    assert forall n :: 0 <= n < |steps| ==> steps'[..n] == steps[..n] && steps'[n] == steps[n];
  }

  /** One session, not ended, with no job inside the driver. */
  predicate Calm(st: State)
  {
    AllFrom(st, 1) && st.ends == [] && forall i :: 0 <= i < |st.log| ==> !st.log[i].InDriver()
  }

  predicate WaitingAt(st: State, q: nat)
  {
    q < |st.log| && st.log[q].work.InFlight? && st.log[q].work.phase.Waiting?
  }

  /** Entry q run from beginning to end. */
  function Finishing(st: State, q: nat): State
    requires WaitingAt(st, q)
  {
    var op := st.log[q].work.job.op;
    var (files, out) := Act(st.w.fs.files, op);
    SetPhase(st, q, Finished(out)).(w := WithFiles(st.w, files), calls := st.calls + [CData(op)])
  }

  lemma RunsJob(cfg: Config, st0: State, steps: seq<Step>, q: nat) returns (steps': seq<Step>)
    requires LegalRun(cfg, st0, steps)
    requires var st := After(cfg, st0, steps); Calm(st) && WaitingAt(st, q) && Unopposed(st.log, q)
    ensures LegalRun(cfg, st0, steps')
    ensures var st := After(cfg, st0, steps);
            && After(cfg, st0, steps') == Finishing(st, q)
            && Cores(st.log)[q].Pending?
            && (QuietRun(cfg, st0, steps') ==> QuietRun(cfg, st0, steps) && Quietly(st.w.fs.files, Cores(st.log), q))
  {
    hide After, LegalRun, QuietRun, Conflict, Act, Render, Quietly, Serve, Prepare;
    var st := After(cfg, st0, steps);
    Extends(cfg, st0, steps, Enter(q));
    steps' := steps + [Enter(q)];
    SameCores(cfg, st, Enter(q));
    Extends(cfg, st0, steps', Do(q));
    steps' := steps' + [Do(q)];
    Extends(cfg, st0, steps', Leave(q));
    steps' := steps' + [Leave(q)];
  }

  lemma SendsOne(cfg: Config, st0: State, steps: seq<Step>, q: nat) returns (steps': seq<Step>)
    requires LegalRun(cfg, st0, steps)
    requires var st := After(cfg, st0, steps);
             && Calm(st) && q < |st.log| && !st.log[q].sent && st.log[q].Ready()
             && forall j :: 0 <= j < q ==> st.log[j].sent
    ensures LegalRun(cfg, st0, steps')
    ensures var st, st' := After(cfg, st0, steps), After(cfg, st0, steps');
            && st'.log == st.log[q := st.log[q].(sent := true)] && Calm(st') && st'.ts == st.ts && st'.w == st.w
            && (QuietRun(cfg, st0, steps') ==> QuietRun(cfg, st0, steps))
  {
    hide After, LegalRun, QuietRun, Quiet, Render;
    var st := After(cfg, st0, steps);
    Extends(cfg, st0, steps, Send(q));
    SessionsStep(cfg, st, Send(q), 1);
    steps' := steps + [Send(q)];
  }

  // ---------- finishing everything ----------

  predicate SamePlan(st: State, st': State)
  {
    SamePackets(st.log, st'.log) && st'.ts == st.ts
  }

  predicate AllReady(st: State) { forall i :: 0 <= i < |st.log| ==> st.log[i].Ready() }

  /** Every waiting job run in arrival order. */
  lemma FinishesAll(cfg: Config, st0: State, steps: seq<Step>) returns (steps': seq<Step>)
    requires LegalRun(cfg, st0, steps) && Calm(After(cfg, st0, steps))
    ensures LegalRun(cfg, st0, steps') && (QuietRun(cfg, st0, steps') ==> QuietRun(cfg, st0, steps))
    ensures var st, st' := After(cfg, st0, steps), After(cfg, st0, steps');
            Calm(st') && AllReady(st') && SamePlan(st, st')
  {
    hide After, LegalRun, QuietRun, Act, Quietly, Conflict, Cores;
    steps' := steps;
    var n, q := |After(cfg, st0, steps).log|, 0;
    while q < n
      invariant 0 <= q <= n && LegalRun(cfg, st0, steps')
      invariant QuietRun(cfg, st0, steps') ==> QuietRun(cfg, st0, steps)
      invariant Calm(After(cfg, st0, steps')) && SamePlan(After(cfg, st0, steps), After(cfg, st0, steps'))
      invariant forall i :: 0 <= i < q ==> After(cfg, st0, steps').log[i].Ready()
    {
      if WaitingAt(After(cfg, st0, steps'), q) {
        steps' := RunsJob(cfg, st0, steps', q);
      }
      q := q + 1;
    }
  }

  /** Everything answered and sent. */
  predicate AtRest(st: State) { Calm(st) && AllReady(st) && Delivered(st) }

  lemma SendsAll(cfg: Config, st0: State, steps: seq<Step>) returns (steps': seq<Step>)
    requires LegalRun(cfg, st0, steps) && Calm(After(cfg, st0, steps)) && AllReady(After(cfg, st0, steps))
    ensures LegalRun(cfg, st0, steps') && (QuietRun(cfg, st0, steps') ==> QuietRun(cfg, st0, steps))
    ensures AtRest(After(cfg, st0, steps')) && SamePlan(After(cfg, st0, steps), After(cfg, st0, steps'))
  {
    hide After, LegalRun, QuietRun;
    steps' := steps;
    var n, q := |After(cfg, st0, steps).log|, 0;
    while q < n
      invariant 0 <= q <= n && LegalRun(cfg, st0, steps')
      invariant QuietRun(cfg, st0, steps') ==> QuietRun(cfg, st0, steps)
      invariant Calm(After(cfg, st0, steps')) && AllReady(After(cfg, st0, steps'))
      invariant SamePlan(After(cfg, st0, steps), After(cfg, st0, steps'))
      invariant forall i :: 0 <= i < q ==> After(cfg, st0, steps').log[i].sent
    {
      if !After(cfg, st0, steps').log[q].sent {
        steps' := SendsOne(cfg, st0, steps', q);
      }
      q := q + 1;
    }
  }

  // ---------- taking packets ----------

  lemma TakesJob(cfg: Config, st0: State, steps: seq<Step>, p: Packet) returns (steps': seq<Step>)
    requires LegalRun(cfg, st0, steps)
    requires Calm(After(cfg, st0, steps)) && Prepare(cfg, After(cfg, st0, steps).ts[0], p).Run?
    ensures LegalRun(cfg, st0, steps') && (QuietRun(cfg, st0, steps') ==> QuietRun(cfg, st0, steps))
    ensures var st, st' := After(cfg, st0, steps), After(cfg, st0, steps');
            && Calm(st') && st'.ts == st.ts && st'.w == st.w
            && st'.log == st.log + [Entry(0, p, InFlight(Prepare(cfg, st.ts[0], p).job, Waiting), false)]
  {
    hide Prepare, After, LegalRun, QuietRun, Quiet;
    var st := After(cfg, st0, steps);
    Extends(cfg, st0, steps, Arrive(0, p));
    SessionsStep(cfg, st, Arrive(0, p), 1);
    steps' := steps + [Arrive(0, p)];
  }

  lemma TakesAlone(cfg: Config, st0: State, steps: seq<Step>, p: Packet) returns (steps': seq<Step>)
    requires LegalRun(cfg, st0, steps)
    requires AtRest(After(cfg, st0, steps)) && !Prepare(cfg, After(cfg, st0, steps).ts[0], p).Run?
    ensures LegalRun(cfg, st0, steps') && (QuietRun(cfg, st0, steps') ==> QuietRun(cfg, st0, steps))
    ensures var st, st' := After(cfg, st0, steps), After(cfg, st0, steps');
            Calm(st') && AllReady(st') && PacketsIn(st'.log) == PacketsIn(st.log) + [p]
  {
    hide Prepare, Serve, After, LegalRun, QuietRun, Quiet;
    var st := After(cfg, st0, steps);
    Extends(cfg, st0, steps, Alone(0, p));
    SessionsStep(cfg, st, Alone(0, p), 1);
    steps' := steps + [Alone(0, p)];
    var st' := After(cfg, st0, steps');
    PacketsAppend(st.log, st'.log[|st.log|]);
  }

  /** A packet taken at rest, and rest again. */
  lemma ServesOne(cfg: Config, st0: State, steps: seq<Step>, p: Packet) returns (steps': seq<Step>)
    requires LegalRun(cfg, st0, steps) && AtRest(After(cfg, st0, steps))
    ensures LegalRun(cfg, st0, steps') && (QuietRun(cfg, st0, steps') ==> QuietRun(cfg, st0, steps))
    ensures var st, st' := After(cfg, st0, steps), After(cfg, st0, steps');
            AtRest(st') && PacketsIn(st'.log) == PacketsIn(st.log) + [p]
  {
    hide Prepare, After, LegalRun, QuietRun;
    var st := After(cfg, st0, steps);
    if Prepare(cfg, st.ts[0], p).Run? {
      var one := TakesJob(cfg, st0, steps, p);
      PacketsAppend(st.log, After(cfg, st0, one).log[|st.log|]);
      var two := FinishesAll(cfg, st0, one);
      SamePacketsIn(After(cfg, st0, one).log, After(cfg, st0, two).log);
      steps' := SendsAll(cfg, st0, two);
      SamePacketsIn(After(cfg, st0, two).log, After(cfg, st0, steps').log);
    } else {
      var one := TakesAlone(cfg, st0, steps, p);
      steps' := SendsAll(cfg, st0, one);
      SamePacketsIn(After(cfg, st0, one).log, After(cfg, st0, steps').log);
    }
  }

  lemma {:induction false} ServesMany(cfg: Config, st0: State, steps: seq<Step>, ps: seq<Packet>)
    returns (steps': seq<Step>)
    requires LegalRun(cfg, st0, steps) && AtRest(After(cfg, st0, steps))
    ensures LegalRun(cfg, st0, steps') && (QuietRun(cfg, st0, steps') ==> QuietRun(cfg, st0, steps))
    ensures var st, st' := After(cfg, st0, steps), After(cfg, st0, steps');
            AtRest(st') && PacketsIn(st'.log) == PacketsIn(st.log) + ps
    decreases |ps|
  {
    hide After, LegalRun, QuietRun, AtRest;
    if ps == [] {
      steps' := steps;
    } else {
      var one := ServesOne(cfg, st0, steps, ps[0]);
      steps' := ServesMany(cfg, st0, one, ps[1..]);
      assert [ps[0]] + ps[1..] == ps;
    }
  }

  lemma StartAtRest(cfg: Config, w: World)
    ensures AtRest(Start(w, 1)) && LegalRun(cfg, Start(w, 1), []) && After(cfg, Start(w, 1), []) == Start(w, 1)
    ensures PacketsIn(Start(w, 1).log) == []
  {
  }

  /** At rest the world and the table are the serial server's. */
  lemma RestIsSerial(cfg: Config, w: World, steps: seq<Step>)
    requires LegalRun(cfg, Start(w, 1), steps) && AtRest(After(cfg, Start(w, 1), steps))
    ensures var st := After(cfg, Start(w, 1), steps);
            var tr := ServeAll(cfg, w, map[], PacketsIn(st.log));
            st.w == tr.w && st.ts == [tr.t]
  {
    hide After, LegalRun, QuietRun, ServeAll, Serial, Start;
    var st := After(cfg, Start(w, 1), steps);
    forall i | 0 <= i < |st.log| ensures !st.log[i].Core().Pending? {
      assert st.log[i].Ready();
    }
    OneSessionSerial(cfg, w, steps);
    SerialIsServeAll(cfg, w, st.log, st.ends);
  }

  // ---------- a run in which the crossing pair is swapped ----------

  /** READs and WRITEs leave the table alone. */
  lemma {:induction false} JobsKeepTable(cfg: Config, w: World, ps: seq<Packet>, i: nat, j: nat, k: nat)
    requires Together(cfg, w, ps, i, j) && i <= k <= j
    ensures ServeAll(cfg, w, map[], ps[..k]).t == ServeAll(cfg, w, map[], ps[..i]).t
    decreases k - i
  {
    hide Prepare, Serve;
    if i < k {
      JobsKeepTable(cfg, w, ps, i, j, k - 1);
      assert PreparedAt(cfg, w, ps, k - 1).Run?;
      assert ps[..k][..k - 1] == ps[..k - 1] && ps[..k][k - 1] == ps[k - 1];
      var tr := ServeAll(cfg, w, map[], ps[..k - 1]);
      JobKeepsTable(cfg, tr.w, tr.t, ps[k - 1], k - 1);
    }
  }

  lemma JobKeepsTable(cfg: Config, w: World, t: Table, p: Packet, nonce: nat)
    requires Prepare(cfg, t, p).Run?
    ensures Serve(cfg, w, t, p, nonce).t == t
  {
    hide Prepare, Act;
  }

  /** Packets i to j taken and waiting, everything before them at rest. */
  ghost predicate Lined(cfg: Config, w: World, ps: seq<Packet>, i: nat, j: nat, st: State)
  {
    && Together(cfg, w, ps, i, j) && Calm(st) && |st.log| <= j + 1 && i <= |st.log|
    && PacketsIn(st.log) == ps[..|st.log|]
    && st.ts == [ServeAll(cfg, w, map[], ps[..i]).t] && st.w == ServeAll(cfg, w, map[], ps[..i]).w
    && (forall q :: 0 <= q < i ==> st.log[q].Ready())
    && (forall q :: i <= q < |st.log| ==> st.log[q].work == InFlight(PreparedAt(cfg, w, ps, q).job, Waiting))
  }

  lemma LinesUp(cfg: Config, w: World, ps: seq<Packet>, i: nat, j: nat) returns (steps: seq<Step>)
    requires Together(cfg, w, ps, i, j)
    ensures LegalRun(cfg, Start(w, 1), steps)
    ensures var st := After(cfg, Start(w, 1), steps); Lined(cfg, w, ps, i, j, st) && |st.log| == j + 1
  {
    hide After, LegalRun, QuietRun, ServeAll, Prepare, Start;
    StartAtRest(cfg, w);
    steps := ServesMany(cfg, Start(w, 1), [], ps[..i]);
    RestIsSerial(cfg, w, steps);
    assert [] + ps[..i] == ps[..i];
    var k := i;
    while k <= j
      invariant i <= k <= j + 1 && LegalRun(cfg, Start(w, 1), steps)
      invariant Lined(cfg, w, ps, i, j, After(cfg, Start(w, 1), steps)) && |After(cfg, Start(w, 1), steps).log| == k
    {
      steps := LineUpOne(cfg, w, ps, i, j, steps);
      k := k + 1;
    }
  }

  lemma LineUpOne(cfg: Config, w: World, ps: seq<Packet>, i: nat, j: nat, steps: seq<Step>) returns (steps': seq<Step>)
    requires LegalRun(cfg, Start(w, 1), steps)
    requires Lined(cfg, w, ps, i, j, After(cfg, Start(w, 1), steps)) && |After(cfg, Start(w, 1), steps).log| <= j
    ensures LegalRun(cfg, Start(w, 1), steps')
    ensures var st, st' := After(cfg, Start(w, 1), steps), After(cfg, Start(w, 1), steps');
            Lined(cfg, w, ps, i, j, st') && |st'.log| == |st.log| + 1
  {
    hide After, LegalRun, QuietRun, ServeAll, Prepare, Start;
    var st := After(cfg, Start(w, 1), steps);
    var k := |st.log|;
    JobsKeepTable(cfg, w, ps, i, j, k);
    assert PreparedAt(cfg, w, ps, k).Run?;
    steps' := TakesJob(cfg, Start(w, 1), steps, ps[k]);
    var st' := After(cfg, Start(w, 1), steps');
    PacketsAppend(st.log, st'.log[k]);
    assert ps[..k] + [ps[k]] == ps[..k + 1];
  }

  /** In a lined-up log, requests before l of those from i on have run exactly if m
      waits for them, and the files are theirs. */
  ghost predicate Cleared(st: State, i: nat, ops: seq<Op>, l: nat, m: nat, files: Files)
  {
    && m < |ops| && 1 <= l <= m && Match(st.log, i, ops) && |st.log| == i + |ops| && Calm(st)
    && (forall q :: 0 <= q < i ==> st.log[q].Ready())
    && (forall n :: i <= n < i + |ops| ==>
          if n < i + l && Waits(ops, n - i, m) then st.log[n].work.phase.Finished? else st.log[n].work.phase.Waiting?)
    && RunNeeded(st.w.fs.files, ops, l, m) == RunNeeded(files, ops, 1, m)
  }

  /** A request whose conflicts m waits for, or m itself, may enter. */
  lemma MayEnter(st: State, i: nat, ops: seq<Op>, l: nat, m: nat, files: Files)
    requires Cleared(st, i, ops, l, m, files) && !Waits(ops, 0, m) && (l == m || Waits(ops, l, m))
    ensures WaitingAt(st, i + l) && Unopposed(st.log, i + l)
  {
    hide Conflict, RunNeeded;
    forall j | 0 <= j < i + l && st.log[j].work.InFlight? && Conflict(st.log[j].work.job.op, st.log[i + l].work.job.op)
      ensures st.log[j].work.phase.Finished?
    {
      if j >= i {
        var q := j - i;
        assert st.log[i + q].work.job.op == ops[q] && st.log[i + l].work.job.op == ops[l];
        assert Waits(ops, q, m);
      }
    }
  }

  lemma ClearedRun(st: State, i: nat, ops: seq<Op>, l: nat, m: nat, files: Files)
    requires Cleared(st, i, ops, l, m, files) && l < m && Waits(ops, l, m) && WaitingAt(st, i + l)
    ensures Cleared(Finishing(st, i + l), i, ops, l + 1, m, files)
  {
    hide Act, Waits;
    var st' := Finishing(st, i + l);
    assert st.log[i + l].work.job.op == ops[l];
    assert RunNeeded(st'.w.fs.files, ops, l + 1, m) == RunNeeded(st.w.fs.files, ops, l, m);
    assert Match(st'.log, i, ops);
    assert Calm(st');
    forall q | 0 <= q < i ensures st'.log[q].Ready() {
      assert st'.log[q] == st.log[q];
    }
  }

  lemma ClearedSkip(st: State, i: nat, ops: seq<Op>, l: nat, m: nat, files: Files)
    requires Cleared(st, i, ops, l, m, files) && l < m && !Waits(ops, l, m)
    ensures Cleared(st, i, ops, l + 1, m, files)
  {
    hide Act, Waits;
    assert RunNeeded(st.w.fs.files, ops, l + 1, m) == RunNeeded(st.w.fs.files, ops, l, m);
  }

  lemma ClearNext(cfg: Config, st0: State, steps: seq<Step>, i: nat, ops: seq<Op>, l: nat, m: nat, files: Files)
    returns (steps': seq<Step>)
    requires LegalRun(cfg, st0, steps) && Cleared(After(cfg, st0, steps), i, ops, l, m, files) && l < m
    requires !Waits(ops, 0, m)
    ensures LegalRun(cfg, st0, steps') && Cleared(After(cfg, st0, steps'), i, ops, l + 1, m, files)
    ensures SamePlan(After(cfg, st0, steps), After(cfg, st0, steps'))
  {
    hide After, LegalRun, QuietRun, Act, Conflict, Waits, Quietly, Cores, RunNeeded;
    var st := After(cfg, st0, steps);
    if Waits(ops, l, m) {
      MayEnter(st, i, ops, l, m, files);
      steps' := RunsJob(cfg, st0, steps, i + l);
      ClearedRun(st, i, ops, l, m, files);
    } else {
      steps' := steps;
      ClearedSkip(st, i, ops, l, m, files);
    }
  }

  /** Everything m waits for run, in order. */
  lemma ClearsWay(cfg: Config, st0: State, steps: seq<Step>, i: nat, ops: seq<Op>, m: nat, files: Files)
    returns (steps': seq<Step>)
    requires LegalRun(cfg, st0, steps) && Cleared(After(cfg, st0, steps), i, ops, 1, m, files) && !Waits(ops, 0, m)
    ensures LegalRun(cfg, st0, steps') && Cleared(After(cfg, st0, steps'), i, ops, m, m, files)
    ensures SamePlan(After(cfg, st0, steps), After(cfg, st0, steps'))
  {
    hide After, LegalRun, Cleared, Waits;
    assert 1 <= m by { ClearedBounds(After(cfg, st0, steps), i, ops, 1, m, files); }
    steps' := steps;
    var l := 1;
    while l < m
      invariant 1 <= l <= m && LegalRun(cfg, st0, steps') && Cleared(After(cfg, st0, steps'), i, ops, l, m, files)
      invariant SamePlan(After(cfg, st0, steps), After(cfg, st0, steps'))
    {
      steps' := ClearNext(cfg, st0, steps', i, ops, l, m, files);
      l := l + 1;
    }
  }

  lemma ClearedBounds(st: State, i: nat, ops: seq<Op>, l: nat, m: nat, files: Files)
    requires Cleared(st, i, ops, l, m, files)
    ensures 1 <= l <= m
  {
  }

  lemma {:induction false} DrainReady(files: Files, log: seq<Entry>, i: nat)
    requires i <= |log| && forall q :: 0 <= q < i ==> log[q].Ready()
    ensures DrainFiles(files, Cores(log)[..i]) == files
  {
    var cs := Cores(log)[..i];
    forall q | 0 <= q < i ensures cs[q].Replied? {
      assert cs[q] == log[q].Core();
    }
    DrainSettled(files, cs);
  }

  /** Then m runs before request i, and that is not quiet. */
  lemma Overtakes(cfg: Config, st0: State, steps: seq<Step>, i: nat, ops: seq<Op>, m: nat, files: Files)
    returns (steps': seq<Step>)
    requires LegalRun(cfg, st0, steps) && Cleared(After(cfg, st0, steps), i, ops, m, m, files)
    requires !Waits(ops, 0, m) && !Settled(RunNeeded(files, ops, 1, m), ops[0], ops[m])
    ensures LegalRun(cfg, st0, steps') && !QuietRun(cfg, st0, steps')
    ensures Calm(After(cfg, st0, steps')) && SamePlan(After(cfg, st0, steps), After(cfg, st0, steps'))
  {
    hide After, LegalRun, QuietRun, Act, Conflict, Waits, Quietly, Settled, DrainFiles;
    var st := After(cfg, st0, steps);
    MayEnter(st, i, ops, m, m, files);
    steps' := RunsJob(cfg, st0, steps, i + m);
    QuietlyAt(st.w.fs.files, Cores(st.log), i + m);
    DrainReady(st.w.fs.files, st.log, i);
    assert st.log[i + 0].work.job.op == ops[0] && st.log[i + m].work.job.op == ops[m];
    assert Cores(st.log)[i] == Pending(st.log[i].work.job);
  }

  lemma LinedIsCleared(cfg: Config, w: World, ps: seq<Packet>, i: nat, j: nat, st: State)
    requires i < j && Lined(cfg, w, ps, i, j, st) && |st.log| == j + 1 && !Waits(Ops(cfg, w, ps, i, j), 0, j - i)
    ensures Cleared(st, i, Ops(cfg, w, ps, i, j), 1, j - i, ServeAll(cfg, w, map[], ps[..i]).w.fs.files)
    ensures PacketsIn(st.log) == ps[..j + 1]
  {
    hide ServeAll, RunNeeded, Waits, PreparedAt;
    var ops := Ops(cfg, w, ps, i, j);
    assert Match(st.log, i, ops);
  }

  /** Some run takes these packets and is not quiet. */
  lemma CrossedRun(cfg: Config, w: World, ps: seq<Packet>, i: nat, j: nat) returns (steps: seq<Step>)
    requires Crosses(cfg, w, ps, i, j)
    ensures TakesAll(cfg, w, ps, steps) && !QuietRun(cfg, Start(w, 1), steps)
  {
    hide After, LegalRun, QuietRun, Waits, Settled, RunNeeded, ServeAll, PreparedAt, Start, Cleared, Lined, Calm, Ops;
    var ops, files, st0 := Ops(cfg, w, ps, i, j), ServeAll(cfg, w, map[], ps[..i]).w.fs.files, Start(w, 1);
    var first := LinesUp(cfg, w, ps, i, j);
    LinedIsCleared(cfg, w, ps, i, j, After(cfg, st0, first));
    var second := ClearsWay(cfg, st0, first, i, ops, j - i, files);
    SamePacketsIn(After(cfg, st0, first).log, After(cfg, st0, second).log);
    var third := Overtakes(cfg, st0, second, i, ops, j - i, files);
    SamePacketsIn(After(cfg, st0, second).log, After(cfg, st0, third).log);
    steps := Completes(cfg, w, ps, j + 1, third);
  }

  /** The rest of the run. */
  lemma Completes(cfg: Config, w: World, ps: seq<Packet>, n: nat, steps: seq<Step>) returns (steps': seq<Step>)
    requires LegalRun(cfg, Start(w, 1), steps) && !QuietRun(cfg, Start(w, 1), steps)
    requires Calm(After(cfg, Start(w, 1), steps))
    requires n <= |ps| && PacketsIn(After(cfg, Start(w, 1), steps).log) == ps[..n]
    ensures TakesAll(cfg, w, ps, steps') && !QuietRun(cfg, Start(w, 1), steps')
  {
    hide After, LegalRun, QuietRun, Start, Calm, AllReady;
    var st0 := Start(w, 1);
    var first := FinishesAll(cfg, st0, steps);
    SamePacketsIn(After(cfg, st0, steps).log, After(cfg, st0, first).log);
    var second := SendsAll(cfg, st0, first);
    SamePacketsIn(After(cfg, st0, first).log, After(cfg, st0, second).log);
    steps' := ServesMany(cfg, st0, second, ps[n..]);
    assert ps[..n] + ps[n..] == ps;
  }

  // ---------- the client's view ----------

  /** A run of one session that takes exactly these packets and answers them all. */
  ghost predicate TakesAll(cfg: Config, w: World, ps: seq<Packet>, steps: seq<Step>)
  {
    && LegalRun(cfg, Start(w, 1), steps)
    && Delivered(After(cfg, Start(w, 1), steps)) && PacketsIn(After(cfg, Start(w, 1), steps).log) == ps
  }

  lemma {:induction false} ProjectAll(log: seq<Entry>, rs: seq<Message>)
    requires |log| == |rs| && forall i :: 0 <= i < |log| ==> log[i].session == 0
    ensures Project(log, rs, 0) == rs
  {
    if log != [] {
      var n := |log| - 1;
      ProjectAll(log[..n], rs[..n]);
      assert rs == rs[..n] + [rs[n]];
    }
  }

  lemma RunSerialIffQuiet(cfg: Config, w: World, ps: seq<Packet>, steps: seq<Step>)
    requires TakesAll(cfg, w, ps, steps)
    ensures After(cfg, Start(w, 1), steps).out == [ServeAll(cfg, w, map[], ps).replies] <==>
            QuietRun(cfg, Start(w, 1), steps)
  {
    hide After, LegalRun, QuietRun, ClearRun, ServeAll, Serial, Start, Project, Matched, History, Faithful, Sound;
    var st := After(cfg, Start(w, 1), steps);
    OneSessionIsClear(cfg, w, steps);
    StreamEquivalence(cfg, w, 1, steps);
    RunTracks(cfg, w, steps);
    SerialIsServeAll(cfg, w, st.log, st.ends);
    ProjectAll(st.log, Serial(cfg, w, 1, st.log, st.ends).replies);
  }

  /** What a client may rely on: every run that takes its packets sends it the
      replies of the one-at-a-time server, if and only if no two of its packets
      cross: a READ and a WRITE with no barrier between them, neither waiting for
      the other, that meet across the end of their file. And some run takes them. */
  lemma ClientOrder(cfg: Config, w: World, ps: seq<Packet>)
    ensures (forall steps :: TakesAll(cfg, w, ps, steps) ==>
               After(cfg, Start(w, 1), steps).out == [ServeAll(cfg, w, map[], ps).replies]) <==>
            (forall i, j :: !Crosses(cfg, w, ps, i, j))
    ensures exists steps :: TakesAll(cfg, w, ps, steps)
  {
    hide After, LegalRun, QuietRun, ServeAll, Start, Crosses;
    StartAtRest(cfg, w);
    var some := ServesMany(cfg, Start(w, 1), [], ps);
    assert [] + ps == ps;
    assert TakesAll(cfg, w, ps, some);
    if forall i, j :: !Crosses(cfg, w, ps, i, j) {
      forall steps | TakesAll(cfg, w, ps, steps)
        ensures After(cfg, Start(w, 1), steps).out == [ServeAll(cfg, w, map[], ps).replies]
      {
        UncrossedIsQuiet(cfg, w, steps);
        RunSerialIffQuiet(cfg, w, ps, steps);
      }
    } else {
      var i, j :| Crosses(cfg, w, ps, i, j);
      var steps := CrossedRun(cfg, w, ps, i, j);
      RunSerialIffQuiet(cfg, w, ps, steps);
    }
  }
}

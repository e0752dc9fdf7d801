/** The server whose requests take effect at once, against the one-at-a-time server
    that takes the requests of all sessions, and their ends, in the order of their
    effects. */
module Linearity {
  import opened Messages
  import opened Packets
  import opened DataOps
  import opened Server
  import opened Lifecycle
  import opened Independence
  import opened Reordering
  import opened Pool
  import opened Runs

  /** When an entry takes effect, or a session ends. */
  datatype Instant = Effect(k: nat) | Ends(session: nat, order: seq<nat>)

  /** What a step adds to the order. */
  function Added(st: State, step: Step): seq<Instant>
  {
    match step
    case Do(k) => [Effect(k)]
    case Alone(_, _) => [Effect(|st.log|)]
    case End(s, order) => [Ends(s, order)]
    case _ => []
  }

  /** The order in which a run's requests took effect. */
  ghost function Order(cfg: Config, st: State, steps: seq<Step>): seq<Instant>
  {
    if steps == [] then []
    else
      var n := |steps| - 1;
      Order(cfg, st, steps[..n]) + Added(After(cfg, st, steps[..n]), steps[n])
  }

  datatype InTurn = InTurn(w: World, ts: seq<Table>, replies: map<nat, Message>)

  /** One request, or one end, served to completion. */
  function Turn(cfg: Config, prev: InTurn, log: seq<Entry>, m: Instant): InTurn
  {
    match m
    case Effect(k) =>
      if k >= |log| || log[k].session >= |prev.ts| then prev
      else
        var s := log[k].session;
        var r := Serve(cfg, prev.w, prev.ts[s], log[k].packet, k);
        InTurn(r.w, prev.ts[s := r.t], prev.replies[k := r.reply])
    case Ends(s, order) =>
      if s >= |prev.ts| then prev else prev.(w := Closing(prev.w, order), ts := prev.ts[s := map[]])
  }

  /** The one-at-a-time server on these requests in this order. */
  function OneByOne(cfg: Config, w: World, sessions: nat, log: seq<Entry>, order: seq<Instant>): InTurn
  {
    if order == [] then InTurn(w, seq(sessions, _ => map[]), map[])
    else
      var n := |order| - 1;
      Turn(cfg, OneByOne(cfg, w, sessions, log, order[..n]), log, order[n])
  }

  /** It looks only at who sent what. */
  lemma {:induction false} OneByOneSame(cfg: Config, w: World, sessions: nat, log: seq<Entry>, log': seq<Entry>,
                                        order: seq<Instant>)
    requires |log| <= |log'|
    requires forall k :: 0 <= k < |log| ==> log[k].session == log'[k].session && log[k].packet == log'[k].packet
    requires forall i :: 0 <= i < |order| && order[i].Effect? ==> order[i].k < |log|
    ensures OneByOne(cfg, w, sessions, log, order) == OneByOne(cfg, w, sessions, log', order)
  {
    hide Serve;
    if order != [] {
      OneByOneSame(cfg, w, sessions, log, log', order[..|order| - 1]);
    }
  }

  // ---------- what every step keeps ----------

  /** A job that is not over would be prepared now as it was when it arrived: its
      session's table waits for it. */
  predicate Steady(cfg: Config, st: State)
  {
    forall k :: 0 <= k < |st.log| && st.log[k].work.InFlight? && !st.log[k].Ready() ==>
      st.log[k].session < |st.ts| && Prepare(cfg, st.ts[st.log[k].session], st.log[k].packet) == Run(st.log[k].work.job)
  }

  lemma SteadyStep(cfg: Config, st: State, step: Step)
    requires Legal(cfg, st, step) && Sound(st) && Steady(cfg, st)
    ensures Steady(cfg, Apply(cfg, st, step))
  {
    hide Serve, Prepare, Act, Cores, Unopposed, LockFree, ClosesAll;
  }

  /** The state and the replies given so far are those of the one-at-a-time server,
      and the order holds exactly the entries that have taken effect, once each. */
  ghost predicate Agrees(cfg: Config, w: World, sessions: nat, st: State, order: seq<Instant>)
  {
    var turn := OneByOne(cfg, w, sessions, st.log, order);
    && st.w == turn.w && st.ts == turn.ts
    && (forall k: nat :: k in turn.replies <==> k < |st.log| && st.log[k].Core().Replied?)
    && (forall k: nat :: k in turn.replies && k < |st.log| && st.log[k].Core().Replied? ==>
          st.log[k].Core().reply == turn.replies[k])
    && (forall k: nat :: Effect(k) in order <==> k < |st.log| && st.log[k].Core().Replied?)
    && (forall i, j :: 0 <= i < j < |order| && order[i].Effect? ==> order[i] != order[j])
  }

  lemma EffectsWithin(cfg: Config, w: World, sessions: nat, st: State, order: seq<Instant>)
    requires Agrees(cfg, w, sessions, st, order)
    ensures forall i :: 0 <= i < |order| && order[i].Effect? ==> order[i].k < |st.log|
  {
    hide OneByOne;
    forall i | 0 <= i < |order| && order[i].Effect? ensures order[i].k < |st.log| {
      assert Effect(order[i].k) in order;
    }
  }

  /** Steps that take no effect. */
  lemma AgreesStill(cfg: Config, w: World, sessions: nat, st: State, step: Step, order: seq<Instant>)
    requires Legal(cfg, st, step) && Agrees(cfg, w, sessions, st, order)
    requires step.Arrive? || step.Enter? || step.Leave? || step.Send?
    ensures Agrees(cfg, w, sessions, Apply(cfg, st, step), order)
  {
    hide Legal, Apply, OneByOne;
    var st' := Apply(cfg, st, step);
    StillCores(cfg, st, step);
    EffectsWithin(cfg, w, sessions, st, order);
    OneByOneSame(cfg, w, sessions, st.log, st'.log, order);
  }

  lemma StillCores(cfg: Config, st: State, step: Step)
    requires Legal(cfg, st, step) && (step.Arrive? || step.Enter? || step.Leave? || step.Send?)
    ensures var st' := Apply(cfg, st, step);
            && st'.w == st.w && st'.ts == st.ts && st'.ends == st.ends && |st.log| <= |st'.log|
            && (forall k :: 0 <= k < |st.log| ==> st'.log[k].work.InFlight? == st.log[k].work.InFlight?)
            && (forall k :: 0 <= k < |st.log| && st.log[k].work.InFlight? ==> st'.log[k].work.job == st.log[k].work.job)
            && (forall k :: 0 <= k < |st.log| ==>
                  && st.log[k].session == st'.log[k].session && st.log[k].packet == st'.log[k].packet
                  && st'.log[k].Core() == st.log[k].Core())
            && (forall k :: |st.log| <= k < |st'.log| ==> st'.log[k].Core().Pending?)
  {
    hide Serve, Prepare, Unopposed, LockFree, Render;
  }

  lemma OneMore(cfg: Config, w: World, sessions: nat, log: seq<Entry>, order: seq<Instant>, m: Instant)
    ensures OneByOne(cfg, w, sessions, log, order + [m]) == Turn(cfg, OneByOne(cfg, w, sessions, log, order), log, m)
  {
    hide Turn;
    assert (order + [m])[..|order|] == order;
  }

  lemma AgreesDo(cfg: Config, w: World, sessions: nat, st: State, k: nat, order: seq<Instant>)
    requires Legal(cfg, st, Do(k)) && Steady(cfg, st) && Agrees(cfg, w, sessions, st, order)
    ensures Agrees(cfg, w, sessions, Apply(cfg, st, Do(k)), order + [Effect(k)])
  {
    hide Prepare, Act, Render, OneByOne, Perform;
    var st', j := Apply(cfg, st, Do(k)), st.log[k].work.job;
    EffectsWithin(cfg, w, sessions, st, order);
    OneByOneSame(cfg, w, sessions, st.log, st'.log, order);
    OneMore(cfg, w, sessions, st'.log, order, Effect(k));
    var s := st.log[k].session;
    assert st.ts[s := st.ts[s]] == st.ts;
    forall q: nat | q < |st'.log| && q != k ensures st'.log[q].Core() == st.log[q].Core() {
    }
    OrderGrows(st, st', order, k);
  }

  /** The order after entry k, and only it, has taken effect. */
  lemma OrderGrows(st: State, st': State, order: seq<Instant>, k: nat)
    requires k < |st'.log| && st'.log[k].Core().Replied? && (k < |st.log| ==> !st.log[k].Core().Replied?)
    requires |st.log| <= |st'.log| && forall q: nat :: q < |st'.log| && q != k ==>
          q < |st.log| && st'.log[q].Core() == st.log[q].Core()
    requires forall q: nat :: Effect(q) in order <==> q < |st.log| && st.log[q].Core().Replied?
    requires forall i, j :: 0 <= i < j < |order| && order[i].Effect? ==> order[i] != order[j]
    ensures forall q: nat :: Effect(q) in order + [Effect(k)] <==> q < |st'.log| && st'.log[q].Core().Replied?
    ensures var o := order + [Effect(k)]; forall i, j :: 0 <= i < j < |o| && o[i].Effect? ==> o[i] != o[j]
  {
    hide Render;
    var o := order + [Effect(k)];
    forall i, j | 0 <= i < j < |o| && o[i].Effect? ensures o[i] != o[j] {
      if j == |order| {
        assert o[i] in order;
      }
    }
  }

  lemma AgreesAlone(cfg: Config, w: World, sessions: nat, st: State, s: nat, p: Packet, order: seq<Instant>)
    requires Legal(cfg, st, Alone(s, p)) && Agrees(cfg, w, sessions, st, order)
    ensures Agrees(cfg, w, sessions, Apply(cfg, st, Alone(s, p)), order + [Effect(|st.log|)])
  {
    hide Serve, Prepare, Render, LockFree, OneByOne;
    var st', k := Apply(cfg, st, Alone(s, p)), |st.log|;
    EffectsWithin(cfg, w, sessions, st, order);
    OneByOneSame(cfg, w, sessions, st.log, st'.log, order);
    OneMore(cfg, w, sessions, st'.log, order, Effect(k));
    OrderGrows(st, st', order, k);
  }

  lemma AgreesEnd(cfg: Config, w: World, sessions: nat, st: State, s: nat, files: seq<nat>, order: seq<Instant>)
    requires Legal(cfg, st, End(s, files)) && Agrees(cfg, w, sessions, st, order)
    ensures Agrees(cfg, w, sessions, Apply(cfg, st, End(s, files)), order + [Ends(s, files)])
  {
    hide Serve, Prepare, Render, OneByOne, ClosesAll;
    OneMore(cfg, w, sessions, st.log, order, Ends(s, files));
    var o := order + [Ends(s, files)];
    forall k: nat ensures Effect(k) in o <==> Effect(k) in order {
    }
  }

  lemma AgreesStart(cfg: Config, w: World, sessions: nat)
    ensures Agrees(cfg, w, sessions, Start(w, sessions), []) && Steady(cfg, Start(w, sessions))
    ensures Orderly(Start(w, sessions), [])
  {
  }

  lemma AgreesStep(cfg: Config, w: World, sessions: nat, st: State, step: Step, order: seq<Instant>)
    requires Legal(cfg, st, step) && Sound(st) && Steady(cfg, st) && Agrees(cfg, w, sessions, st, order)
    ensures Agrees(cfg, w, sessions, Apply(cfg, st, step), order + Added(st, step))
  {
    hide Legal, Apply, Agrees, Steady;
    match step
    case Do(k) =>
      AgreesDo(cfg, w, sessions, st, k, order);
    case Alone(s, p) => AgreesAlone(cfg, w, sessions, st, s, p, order);
    case End(s, files) => AgreesEnd(cfg, w, sessions, st, s, files, order);
    case _ =>
      assert order + [] == order;
      AgreesStill(cfg, w, sessions, st, step, order);
  }

  // ---------- the order of effects ----------

  /** Request k, taken after request j, is to take effect after it: they have a byte in
      common that one of them writes, or are of one session and one of them is no READ
      or WRITE that runs. */
  predicate MustPrecede(log: seq<Entry>, j: nat, k: nat)
  {
    && j < k < |log|
    && if log[j].work.InFlight? && log[k].work.InFlight? then Conflict(log[j].work.job.op, log[k].work.job.op)
       else log[j].session == log[k].session
  }

  ghost predicate Respects(log: seq<Entry>, order: seq<Instant>)
  {
    forall b, j: nat :: 0 <= b < |order| && order[b].Effect? && MustPrecede(log, j, order[b].k) ==>
          Effect(j) in order[..b]
  }

  lemma RespectsSame(log: seq<Entry>, log': seq<Entry>, order: seq<Instant>)
    requires Respects(log, order) && |log| <= |log'|
    requires forall i :: 0 <= i < |order| && order[i].Effect? ==> order[i].k < |log|
    requires forall i :: 0 <= i < |log| ==>
               && log'[i].session == log[i].session && log'[i].work.InFlight? == log[i].work.InFlight?
               && (log[i].work.InFlight? ==> log'[i].work.job == log[i].work.job)
    ensures Respects(log', order)
  {
    hide Conflict;
    forall b, j: nat | 0 <= b < |order| && order[b].Effect? && MustPrecede(log', j, order[b].k)
      ensures Effect(j) in order[..b]
    {
      assert MustPrecede(log, j, order[b].k);
    }
  }

  lemma RespectsMore(log: seq<Entry>, order: seq<Instant>, m: Instant)
    requires Respects(log, order)
    requires m.Effect? ==> forall j: nat :: MustPrecede(log, j, m.k) ==> Effect(j) in order
    ensures Respects(log, order + [m])
  {
    hide MustPrecede;
    var o := order + [m];
    forall b, j: nat | 0 <= b < |o| && o[b].Effect? && MustPrecede(log, j, o[b].k) ensures Effect(j) in o[..b] {
      if b == |order| {
        assert o[..b] == order;
      } else {
        assert o[..b] == order[..b];
      }
    }
  }

  /** All that a running job has to follow has taken effect. */
  lemma DoPreceded(st: State, k: nat)
    requires Sound(st) && k < |st.log| && st.log[k].work.InFlight? && st.log[k].work.phase.Running?
    ensures forall j: nat :: MustPrecede(st.log, j, k) ==> st.log[j].Core().Replied?
  {
    hide Conflict, Render, WellFormed;
    assert Unopposed(st.log, k);
  }

  /** The order holds the ends of sessions that have ended and follows what was to
      precede. */
  ghost predicate Orderly(st: State, order: seq<Instant>)
  {
    && (forall i :: 0 <= i < |order| && order[i].Ends? ==> st.Ended(order[i].session))
    && Respects(st.log, order)
  }

  /** Each step keeps who sent what, what a job is and who has ended. */
  lemma StepKeeps(cfg: Config, st: State, step: Step)
    requires Legal(cfg, st, step)
    ensures var st' := Apply(cfg, st, step);
            && |st.log| <= |st'.log| && st.ends <= st'.ends
            && (forall i :: 0 <= i < |st.log| ==>
                  st'.log[i].session == st.log[i].session && st'.log[i].work.InFlight? == st.log[i].work.InFlight?)
            && (forall i :: 0 <= i < |st.log| && st.log[i].work.InFlight? ==> st'.log[i].work.job == st.log[i].work.job)
            && (step.End? ==> st'.ends == st.ends + [Hangup(|st.log|, step.session, step.order)])
  {
    hide Serve, Prepare, Act, Unopposed, LockFree, ClosesAll, Render;
  }

  lemma OrderlyStep(cfg: Config, w: World, sessions: nat, st: State, step: Step, order: seq<Instant>)
    requires Legal(cfg, st, step) && Sound(st) && Agrees(cfg, w, sessions, st, order) && Orderly(st, order)
    ensures Orderly(Apply(cfg, st, step), order + Added(st, step))
  {
    hide Serve, Prepare, Apply;
    var st' := Apply(cfg, st, step);
    StepKeeps(cfg, st, step);
    EffectsWithin(cfg, w, sessions, st, order);
    if step.Do? {
      DoPreceded(st, step.k);
    }
    if step.Alone? {
      AlonePreceded(cfg, st, step.session, step.packet);
    }
    hide Respects, MustPrecede, Legal, Apply, Sound, OneByOne;
    RespectsSame(st.log, st'.log, order);
    forall q: nat | st.Ended(q) ensures st'.Ended(q) {
      var i :| 0 <= i < |st.ends| && st.ends[i].session == q;
      assert st'.ends[i].session == q;
    }
    match step
    case Do(k) =>
      MustSame(st.log, st'.log, k);
      RespectsMore(st'.log, order, Effect(k));
    case Alone(_, _) => RespectsMore(st'.log, order, Effect(|st.log|));
    case End(s, files) =>
      assert st'.ends[|st.ends|].session == s;
      RespectsMore(st'.log, order, Ends(s, files));
    case _ => assert order + [] == order;
  }

  lemma MustSame(log: seq<Entry>, log': seq<Entry>, k: nat)
    requires k < |log| <= |log'|
    requires forall i :: 0 <= i < |log| ==>
               && log'[i].session == log[i].session && log'[i].work.InFlight? == log[i].work.InFlight?
               && (log[i].work.InFlight? ==> log'[i].work.job == log[i].work.job)
    ensures forall j: nat :: MustPrecede(log', j, k) == MustPrecede(log, j, k)
  {
    hide Conflict;
  }

  /** A request served alone has all earlier ones of its session behind it. */
  lemma AlonePreceded(cfg: Config, st: State, s: nat, p: Packet)
    requires Legal(cfg, st, Alone(s, p)) && Sound(st)
    ensures forall j: nat :: MustPrecede(Apply(cfg, st, Alone(s, p)).log, j, |st.log|) ==>
              j < |st.log| && st.log[j].Core().Replied?
  {
    hide Conflict, Render, WellFormed, Serve, Prepare, LockFree, Unopposed;
  }

  lemma OrderNone(cfg: Config, st: State)
    ensures Order(cfg, st, []) == []
  {
  }

  lemma OrderNext(cfg: Config, st: State, steps: seq<Step>)
    requires steps != []
    ensures var n := |steps| - 1;
            Order(cfg, st, steps) == Order(cfg, st, steps[..n]) + Added(After(cfg, st, steps[..n]), steps[n])
  {
    hide After, Added;
  }

  // ---------- every run ----------

  /** Every run answers, and leaves the filesystem and the tables, as the
      one-at-a-time server does that takes the same requests and ends in the order
      in which they took effect. That order grows with the run, and at every moment
      holds exactly what has taken effect by then: a request after it was taken and
      before it was answered. */
  lemma {:induction false} TurnByTurn(cfg: Config, w: World, sessions: nat, steps: seq<Step>)
    requires LegalRun(cfg, Start(w, sessions), steps)
    ensures var st := After(cfg, Start(w, sessions), steps);
            && Steady(cfg, st) && Sound(st)
            && Agrees(cfg, w, sessions, st, Order(cfg, Start(w, sessions), steps))
            && Orderly(st, Order(cfg, Start(w, sessions), steps))
    ensures forall n :: 0 <= n <= |steps| ==>
              Order(cfg, Start(w, sessions), steps[..n]) <= Order(cfg, Start(w, sessions), steps)
  {
    hide *;
    var st0 := Start(w, sessions);
    if steps == [] {
      NoSteps(cfg, st0);
      OrderNone(cfg, st0);
      AgreesStart(cfg, w, sessions);
      SoundStart(w, sessions);
    } else {
      var last := |steps| - 1;
      LastStep(cfg, st0, steps);
      OrderNext(cfg, st0, steps);
      TurnByTurn(cfg, w, sessions, steps[..last]);
      var prev := After(cfg, st0, steps[..last]);
      SoundStep(cfg, prev, steps[last]);
      SteadyStep(cfg, prev, steps[last]);
      OrderlyStep(cfg, w, sessions, prev, steps[last], Order(cfg, st0, steps[..last]));
      AgreesStep(cfg, w, sessions, prev, steps[last], Order(cfg, st0, steps[..last]));
      forall n | 0 <= n <= |steps| ensures Order(cfg, st0, steps[..n]) <= Order(cfg, st0, steps) {
        if n == |steps| {
          assert steps[..n] == steps;
        } else {
          assert steps[..last][..n] == steps[..n];
        }
      }
    }
  }
}

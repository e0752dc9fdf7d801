/** The concurrent server: any number of sessions, READ and WRITE running beside
    each other under the range rule and the filesystem lock, every other request
    alone in its session, replies leaving in arrival order, and all of a session's
    handles closed when it ends.

    The scheduler that enforces these rules is a module of its own and is not
    modelled; its guards, as documented, are the guards of the steps below. */
module Pool {
  import opened Bytes
  import opened Messages
  import opened Packets
  import opened DataOps
  import opened Server
  import opened Lifecycle
  import opened Independence
  import opened Reordering

  // ---------- the machine ----------

  /** A job waits for its range and the lock, is inside the driver before and
      after its effect, and has left it. */
  datatype Phase = Waiting | Running | Acted(out: Outcome) | Finished(out: Outcome)

  datatype Work = InFlight(job: Job, phase: Phase) | Answered(reply: Message)

  /** A packet taken from a session, in the order the server took them. */
  datatype Entry = Entry(session: nat, packet: Packet, work: Work, sent: bool) {
    predicate InDriver() { work.InFlight? && (work.phase.Running? || work.phase.Acted?) }

    /** Its reply is known and waits only for its turn. */
    predicate Ready() { work.Answered? || work.phase.Finished? }

    function Core(): Core
    {
      match work
      case Answered(r) => Replied(r)
      case InFlight(j, Acted(o)) => Replied(Render(j.id, o))
      case InFlight(j, Finished(o)) => Replied(Render(j.id, o))
      case InFlight(j, _) => Pending(j)
    }
  }

  /** A session that ended after the first at packets were taken, and the files its
      closeAll closed, in the order it closed them. */
  datatype Hangup = Hangup(at: nat, session: nat, order: seq<nat>)

  /** What all sessions share, their tables, the packets taken, what each client
      was sent, which sessions have ended, and the driver calls made. */
  datatype State = State(w: World, ts: seq<Table>, log: seq<Entry>, out: seq<seq<Message>>, ends: seq<Hangup>,
                         calls: seq<Call>)
  {
    predicate Ended(s: nat) { exists i :: 0 <= i < |ends| && ends[i].session == s }

    /** Every reply of session s has left. */
    predicate Idle(s: nat) { forall i :: 0 <= i < |log| && log[i].session == s ==> log[i].sent }

    /** Every request of session s is over, whether or not its reply could be sent. */
    predicate Over(s: nat) { forall i :: 0 <= i < |log| && log[i].session == s ==> log[i].Ready() }
  }

  function Start(w: World, sessions: nat): State
  {
    State(w, seq(sessions, _ => map[]), [], seq(sessions, _ => []), [], [])
  }

  datatype Step =
    | Arrive(session: nat, packet: Packet)
    | Enter(k: nat)
    | Do(k: nat)
    | Leave(k: nat)
    | Send(k: nat)
    | Alone(session: nat, packet: Packet)
    | End(session: nat, order: seq<nat>)

  /** How a lock is really held: path calls share it only if the embedder says the
      driver can take it. */
  predicate Shares(cfg: Config, l: Lock) { l.Shared? || (l.PathLock? && cfg.pathConcurrent) }

  predicate LockFree(cfg: Config, st: State, l: Lock)
  {
    forall i :: 0 <= i < |st.log| && st.log[i].InDriver() ==> Shares(cfg, l) && Shares(cfg, st.log[i].work.job.lock)
  }

  /** The lock a barrier request takes around its driver calls. */
  function BarrierLock(typ: byte): Lock
  {
    if typ == FXP_STAT || typ == FXP_LSTAT || typ == FXP_FSTAT || typ == FXP_OPENDIR || typ == FXP_READDIR ||
       typ == FXP_READLINK
    then PathLock else Exclusive
  }

  /** Every earlier job that conflicts with job k has left the driver. */
  predicate Unopposed(log: seq<Entry>, k: nat)
    requires k < |log| && log[k].work.InFlight?
  {
    forall j :: 0 <= j < k && log[j].work.InFlight? && Conflict(log[j].work.job.op, log[k].work.job.op) ==>
      log[j].work.phase.Finished?
  }

  /** The world after a closeAll that closes the files in order. */
  function Closing(w: World, order: seq<nat>): World { w.(closes := w.closes + order) }

  function CloseCalls(order: seq<nat>): (calls: seq<Call>)
    ensures |calls| == |order|
  {
    seq(|order|, i requires 0 <= i < |order| => CClose(order[i]))
  }

  ghost predicate Legal(cfg: Config, st: State, step: Step)
  {
    match step
    case Arrive(s, p) => s < |st.ts| && !st.Ended(s) && Prepare(cfg, st.ts[s], p).Run?
    case Enter(k) =>
      && k < |st.log| && st.log[k].work.InFlight? && st.log[k].work.phase.Waiting?
      && Unopposed(st.log, k) && LockFree(cfg, st, st.log[k].work.job.lock)
    case Do(k) => k < |st.log| && st.log[k].work.InFlight? && st.log[k].work.phase.Running?
    case Leave(k) => k < |st.log| && st.log[k].work.InFlight? && st.log[k].work.phase.Acted?
    case Send(k) =>
      && k < |st.log| && !st.log[k].sent && st.log[k].Ready() && st.log[k].session < |st.out|
      && !st.Ended(st.log[k].session)
      && (forall j :: 0 <= j < k && st.log[j].session == st.log[k].session ==> st.log[j].sent)
    case Alone(s, p) =>
      && s < |st.ts| && !st.Ended(s) && !Prepare(cfg, st.ts[s], p).Run? && st.Idle(s)
      && (Serve(cfg, st.w, st.ts[s], p, |st.log|).calls != [] ==> LockFree(cfg, st, BarrierLock(p.typ)))
    case End(s, order) => s < |st.ts| && !st.Ended(s) && st.Over(s) && ClosesAll(st.w, st.ts[s], Closing(st.w, order))
  }

  function SetPhase(st: State, k: nat, ph: Phase): State
    requires k < |st.log| && st.log[k].work.InFlight?
  {
    st.(log := st.log[k := st.log[k].(work := InFlight(st.log[k].work.job, ph))])
  }

  function Apply(cfg: Config, st: State, step: Step): State
    requires Legal(cfg, st, step)
  {
    match step
    case Arrive(s, p) =>
      st.(log := st.log + [Entry(s, p, InFlight(Prepare(cfg, st.ts[s], p).job, Waiting), false)])
    case Enter(k) => SetPhase(st, k, Running)
    case Do(k) =>
      var (files, out) := Act(st.w.fs.files, st.log[k].work.job.op);
      SetPhase(st, k, Acted(out)).(w := WithFiles(st.w, files), calls := st.calls + [CData(st.log[k].work.job.op)])
    case Leave(k) => SetPhase(st, k, Finished(st.log[k].work.phase.out))
    case Send(k) =>
      var s := st.log[k].session;
      st.(log := st.log[k := st.log[k].(sent := true)], out := st.out[s := st.out[s] + [st.log[k].Core().reply]])
    case Alone(s, p) =>
      var r := Serve(cfg, st.w, st.ts[s], p, |st.log|);
      st.(w := r.w, ts := st.ts[s := r.t], log := st.log + [Entry(s, p, Answered(r.reply), false)],
          calls := st.calls + r.calls)
    case End(s, order) =>
      st.(w := Closing(st.w, order), ts := st.ts[s := map[]], ends := st.ends + [Hangup(|st.log|, s, order)],
          calls := st.calls + CloseCalls(order))
  }

  function Cores(log: seq<Entry>): (cs: seq<Core>)
    ensures |cs| == |log|
  {
    seq(|log|, i requires 0 <= i < |log| => log[i].Core())
  }

  // ---------- the one-at-a-time server on the same packets ----------

  datatype Serially = Serially(w: World, ts: seq<Table>, replies: seq<Message>)

  /** The packets taken one after another, and the sessions ended where they were. */
  function Serial(cfg: Config, w: World, sessions: nat, log: seq<Entry>, ends: seq<Hangup>): (r: Serially)
    ensures |r.ts| == sessions && |r.replies| == |log|
    decreases |log| + |ends|
  {
    if ends != [] && ends[|ends| - 1].at >= |log| then
      var prev, h := Serial(cfg, w, sessions, log, ends[..|ends| - 1]), ends[|ends| - 1];
      Serially(Closing(prev.w, h.order),
               if h.session < sessions then prev.ts[h.session := map[]] else prev.ts, prev.replies)
    else if log == [] then Serially(w, seq(sessions, _ => map[]), [])
    else
      var n := |log| - 1;
      var prev, e := Serial(cfg, w, sessions, log[..n], ends), log[n];
      var t := if e.session < sessions then prev.ts[e.session] else map[];
      var r := Serve(cfg, prev.w, t, e.packet, n);
      Serially(r.w, if e.session < sessions then prev.ts[e.session := r.t] else prev.ts, prev.replies + [r.reply])
  }

  /** The serial run looks only at who sent what. */
  predicate SamePackets(log: seq<Entry>, log': seq<Entry>)
  {
    |log| == |log'| &&
    forall i :: 0 <= i < |log| ==> log[i].session == log'[i].session && log[i].packet == log'[i].packet
  }

  lemma {:induction false} SerialSame(cfg: Config, w: World, sessions: nat, log: seq<Entry>, log': seq<Entry>,
                                      ends: seq<Hangup>)
    requires SamePackets(log, log')
    ensures Serial(cfg, w, sessions, log, ends) == Serial(cfg, w, sessions, log', ends)
    decreases |log| + |ends|
  {
    hide Serve;
    if ends != [] && ends[|ends| - 1].at >= |log| {
      SerialSame(cfg, w, sessions, log, log', ends[..|ends| - 1]);
    } else if log != [] {
      SerialSame(cfg, w, sessions, log[..|log| - 1], log'[..|log| - 1], ends);
    }
  }

  // ---------- what every step keeps ----------

  predicate PendingAnywhere(st: State)
  {
    exists i :: 0 <= i < |st.log| && st.log[i].Core().Pending?
  }

  /** A barrier that asks the driver about its files finds nothing pending in any
      session. Within one session the scheduler sees to that; across sessions it is
      the condition for order. */
  predicate Clear(cfg: Config, st: State, step: Step)
  {
    (step.Alone? && step.session < |st.ts| &&
     Touches(Serve(cfg, st.w, st.ts[step.session], step.packet, |st.log|).calls)) ==> !PendingAnywhere(st)
  }

  /** Shape facts: a job in or past the driver has only finished conflicts before
      it, pending READs are not empty, and what was sent was ready. */
  predicate Sound(st: State)
  {
    && WellFormed(Cores(st.log))
    && (forall k :: 0 <= k < |st.log| && st.log[k].work.InFlight? && !st.log[k].work.phase.Waiting? ==>
          Unopposed(st.log, k))
    && (forall k :: 0 <= k < |st.log| && st.log[k].sent ==> st.log[k].Ready())
  }

  lemma PreparedRead(cfg: Config, t: Table, p: Packet)
    requires Prepare(cfg, t, p).Run?
    ensures Prepare(cfg, t, p).job.op.ReadOp? ==> Prepare(cfg, t, p).job.op.n > 0
  {
    hide DecodeRead, DecodeWrite, RequestId;
  }

  lemma SoundStart(w: World, sessions: nat)
    ensures Sound(Start(w, sessions))
  {
  }

  lemma SoundStep(cfg: Config, st: State, step: Step)
    requires Sound(st) && Legal(cfg, st, step)
    ensures Sound(Apply(cfg, st, step))
  {
    hide Serve, Prepare, Act, Conflict;
    var st' := Apply(cfg, st, step);
    if step.Arrive? {
      PreparedRead(cfg, st.ts[step.session], step.packet);
    }
    assert WellFormed(Cores(st'.log)) by {
      forall i | 0 <= i < |st'.log| && Cores(st'.log)[i].Pending? && Cores(st'.log)[i].job.op.ReadOp?
        ensures Cores(st'.log)[i].job.op.n > 0
      {
        assert i < |st.log| ==> Cores(st.log)[i].Pending? && Cores(st.log)[i].job == Cores(st'.log)[i].job;
      }
    }
  }

  /** The world and the tables are those of the serial run once the pending
      requests are drained in arrival order. */
  ghost predicate Faithful(cfg: Config, w: World, sessions: nat, st: State)
  {
    var serial := Serial(cfg, w, sessions, st.log, st.ends);
    && st.ts == serial.ts && (forall i :: 0 <= i < |st.ends| ==> st.ends[i].at <= |st.log|)
    && st.w == serial.w.(fs := serial.w.fs.(files := st.w.fs.files))
    && DrainFiles(st.w.fs.files, Cores(st.log)) == serial.w.fs.files
  }

  /** So are the replies. */
  ghost predicate Answering(cfg: Config, w: World, sessions: nat, st: State)
  {
    DrainReplies(st.w.fs.files, Cores(st.log)) == Serial(cfg, w, sessions, st.log, st.ends).replies
  }

  /** A request runs only when that is quiet. */
  predicate Quiet(st: State, step: Step)
  {
    step.Do? && step.k < |st.log| && Cores(st.log)[step.k].Pending? ==>
      Quietly(st.w.fs.files, Cores(st.log), step.k)
  }

  lemma SerialNext(cfg: Config, w: World, sessions: nat, log: seq<Entry>, ends: seq<Hangup>, e: Entry)
    requires e.session < sessions && forall i :: 0 <= i < |ends| ==> ends[i].at <= |log|
    ensures var prev := Serial(cfg, w, sessions, log, ends);
            var r := Serve(cfg, prev.w, prev.ts[e.session], e.packet, |log|);
            Serial(cfg, w, sessions, log + [e], ends) ==
            Serially(r.w, prev.ts[e.session := r.t], prev.replies + [r.reply])
  {
    hide Serve;
    assert (log + [e])[..|log|] == log;
  }

  /** A barrier that finds nothing pending. */
  lemma FaithfulAsks(cfg: Config, w: World, sessions: nat, st: State, s: nat, p: Packet)
    requires Faithful(cfg, w, sessions, st) && Legal(cfg, st, Alone(s, p)) && !PendingAnywhere(st)
    ensures Faithful(cfg, w, sessions, Apply(cfg, st, Alone(s, p)))
    ensures Answering(cfg, w, sessions, st) ==> Answering(cfg, w, sessions, Apply(cfg, st, Alone(s, p)))
  {
    hide Act, Prepare, Render, Serve, Touches, LockFree;
    var serial := Serial(cfg, w, sessions, st.log, st.ends);
    var r := Serve(cfg, st.w, st.ts[s], p, |st.log|);
    var e := Entry(s, p, Answered(r.reply), false);
    SerialNext(cfg, w, sessions, st.log, st.ends, e);
    CoresAppend(st.log, e);
    DrainAppend(st.w.fs.files, Cores(st.log), Replied(r.reply));
    NothingPending(st);
    DrainSettled(st.w.fs.files, Cores(st.log));
    assert st.w == serial.w;
    DrainAppend(r.w.fs.files, Cores(st.log), Replied(r.reply));
    DrainSettled(r.w.fs.files, Cores(st.log));
    assert DrainReplies(r.w.fs.files, Cores(st.log)) == DrainReplies(st.w.fs.files, Cores(st.log));
  }

  /** A barrier that asks nothing about files. */
  lemma FaithfulBlind(cfg: Config, w: World, sessions: nat, st: State, s: nat, p: Packet)
    requires Faithful(cfg, w, sessions, st) && Legal(cfg, st, Alone(s, p))
    requires !Touches(Serve(cfg, st.w, st.ts[s], p, |st.log|).calls)
    ensures Faithful(cfg, w, sessions, Apply(cfg, st, Alone(s, p)))
    ensures Answering(cfg, w, sessions, st) ==> Answering(cfg, w, sessions, Apply(cfg, st, Alone(s, p)))
  {
    hide Act, Prepare, Render, Serve, Touches, LockFree;
    var serial := Serial(cfg, w, sessions, st.log, st.ends);
    var r := Serve(cfg, st.w, st.ts[s], p, |st.log|);
    var e := Entry(s, p, Answered(r.reply), false);
    SerialNext(cfg, w, sessions, st.log, st.ends, e);
    CoresAppend(st.log, e);
    DrainAppend(st.w.fs.files, Cores(st.log), Replied(r.reply));
    assert serial.w == WithFiles(st.w, serial.w.fs.files);
    ServeBlind(cfg, st.w, st.ts[s], p, |st.log|, serial.w.fs.files);
  }

  /** Steps that neither take a packet nor touch the files. */
  lemma SameCores(cfg: Config, st: State, step: Step)
    requires Legal(cfg, st, step) && (step.Enter? || step.Leave? || step.Send?)
    ensures var st' := Apply(cfg, st, step);
            && Cores(st'.log) == Cores(st.log) && SamePackets(st.log, st'.log)
            && st'.w == st.w && st'.ts == st.ts && st'.ends == st.ends
  {
    hide Serve, Prepare;
    assert Cores(Apply(cfg, st, step).log) == Cores(st.log);
  }

  lemma DoCores(cfg: Config, st: State, k: nat)
    requires Legal(cfg, st, Do(k))
    ensures var st', j := Apply(cfg, st, Do(k)), st.log[k].work.job;
            && Cores(st.log)[k] == Pending(j)
            && Cores(st'.log) == Cores(st.log)[k := Done(st.w.fs.files, j)]
            && SamePackets(st.log, st'.log)
            && st'.w == WithFiles(st.w, Act(st.w.fs.files, j.op).0) && st'.ts == st.ts && st'.ends == st.ends
  {
    hide Act, Serve, Prepare;
    var st', j := Apply(cfg, st, Do(k)), st.log[k].work.job;
    assert Cores(st'.log) == Cores(st.log)[k := Done(st.w.fs.files, j)];
  }

  lemma RunningUnblocked(st: State, k: nat)
    requires Sound(st) && k < |st.log| && st.log[k].work.InFlight? && st.log[k].work.phase.Running?
    ensures Cores(st.log)[k].Pending? && Unblocked(Cores(st.log), k)
  {
    hide Conflict;
    assert Unopposed(st.log, k);
    forall j | 0 <= j < k && Cores(st.log)[j].Pending?
      ensures !Conflict(Cores(st.log)[j].job.op, Cores(st.log)[k].job.op)
    {
      assert st.log[j].work.InFlight?;
    }
  }

  lemma CoresAppend(log: seq<Entry>, e: Entry)
    ensures Cores(log + [e]) == Cores(log) + [e.Core()]
  {
  }

  lemma NothingPending(st: State)
    requires !PendingAnywhere(st)
    ensures forall i :: 0 <= i < |Cores(st.log)| ==> Cores(st.log)[i].Replied?
  {
    forall i | 0 <= i < |Cores(st.log)| ensures Cores(st.log)[i].Replied? {
      assert Cores(st.log)[i] == st.log[i].Core();
    }
  }

  lemma FaithfulStart(cfg: Config, w: World, sessions: nat)
    ensures Faithful(cfg, w, sessions, Start(w, sessions)) && Answering(cfg, w, sessions, Start(w, sessions))
  {
    assert Cores([]) == [];
  }

  lemma FaithfulArrive(cfg: Config, w: World, sessions: nat, st: State, s: nat, p: Packet)
    requires Faithful(cfg, w, sessions, st) && Legal(cfg, st, Arrive(s, p))
    ensures Faithful(cfg, w, sessions, Apply(cfg, st, Arrive(s, p)))
    ensures Answering(cfg, w, sessions, st) ==> Answering(cfg, w, sessions, Apply(cfg, st, Arrive(s, p)))
  {
    hide Act, Prepare, Render, Dispatch;
    var j := Prepare(cfg, st.ts[s], p).job;
    var e := Entry(s, p, InFlight(j, Waiting), false);
    SerialNext(cfg, w, sessions, st.log, st.ends, e);
    CoresAppend(st.log, e);
    DrainAppend(st.w.fs.files, Cores(st.log), Pending(j));
    var serial := Serial(cfg, w, sessions, st.log, st.ends);
    assert serial.ts[s := serial.ts[s]] == serial.ts;
  }

  lemma FaithfulAlone(cfg: Config, w: World, sessions: nat, st: State, s: nat, p: Packet)
    requires Faithful(cfg, w, sessions, st) && Legal(cfg, st, Alone(s, p)) && Clear(cfg, st, Alone(s, p))
    ensures Faithful(cfg, w, sessions, Apply(cfg, st, Alone(s, p)))
    ensures Answering(cfg, w, sessions, st) ==> Answering(cfg, w, sessions, Apply(cfg, st, Alone(s, p)))
  {
    hide Act, Prepare, Render, Serve, Touches, LockFree, Serial, Faithful, Answering, PendingAnywhere;
    if Touches(Serve(cfg, st.w, st.ts[s], p, |st.log|).calls) {
      FaithfulAsks(cfg, w, sessions, st, s, p);
    } else {
      FaithfulBlind(cfg, w, sessions, st, s, p);
    }
  }

  lemma FaithfulEnd(cfg: Config, w: World, sessions: nat, st: State, s: nat, order: seq<nat>)
    requires Faithful(cfg, w, sessions, st) && Legal(cfg, st, End(s, order))
    ensures Faithful(cfg, w, sessions, Apply(cfg, st, End(s, order)))
    ensures Answering(cfg, w, sessions, st) ==> Answering(cfg, w, sessions, Apply(cfg, st, End(s, order)))
  {
    hide Serve, ClosesAll, DrainFiles, DrainReplies, Cores, Serial, Prepare, LockFree, Unopposed;
    SerialEnd(cfg, w, sessions, st.log, st.ends, Hangup(|st.log|, s, order));
  }

  lemma SerialEnd(cfg: Config, w: World, sessions: nat, log: seq<Entry>, ends: seq<Hangup>, h: Hangup)
    requires h.at == |log| && h.session < sessions
    ensures var prev := Serial(cfg, w, sessions, log, ends);
            Serial(cfg, w, sessions, log, ends + [h]) ==
            Serially(Closing(prev.w, h.order), prev.ts[h.session := map[]], prev.replies)
  {
    hide Serve;
    assert (ends + [h])[..|ends|] == ends;
  }

  lemma FaithfulStep(cfg: Config, w: World, sessions: nat, st: State, step: Step)
    requires Sound(st) && Faithful(cfg, w, sessions, st) && Legal(cfg, st, step) && Clear(cfg, st, step)
    ensures Faithful(cfg, w, sessions, Apply(cfg, st, step))
    ensures Answering(cfg, w, sessions, st) && Quiet(st, step) ==> Answering(cfg, w, sessions, Apply(cfg, st, step))
  {
    hide Act, Prepare, Render, Serve, Serial, Conflict, Unblocked, Quietly, Cores;
    var st' := Apply(cfg, st, step);
    match step
    case Arrive(s, p) => FaithfulArrive(cfg, w, sessions, st, s, p);
    case Alone(s, p) => FaithfulAlone(cfg, w, sessions, st, s, p);
    case End(s, order) => FaithfulEnd(cfg, w, sessions, st, s, order);
    case Do(k) =>
      DoCores(cfg, st, k);
      RunningUnblocked(st, k);
      var j := st.log[k].work.job;
      EarlyFiles(st.w.fs.files, Cores(st.log), k, Done(st.w.fs.files, j).reply);
      SerialSame(cfg, w, sessions, st.log, st'.log, st.ends);
      if Quiet(st, step) {
        EarlyReplies(st.w.fs.files, Cores(st.log), k);
      }
    case _ =>
      SameCores(cfg, st, step);
      SerialSame(cfg, w, sessions, st.log, st'.log, st.ends);
  }
}

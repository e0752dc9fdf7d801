/** What every packet may do, for every state of every run of the concurrent
    server: quiet or not, with or without barriers beside pending requests, and
    with sessions ending. */
module PoolSafety {
  import opened Bytes
  import opened Messages
  import opened Packets
  import opened DataOps
  import opened Paths
  import opened Server
  import opened Safety
  import opened Lifecycle
  import opened Pool
  import opened Runs

  // ---------- ids ----------

  function IdOf(e: Entry): uint32 { RequestId(e.packet.payload) }

  /** Every entry is answered, or will be, under its packet's own id. */
  predicate Addressed(st: State)
  {
    forall i :: 0 <= i < |st.log| ==>
      match st.log[i].work
      case Answered(r) => Answers(r, IdOf(st.log[i]))
      case InFlight(j, _) => j.id == IdOf(st.log[i])
  }

  lemma PreparedId(cfg: Config, t: Table, p: Packet)
    requires Prepare(cfg, t, p).Run?
    ensures Prepare(cfg, t, p).job.id == RequestId(p.payload)
  {
    ReadWriteId(p);
    hide DecodeRead, DecodeWrite, RequestId;
  }

  lemma ReadWriteId(p: Packet)
    ensures p.typ == FXP_READ && DecodeRead(p.payload).Got? ==> DecodeRead(p.payload).value.id == RequestId(p.payload)
    ensures p.typ == FXP_WRITE && DecodeWrite(p.payload).Got? ==>
          DecodeWrite(p.payload).value.id == RequestId(p.payload)
  {
    if p.typ == FXP_READ || p.typ == FXP_WRITE {
      assert Decode(FXP_READ, p.payload) == Some(DecodeRead(p.payload));
      assert Decode(FXP_WRITE, p.payload) == Some(DecodeWrite(p.payload));
      hide DecodeRead, DecodeWrite, Decode;
      if Decode(p.typ, p.payload).value.Got? {
        DecodedId(p.typ, p.payload);
      }
    }
  }

  lemma AddressedStep(cfg: Config, st: State, step: Step)
    requires Legal(cfg, st, step) && Addressed(st)
    ensures Addressed(Apply(cfg, st, step))
  {
    hide Serve, Prepare, Act, Unopposed, LockFree, ClosesAll, RequestId, Answers;
    match step
    case Arrive(s, p) => PreparedId(cfg, st.ts[s], p);
    case Alone(s, p) => ReplyCarriesId(cfg, st.w, st.ts[s], p, |st.log|);
    case _ =>
  }

  /** The ids of what session s asked, in order. */
  function Asked(log: seq<Entry>, s: nat): seq<uint32>
  {
    if log == [] then []
    else
      var n := |log| - 1;
      var earlier := Asked(log[..n], s);
      if log[n].session == s then earlier + [IdOf(log[n])] else earlier
  }

  /** rs answers the first of ids, one by one. */
  predicate AnswersFirst(rs: seq<Message>, ids: seq<uint32>)
  {
    |rs| <= |ids| && forall i :: 0 <= i < |rs| ==> Answers(rs[i], ids[i])
  }

  lemma {:induction false} SentAnswers(log: seq<Entry>, s: nat)
    requires forall i :: 0 <= i < |log| && log[i].Core().Replied? ==> Answers(log[i].Core().reply, IdOf(log[i]))
    requires forall j, k :: 0 <= j < k < |log| && log[j].session == log[k].session && log[k].sent ==> log[j].sent
    requires forall k :: 0 <= k < |log| && log[k].sent ==> log[k].Core().Replied?
    ensures AnswersFirst(SentTo(log, s), Asked(log, s))
    ensures (forall i :: 0 <= i < |log| && log[i].session == s ==> log[i].sent) ==> |SentTo(log, s)| == |Asked(log, s)|
  {
    hide Answers, RequestId;
    if log != [] {
      SentAnswers(log[..|log| - 1], s);
    }
  }

  /** In every state of every run, each client has been sent replies to its first
      requests, one each, in order, under their ids; to all of them once none is
      left to send. */
  lemma StreamIds(cfg: Config, w: World, sessions: nat, steps: seq<Step>)
    requires LegalRun(cfg, Start(w, sessions), steps)
    ensures var st := After(cfg, Start(w, sessions), steps);
            forall s :: 0 <= s < |st.out| ==>
              && AnswersFirst(st.out[s], Asked(st.log, s))
              && (st.Idle(s) ==> |st.out[s]| == |Asked(st.log, s)|)
  {
    hide After, LegalRun, Start, AnswersFirst, Answers, SentTo, Asked, RequestId, Render;
    RunAddressed(cfg, w, sessions, steps);
    RunInOrder(cfg, w, sessions, steps);
    var st := After(cfg, Start(w, sessions), steps);
    forall i | 0 <= i < |st.log| && st.log[i].Core().Replied? ensures Answers(st.log[i].Core().reply, IdOf(st.log[i])) {
      RenderAnswers(st.log[i]);
    }
    forall s | 0 <= s < |st.out|
      ensures AnswersFirst(st.out[s], Asked(st.log, s)) && (st.Idle(s) ==> |st.out[s]| == |Asked(st.log, s)|)
    {
      SentAnswers(st.log, s);
    }
  }

  lemma RenderAnswers(e: Entry)
    ensures e.work.InFlight? && e.Core().Replied? ==> Answers(e.Core().reply, e.work.job.id)
  {
  }

  lemma {:induction false} RunAddressed(cfg: Config, w: World, sessions: nat, steps: seq<Step>)
    requires LegalRun(cfg, Start(w, sessions), steps)
    ensures Addressed(After(cfg, Start(w, sessions), steps))
  {
    hide *;
    if steps == [] {
      NoSteps(cfg, Start(w, sessions));
      StartSafe(cfg, w, sessions);
    } else {
      var n := |steps| - 1;
      LastStep(cfg, Start(w, sessions), steps);
      RunAddressed(cfg, w, sessions, steps[..n]);
      AddressedStep(cfg, After(cfg, Start(w, sessions), steps[..n]), steps[n]);
    }
  }

  lemma StartSafe(cfg: Config, w: World, sessions: nat)
    ensures Addressed(Start(w, sessions)) && Frozen(Start(w, sessions), w) && Confined(cfg, Start(w, sessions))
  {
  }

  // ---------- a read-only export ----------

  /** Nothing has been written and nothing can be. */
  predicate Frozen(st: State, w: World)
  {
    && st.w.fs == w.fs && NoMutation(st.calls)
    && (forall s :: 0 <= s < |st.ts| ==> NoWriters(st.ts[s]))
    && (forall i :: 0 <= i < |st.log| && st.log[i].work.InFlight? ==> st.log[i].work.job.op.ReadOp?)
  }

  lemma ReadOnlyJob(cfg: Config, t: Table, p: Packet)
    requires cfg.ro && Prepare(cfg, t, p).Run?
    ensures Prepare(cfg, t, p).job.op.ReadOp?
  {
    hide DecodeRead, DecodeWrite, RequestId;
  }

  lemma FrozenStep(cfg: Config, st: State, step: Step, w: World)
    requires cfg.ro && Legal(cfg, st, step) && Frozen(st, w)
    ensures Frozen(Apply(cfg, st, step), w)
  {
    hide Serve, Prepare, Unopposed, LockFree, ClosesAll;
    match step
    case Arrive(s, p) => ReadOnlyJob(cfg, st.ts[s], p);
    case Alone(s, p) => ServeReadOnly(cfg, st.w, st.ts[s], p, |st.log|);
    case Do(k) => ActGrows(st.w.fs.files, st.log[k].work.job.op);
    case _ =>
  }

  /** In every state of every run on a read-only export the filesystem is the one it
      started with, the driver was never asked for a mutation, and no handle and no
      job could ask for one. */
  lemma {:induction false} PoolReadOnly(cfg: Config, w: World, sessions: nat, steps: seq<Step>)
    requires cfg.ro && LegalRun(cfg, Start(w, sessions), steps)
    ensures Frozen(After(cfg, Start(w, sessions), steps), w)
  {
    hide *;
    if steps == [] {
      NoSteps(cfg, Start(w, sessions));
      StartSafe(cfg, w, sessions);
    } else {
      var n := |steps| - 1;
      LastStep(cfg, Start(w, sessions), steps);
      PoolReadOnly(cfg, w, sessions, steps[..n]);
      FrozenStep(cfg, After(cfg, Start(w, sessions), steps[..n]), steps[n], w);
    }
  }

  // ---------- canonical paths ----------

  predicate NoneStray(cfg: Config, log: seq<Entry>) { forall i :: 0 <= i < |log| ==> !Stray(cfg, log[i].packet) }

  /** Every path behind a handle and in a job is canonical, and every path handed to
      the driver is, if and only if no path SETSTAT strayed. */
  predicate Confined(cfg: Config, st: State)
  {
    && (forall s :: 0 <= s < |st.ts| ==> TableCanonical(st.ts[s]))
    && (forall i :: 0 <= i < |st.log| && st.log[i].work.InFlight? ==> Canonical(st.log[i].work.job.op.path))
    && (AllCanonical(st.calls) <==> NoneStray(cfg, st.log))
  }

  lemma CanonicalJob(cfg: Config, t: Table, p: Packet)
    requires TableCanonical(t) && Prepare(cfg, t, p).Run?
    ensures Canonical(Prepare(cfg, t, p).job.op.path) && !Stray(cfg, p)
  {
    hide DecodeRead, DecodeWrite, RequestId, Canonical, Stray;
    OnlySetstatStrays(cfg, p);
  }

  /** One packet served alone. */
  lemma AloneConfined(cfg: Config, w: World, t: Table, p: Packet, nonce: nat)
    requires TableCanonical(t)
    ensures var r := Serve(cfg, w, t, p, nonce); TableCanonical(r.t) && (AllCanonical(r.calls) <==> !Stray(cfg, p))
  {
    hide Serve, Stray, TableCanonical, AllCanonical;
    if p.typ == FXP_SETSTAT {
      ServeSetstat(cfg, w, t, p, nonce);
    } else {
      ServeCanonical(cfg, w, t, p, nonce);
      OnlySetstatStrays(cfg, p);
    }
  }

  lemma ConfinedStep(cfg: Config, st: State, step: Step)
    requires Legal(cfg, st, step) && Confined(cfg, st)
    ensures Confined(cfg, Apply(cfg, st, step))
  {
    hide Serve, Prepare, Act, Unopposed, LockFree, ClosesAll, Stray, Canonical, AllCanonical;
    var st' := Apply(cfg, st, step);
    match step
    case Arrive(s, p) =>
      CanonicalJob(cfg, st.ts[s], p);
      StrayAppend(cfg, st.log, st'.log[|st.log|]);
    case Alone(s, p) =>
      AloneConfined(cfg, st.w, st.ts[s], p, |st.log|);
      BothCanonical(st.calls, Serve(cfg, st.w, st.ts[s], p, |st.log|).calls);
      StrayAppend(cfg, st.log, st'.log[|st.log|]);
    case Do(k) =>
      SameStray(cfg, st.log, st'.log);
      DataCanonical(st.log[k].work.job.op);
      BothCanonical(st.calls, [CData(st.log[k].work.job.op)]);
    case End(_, order) =>
      ClosesCanonical(order);
      BothCanonical(st.calls, CloseCalls(order));
    case _ => SameStray(cfg, st.log, st'.log);
  }

  lemma StrayAppend(cfg: Config, log: seq<Entry>, e: Entry)
    ensures NoneStray(cfg, log + [e]) <==> NoneStray(cfg, log) && !Stray(cfg, e.packet)
  {
    hide Stray;
    assert (log + [e])[|log|] == e;
    assert forall i :: 0 <= i < |log| ==> (log + [e])[i] == log[i];
  }

  lemma SameStray(cfg: Config, log: seq<Entry>, log': seq<Entry>)
    requires SamePackets(log, log')
    ensures NoneStray(cfg, log) <==> NoneStray(cfg, log')
  {
    hide Stray;
  }

  lemma DataCanonical(op: Op)
    requires Canonical(op.path)
    ensures AllCanonical([CData(op)])
  {
  }

  lemma ClosesCanonical(order: seq<nat>)
    ensures AllCanonical(CloseCalls(order))
  {
  }

  /** In every state of every run. */
  lemma {:induction false} PoolCanonical(cfg: Config, w: World, sessions: nat, steps: seq<Step>)
    requires LegalRun(cfg, Start(w, sessions), steps)
    ensures Confined(cfg, After(cfg, Start(w, sessions), steps))
  {
    hide *;
    if steps == [] {
      NoSteps(cfg, Start(w, sessions));
      StartSafe(cfg, w, sessions);
    } else {
      var n := |steps| - 1;
      LastStep(cfg, Start(w, sessions), steps);
      PoolCanonical(cfg, w, sessions, steps[..n]);
      ConfinedStep(cfg, After(cfg, Start(w, sessions), steps[..n]), steps[n]);
    }
  }
}

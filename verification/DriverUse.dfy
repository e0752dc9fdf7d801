/** What the concurrent server promises the driver: jobs inside it never conflict,
    the lock is respected, and no job uses a file that has been closed. */
module DriverUse {
  import opened Bytes
  import opened Codec
  import opened Messages
  import opened Packets
  import opened Paths
  import opened DataOps
  import opened Server
  import opened Safety
  import opened Lifecycle
  import opened Pool
  import opened Runs
  import Directory

  /** Two jobs inside the driver at once do not conflict, and both hold the lock in
      a way that may be shared. */
  predicate Excludes(cfg: Config, st: State)
  {
    forall i, j :: 0 <= i < j < |st.log| && st.log[i].InDriver() && st.log[j].InDriver() ==>
      && !Conflict(st.log[i].work.job.op, st.log[j].work.job.op)
      && Shares(cfg, st.log[i].work.job.lock) && Shares(cfg, st.log[j].work.job.lock)
  }

  /** A job that is not over uses a file its own session's table holds. */
  ghost predicate Owned(st: State)
  {
    forall k :: 0 <= k < |st.log| && st.log[k].work.InFlight? && !st.log[k].Ready() && st.log[k].work.job.file.Some? ==>
      st.log[k].session < |st.ts| && HasFile(st.ts[st.log[k].session], st.log[k].work.job.file.value)
  }

  ghost predicate HasFile(t: Table, f: nat) { exists tok :: HeldFile(t, tok) == Some(f) }

  lemma PreparedFile(cfg: Config, t: Table, p: Packet)
    requires Prepare(cfg, t, p).Run? && Prepare(cfg, t, p).job.file.Some?
    ensures HasFile(t, Prepare(cfg, t, p).job.file.value)
  {
    hide DecodeRead, DecodeWrite, RequestId;
    var d := if p.typ == FXP_READ then DecodeRead(p.payload) else DecodeWrite(p.payload);
    assert HeldFile(t, d.value.handle) == Prepare(cfg, t, p).job.file;
  }

  lemma LocksStep(cfg: Config, st: State, step: Step)
    requires Legal(cfg, st, step) && Sound(st) && Excludes(cfg, st)
    ensures Excludes(cfg, Apply(cfg, st, step))
  {
    hide Serve, Prepare, Act, Conflict, Shares, ClosesAll;
    SoundStep(cfg, st, step);
    var st' := Apply(cfg, st, step);
    forall i, j | 0 <= i < j < |st'.log| && st'.log[i].InDriver() && st'.log[j].InDriver()
      ensures !Conflict(st'.log[i].work.job.op, st'.log[j].work.job.op)
      ensures Shares(cfg, st'.log[i].work.job.lock) && Shares(cfg, st'.log[j].work.job.lock)
    {
      assert Unopposed(st'.log, j);
      assert j < |st.log| && st.log[i].work.InFlight? && st.log[j].work.InFlight?;
      assert step.Enter? && step.k == i ==> st.log[j].InDriver();
      assert step.Enter? && step.k == j ==> st.log[i].InDriver();
    }
  }

  lemma OwnedStep(cfg: Config, st: State, step: Step)
    requires Legal(cfg, st, step) && Sound(st) && Owned(st)
    ensures Owned(Apply(cfg, st, step))
  {
    hide Serve, Prepare, Act, Cores, Unopposed, LockFree, HasFile, ClosesAll;
    if step.Arrive? && Prepare(cfg, st.ts[step.session], step.packet).job.file.Some? {
      PreparedFile(cfg, st.ts[step.session], step.packet);
    }
  }

  // ---------- the driver's files ----------

  /** Every step keeps driver files sane, whatever tokens are given out. */
  lemma SaneStep(cfg: Config, st: State, step: Step)
    requires Legal(cfg, st, step) && Sane(st.w, st.ts)
    ensures Sane(Apply(cfg, st, step).w, Apply(cfg, st, step).ts)
  {
    hide Serve, Prepare, Act, Unopposed, LockFree, Moves, HeldFile, ClosesAll;
    match step
    case Alone(s, p) =>
      var r := Serve(cfg, st.w, st.ts[s], p, |st.log|);
      ServeAccounted(cfg, st.w, st.ts[s], p, |st.log|);
      var e :| Moves(st.w, st.ts[s], r.w, r.t, e);
      SaneMoves(st.w, st.ts, s, r.w, r.t, e);
    case End(s, order) => SaneEnds(st.w, st.ts, s, Closing(st.w, order));
    case _ =>
  }

  /** A session whose requests are over can end, whatever jobs of other sessions are
      in the driver: closing its files takes no lock. */
  lemma EndsUnlocked(cfg: Config, st: State, s: nat) returns (order: seq<nat>)
    requires Sane(st.w, st.ts) && s < |st.ts| && !st.Ended(s) && st.Over(s)
    ensures Legal(cfg, st, End(s, order))
  {
    SaneBelow(st.w, st.ts, s);
    order := OrderExists(st.ts[s]);
    assert (st.w.closes + order)[|st.w.closes|..] == order;
  }

  // ---------- which closes hold the lock ----------

  predicate ClosesAny(calls: seq<Call>) { exists i :: 0 <= i < |calls| && calls[i].CClose? }

  lemma {:induction false} EntryCallsKeepOpen(h: OpenFile, lo: nat, hi: nat)
    ensures !ClosesAny(EntryCalls(h, lo, hi))
    decreases hi - lo
  {
    if lo < hi {
      EntryCallsKeepOpen(h, lo + 1, hi);
    }
  }

  lemma ChangeAllKeepsOpen(cfg: Config, w: World, t: Table, id: uint32, calls: seq<Call>, fallback: uint32, nonce: nat)
    requires !ClosesAny(calls)
    ensures !ClosesAny(ChangeAll(cfg, w, t, id, calls, fallback, nonce).calls)
  {
    hide Changes;
    ChangesPrefix(cfg, w.fs, calls, nonce);
  }

  lemma SetstatKeepsOpen(cfg: Config, w: World, t: Table, id: uint32, path: bytes, a: Attributes, nonce: nat)
    ensures !ClosesAny(OpSetstat(cfg, w, t, id, path, a, nonce).calls)
  {
    hide Has, ChangeAll;
    ChangeAllKeepsOpen(cfg, w, t, id, SetstatCalls(cfg, path, a), FAILURE, nonce);
  }

  lemma OneChangeKeepsOpen(cfg: Config, w: World, t: Table, m: Message, nonce: nat)
    requires || (m.PathRequest? && m.kind !in {FXP_LSTAT, FXP_STAT, FXP_OPENDIR, FXP_REALPATH, FXP_READLINK})
             || m.Rename? || m.Symlink? || (m.Setstat? && m.kind != FXP_SETSTAT)
    ensures !ClosesAny(Perform(cfg, w, t, m, nonce).calls)
  {
    hide Clean, ChangeAll, ClosesAny;
    forall c: Call, fallback: uint32 | !ClosesAny([c])
      ensures !ClosesAny(ChangeAll(cfg, w, t, m.id, [c], fallback, nonce).calls)
    {
      ChangeAllKeepsOpen(cfg, w, t, m.id, [c], fallback, nonce);
    }
    NothingCloses();
  }

  lemma NothingCloses()
    ensures !ClosesAny([]) && forall c: Call :: ClosesAny([c]) ==> c.CClose?
  {
  }

  lemma LookKeepsOpen(cfg: Config, w: World, t: Table, m: Message, nonce: nat)
    requires (m.PathRequest? && m.kind in {FXP_LSTAT, FXP_STAT, FXP_OPENDIR, FXP_REALPATH, FXP_READLINK}) || m.Extended?
    ensures !ClosesAny(Perform(cfg, w, t, m, nonce).calls)
  {
    hide Clean, AttrsFromStat, DecodeCopy, CopyCount, CopyInto, CopyRefusal, Full, Ascii, ErrReply, Answers;
  }

  /** Only OPEN and CLOSE make the driver close a file. */
  lemma PerformKeepsOpen(cfg: Config, w: World, t: Table, m: Message, nonce: nat)
    requires !m.Open? && !(m.HandleRequest? && m.kind == FXP_CLOSE)
    ensures !ClosesAny(Perform(cfg, w, t, m, nonce).calls)
  {
    hide OpSetstat, OpExtended, OpMkdir, OpRemove, OpRename, OpSymlink, OpReadlink, OpRealpath, OpOpendir, ClosesAny;
    NothingCloses();
    match m
    case HandleRequest(kind, id, tok) =>
      if kind != FXP_FSTAT && tok in t {
        var h := t[tok];
        EntryCallsKeepOpen(h, h.pos, Directory.Page(Shown(cfg, w.fs, h, nonce), h.pos, |h.entries|).0);
      }
    case PathRequest(kind, _, _) =>
      if kind in {FXP_LSTAT, FXP_STAT, FXP_OPENDIR, FXP_REALPATH, FXP_READLINK} {
        LookKeepsOpen(cfg, w, t, m, nonce);
      } else {
        OneChangeKeepsOpen(cfg, w, t, m, nonce);
      }
    case Setstat(kind, id, path, a) =>
      if kind == FXP_SETSTAT {
        SetstatKeepsOpen(cfg, w, t, id, path, a, nonce);
      } else {
        OneChangeKeepsOpen(cfg, w, t, m, nonce);
      }
    case Fsetstat(id, tok, a) =>
      if tok in t {
        SetstatKeepsOpen(cfg, w, t, id, t[tok].path, a, nonce);
      }
    case Rename(_, _, _) => OneChangeKeepsOpen(cfg, w, t, m, nonce);
    case Symlink(_, _, _) => OneChangeKeepsOpen(cfg, w, t, m, nonce);
    case Extended(_, _, _) => LookKeepsOpen(cfg, w, t, m, nonce);
    case _ =>
  }

  /** A packet that makes the driver close a file takes the lock exclusively. */
  lemma ClosesExclusively(cfg: Config, w: World, t: Table, p: Packet, nonce: nat)
    requires !Prepare(cfg, t, p).Run? && ClosesAny(Serve(cfg, w, t, p, nonce).calls)
    ensures BarrierLock(p.typ) == Exclusive
  {
    hide Perform, ClosesAny, RequestId, DecodeRead, DecodeWrite, DecodeOpen, DecodePath, DecodeHandle, DecodeSetstat,
      DecodeFsetstat, DecodeRename, DecodeSymlink, DecodeExtended;
    NothingCloses();
    var d := Decode(p.typ, p.payload);
    if IsBarrierType(p.typ) && d.Some? && d.value.Got? {
      var m := d.value.value;
      DecodedKind(p.typ, p.payload);
      if !m.Open? && !(m.HandleRequest? && m.kind == FXP_CLOSE) {
        PerformKeepsOpen(cfg, w, t, m, nonce);
      }
    }
  }

  /** An OPEN comes out of a packet of its own type, and so does a CLOSE. */
  lemma DecodedKind(typ: byte, b: bytes)
    requires IsBarrierType(typ) && Decode(typ, b).Some? && Decode(typ, b).value.Got?
    ensures var m := Decode(typ, b).value.value;
            (m.Open? ==> typ == FXP_OPEN) && (m.HandleRequest? ==> m.kind == typ)
  {
    hide TakeU32, TakeU64, TakeStr, TakeAttrs;
  }

  /** A step of session s in which the driver is asked to close a file. */
  predicate ClosesIn(cfg: Config, st: State, s: nat, step: Step)
  {
    match step
    case Alone(s', p) => s' == s < |st.ts| && ClosesAny(Serve(cfg, st.w, st.ts[s], p, |st.log|).calls)
    case End(s', order) => s' == s && order != []
    case _ => false
  }

  predicate Busy(st: State) { exists i :: 0 <= i < |st.log| && st.log[i].InDriver() }

  ghost predicate MayClose(cfg: Config, st: State, s: nat)
  {
    exists step :: Legal(cfg, st, step) && ClosesIn(cfg, st, s, step)
  }

  /** A file closed while some job is in the driver is closed by the end of a session,
      never by a request. */
  lemma ClosesLocked(cfg: Config, st: State, s: nat, step: Step)
    requires Legal(cfg, st, step) && ClosesIn(cfg, st, s, step) && Busy(st)
    ensures step.End?
  {
    hide Serve, Prepare, ClosesAny, ClosesAll;
    if step.Alone? {
      NothingCloses();
      ClosesExclusively(cfg, st.w, st.ts[s], step.packet, |st.log|);
    }
  }

  /** While some job is in the driver a session can have a file closed if and only if
      it can end and holds one: closes made by requests hold the lock exclusively,
      closes at the end of a session hold none. */
  lemma ClosesExactly(cfg: Config, st: State, s: nat)
    requires Sane(st.w, st.ts) && s < |st.ts| && Busy(st)
    ensures MayClose(cfg, st, s) <==> !st.Ended(s) && st.Over(s) && exists f :: HasFile(st.ts[s], f)
  {
    hide Serve, Prepare, HeldFile, ClosesAny, Sane, LockFree, Busy;
    if MayClose(cfg, st, s) {
      var step :| Legal(cfg, st, step) && ClosesIn(cfg, st, s, step);
      ClosesLocked(cfg, st, s, step);
      assert (st.w.closes + step.order)[|st.w.closes|..] == step.order;
      assert step.order[0] in step.order;
      assert HasFile(st.ts[s], step.order[0]);
    } else if !st.Ended(s) && st.Over(s) && exists f :: HasFile(st.ts[s], f) {
      var order := EndsUnlocked(cfg, st, s);
      var f :| HasFile(st.ts[s], f);
      assert (st.w.closes + order)[|st.w.closes|..] == order;
      assert f in order;
      assert ClosesIn(cfg, st, s, End(s, order));
    }
  }

  /** The step does not store a token over a handle that owns a file. */
  predicate Spares(cfg: Config, st: State, step: Step)
  {
    step.Alone? && step.session < |st.ts| ==>
      !StoresOver(cfg, st.w, st.ts[step.session], step.packet, |st.log|)
  }

  lemma LifeStep(cfg: Config, st: State, step: Step)
    requires Legal(cfg, st, step) && Life(st.w, st.ts) && Spares(cfg, st, step)
    ensures Life(Apply(cfg, st, step).w, Apply(cfg, st, step).ts)
  {
    hide Serve, Prepare, Act, Unopposed, LockFree, Moves, HeldFile, ClosesAll, StoresOver, Sane;
    match step
    case Alone(s, p) =>
      var r := Serve(cfg, st.w, st.ts[s], p, |st.log|);
      SaneBelow(st.w, st.ts, s);
      var e := ServeMoves(cfg, st.w, st.ts[s], p, |st.log|);
      LifeMoves(st.w, st.ts, s, r.w, r.t, e);
    case End(s, order) => LifeEnds(st.w, st.ts, s, Closing(st.w, order));
    case _ => SaneStep(cfg, st, step);
  }

  lemma LeakStep(cfg: Config, st: State, step: Step, f: nat)
    requires Legal(cfg, st, step) && Leaked(st.w, st.ts, f)
    ensures Leaked(Apply(cfg, st, step).w, Apply(cfg, st, step).ts, f)
  {
    hide Serve, Prepare, Act, Unopposed, LockFree, Moves, HeldFile, ClosesAll, Held;
    match step
    case Alone(s, p) =>
      var r := Serve(cfg, st.w, st.ts[s], p, |st.log|);
      ServeAccounted(cfg, st.w, st.ts[s], p, |st.log|);
      var e :| Moves(st.w, st.ts[s], r.w, r.t, e);
      LeakStays(st.w, st.ts, s, r.w, r.t, e, f);
    case End(s, order) => LeakSurvivesEnd(st.w, st.ts, s, Closing(st.w, order), f);
    case _ =>
  }

  lemma StoreLeaks(cfg: Config, st: State, step: Step) returns (f: nat)
    requires Legal(cfg, st, step) && Sane(st.w, st.ts) && !Spares(cfg, st, step)
    ensures Leaked(Apply(cfg, st, step).w, Apply(cfg, st, step).ts, f)
  {
    hide Serve, Prepare, Act, Unopposed, LockFree, Moves, HeldFile, StoresOver, Sane, Leaked;
    var s, p := step.session, step.packet;
    var t, r := st.ts[s], Serve(cfg, st.w, st.ts[s], p, |st.log|);
    SaneBelow(st.w, st.ts, s);
    var e := ServeMoves(cfg, st.w, t, p, |st.log|);
    ReplacesHeld(st.w, t, r.w, r.t, e);
    f := HeldFile(t, e.tok).value;
    ReplaceLeaks(st.w, st.ts, s, r.w, r.t, e);
  }

  ghost predicate SparesRun(cfg: Config, st: State, steps: seq<Step>)
  {
    forall n :: 0 <= n < |steps| ==> Spares(cfg, After(cfg, st, steps[..n]), steps[n])
  }

  lemma SparesPrefix(cfg: Config, st: State, steps: seq<Step>)
    requires steps != []
    ensures var n := |steps| - 1;
            SparesRun(cfg, st, steps) <==>
            SparesRun(cfg, st, steps[..n]) && Spares(cfg, After(cfg, st, steps[..n]), steps[n])
  {
    hide After, Spares;
    var n := |steps| - 1;
    assert forall i :: 0 <= i < n ==> steps[..n][..i] == steps[..i] && steps[..n][i] == steps[i];
  }

  // ---------- whole runs ----------

  lemma {:induction false} RunContract(cfg: Config, w: World, sessions: nat, steps: seq<Step>)
    requires LegalRun(cfg, Start(w, sessions), steps) && Sane(w, Start(w, sessions).ts)
    ensures var st := After(cfg, Start(w, sessions), steps);
            Sound(st) && Excludes(cfg, st) && Owned(st) && Sane(st.w, st.ts)
  {
    hide *;
    var st0 := Start(w, sessions);
    if steps == [] {
      NoSteps(cfg, st0);
      StartContract(cfg, w, sessions);
      StartIs(w, sessions);
    } else {
      var n := |steps| - 1;
      LastStep(cfg, st0, steps);
      RunContract(cfg, w, sessions, steps[..n]);
      var prev := After(cfg, st0, steps[..n]);
      SoundStep(cfg, prev, steps[n]);
      LocksStep(cfg, prev, steps[n]);
      OwnedStep(cfg, prev, steps[n]);
      SaneStep(cfg, prev, steps[n]);
    }
  }

  lemma StartContract(cfg: Config, w: World, sessions: nat)
    ensures Sound(Start(w, sessions)) && Excludes(cfg, Start(w, sessions)) && Owned(Start(w, sessions))
  {
    SoundStart(w, sessions);
  }

  ghost predicate SomeLeak(st: State) { exists f :: Leaked(st.w, st.ts, f) }

  lemma {:induction false} RunLedger(cfg: Config, w: World, sessions: nat, steps: seq<Step>)
    requires LegalRun(cfg, Start(w, sessions), steps) && Life(w, Start(w, sessions).ts)
    ensures var st := After(cfg, Start(w, sessions), steps);
            if SparesRun(cfg, Start(w, sessions), steps) then Life(st.w, st.ts) else SomeLeak(st)
  {
    hide Life, Legal, Apply, Spares, SparesRun, Leaked, Sane, Start, After, LegalRun;
    var st0 := Start(w, sessions);
    if steps == [] {
      NoSteps(cfg, st0);
      NothingSpared(cfg, st0);
      StartIs(w, sessions);
    } else {
      var n := |steps| - 1;
      LastStep(cfg, st0, steps);
      SparesPrefix(cfg, st0, steps);
      RunLedger(cfg, w, sessions, steps[..n]);
      var prev := After(cfg, st0, steps[..n]);
      if !SparesRun(cfg, st0, steps[..n]) {
        var f :| Leaked(prev.w, prev.ts, f);
        LeakStep(cfg, prev, steps[n], f);
      } else if Spares(cfg, prev, steps[n]) {
        LifeStep(cfg, prev, steps[n]);
      } else {
        LifeIsSane(prev.w, prev.ts);
        var f := StoreLeaks(cfg, prev, steps[n]);
      }
    }
  }

  lemma NothingSpared(cfg: Config, st: State)
    ensures SparesRun(cfg, st, [])
  {
  }

  lemma StartIs(w: World, sessions: nat)
    ensures Start(w, sessions).w == w
  {
  }

  lemma LeakUnbalances(st: State)
    requires SomeLeak(st)
    ensures !Life(st.w, st.ts)
  {
    hide Sane, Held;
    var f :| Leaked(st.w, st.ts, f);
  }

  /** The entry is a job inside the driver, on a file the driver opened. */
  predicate UsesFile(e: Entry) { e.InDriver() && e.work.job.file.Some? }

  /** In every state of every run, whatever tokens are given out and whichever
      sessions have ended: two jobs in the driver never conflict and share the
      lock; no file was closed twice; a job in the driver uses no closed file;
      and once all of a session's requests are over, no job in the driver uses a
      file of its table, so that ending the session is safe. The ledger of driver
      files balances if and only if no token was stored over a live file. */
  lemma DriverSafety(cfg: Config, w: World, sessions: nat, steps: seq<Step>)
    requires LegalRun(cfg, Start(w, sessions), steps) && Sane(w, Start(w, sessions).ts)
    ensures var st := After(cfg, Start(w, sessions), steps);
            && Excludes(cfg, st) && Sane(st.w, st.ts)
            && (forall k :: 0 <= k < |st.log| && UsesFile(st.log[k]) ==> st.log[k].work.job.file.value !in st.w.closes)
            && (forall s, k :: 0 <= s < |st.ts| && st.Over(s) && 0 <= k < |st.log| && UsesFile(st.log[k]) ==>
                  !HasFile(st.ts[s], st.log[k].work.job.file.value))
            && (Life(w, Start(w, sessions).ts) ==>
                  (Life(st.w, st.ts) <==> SparesRun(cfg, Start(w, sessions), steps)))
  {
    hide After, LegalRun, SparesRun, Start, Excludes, Life;
    RunContract(cfg, w, sessions, steps);
    var st := After(cfg, Start(w, sessions), steps);
    forall k | 0 <= k < |st.log| && UsesFile(st.log[k])
      ensures st.log[k].work.job.file.value !in st.w.closes
      ensures forall s :: 0 <= s < |st.ts| && s != st.log[k].session ==>
            !HasFile(st.ts[s], st.log[k].work.job.file.value)
    {
      var f := st.log[k].work.job.file.value;
      var tok :| HeldFile(st.ts[st.log[k].session], tok) == Some(f);
    }
    if Life(w, Start(w, sessions).ts) {
      RunLedger(cfg, w, sessions, steps);
      if SomeLeak(st) {
        LeakUnbalances(st);
      }
    }
  }
}

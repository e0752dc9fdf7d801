/** The rest of the simulation: moves of the server itself, looking requests, and
    whole runs. */
module Simulation {
  import opened Bytes
  import opened Messages
  import opened Packets
  import opened DataOps
  import opened Server
  import opened Lifecycle
  import opened Independence
  import opened Reordering
  import opened Pool
  import opened Runs
  import opened DriverUse
  import opened Grain
  import opened Bytewise
  import opened Views
  import opened Refinement

  lemma SamePrepare(cfg: Config, c': Config, t: Table, p: Packet)
    requires Alike(cfg, c')
    ensures Prepare(c', t, p) == Prepare(cfg, t, p)
  {
    hide DecodeRead, DecodeWrite, RequestId;
  }

  lemma IdleSees(cfg: Config, f: Fine, s: nat)
    requires Viewed(cfg, f) && f.st.Idle(s)
    ensures !Looking(f, s)
  {
    hide ViewSound;
  }

  /** An entry added that is not under way. */
  lemma CompletedMore(f: Fine, f': Fine)
    requires f'.part == f.part && f'.st.w == f.st.w && |f'.st.log| == |f.st.log| + 1
    requires f'.st.log[..|f.st.log|] == f.st.log && !AtWork(f', |f.st.log|)
    ensures Completed(f') == Completed(f)
  {
    hide DrainFiles;
    var n := |f.st.log|;
    forall k | 0 <= k < n ensures RestAt(f', k) == RestAt(f, k) {
      assert f'.st.log[k] == f'.st.log[..n][k];
    }
    assert Rests(f') == Rests(f) + [Replied(UNKNOWN)];
    DrainAppend(f.st.w.fs.files, Rests(f), Replied(UNKNOWN));
  }

  /** Entries changed in ways that do not matter to what is under way. */
  lemma CompletedStill(f: Fine, f': Fine)
    requires f'.part == f.part && f'.st.w == f.st.w && |f'.st.log| == |f.st.log|
    requires forall k :: 0 <= k < |f.st.log| ==> f'.st.log[k].work == f.st.log[k].work || (k !in f.part)
    ensures Completed(f') == Completed(f)
  {
    hide DrainFiles;
    forall k | 0 <= k < |f.st.log| ensures RestAt(f', k) == RestAt(f, k) {
    }
    assert Rests(f') == Rests(f);
  }

  lemma NothingPartly(f: Fine)
    requires forall k :: 0 <= k < |f.st.log| ==> !Partly(f, k)
    ensures Completed(f) == f.st.w
  {
    DrainSettled(f.st.w.fs.files, Rests(f));
  }

  // ---------- taking, entering, leaving, sending, ending ----------

  /** The move can be made, as this step, and keeps everything. */
  ghost predicate Follows(cfg: Config, c': Config, f: Fine, g: State, mv: Move, step: Step)
  {
    && Allowed(cfg, f, mv) && Legal(c', g, step)
    && Inv(cfg, Advance(cfg, f, mv)) && Rel(c', Advance(cfg, f, mv), Apply(c', g, step))
  }

  /** The move can be made, as no step, and keeps everything. */
  ghost predicate Stays(cfg: Config, c': Config, f: Fine, g: State, mv: Move)
  {
    Allowed(cfg, f, mv) && Inv(cfg, Advance(cfg, f, mv)) && Rel(c', Advance(cfg, f, mv), g)
  }

  lemma RelSizes(c': Config, f: Fine, g: State)
    requires Rel(c', f, g)
    ensures |g.log| == |f.st.log| && |g.ts| == |f.st.ts| && g.ends == f.st.ends && g.out == f.st.out
    ensures forall s :: 0 <= s < |g.ts| && !Looking(f, s) ==> g.ts[s] == f.st.ts[s]
    ensures forall k: nat :: k < |g.log| && !InView(f, k) && !Partly(f, k) ==> g.log[k] == f.st.log[k]
    ensures forall k :: 0 <= k < |g.log| ==>
          g.log[k].session == f.st.log[k].session && g.log[k].sent == f.st.log[k].sent
  {
    hide AtOnce, Completed;
  }

  /** One more entry, not under way, in both, and nothing else but a table. */
  lemma RelAfter(c': Config, f: Fine, f': Fine, g: State, g': State, s: nat)
    requires Rel(c', f, g) && s < |g.ts| && |f.st.log| !in f.views && f'.part == f.part && f'.views == f.views
    requires |f'.st.log| == |f.st.log| + 1 && f'.st.log[..|f.st.log|] == f.st.log && !Partly(f', |f.st.log|)
    requires |f'.st.ts| == |f.st.ts| && f'.st.ts == f.st.ts[s := f'.st.ts[s]] && f'.st.out == f.st.out
    requires f'.st.ends == f.st.ends
    requires g'.w == Completed(f') && g'.out == g.out && g'.ends == g.ends && g'.ts == g.ts[s := f'.st.ts[s]]
    requires g'.log == g.log + [f'.st.log[|f.st.log|]]
    requires !Looking(f, s) && forall q: nat :: Looking(f', q) <==> Looking(f, q)
    ensures Rel(c', f', g')
  {
    hide AtOnce, Completed;
    var n := |f.st.log|;
    LogAfter(c', f, f', g, g');
    hide SameLog;
    assert forall k :: 0 <= k < n ==> f'.st.log[k] == f'.st.log[..n][k];
    forall k: nat | InView(f', k) && k < n + 1 && f'.st.log[k].session < |g'.ts|
      ensures g'.ts[f'.st.log[k].session] == AtOnce(c', f'.views[k], k).t
    {
      assert k < n && InView(f, k) && f.st.log[k].session != s;
    }
  }

  lemma LogAfter(c': Config, f: Fine, f': Fine, g: State, g': State)
    requires SameLog(c', f, g) && |f.st.log| !in f.views && f'.part == f.part && f'.views == f.views
    requires |f'.st.log| == |f.st.log| + 1 && f'.st.log[..|f.st.log|] == f.st.log && !Partly(f', |f.st.log|)
    requires g'.log == g.log + [f'.st.log[|f.st.log|]]
    ensures SameLog(c', f', g')
  {
    hide AtOnce;
    var n := |f.st.log|;
    forall k | 0 <= k < n ensures WorkOf(c', f', k) == WorkOf(c', f, k) && f'.st.log[k] == f.st.log[k] {
      assert f'.st.log[k] == f'.st.log[..n][k];
    }
  }

  /** Entry k alone changed, in both alike, and it is not under way. */
  lemma RelEntry(c': Config, f: Fine, f': Fine, g: State, g': State, k: nat)
    requires Rel(c', f, g) && k < |f.st.log| && !InView(f, k) && !Partly(f, k) && !Partly(f', k)
    requires f'.views == f.views && f'.part == f.part && f'.st.ts == f.st.ts && f'.st.ends == f.st.ends
    requires |f'.st.log| == |f.st.log| && f'.st.log == f.st.log[k := f'.st.log[k]]
    requires f'.st.log[k].session == f.st.log[k].session && Completed(f') == Completed(f)
    requires g' == g.(log := g'.log, out := g'.out) && |g.log| == |f.st.log| && g'.log == g.log[k := f'.st.log[k]]
    requires g'.out == f'.st.out
    requires forall q: nat :: Looking(f', q) <==> Looking(f, q)
    ensures Rel(c', f', g')
  {
    hide AtOnce, Completed;
    forall j | 0 <= j < |f.st.log| && j != k
      ensures WorkOf(c', f', j) == WorkOf(c', f, j) && f'.st.log[j] == f.st.log[j]
    {
    }
    assert SameLog(c', f', g');
    hide SameLog;
    assert forall j: nat :: InView(f', j) ==> InView(f, j);
  }

  lemma RelArrive(cfg: Config, c': Config, f: Fine, g: State, s: nat, p: Packet)
    requires Alike(cfg, c') && Inv(cfg, f) && Rel(c', f, g) && Allowed(cfg, f, By(Arrive(s, p)))
    ensures Follows(cfg, c', f, g, By(Arrive(s, p)), Arrive(s, p))
  {
    hide Serve, Prepare, AtOnce, SameLog, SameTables, PartOk, Completed, ViewOk, DrainFiles, Rests;
    var f' := Advance(cfg, f, By(Arrive(s, p)));
    RelSizes(c', f, g);
    assert |f.st.log| !in f.views && |f.st.log| !in f.part;
    SamePrepare(cfg, c', f.st.ts[s], p);
    CompletedMore(f, f');
    ViewsStill(cfg, f, f');
    hide Viewed;
    RelAfter(c', f, f', g, Apply(c', g, Arrive(s, p)), s);
  }

  /** Moves that leave views and tables alone. */
  lemma ViewsStill(cfg: Config, f: Fine, f': Fine)
    requires Viewed(cfg, f) && f'.views == f.views && f'.st.ts == f.st.ts && |f'.st.log| >= |f.st.log|
    requires forall s :: f'.st.Ended(s) ==> f.st.Ended(s) || !Looking(f, s)
    requires forall k :: 0 <= k < |f.st.log| ==> f'.st.log[k].session == f.st.log[k].session
    requires forall k :: 0 <= k < |f.st.log| && InView(f, k) ==> f'.st.log[k] == f.st.log[k]
    ensures Viewed(cfg, f') && forall s: nat :: Looking(f', s) <==> Looking(f, s)
  {
    hide ViewSound;
    forall s: nat ensures Looking(f', s) <==> Looking(f, s) {
      if Looking(f, s) {
        var k :| 0 <= k < |f.st.log| && InView(f, k) && f.st.log[k].session == s;
        assert 0 <= k < |f'.st.log| && InView(f', k) && f'.st.log[k].session == s;
      }
      if Looking(f', s) {
        var k :| 0 <= k < |f'.st.log| && InView(f', k) && f'.st.log[k].session == s;
        assert k in f.views;
        assert 0 <= k < |f.st.log| && InView(f, k) && f.st.log[k].session == s;
      }
    }
    forall k: nat | InView(f', k) ensures ViewOk(cfg, f', k) {
      assert InView(f, k) && ViewOk(cfg, f, k);
      assert Looking(f, f.st.log[k].session);
    }
  }

  lemma RelEnter(cfg: Config, c': Config, f: Fine, g: State, k: nat)
    requires Alike(cfg, c') && Inv(cfg, f) && Rel(c', f, g) && Allowed(cfg, f, By(Enter(k)))
    ensures Follows(cfg, c', f, g, By(Enter(k)), Enter(k))
  {
    hide Serve, Prepare, AtOnce, SameLog, SameTables, PartOk, Completed, Conflict, Unopposed, LockFree, DrainFiles,
      Rests, ViewOk, Onward;
    var f' := Advance(cfg, f, By(Enter(k)));
    RelSizes(c', f, g);
    NotInView(cfg, f, k);
    assert k !in f.part;
    SameGuards(cfg, c', f, g, k);
    CompletedStill(f, f');
    ViewsStill(cfg, f, f');
    hide Viewed;
    RelEntry(c', f, f', g, Apply(c', g, Enter(k)), k);
  }

  lemma NotInView(cfg: Config, f: Fine, k: nat)
    requires Viewed(cfg, f) && k < |f.st.log| && f.st.log[k].work.InFlight?
    ensures !InView(f, k)
  {
    hide ViewSound;
  }

  /** The guards of the range rule and the lock read the same in f and g. */
  lemma SameGuards(cfg: Config, c': Config, f: Fine, g: State, k: nat)
    requires Alike(cfg, c') && Inv(cfg, f) && SameLog(c', f, g) && k < |f.st.log|
    requires f.st.log[k].work.InFlight? && Unopposed(f.st.log, k) && LockFree(cfg, f.st, f.st.log[k].work.job.lock)
    requires f.st.log[k].work.phase.Waiting?
    ensures g.log[k] == f.st.log[k] && Unopposed(g.log, k) && LockFree(c', g, g.log[k].work.job.lock)
  {
    hide AtOnce, ViewSound, PartOk, Conflict;
    assert !InView(f, k) && !Partly(f, k);
    forall j | 0 <= j < k && g.log[j].work.InFlight? && Conflict(g.log[j].work.job.op, g.log[k].work.job.op)
      ensures g.log[j].work.phase.Finished?
    {
      assert !InView(f, j);
      assert f.st.log[j].work.InFlight? && f.st.log[j].work.job == g.log[j].work.job;
    }
    SameLock(cfg, c', f, g, f.st.log[k].work.job.lock);
  }

  lemma SameLock(cfg: Config, c': Config, f: Fine, g: State, l: Lock)
    requires Alike(cfg, c') && SameLog(c', f, g) && LockFree(cfg, f.st, l)
    ensures LockFree(c', g, l)
  {
    hide AtOnce;
  }

  lemma RelLeave(cfg: Config, c': Config, f: Fine, g: State, k: nat)
    requires Inv(cfg, f) && Rel(c', f, g) && Allowed(cfg, f, By(Leave(k)))
    ensures Follows(cfg, c', f, g, By(Leave(k)), Leave(k))
  {
    hide Serve, Prepare, AtOnce, SameLog, SameTables, PartOk, Completed, ViewOk, DrainFiles, Rests;
    var f' := Advance(cfg, f, By(Leave(k)));
    RelSizes(c', f, g);
    NotInView(cfg, f, k);
    assert k !in f.part;
    CompletedStill(f, f');
    ViewsStill(cfg, f, f');
    hide Viewed;
    RelEntry(c', f, f', g, Apply(c', g, Leave(k)), k);
  }

  lemma RelSend(cfg: Config, c': Config, f: Fine, g: State, k: nat)
    requires Inv(cfg, f) && Rel(c', f, g) && Allowed(cfg, f, By(Send(k)))
    ensures Follows(cfg, c', f, g, By(Send(k)), Send(k))
  {
    hide Serve, Prepare, AtOnce, SameLog, SameTables, PartOk, Completed, ViewOk, DrainFiles, Rests, Render;
    var f' := Advance(cfg, f, By(Send(k)));
    RelSizes(c', f, g);
    assert k !in f.part;
    CompletedStill(f, f');
    ViewsStill(cfg, f, f');
    hide Viewed;
    RelEntry(c', f, f', g, Apply(c', g, Send(k)), k);
  }

  lemma RelEnd(cfg: Config, c': Config, f: Fine, g: State, s: nat, order: seq<nat>)
    requires Inv(cfg, f) && Rel(c', f, g) && Allowed(cfg, f, By(End(s, order)))
    ensures Follows(cfg, c', f, g, By(End(s, order)), End(s, order))
  {
    hide Serve, Prepare, AtOnce, SameLog, SameTables, PartOk, ViewOk, DrainFiles, Rests, Conflict, HeldFile;
    var f' := Advance(cfg, f, By(End(s, order)));
    RelSizes(c', f, g);
    OverToo(c', f, g, s);
    assert Rests(f') == Rests(f) by { SameRests(f, f'); }
    assert Completed(f') == Closing(Completed(f), order);
    forall q | f'.st.Ended(q) ensures f.st.Ended(q) || q == s {
      var i :| 0 <= i < |f'.st.ends| && f'.st.ends[i].session == q;
      assert i < |f.st.ends| ==> f.st.ends[i].session == q;
    }
    ViewsEnd(cfg, f, f', s);
    assert ClosesAll(f.st.w, f.st.ts[s], Closing(f.st.w, order)) ==> ClosesAll(g.w, g.ts[s], Closing(g.w, order));
    hide Viewed, Completed, ClosesAll;
    RelEnded(c', f, f', g, Apply(c', g, End(s, order)), s);
  }

  lemma OverToo(c': Config, f: Fine, g: State, s: nat)
    requires Rel(c', f, g) && f.st.Over(s) && !Looking(f, s)
    ensures g.Over(s)
  {
    hide AtOnce, Completed;
    forall k | 0 <= k < |g.log| && g.log[k].session == s ensures g.log[k].Ready() {
      assert f.st.log[k].session == s && f.st.log[k].Ready();
    }
  }

  lemma RelEnded(c': Config, f: Fine, f': Fine, g: State, g': State, s: nat)
    requires Rel(c', f, g) && s < |g.ts| && f'.part == f.part && f'.views == f.views && f'.st.log == f.st.log
    requires f'.st.ts == f.st.ts[s := map[]] && f'.st.out == f.st.out && g'.out == g.out && g'.ends == f'.st.ends
    requires g'.w == Completed(f') && g'.log == g.log && g'.ts == g.ts[s := map[]]
    requires !Looking(f, s) && forall q: nat :: Looking(f', q) <==> Looking(f, q)
    ensures Rel(c', f', g')
  {
    hide AtOnce, Completed;
    assert forall k: nat :: k < |f.st.log| ==> WorkOf(c', f', k) == WorkOf(c', f, k);
    forall k: nat | InView(f', k) && k < |f.st.log| && f'.st.log[k].session < |g'.ts|
      ensures g'.ts[f'.st.log[k].session] == AtOnce(c', f'.views[k], k).t
    {
      assert InView(f, k) && f.st.log[k].session != s;
    }
  }

  lemma SameRests(f: Fine, f': Fine)
    requires f'.part == f.part && f'.st.log == f.st.log
    ensures Rests(f') == Rests(f)
  {
  }

  lemma ViewsEnd(cfg: Config, f: Fine, f': Fine, s: nat)
    requires Viewed(cfg, f) && f'.views == f.views && f'.st.log == f.st.log && s < |f.st.ts| && !Looking(f, s)
    requires f'.st.ts == f.st.ts[s := map[]] && forall q :: f'.st.Ended(q) ==> f.st.Ended(q) || q == s
    ensures Viewed(cfg, f') && forall q: nat :: Looking(f', q) <==> Looking(f, q)
  {
    hide ViewSound;
    forall k: nat | InView(f', k) ensures ViewOk(cfg, f', k) {
      assert InView(f, k) && ViewOk(cfg, f, k);
      assert f.st.log[k].session != s;
    }
  }

  // ---------- barriers served at once ----------

  /** What explains the requests so far and one more that does not look. */
  ghost predicate ExplainsNext(cfg: Config, c': Config, f: Fine) { Explains(cfg, c', f.views, |f.st.log| + 1) }

  /** Session s asks p of both: the same is done and said, with the files of each; a
      barrier that makes calls finds no job in the driver, and one that makes none does
      not care. */
  ghost predicate ServedAlike(cfg: Config, c': Config, f: Fine, g: State, s: nat, p: Packet)
  {
    && s < |g.ts| && s < |f.st.ts| && g.ts[s] == f.st.ts[s] && !Looking(f, s)
    && var r, r' := Serve(cfg, f.st.w, f.st.ts[s], p, |f.st.log|), Serve(c', g.w, g.ts[s], p, |g.log|);
    && r'.t == r.t && r'.reply == r.reply && r'.calls == r.calls
    && r'.w == WithFiles(r.w, r'.w.fs.files)
    && (r.calls == [] ==> r.w.fs == f.st.w.fs && r'.w.fs.files == g.w.fs.files)
    && (r.calls != [] ==> (forall k :: 0 <= k < |f.st.log| ==> !f.st.log[k].InDriver()) && r'.w == r.w)
  }

  lemma AloneServed(cfg: Config, c': Config, f: Fine, g: State, s: nat, p: Packet)
    requires ExplainsNext(cfg, c', f) && Inv(cfg, f) && Rel(c', f, g) && Allowed(cfg, f, By(Alone(s, p)))
    ensures ServedAlike(cfg, c', f, g, s, p)
  {
    hide Serve, Prepare, AtOnce, ViewSound, PartOk, DrainFiles, Rests, Touches, Onward;
    IdleSees(cfg, f, s);
    var n, t := |f.st.log|, f.st.ts[s];
    var r := Serve(cfg, f.st.w, t, p, n);
    assert n !in f.views;
    assert Serve(c', g.w, t, p, n) == Serve(cfg, g.w, t, p, n);
    if r.calls == [] {
      NoCalls(r.calls);
      ServeBlind(cfg, f.st.w, t, p, n, g.w.fs.files);
      assert g.w == WithFiles(f.st.w, g.w.fs.files);
    } else {
      assert forall k :: 0 <= k < |f.st.log| ==> !Partly(f, k);
      NothingPartly(f);
    }
  }

  lemma NoCalls(calls: seq<Call>)
    requires calls == []
    ensures !Touches(calls)
  {
  }

  lemma RelAlone(cfg: Config, c': Config, f: Fine, g: State, s: nat, p: Packet)
    requires ExplainsNext(cfg, c', f) && Inv(cfg, f) && Rel(c', f, g) && Allowed(cfg, f, By(Alone(s, p)))
    ensures Follows(cfg, c', f, g, By(Alone(s, p)), Alone(s, p))
  {
    hide Serve, Prepare, AtOnce, SameLog, SameTables, PartOk, Completed, ViewSound, Explains, DrainFiles, Rests,
      LockFree;
    AloneLegal(cfg, c', f, g, s, p);
    AloneNotLooking(cfg, c', f, g, s, p);
    AloneShape(cfg, f, s, p);
    AloneGoes(cfg, c', f, g, s, p);
    var f', n := Advance(cfg, f, By(Alone(s, p))), |f.st.log|;
    assert f'.st.log[n].work.Answered?;
    hide Advance, Allowed, Legal, Apply, Parts;
    ViewsAlone(cfg, f, f', s);
    hide Viewed;
    RelAfter(c', f, f', g, Apply(c', g, Alone(s, p)), s);
  }

  lemma AloneNotLooking(cfg: Config, c': Config, f: Fine, g: State, s: nat, p: Packet)
    requires Inv(cfg, f) && Rel(c', f, g) && Allowed(cfg, f, By(Alone(s, p)))
    ensures s < |g.ts| && !Looking(f, s)
  {
    hide Serve, Prepare, AtOnce, SameLog, PartOk, Completed, ViewSound, LockFree, Parts;
    IdleSees(cfg, f, s);
  }

  lemma AloneShape(cfg: Config, f: Fine, s: nat, p: Packet)
    requires Inv(cfg, f) && Allowed(cfg, f, By(Alone(s, p)))
    ensures s < |f.st.ts|
    ensures var f', n := Advance(cfg, f, By(Alone(s, p))), |f.st.log|;
            var r := Serve(cfg, f.st.w, f.st.ts[s], p, n);
            && n !in f.views && f'.part == f.part && f'.views == f.views && |f'.st.ts| == |f.st.ts|
            && f'.st.w == r.w && f'.st.ts == f.st.ts[s := r.t] && f'.st.out == f.st.out && f'.st.ends == f.st.ends
            && f'.st.log == f.st.log + [Entry(s, p, Answered(r.reply), false)]
  {
    hide Serve, Prepare, ViewSound;
  }

  /** The world it leaves, with WRITEs under way completed, is that of serving it at
      once. */
  ghost predicate AloneLeaves(cfg: Config, c': Config, f: Fine, g: State, s: nat, p: Packet)
  {
    && Allowed(cfg, f, By(Alone(s, p))) && Parts(Advance(cfg, f, By(Alone(s, p)))) && s < |g.ts|
    && Completed(Advance(cfg, f, By(Alone(s, p)))) == Serve(c', g.w, g.ts[s], p, |g.log|).w
  }

  lemma AloneWorld(cfg: Config, c': Config, f: Fine, g: State, s: nat, p: Packet)
    requires ExplainsNext(cfg, c', f) && Inv(cfg, f) && Rel(c', f, g) && Allowed(cfg, f, By(Alone(s, p)))
    ensures AloneLeaves(cfg, c', f, g, s, p)
  {
    hide Serve, Prepare, Parts, Completed, Explains, Viewed, LockFree, SameLog, SameTables, AtOnce, Allowed, Advance,
      Looking;
    AloneServed(cfg, c', f, g, s, p);
    AloneShape(cfg, f, s, p);
    assert g.w == Completed(f);
    var f' := Advance(cfg, f, By(Alone(s, p)));
    if Serve(cfg, f.st.w, f.st.ts[s], p, |f.st.log|).calls != [] {
      NobodyIn(f, f');
    } else {
      SameFiles(f, f', Serve(c', g.w, g.ts[s], p, |g.log|).w);
    }
  }

  /** With nobody in the driver nothing is half done. */
  lemma NobodyIn(f: Fine, f': Fine)
    requires Parts(f) && forall k :: 0 <= k < |f.st.log| ==> !f.st.log[k].InDriver()
    requires f'.part == f.part && |f'.st.log| == |f.st.log| + 1 && f'.st.log[..|f.st.log|] == f.st.log
    requires f'.st.log[|f.st.log|].work.Answered?
    ensures Parts(f') && Completed(f') == f'.st.w
  {
    hide PartOk;
    assert f.part == map[];
    NothingPartly(f');
  }

  lemma SameFiles(f: Fine, f': Fine, w: World)
    requires Parts(f) && f'.st.w.fs == f.st.w.fs && w == WithFiles(f'.st.w, w.fs.files)
    requires w.fs.files == Completed(f).fs.files
    requires f'.part == f.part && |f'.st.log| == |f.st.log| + 1 && f'.st.log[..|f.st.log|] == f.st.log
    requires f'.st.log[|f.st.log|].work.Answered?
    ensures Parts(f') && Completed(f') == w
  {
    hide PartOk, DrainFiles, Rests;
    AloneCompleted(f, f');
    hide Completed;
    var n := |f.st.log|;
    assert forall k :: 0 <= k < n ==> f'.st.log[k] == f'.st.log[..n][k];
  }

  /** Both serve it alike. */
  ghost predicate AloneAlike(cfg: Config, c': Config, f: Fine, g: State, s: nat, p: Packet)
  {
    && Allowed(cfg, f, By(Alone(s, p))) && Legal(c', g, Alone(s, p))
    && var f', g', n := Advance(cfg, f, By(Alone(s, p))), Apply(c', g, Alone(s, p)), |f.st.log|;
    && Parts(f') && g'.w == Completed(f') && g'.out == g.out && g'.ends == g.ends && |g'.ts| == |g.ts|
    && s < |f'.st.ts| && s < |g.ts| && g'.ts == g.ts[s := f'.st.ts[s]]
    && n < |f'.st.log| && g'.log == g.log + [f'.st.log[n]]
  }

  lemma AloneGoes(cfg: Config, c': Config, f: Fine, g: State, s: nat, p: Packet)
    requires ExplainsNext(cfg, c', f) && Inv(cfg, f) && Rel(c', f, g) && Allowed(cfg, f, By(Alone(s, p)))
    requires Legal(c', g, Alone(s, p))
    ensures AloneAlike(cfg, c', f, g, s, p)
  {
    hide Serve, Prepare, Parts, Completed, Explains, Viewed, LockFree, SameTables, AtOnce, Rests, DrainFiles, Looking;
    AloneServed(cfg, c', f, g, s, p);
    AloneShape(cfg, f, s, p);
    AloneWorld(cfg, c', f, g, s, p);
    assert |g.log| == |f.st.log|;
    hide Allowed, Advance;
  }

  lemma AloneLegal(cfg: Config, c': Config, f: Fine, g: State, s: nat, p: Packet)
    requires ExplainsNext(cfg, c', f) && Inv(cfg, f) && Rel(c', f, g) && Allowed(cfg, f, By(Alone(s, p)))
    ensures Legal(c', g, Alone(s, p))
  {
    hide Serve, Prepare, AtOnce, ViewSound, PartOk, Completed, Onward, Explains, Parts;
    assert Alike(cfg, c') by { ExplainsAlike(cfg, c', f.views, |f.st.log| + 1); }
    AloneServed(cfg, c', f, g, s, p);
    SamePrepare(cfg, c', f.st.ts[s], p);
    if Serve(cfg, f.st.w, f.st.ts[s], p, |f.st.log|).calls != [] {
      SameLock(cfg, c', f, g, BarrierLock(p.typ));
    }
  }

  lemma ExplainsAlike(cfg: Config, c': Config, views: map<nat, View>, len: nat)
    requires Explains(cfg, c', views, len)
    ensures Alike(cfg, c')
  {
  }

  /** The world may have changed, but not its files. */
  lemma AloneCompleted(f: Fine, f': Fine)
    requires f'.part == f.part && f'.st.w.fs == f.st.w.fs && |f'.st.log| == |f.st.log| + 1
    requires f'.st.log[..|f.st.log|] == f.st.log && !AtWork(f', |f.st.log|)
    ensures Completed(f').fs == Completed(f).fs && Completed(f') == WithFiles(f'.st.w, Completed(f').fs.files)
  {
    CompletedMore(f, f'.(st := f'.st.(w := f.st.w)));
    SameRests(f', f'.(st := f'.st.(w := f.st.w)));
  }

  lemma ViewsAlone(cfg: Config, f: Fine, f': Fine, s: nat)
    requires Viewed(cfg, f) && f'.views == f.views && s < |f.st.ts| && !Looking(f, s) && |f'.st.log| == |f.st.log| + 1
    requires f'.st.ends == f.st.ends && f'.st.log[..|f.st.log|] == f.st.log
    requires |f'.st.ts| == |f.st.ts| && forall q :: 0 <= q < |f.st.ts| && q != s ==> f'.st.ts[q] == f.st.ts[q]
    ensures Viewed(cfg, f') && forall q: nat :: Looking(f', q) <==> Looking(f, q)
  {
    hide ViewSound;
    var n := |f.st.log|;
    assert forall k :: 0 <= k < n ==> f'.st.log[k] == f'.st.log[..n][k];
    forall q: nat ensures Looking(f', q) <==> Looking(f, q) {
      if Looking(f, q) {
        var k :| 0 <= k < n && InView(f, k) && f.st.log[k].session == q;
        assert InView(f', k) && f'.st.log[k].session == q;
      }
      if Looking(f', q) {
        var k :| 0 <= k < |f'.st.log| && InView(f', k) && f'.st.log[k].session == q;
        assert k in f.views && InView(f, k);
      }
    }
    forall k: nat | InView(f', k) ensures ViewOk(cfg, f', k) {
      assert InView(f, k) && ViewOk(cfg, f, k);
      assert f.st.log[k].session != s;
    }
  }

  // ---------- looking requests ----------

  ghost predicate LeavesWorld(c': Config, g: State, s: nat, p: Packet)
  {
    s < |g.ts| && Serve(c', g.w, g.ts[s], p, |g.log|).w == g.w
  }

  /** The request would be served at once, and leave the world alone. */
  lemma BeginLegal(cfg: Config, c': Config, f: Fine, g: State, s: nat, p: Packet)
    requires Alike(cfg, c') && Inv(cfg, f) && Rel(c', f, g) && Allowed(cfg, f, Begin(s, p))
    ensures Legal(c', g, Alone(s, p)) && LeavesWorld(c', g, s, p) && !Looking(f, s)
    ensures s < |f.st.ts| && g.ts[s] == f.st.ts[s]
  {
    hide Serve, Prepare, ViewSound, PartOk, Onward, Pages, Completed, AtOnce;
    IdleSees(cfg, f, s);
    SamePrepare(cfg, c', f.st.ts[s], p);
    SameLock(cfg, c', f, g, PathLock);
    LookKeepsWorld(c', g.w, g.ts[s], p, |g.log|);
  }

  lemma RelBegin(cfg: Config, c': Config, f: Fine, g: State, s: nat, p: Packet)
    requires Alike(cfg, c') && Inv(cfg, f) && Rel(c', f, g) && Allowed(cfg, f, Begin(s, p))
    ensures Follows(cfg, c', f, g, Begin(s, p), Alone(s, p))
  {
    hide Serve, Allowed, Advance, Legal, Apply, Parts, Viewed, Rel, AtOnce, Looking, Completed;
    BeginLegal(cfg, c', f, g, s, p);
    BeginViews(cfg, f, s, p);
    BeginShape(cfg, f, s, p);
    BeginServes(cfg, c', f, g, s, p);
    RelBegun(c', f, Advance(cfg, f, Begin(s, p)), g, Apply(c', g, Alone(s, p)), s, p);
  }

  lemma BeginShape(cfg: Config, f: Fine, s: nat, p: Packet)
    requires Inv(cfg, f) && Allowed(cfg, f, Begin(s, p))
    ensures var f', n := Advance(cfg, f, Begin(s, p)), |f.st.log|;
            && Parts(f') && n !in f.views && Completed(f') == Completed(f) && f'.part == f.part
            && f'.st == f.st.(log := f.st.log + [Entry(s, p, Answered(UNKNOWN), false)])
            && n in f'.views && f'.views == f.views[n := f'.views[n]] && f'.views[n].open
  {
    hide Serve, Prepare, ViewOk, PartOk, DrainFiles, Rests, LockFree, Looks;
    CompletedMore(f, Advance(cfg, f, Begin(s, p)));
  }

  ghost predicate BeginsAlike(cfg: Config, c': Config, f: Fine, g: State, s: nat, p: Packet)
  {
    && Allowed(cfg, f, Begin(s, p)) && Legal(c', g, Alone(s, p))
    && var f', g', n := Advance(cfg, f, Begin(s, p)), Apply(c', g, Alone(s, p)), |f.st.log|;
    && n in f'.views && s < |g.ts|
    && var r := AtOnce(c', f'.views[n], n);
    && g'.w == g.w && g'.out == g.out && g'.ends == g.ends && g'.ts == g.ts[s := r.t]
    && g'.log == g.log + [Entry(s, p, Answered(r.reply), false)]
  }

  lemma BeginServes(cfg: Config, c': Config, f: Fine, g: State, s: nat, p: Packet)
    requires Rel(c', f, g) && Allowed(cfg, f, Begin(s, p)) && Legal(c', g, Alone(s, p))
    requires LeavesWorld(c', g, s, p) && s < |f.st.ts| && g.ts[s] == f.st.ts[s]
    ensures BeginsAlike(cfg, c', f, g, s, p)
  {
    hide Serve, Prepare, LockFree, Looks, Completed, Free;
  }

  lemma LogBegun(c': Config, f: Fine, f': Fine, g: State, g': State, s: nat, p: Packet)
    requires SameLog(c', f, g) && |f.st.log| !in f.views && f'.part == f.part
    requires f'.st.log == f.st.log + [Entry(s, p, Answered(UNKNOWN), false)]
    requires |f.st.log| in f'.views && f'.views == f.views[|f.st.log| := f'.views[|f.st.log|]]
    requires f'.views[|f.st.log|].open
    requires g'.log == g.log + [Entry(s, p, Answered(AtOnce(c', f'.views[|f.st.log|], |f.st.log|).reply), false)]
    ensures SameLog(c', f', g')
  {
    hide AtOnce;
    var n := |f.st.log|;
    forall k | 0 <= k < n ensures WorkOf(c', f', k) == WorkOf(c', f, k) && f'.st.log[k] == f.st.log[k] {
    }
  }

  lemma RelBegun(c': Config, f: Fine, f': Fine, g: State, g': State, s: nat, p: Packet)
    requires Rel(c', f, g) && s < |g.ts| && |f.st.log| !in f.views && Completed(f') == Completed(f) && f'.part == f.part
    requires f'.st == f.st.(log := f.st.log + [Entry(s, p, Answered(UNKNOWN), false)])
    requires |f.st.log| in f'.views && f'.views == f.views[|f.st.log| := f'.views[|f.st.log|]]
    requires f'.views[|f.st.log|].open
    requires var r := AtOnce(c', f'.views[|f.st.log|], |f.st.log|);
             && g'.w == g.w && g'.out == g.out && g'.ends == g.ends && g'.ts == g.ts[s := r.t]
             && g'.log == g.log + [Entry(s, p, Answered(r.reply), false)]
    requires !Looking(f, s) && Looking(f', s) && forall q: nat :: q != s ==> (Looking(f', q) <==> Looking(f, q))
    ensures Rel(c', f', g')
  {
    hide AtOnce, Completed, SameLog;
    var n := |f.st.log|;
    LogBegun(c', f, f', g, g', s, p);
    forall k: nat | InView(f', k) && k < n + 1 && f'.st.log[k].session < |g'.ts|
      ensures g'.ts[f'.st.log[k].session] == AtOnce(c', f'.views[k], k).t
    {
      if k < n {
        assert InView(f, k) && f.st.log[k].session != s;
      }
    }
  }

  lemma BeginViews(cfg: Config, f: Fine, s: nat, p: Packet)
    requires Viewed(cfg, f) && Allowed(cfg, f, Begin(s, p)) && !Looking(f, s)
    ensures var f' := Advance(cfg, f, Begin(s, p));
            Viewed(cfg, f') && Looking(f', s) && forall q: nat :: q != s ==> (Looking(f', q) <==> Looking(f, q))
  {
    hide Serve, Prepare, ViewSound, Completed, LockFree, Looks, Viewed;
    var f' := Advance(cfg, f, Begin(s, p));
    ViewBegins(cfg, f', |f.st.log|);
    ViewsBegin(cfg, f, f', s);
  }

  lemma ViewsBegin(cfg: Config, f: Fine, f': Fine, s: nat)
    requires Viewed(cfg, f) && s < |f.st.ts| && !Looking(f, s) && !f.st.Ended(s)
    requires var n := |f.st.log|;
             && f'.st == f.st.(log := f'.st.log) && |f'.st.log| == n + 1 && f'.st.log[..n] == f.st.log && n in f'.views
             && f'.views == f.views[n := f'.views[n]] && f'.views[n].open && ViewSound(cfg, f'.views[n], n)
             && var e := f'.st.log[n];
             && e.session == s && e.work.Answered? && !e.sent
             && f'.views[n].t == f.st.ts[s] && f'.views[n].packet == e.packet
    ensures Viewed(cfg, f') && Looking(f', s)
    ensures forall q: nat :: q != s ==> (Looking(f', q) <==> Looking(f, q))
  {
    hide ViewSound;
    var n := |f.st.log|;
    assert forall k :: 0 <= k < n ==> f'.st.log[k] == f'.st.log[..n][k];
    assert InView(f', n);
    forall q: nat | q != s ensures Looking(f', q) <==> Looking(f, q) {
      if Looking(f, q) {
        var k :| 0 <= k < n && InView(f, k) && f.st.log[k].session == q;
        assert InView(f', k) && f'.st.log[k].session == q;
      }
      if Looking(f', q) {
        var k :| 0 <= k < |f'.st.log| && InView(f', k) && f'.st.log[k].session == q;
        assert InView(f, k);
      }
    }
    forall k: nat | InView(f', k) ensures ViewOk(cfg, f', k) {
      assert k != n ==> InView(f, k) && ViewOk(cfg, f, k);
    }
    forall j: nat, k: nat | InView(f', j) && InView(f', k) && j < |f'.st.log| && k < |f'.st.log| &&
                            f'.st.log[j].session == f'.st.log[k].session
      ensures j == k
    {
      assert j != n ==> InView(f, j);
      assert k != n ==> InView(f, k);
    }
  }

  lemma ViewBegins(cfg: Config, f': Fine, n: nat)
    requires n in f'.views
    requires var v := f'.views[n]; |v.seen| == 1 && Looks(v.packet) && !Prepare(cfg, v.t, v.packet).Run?
    ensures ViewSound(cfg, f'.views[n], n)
  {
    hide Prepare, DecodeHandle;
  }

  lemma RelLook(cfg: Config, c': Config, f: Fine, g: State, k: nat)
    requires Inv(cfg, f) && Rel(c', f, g) && Allowed(cfg, f, Look(k))
    ensures Stays(cfg, c', f, g, Look(k))
  {
    hide Serve, Prepare, AtOnce, ViewOk, PartOk, DrainFiles, Rests, Onward, Viewed;
    var f' := Advance(cfg, f, Look(k));
    ViewsLook(cfg, f, k);
    SameRests(f, f');
    assert Completed(f') == Completed(f);
    hide Completed;
    RelLooked(c', f, f', g, k);
  }

  /** Nothing changed but what request k has seen. */
  lemma RelLooked(c': Config, f: Fine, f': Fine, g: State, k: nat)
    requires Rel(c', f, g) && k in f.views && f'.st == f.st && f'.part == f.part && Completed(f') == Completed(f)
    requires k in f'.views && f'.views == f.views[k := f'.views[k]]
    requires f'.views[k] == f.views[k].(seen := f'.views[k].seen)
    requires forall q: nat :: Looking(f', q) <==> Looking(f, q)
    ensures Rel(c', f', g)
  {
    hide Serve, Completed;
    assert forall j: nat :: InView(f', j) <==> InView(f, j);
    assert forall j: nat :: InView(f, j) ==> AtOnce(c', f'.views[j], j) == AtOnce(c', f.views[j], j);
    hide AtOnce;
    assert forall j: nat :: j < |f.st.log| ==> WorkOf(c', f', j) == WorkOf(c', f, j);
  }

  lemma ViewsLook(cfg: Config, f: Fine, k: nat)
    requires Viewed(cfg, f) && Allowed(cfg, f, Look(k))
    ensures var f' := Advance(cfg, f, Look(k));
            Viewed(cfg, f') && (forall j: nat :: InView(f', j) <==>
                    InView(f, j)) && forall q: nat :: Looking(f', q) <==> Looking(f, q)
  {
    hide Serve, Prepare, ViewSound, Onward;
    var f' := Advance(cfg, f, Look(k));
    assert ViewOk(cfg, f, k);
    LookOn(cfg, f.views[k], f.st.w.fs, k);
    assert forall j: nat :: InView(f', j) <==> InView(f, j);
    forall j: nat | InView(f', j) ensures ViewOk(cfg, f', j) {
      assert ViewOk(cfg, f, j);
    }
    forall q: nat ensures Looking(f', q) <==> Looking(f, q) {
    }
  }

  /** Request k, over, was answered as it would be at once. */
  ghost predicate ClosesAs(cfg: Config, c': Config, f: Fine, k: nat)
  {
    k in f.views && AnsweredAs(cfg, c', f.views[k].(open := false), k)
  }

  lemma RelClose(cfg: Config, c': Config, f: Fine, g: State, k: nat)
    requires Inv(cfg, f) && Rel(c', f, g) && Allowed(cfg, f, Close(k)) && ClosesAs(cfg, c', f, k)
    ensures Stays(cfg, c', f, g, Close(k))
  {
    hide Serve, Prepare, AtOnce, PartOk, DrainFiles, Rests, Onward, Viewed, SameLog, SameTables, ViewSound;
    var f' := Advance(cfg, f, Close(k));
    OnwardOpen(cfg, f.views[k], k);
    ViewedOk(cfg, f, k);
    CloseSame(c', f.views[k], k);
    CompletedStill(f, f');
    ViewsClose(cfg, f, k);
    hide Completed, ViewOk;
    RelClosed(c', f, f', g, k);
  }

  lemma ViewedOk(cfg: Config, f: Fine, k: nat)
    requires Viewed(cfg, f) && InView(f, k)
    ensures ViewOk(cfg, f, k)
    ensures forall j: nat :: (InView(f, j) && j < |f.st.log| && k < |f.st.log| &&
                              f.st.log[j].session == f.st.log[k].session) ==> j == k
  {
    hide ViewSound;
  }

  lemma CloseSame(c': Config, v: View, k: nat)
    ensures AtOnce(c', v.(open := false), k) == AtOnce(c', v, k)
  {
    hide Serve;
  }

  /** Request k is over, answered as it would be at once. */
  lemma RelClosed(c': Config, f: Fine, f': Fine, g: State, k: nat)
    requires Rel(c', f, g) && k < |f.st.log| && InView(f, k) && f.st.log[k].session < |f.st.ts| && f'.part == f.part
    requires f'.views == f.views[k := f.views[k].(open := false)] && Completed(f') == Completed(f) && k !in f.part
    requires var r, s := AtOnce(c', f.views[k], k), f.st.log[k].session;
             && f'.st == f.st.(log := f.st.log[k := f.st.log[k].(work := Answered(r.reply))], ts := f.st.ts[s := r.t])
             && (forall j: nat :: InView(f', j) <==> InView(f, j) && j != k)
             && (forall q: nat :: Looking(f', q) <==> Looking(f, q) && q != s)
    requires forall j: nat :: InView(f, j) && j < |f.st.log| && f.st.log[j].session == f.st.log[k].session ==> j == k
    ensures Rel(c', f', g)
  {
    hide AtOnce, Completed;
    forall j | 0 <= j < |f.st.log| && j != k
      ensures WorkOf(c', f', j) == WorkOf(c', f, j) && f'.st.log[j] == f.st.log[j]
    {
    }
    assert SameLog(c', f', g);
  }

  lemma ViewsClose(cfg: Config, f: Fine, k: nat)
    requires Viewed(cfg, f) && Allowed(cfg, f, Close(k))
    ensures var f', s := Advance(cfg, f, Close(k)), f.st.log[k].session;
            && Viewed(cfg, f') && (forall j: nat :: InView(f', j) <==> InView(f, j) && j != k)
            && (forall q: nat :: Looking(f', q) <==> Looking(f, q) && q != s)
  {
    hide Serve, Prepare, ViewSound, Onward;
    var f', s := Advance(cfg, f, Close(k)), f.st.log[k].session;
    assert InView(f, k) && ViewOk(cfg, f, k);
    assert forall j: nat :: InView(f', j) <==> InView(f, j) && j != k;
    forall j: nat | InView(f', j) ensures ViewOk(cfg, f', j) {
      assert ViewOk(cfg, f, j);
    }
    forall q: nat ensures Looking(f', q) <==> Looking(f, q) && q != s {
      if Looking(f, q) && q != s {
        var j :| 0 <= j < |f.st.log| && InView(f, j) && f.st.log[j].session == q;
        assert InView(f', j) && f'.st.log[j].session == q;
      }
    }
  }

  lemma OnwardOpen(cfg: Config, v: View, k: nat)
    requires v.seen != []
    ensures Onward(cfg, v.(open := false), k) == Onward(cfg, v, k)
  {
    hide Serve, DecodeHandle, ItemAt;
  }
}

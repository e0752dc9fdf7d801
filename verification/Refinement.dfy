/** Every run at the grain of the driver is a run of the server whose requests take
    effect at once: a WRITE in place with its first byte, a READ and a rewrite with
    their last, a looking request with its first call. */
module Refinement {
  import opened Bytes
  import opened Messages
  import opened Packets
  import opened Content
  import opened DataOps
  import opened Server
  import opened Lifecycle
  import opened Independence
  import opened Reordering
  import opened Pool
  import opened Runs
  import opened DriverUse
  import opened Grain
  import opened Bytewise
  import opened Views

  // ---------- which driver the requests could have met at once ----------

  ghost predicate Alike(cfg: Config, c': Config)
  {
    c' == cfg.(drv := cfg.drv.(stat := c'.drv.stat, listDir := c'.drv.listDir, readLink := c'.drv.readLink))
  }

  /** The request as it would be served at once, when it began. */
  function AtOnce(c': Config, v: View, k: nat): Res { Serve(c', v.base, v.t, v.packet, k) }

  ghost predicate AnsweredAs(cfg: Config, c': Config, v: View, k: nat)
  {
    v.seen != [] && Onward(cfg, v, k) == Over(AtOnce(c', v, k).t, AtOnce(c', v, k).reply)
  }

  /** Under c' every request among the first len is served at once as it was served:
      looking requests that are over were answered so, all others cannot tell. */
  ghost predicate Explains(cfg: Config, c': Config, views: map<nat, View>, len: nat)
  {
    && Alike(cfg, c')
    && (forall w, t, p, n: nat :: n < len && n !in views ==> Serve(c', w, t, p, n) == Serve(cfg, w, t, p, n))
    && (forall k :: k in views && !views[k].open ==> AnsweredAs(cfg, c', views[k], k))
  }

  ghost predicate Explained(cfg: Config, c': Config, f: Fine) { Explains(cfg, c', f.views, |f.st.log|) }

  // ---------- what every move keeps ----------

  predicate Parts(f: Fine)
  {
    forall k :: k in f.part ==>
      && k < |f.st.log| && f.st.log[k].work.InFlight? && f.st.log[k].work.phase.Running?
      && PartOk(f.st.w.fs.files, f.st.log[k].work.job.op, f.part[k])
  }

  /** Entry k of session s is being looked for, on the session's table as it is. */
  ghost predicate ViewOk(cfg: Config, f: Fine, k: nat)
  {
    && k in f.views && k < |f.st.log| && f.st.log[k].session < |f.st.ts|
    && f.st.log[k].work.Answered? && !f.st.log[k].sent && !f.st.Ended(f.st.log[k].session)
    && f.views[k].t == f.st.ts[f.st.log[k].session] && f.views[k].packet == f.st.log[k].packet
    && ViewSound(cfg, f.views[k], k)
  }

  ghost predicate Viewed(cfg: Config, f: Fine)
  {
    && (forall k :: k in f.views ==> k < |f.st.log|)
    && (forall k: nat :: InView(f, k) ==> ViewOk(cfg, f, k))
    && (forall j: nat, k: nat :: (InView(f, j) && InView(f, k) && j < |f.st.log| && k < |f.st.log| &&
                                  f.st.log[j].session == f.st.log[k].session) ==> j == k)
  }

  // ---------- the relation ----------

  function WorkOf(c': Config, f: Fine, k: nat): Work
    requires k < |f.st.log|
  {
    if InView(f, k) then Answered(AtOnce(c', f.views[k], k).reply)
    else if Partly(f, k) then InFlight(f.st.log[k].work.job, Acted(Written))
    else f.st.log[k].work
  }

  ghost predicate SameLog(c': Config, f: Fine, g: State)
  {
    |g.log| == |f.st.log| && forall k :: 0 <= k < |g.log| ==> g.log[k] == f.st.log[k].(work := WorkOf(c', f, k))
  }

  ghost predicate SameTables(c': Config, f: Fine, g: State)
  {
    && |g.ts| == |f.st.ts|
    && (forall k: nat :: InView(f, k) && k < |f.st.log| && f.st.log[k].session < |g.ts| ==>
          g.ts[f.st.log[k].session] == AtOnce(c', f.views[k], k).t)
    && (forall s :: 0 <= s < |g.ts| && !Looking(f, s) ==> g.ts[s] == f.st.ts[s])
  }

  /** f seen as a state in which requests take effect at once: WRITEs under way are
      completed, looking requests are answered. */
  ghost predicate Rel(c': Config, f: Fine, g: State)
  {
    && g.w == Completed(f) && g.out == f.st.out && g.ends == f.st.ends
    && SameLog(c', f, g) && SameTables(c', f, g)
  }

  ghost predicate Inv(cfg: Config, f: Fine) { Parts(f) && Viewed(cfg, f) }

  /** Jobs inside the driver have no byte in common. */
  predicate Apart(f: Fine)
  {
    forall i, j :: 0 <= i < |f.st.log| && 0 <= j < |f.st.log| && i != j &&
                   f.st.log[i].InDriver() && f.st.log[j].InDriver() ==>
      !Conflict(f.st.log[i].work.job.op, f.st.log[j].work.job.op)
  }

  lemma FineApart(cfg: Config, c': Config, f: Fine, g: State)
    requires SameLog(c', f, g) && Excludes(c', g) && Viewed(cfg, f)
    ensures Apart(f)
  {
    hide AtOnce, Conflict, ViewSound, Shares;
    forall i, j | 0 <= i < |f.st.log| && 0 <= j < |f.st.log| && i != j &&
                  f.st.log[i].InDriver() && f.st.log[j].InDriver()
      ensures !Conflict(f.st.log[i].work.job.op, f.st.log[j].work.job.op)
    {
      assert !InView(f, i) && !InView(f, j);
      assert g.log[i].InDriver() && g.log[j].InDriver();
      ConflictSymmetric(f.st.log[i].work.job.op, f.st.log[j].work.job.op);
    }
  }

  // ---------- one byte more ----------

  /** Job k is inside the driver and has not finished. */
  predicate AtWork(f: Fine, k: nat)
  {
    k < |f.st.log| && f.st.log[k].work.InFlight? && f.st.log[k].work.phase.Running?
  }

  /** What the other WRITEs under way have still to do. */
  function Others(f: Fine, k: nat): seq<Core>
    requires k < |f.st.log|
  {
    Rests(f)[k := Replied(UNKNOWN)]
  }

  /** Part of job k. */
  predicate PartOf(f: Fine, k: nat, x: Op)
    requires AtWork(f, k)
  {
    var op := f.st.log[k].work.job.op;
    || x == op
    || (op.WriteOp? && exists n :: 0 <= n < |op.data| && (x == RestOf(op, n) || x == ByteOp(op, n)))
  }

  lemma OthersBeside(f: Fine, k: nat, x: Op)
    requires AtWork(f, k) && Apart(f) && PartOf(f, k, x)
    ensures Beside(Others(f, k), x)
  {
    hide Conflict;
    var op, cs := f.st.log[k].work.job.op, Others(f, k);
    forall i | 0 <= i < |cs| && cs[i].Pending? ensures cs[i].job.op.WriteOp? && !Conflict(cs[i].job.op, x) {
      assert cs[i] == RestAt(f, i);
      var other := f.st.log[i].work.job.op;
      PartConflicts(other, |f.part[i]|, op);
      if x != op {
        var n :| 0 <= n < |op.data| && (x == RestOf(op, n) || x == ByteOp(op, n));
        PartConflicts(op, n, cs[i].job.op);
      }
    }
  }

  lemma OthersSettled(f: Fine, k: nat)
    requires AtWork(f, k) && Apart(f) && Parts(f)
    requires var op := f.st.log[k].work.job.op; op.ReadOp? ==> op.n > 0
    ensures AllSettled(f.st.w.fs.files, Others(f, k), f.st.log[k].work.job.op)
  {
    hide Conflict, Settled, PartOk;
    var files, op, cs := f.st.w.fs.files, f.st.log[k].work.job.op, Others(f, k);
    forall i | 0 <= i < |cs| && cs[i].Pending? ensures Settled(files, cs[i].job.op, op) {
      assert cs[i] == RestAt(f, i);
      RestSettled(files, op, f.st.log[i].work.job.op, f.part[i]);
    }
  }

  /** Only job k differs between f and f'. */
  predicate OnlyAt(f: Fine, f': Fine, k: nat)
  {
    && |f'.st.log| == |f.st.log| && k < |f.st.log| && f'.views == f.views
    && (forall j :: 0 <= j < |f.st.log| && j != k ==> f'.st.log[j] == f.st.log[j] && (j in f'.part <==> j in f.part))
    && (forall j :: j in f'.part && j != k ==> j in f.part && f'.part[j] == f.part[j])
    && f'.st.ts == f.st.ts && f'.st.out == f.st.out && f'.st.ends == f.st.ends
    && f'.st.w == WithFiles(f.st.w, f'.st.w.fs.files)
    && f.st.log[k].work.InFlight? && f'.st.log[k].work.InFlight?
    && f'.st.log[k] == f.st.log[k].(work := f'.st.log[k].work) && f'.st.log[k].work.job == f.st.log[k].work.job
  }

  lemma OnlyRests(f: Fine, f': Fine, k: nat)
    requires OnlyAt(f, f', k)
    ensures Rests(f') == Rests(f)[k := RestAt(f', k)] && Others(f', k) == Others(f, k)
  {
    forall j | 0 <= j < |f.st.log| && j != k ensures RestAt(f', j) == RestAt(f, j) {
    }
    assert Rests(f') == Rests(f)[k := RestAt(f', k)];
  }

  lemma ReadOnly(f: Fine, k: nat)
    requires AtWork(f, k) && f.st.log[k].work.job.op.ReadOp?
    ensures OnlyAt(f, Touched(f, k), k)
  {
  }

  lemma InPlaceOnly(f: Fine, k: nat)
    requires AtWork(f, k) && f.st.log[k].work.job.op.WriteOp? && f.st.log[k].work.job.op.positional
    ensures OnlyAt(f, Touched(f, k), k)
  {
    hide Splice, Accepts;
  }

  lemma RewriteOnly(f: Fine, k: nat)
    requires AtWork(f, k) && f.st.log[k].work.job.op.WriteOp? && !f.st.log[k].work.job.op.positional
    ensures OnlyAt(f, Touched(f, k), k)
  {
    hide Splice, Accepts;
  }

  lemma TouchOnly(f: Fine, k: nat)
    requires AtWork(f, k)
    ensures OnlyAt(f, Touched(f, k), k)
  {
    hide Touched, OnlyAt;
    var op := f.st.log[k].work.job.op;
    if op.ReadOp? {
      ReadOnly(f, k);
    } else if op.positional {
      InPlaceOnly(f, k);
    } else {
      RewriteOnly(f, k);
    }
  }

  /** The files with all WRITEs but job k's completed. */
  function Around(f: Fine, k: nat): Files
    requires k < |f.st.log|
  {
    DrainFiles(f.st.w.fs.files, Others(f, k))
  }

  /** The files with all WRITEs completed, job k's last. */
  lemma CompletedLast(f: Fine, k: nat)
    requires AtWork(f, k) && Apart(f)
    ensures !Partly(f, k) ==> Completed(f).fs.files == Around(f, k)
    ensures Partly(f, k) ==>
              Completed(f).fs.files == Act(Around(f, k), RestOf(f.st.log[k].work.job.op, |f.part[k]|)).0
  {
    hide Act, Conflict, Beside;
    var cs, rests := Others(f, k), Rests(f);
    if Partly(f, k) {
      var j := f.st.log[k].work.job;
      var rest := j.(op := RestOf(j.op, |f.part[k]|));
      assert PartOf(f, k, rest.op);
      OthersBeside(f, k, rest.op);
      Inserted(f.st.w.fs.files, cs, k, rest);
      assert cs[k := Pending(rest)] == rests;
    } else {
      assert cs == rests;
    }
  }

  /** A part of job k on the files, with the others completed before or after it. */
  lemma AroundAct(f: Fine, f': Fine, k: nat, x: Op)
    requires AtWork(f, k) && Apart(f) && OnlyAt(f, f', k) && PartOf(f, k, x)
    requires f'.st.w.fs.files == Act(f.st.w.fs.files, x).0
    ensures Around(f', k) == Act(Around(f, k), x).0
  {
    hide Act, Conflict, Beside;
    OnlyRests(f, f', k);
    OthersBeside(f, k, x);
    Passes(f.st.w.fs.files, Others(f, k), x);
  }

  // ---------- the moment a job takes effect ----------

  /** With this byte job k takes effect: a WRITE in place begins, a READ or a rewrite
      ends. */
  predicate TakesEffect(f: Fine, k: nat)
    requires AtWork(f, k)
  {
    var f' := Touched(f, k);
    !Partly(f, k) && (Partly(f', k) || f'.st.log[k].work.phase.Acted?)
  }

  lemma StaysApart(f: Fine, f': Fine, k: nat)
    requires Apart(f) && OnlyAt(f, f', k) && AtWork(f, k)
    ensures Apart(f')
  {
    hide Conflict;
  }

  /** A WRITE in place, its first byte or a later one that is not its last. */
  lemma WriteGoesOn(f: Fine, k: nat)
    requires AtWork(f, k) && Apart(f) && Parts(f)
    requires var op := f.st.log[k].work.job.op;
             op.WriteOp? && op.positional && op.path in f.st.w.fs.files && |Moved(f, k)| + 1 < |op.data|
    ensures Partly(Touched(f, k), k)
    ensures var before, after := Completed(f).fs.files, Completed(Touched(f, k)).fs.files;
            after == if Partly(f, k) then before else Act(before, f.st.log[k].work.job.op).0
  {
    hide Act, Conflict, PartOk, DrainFiles, Parts, Touched, Apart, Around, Completed, Rests;
    var op, n, f' := f.st.log[k].work.job.op, |Moved(f, k)|, Touched(f, k);
    var x := ByteOp(op, n);
    ByteTouched(f, k);
    TouchOnly(f, k);
    assert PartOf(f, k, x);
    AroundAct(f, f', k, x);
    CompletedLast(f, k);
    StaysApart(f, f', k);
    CompletedLast(f', k);
    RestStep(Around(f, k), op, n);
    if !Partly(f, k) {
      assert n == 0;
      RestWhole(op);
    }
  }

  lemma RestWhole(op: Op)
    requires op.WriteOp? && op.positional
    ensures RestOf(op, 0) == op
  {
  }

  lemma ByteTouched(f: Fine, k: nat)
    requires AtWork(f, k)
    requires var op := f.st.log[k].work.job.op;
             op.WriteOp? && op.positional && op.path in f.st.w.fs.files && |Moved(f, k)| + 1 < |op.data|
    ensures var op, f' := f.st.log[k].work.job.op, Touched(f, k);
            && f'.st.w.fs.files == Act(f.st.w.fs.files, ByteOp(op, |Moved(f, k)|)).0
            && k in f'.part && f'.part[k] == Moved(f, k) + [op.data[|Moved(f, k)|]] && AtWork(f', k)
  {
    hide Splice;
  }

  /** A WRITE in place, its last byte. */
  lemma WriteEnds(f: Fine, k: nat)
    requires AtWork(f, k) && Apart(f) && Parts(f) && Partly(f, k) && |Moved(f, k)| + 1 == |f.st.log[k].work.job.op.data|
    ensures Touched(f, k).st.log[k].work.phase == Acted(Written) && k !in Touched(f, k).part
    ensures Completed(Touched(f, k)).fs.files == Completed(f).fs.files
  {
    hide Conflict, DrainFiles;
    var op, f' := f.st.log[k].work.job.op, Touched(f, k);
    var x := RestOf(op, |Moved(f, k)|);
    assert f'.st.w.fs.files == Act(f.st.w.fs.files, x).0;
    hide Act, Splice;
    TouchOnly(f, k);
    assert PartOf(f, k, x);
    AroundAct(f, f', k, x);
    CompletedLast(f, k);
    OnlyRests(f, f', k);
    assert Rests(f') == Others(f', k);
  }

  /** A job that does all it does with this byte. */
  lemma EndsWhole(f: Fine, k: nat)
    requires AtWork(f, k) && Apart(f) && Parts(f) && !Partly(f, k) && Touched(f, k).st.log[k].work.phase.Acted?
    requires var op := f.st.log[k].work.job.op; op.ReadOp? ==> op.n > 0
    ensures k !in Touched(f, k).part
    ensures var now := Act(Completed(f).fs.files, f.st.log[k].work.job.op);
            && Completed(Touched(f, k)).fs.files == now.0
            && Touched(f, k).st.log[k].work.phase == Acted(now.1)
  {
    hide Conflict, DrainFiles;
    var files, op, f' := f.st.w.fs.files, f.st.log[k].work.job.op, Touched(f, k);
    AllAtOnce(f, k);
    hide Act, PartOk;
    TouchOnly(f, k);
    assert PartOf(f, k, op);
    AroundAct(f, f', k, op);
    CompletedLast(f, k);
    OnlyRests(f, f', k);
    assert Rests(f') == Others(f', k);
    OthersBeside(f, k, op);
    OthersSettled(f, k);
    OutcomePasses(files, Others(f, k), op);
  }

  /** The touch did all the job does, and is its outcome. */
  predicate DidAll(f: Fine, k: nat)
    requires AtWork(f, k)
  {
    var now, f' := Act(f.st.w.fs.files, f.st.log[k].work.job.op), Touched(f, k);
    && k < |f'.st.log| && f'.st.log[k].work.InFlight? && k !in f'.part
    && f'.st.w.fs.files == now.0 && f'.st.log[k].work.phase == Acted(now.1)
  }

  lemma ReadAll(f: Fine, k: nat)
    requires AtWork(f, k) && Parts(f) && f.st.log[k].work.job.op.ReadOp? && f.st.log[k].work.job.op.n > 0
    requires Touched(f, k).st.log[k].work.phase.Acted?
    ensures DidAll(f, k)
  {
    var files, op := f.st.w.fs.files, f.st.log[k].work.job.op;
    if op.path in files {
      ReadEnds(files, op, Moved(f, k));
    }
  }

  lemma WriteAll(f: Fine, k: nat)
    requires AtWork(f, k) && Parts(f) && f.st.log[k].work.job.op.WriteOp?
    requires !Partly(f, k) && Touched(f, k).st.log[k].work.phase.Acted?
    ensures DidAll(f, k)
  {
    hide Splice, Accepts;
    var op := f.st.log[k].work.job.op;
    if op.positional {
      assert Moved(f, k) == [];
      assert op.data[0..] == op.data;
    }
  }

  lemma AllAtOnce(f: Fine, k: nat)
    requires AtWork(f, k) && Parts(f) && !Partly(f, k) && Touched(f, k).st.log[k].work.phase.Acted?
    requires var op := f.st.log[k].work.job.op; op.ReadOp? ==> op.n > 0
    ensures var now, f' := Act(f.st.w.fs.files, f.st.log[k].work.job.op), Touched(f, k);
            f'.st.w.fs.files == now.0 && f'.st.log[k].work.phase == Acted(now.1) && k !in f'.part
  {
    hide Touched, Act, Parts, Partly;
    if f.st.log[k].work.job.op.ReadOp? {
      ReadAll(f, k);
    } else {
      WriteAll(f, k);
    }
  }

  /** A job that only reads with this byte. */
  lemma OnlyReads(f: Fine, k: nat)
    requires AtWork(f, k) && !Partly(f, k) && !TakesEffect(f, k) && Parts(f)
    ensures Completed(Touched(f, k)) == Completed(f) && Touched(f, k).st == f.st
  {
    hide Splice, Accepts, DrainFiles;
    var f' := Touched(f, k);
    assert f'.st.w == f.st.w;
    TouchOnly(f, k);
    OnlyRests(f, f', k);
    assert Rests(f') == Rests(f);
  }

  lemma PartsTouched(f: Fine, k: nat)
    requires AtWork(f, k) && Apart(f) && Parts(f)
    ensures Parts(Touched(f, k))
  {
    hide Conflict, PartOk, Touched, Act;
    var files, op, f' := f.st.w.fs.files, f.st.log[k].work.job.op, Touched(f, k);
    var x := TouchActs(f, k);
    TouchOnly(f, k);
    forall j | j in f'.part && j != k ensures PartOk(f'.st.w.fs.files, f'.st.log[j].work.job.op, f'.part[j]) {
      assert j in f.part;
      OthersApart(f, k, x, j);
      PartKept(files, x, f.st.log[j].work.job.op, f.part[j]);
    }
  }

  lemma OthersApart(f: Fine, k: nat, x: Op, j: nat)
    requires AtWork(f, k) && AtWork(f, j) && j != k && Apart(f) && PartOf(f, k, x)
    ensures !Conflict(x, f.st.log[j].work.job.op)
  {
    hide Conflict;
    var op, other := f.st.log[k].work.job.op, f.st.log[j].work.job.op;
    if x != op {
      var n :| 0 <= n < |op.data| && (x == RestOf(op, n) || x == ByteOp(op, n));
      PartConflicts(op, n, other);
    }
  }

  /** What a touch did: x, a part of the job, or nothing to the files. */
  predicate Did(f: Fine, k: nat, x: Op)
    requires AtWork(f, k)
  {
    var files, f' := f.st.w.fs.files, Touched(f, k);
    && (f'.st.w.fs.files == files || f'.st.w.fs.files == Act(files, x).0)
    && (k in f'.part ==> PartOk(f'.st.w.fs.files, f.st.log[k].work.job.op, f'.part[k]) && AtWork(f', k))
  }

  lemma ReadTouched(f: Fine, k: nat)
    requires AtWork(f, k) && Parts(f) && f.st.log[k].work.job.op.ReadOp?
    ensures Did(f, k, f.st.log[k].work.job.op)
  {
    var files, op, moved := f.st.w.fs.files, f.st.log[k].work.job.op, Moved(f, k);
    if op.path in files && |moved| < op.n && op.off + |moved| < |files[op.path]| {
      ReadMoves(files, op, moved);
    }
  }

  lemma RewriteTouched(f: Fine, k: nat)
    requires AtWork(f, k) && Parts(f) && f.st.log[k].work.job.op.Whole()
    ensures Did(f, k, f.st.log[k].work.job.op)
  {
    hide Splice, Accepts;
  }

  /** The last byte of a WRITE in place, or all of it. */
  lemma LastTouched(f: Fine, k: nat)
    requires AtWork(f, k) && Parts(f)
    requires var op := f.st.log[k].work.job.op;
             op.WriteOp? && op.positional && (op.path !in f.st.w.fs.files || |Moved(f, k)| + 1 >= |op.data|)
    ensures var op, n := f.st.log[k].work.job.op, |Moved(f, k)|;
            n <= |op.data| && Did(f, k, RestOf(op, n)) && (n == |op.data| ==> n == 0)
  {
    hide Splice;
  }

  /** Every touch does part of its job, if only looking at it. */
  lemma TouchActs(f: Fine, k: nat) returns (x: Op)
    requires AtWork(f, k) && Parts(f)
    ensures PartOf(f, k, x) && Did(f, k, x)
  {
    hide Touched, Act, PartOk;
    var files, op, n := f.st.w.fs.files, f.st.log[k].work.job.op, |Moved(f, k)|;
    x := op;
    if op.ReadOp? {
      ReadTouched(f, k);
    } else if op.Whole() {
      RewriteTouched(f, k);
    } else if op.path in files && n + 1 < |op.data| {
      x := ByteOp(op, n);
      WriteMoves(files, op, Moved(f, k));
      ByteTouched(f, k);
    } else {
      LastTouched(f, k);
      x := RestOf(op, n);
      RestWhole(op);
    }
  }

  // ---------- the simulation, move by move ----------

  /** What a move is to the server whose requests take effect at once: nothing, or one
      step. */
  function Effected(f: Fine, mv: Move): seq<Step>
  {
    match mv
    case By(step) => [step]
    case Touch(k) => if AtWork(f, k) && TakesEffect(f, k) then [Do(k)] else []
    case Begin(s, p) => [Alone(s, p)]
    case _ => []
  }

  /** A job's next byte: nothing, or the job as a whole. */
  lemma RelTouch(cfg: Config, c': Config, f: Fine, g: State, k: nat) returns (add: seq<Step>)
    requires AtWork(f, k) && Inv(cfg, f) && Rel(c', f, g) && Sound(g) && Excludes(c', g)
    ensures Parts(Touched(f, k))
    ensures add == Effected(f, Touch(k))
    ensures add == [] ==> Rel(c', Touched(f, k), g)
    ensures add == [Do(k)] ==> Legal(c', g, Do(k)) && Rel(c', Touched(f, k), Apply(c', g, Do(k)))
  {
    hide Serve;
    FineApart(cfg, c', f, g);
    NotEmpty(cfg, c', f, g, k);
    PartsTouched(f, k);
    assert !InView(f, k);
    hide Apart, Excludes, Sound, Touched, Rel, Parts, Viewed, Partly;
    if TakesEffect(f, k) {
      add := [Do(k)];
      RelEffect(c', f, g, k);
    } else {
      add := [];
      RelNoEffect(c', f, g, k);
    }
  }

  lemma RelEffect(c': Config, f: Fine, g: State, k: nat)
    requires AtWork(f, k) && Parts(f) && Apart(f) && Rel(c', f, g) && !InView(f, k) && TakesEffect(f, k)
    requires var op := f.st.log[k].work.job.op; op.ReadOp? ==> op.n > 0
    ensures Legal(c', g, Do(k)) && Rel(c', Touched(f, k), Apply(c', g, Do(k)))
  {
    hide Apart, AtOnce, PartOk, Act, DrainFiles, Touched, Rests, Serve, Parts;
    TouchOnly(f, k);
    TouchPhases(f, k);
    hide Apart, AtOnce, PartOk, Act, DrainFiles, Touched, Rests;
    var f', g' := Touched(f, k), Apply(c', g, Do(k));
    if f'.st.log[k].work.phase.Acted? {
      EndsWhole(f, k);
    } else {
      WriteGoesOn(f, k);
      StartsWritten(f, k);
    }
    RelOnly(c', f, f', g, g', k);
  }

  lemma RelNoEffect(c': Config, f: Fine, g: State, k: nat)
    requires AtWork(f, k) && Parts(f) && Apart(f) && Rel(c', f, g) && !InView(f, k) && !TakesEffect(f, k)
    requires var op := f.st.log[k].work.job.op; op.ReadOp? ==> op.n > 0
    ensures Rel(c', Touched(f, k), g)
  {
    hide Apart, AtOnce, PartOk, Act, DrainFiles, Touched, Rests;
    TouchOnly(f, k);
    TouchPhases(f, k);
    var op, f' := f.st.log[k].work.job.op, Touched(f, k);
    if Partly(f, k) {
      if |Moved(f, k)| + 1 < |op.data| {
        WriteGoesOn(f, k);
      } else {
        WriteEnds(f, k);
      }
    } else {
      OnlyReads(f, k);
    }
    RelOnly(c', f, f', g, g, k);
  }

  lemma NotEmpty(cfg: Config, c': Config, f: Fine, g: State, k: nat)
    requires AtWork(f, k) && Viewed(cfg, f) && SameLog(c', f, g) && Sound(g)
    ensures var op := f.st.log[k].work.job.op; op.ReadOp? ==> op.n > 0
  {
    hide AtOnce, ViewSound, Unopposed;
    assert !InView(f, k);
    if f.st.log[k].work.job.op.ReadOp? {
      assert Cores(g.log)[k] == g.log[k].Core() == Pending(f.st.log[k].work.job);
    }
  }

  /** A touch leaves the job at work or through. */
  lemma TouchPhases(f: Fine, k: nat)
    requires AtWork(f, k) && Parts(f)
    ensures var f' := Touched(f, k); f'.st.log[k].work.phase.Running? || f'.st.log[k].work.phase.Acted?
    ensures !Partly(f, k) && Partly(Touched(f, k), k) ==>
              var op := f.st.log[k].work.job.op;
              op.WriteOp? && op.positional && op.path in f.st.w.fs.files && |Moved(f, k)| + 1 < |op.data|
    ensures Partly(f, k) ==>
              var op := f.st.log[k].work.job.op; op.path in f.st.w.fs.files && |Moved(f, k)| < |op.data|
  {
    hide Splice, Accepts;
  }

  lemma StartsWritten(f: Fine, k: nat)
    requires AtWork(f, k) && Parts(f) && !Partly(f, k) && Partly(Touched(f, k), k)
    ensures Act(Completed(f).fs.files, f.st.log[k].work.job.op).1 == Written
  {
    TouchPhases(f, k);
    hide Touched, Splice, Accepts;
    DrainGrows(f.st.w.fs.files, Rests(f));
  }

  /** The relation when only job k moved. */
  lemma RelOnly(c': Config, f: Fine, f': Fine, g: State, g': State, k: nat)
    requires Rel(c', f, g) && OnlyAt(f, f', k) && !InView(f, k)
    requires g' == g.(w := g'.w, log := g'.log, calls := g'.calls) && g'.w == WithFiles(g.w, g'.w.fs.files)
    requires g'.w.fs.files == Completed(f').fs.files
    requires |g'.log| == |g.log| && forall j :: 0 <= j < |g.log| && j != k ==> g'.log[j] == g.log[j]
    requires g'.log[k] == f'.st.log[k].(work := WorkOf(c', f', k))
    ensures Rel(c', f', g')
  {
    hide AtOnce, Rests, DrainFiles;
    forall s | 0 <= s < |g.ts| ensures Looking(f', s) <==> Looking(f, s) {
    }
  }
}

/** The server is never stuck: from every state of every run, of any number of sessions,
    what has been taken can be finished and every reply sent, with no further packet. */
module Progress {
  import opened Messages
  import opened DataOps
  import opened Server
  import opened Lifecycle
  import opened Independence
  import opened Reordering
  import opened Pool
  import opened Runs
  import opened Schedules

  /** The steps an entry is from being sent. */
  function Rank(e: Entry): nat
  {
    match e.work
    case InFlight(_, Acted(_)) => 2
    case InFlight(_, Running) => 3
    case InFlight(_, Waiting) => 4
    case _ => if e.sent then 0 else 1
  }

  function Load(log: seq<Entry>): nat
  {
    if log == [] then 0 else Load(log[..|log| - 1]) + Rank(log[|log| - 1])
  }

  lemma {:induction false} Lighter(log: seq<Entry>, k: nat, e: Entry)
    requires k < |log| && Rank(e) < Rank(log[k])
    ensures Load(log[k := e]) < Load(log)
  {
    hide Rank;
    var n := |log| - 1;
    if k < n {
      Lighter(log[..n], k, e);
      assert log[k := e][..n] == log[..n][k := e];
    } else {
      assert log[k := e][..n] == log[..n];
    }
  }

  /** Every request is over and its reply sent, unless its session has ended. */
  predicate Settled(st: State)
  {
    forall k :: 0 <= k < |st.log| ==> st.log[k].Ready() && (st.log[k].sent || st.Ended(st.log[k].session))
  }

  /** The least of the entries that satisfy a condition. */
  lemma {:induction false} Least(p: nat -> bool, n: nat) returns (k: nat)
    requires exists i: nat :: i < n && p(i)
    ensures k < n && p(k) && forall j: nat :: j < k ==> !p(j)
  {
    if i: nat :| i < n - 1 && p(i) {
      k := Least(p, n - 1);
    } else {
      k := n - 1;
    }
  }

  lemma WaitingEnters(cfg: Config, st: State) returns (k: nat)
    requires exists i: nat :: i < |st.log| && st.log[i].work.InFlight? && st.log[i].work.phase.Waiting?
    requires forall i :: 0 <= i < |st.log| ==> !st.log[i].InDriver()
    ensures Legal(cfg, st, Enter(k))
  {
    hide Conflict, Serve, Prepare;
    var p := (i: nat) => i < |st.log| && st.log[i].work.InFlight? && st.log[i].work.phase.Waiting?;
    var i: nat :| i < |st.log| && st.log[i].work.InFlight? && st.log[i].work.phase.Waiting?;
    assert p(i);
    k := Least(p, |st.log|);
    forall j | 0 <= j < k && st.log[j].work.InFlight? ensures st.log[j].work.phase.Finished? {
      assert !p(j) && !st.log[j].InDriver();
    }
    assert Unopposed(st.log, k) && LockFree(cfg, st, st.log[k].work.job.lock);
  }

  lemma ReadySends(cfg: Config, st: State) returns (k: nat)
    requires forall i :: 0 <= i < |st.log| ==> st.log[i].Ready() && st.log[i].session < |st.out|
    requires exists i: nat :: i < |st.log| && !st.log[i].sent && !st.Ended(st.log[i].session)
    ensures Legal(cfg, st, Send(k))
  {
    hide Serve, Prepare;
    var p := (i: nat) => i < |st.log| && !st.log[i].sent && !st.Ended(st.log[i].session);
    var i: nat :| i < |st.log| && !st.log[i].sent && !st.Ended(st.log[i].session);
    assert p(i);
    k := Least(p, |st.log|);
    forall j | 0 <= j < k && st.log[j].session == st.log[k].session ensures st.log[j].sent {
      assert !p(j);
    }
  }

  /** While something is left to do, something can be done about it. */
  lemma CanGoOn(cfg: Config, st: State) returns (step: Step)
    requires !Settled(st) && forall i :: 0 <= i < |st.log| ==> st.log[i].session < |st.out|
    ensures Legal(cfg, st, step) && (step.Enter? || step.Do? || step.Leave? || step.Send?)
  {
    hide Unopposed, LockFree;
    if k: nat :| k < |st.log| && st.log[k].work.InFlight? && st.log[k].work.phase.Running? {
      step := Do(k);
    } else if k: nat :| k < |st.log| && st.log[k].work.InFlight? && st.log[k].work.phase.Acted? {
      step := Leave(k);
    } else if k: nat :| k < |st.log| && st.log[k].work.InFlight? && st.log[k].work.phase.Waiting? {
      var j := WaitingEnters(cfg, st);
      step := Enter(j);
    } else {
      var j := ReadySends(cfg, st);
      step := Send(j);
    }
  }

  lemma StepLightens(cfg: Config, st: State, step: Step)
    requires Legal(cfg, st, step) && (step.Enter? || step.Do? || step.Leave? || step.Send?)
    ensures var st' := Apply(cfg, st, step);
            && Load(st'.log) < Load(st.log) && |st'.log| == |st.log| && st'.ends == st.ends
            && (forall i :: 0 <= i < |st.log| ==>
                  st'.log[i].session == st.log[i].session && st'.log[i].packet == st.log[i].packet)
  {
    hide Unopposed, LockFree, Act, Render, Load;
    var st' := Apply(cfg, st, step);
    assert st'.log == st.log[step.k := st'.log[step.k]];
    Lighter(st.log, step.k, st'.log[step.k]);
  }

  /** From any state of any run, of any number of sessions, some continuation takes no
      packet and ends no session, finishes every request, and sends every reply that
      still has a session to go to. */
  lemma {:induction false} Finishes(cfg: Config, w: World, sessions: nat, steps: seq<Step>) returns (more: seq<Step>)
    requires LegalRun(cfg, Start(w, sessions), steps)
    ensures LegalRun(cfg, Start(w, sessions), steps + more)
    ensures var st, st' := After(cfg, Start(w, sessions), steps), After(cfg, Start(w, sessions), steps + more);
            Settled(st') && SamePackets(st.log, st'.log) && st'.ends == st.ends
    decreases Load(After(cfg, Start(w, sessions), steps).log)
  {
    hide Start, After, LegalRun, Legal, Apply, Load, Settled;
    var st0 := Start(w, sessions);
    var st := After(cfg, st0, steps);
    if Settled(st) {
      more := [];
      assert steps + [] == steps;
    } else {
      RunSessions(cfg, w, sessions, steps);
      var step := CanGoOn(cfg, st);
      Extends(cfg, st0, steps, step);
      StepLightens(cfg, st, step);
      var rest := Finishes(cfg, w, sessions, steps + [step]);
      more := [step] + rest;
      assert steps + more == steps + [step] + rest;
    }
  }
}

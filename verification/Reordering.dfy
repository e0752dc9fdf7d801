/** What a list of requests still owes: some have been answered, the rest are
    pending. Draining runs the pending ones in arrival order. Here: when running
    a pending request early leaves what is owed unchanged, and exactly when not. */
module Reordering {
  import opened Bytes
  import opened DataOps
  import opened Messages
  import opened Server

  datatype Core = Pending(job: Job) | Replied(reply: Message)

  predicate WellFormed(cs: seq<Core>)
  {
    forall i :: 0 <= i < |cs| && cs[i].Pending? && cs[i].job.op.ReadOp? ==> cs[i].job.op.n > 0
  }

  function CoreFiles(files: Files, c: Core): Files
  {
    if c.Pending? then Act(files, c.job.op).0 else files
  }

  function CoreReply(files: Files, c: Core): Message
  {
    if c.Pending? then Render(c.job.id, Act(files, c.job.op).1) else c.reply
  }

  function DrainFiles(files: Files, cs: seq<Core>): Files
    decreases |cs|
  {
    if cs == [] then files else DrainFiles(CoreFiles(files, cs[0]), cs[1..])
  }

  function DrainReplies(files: Files, cs: seq<Core>): (rs: seq<Message>)
    ensures |rs| == |cs|
    decreases |cs|
  {
    if cs == [] then [] else [CoreReply(files, cs[0])] + DrainReplies(CoreFiles(files, cs[0]), cs[1..])
  }

  /** Request k after it has run on files. */
  function Done(files: Files, j: Job): Core { Replied(Render(j.id, Act(files, j.op).1)) }

  lemma {:induction false} DrainAppend(files: Files, cs: seq<Core>, c: Core)
    ensures DrainFiles(files, cs + [c]) == CoreFiles(DrainFiles(files, cs), c)
    ensures DrainReplies(files, cs + [c]) == DrainReplies(files, cs) + [CoreReply(DrainFiles(files, cs), c)]
    decreases |cs|
  {
    hide CoreFiles, CoreReply;
    if cs == [] {
      assert cs + [c] == [c];
    } else {
      assert (cs + [c])[1..] == cs[1..] + [c];
      DrainAppend(CoreFiles(files, cs[0]), cs[1..], c);
    }
  }

  /** With nothing pending the files are as they are and the replies are given. */
  lemma {:induction false} DrainSettled(files: Files, cs: seq<Core>)
    requires forall i :: 0 <= i < |cs| ==> cs[i].Replied?
    ensures DrainFiles(files, cs) == files
    ensures forall i :: 0 <= i < |cs| ==> DrainReplies(files, cs)[i] == cs[i].reply
    decreases |cs|
  {
    if cs != [] {
      DrainSettled(files, cs[1..]);
    }
  }

  /** No pending request before k conflicts with it. */
  predicate Unblocked(cs: seq<Core>, k: nat)
    requires k < |cs| && cs[k].Pending?
  {
    forall j :: 0 <= j < k && cs[j].Pending? ==> !Conflict(cs[j].job.op, cs[k].job.op)
  }

  lemma UnblockedTail(cs: seq<Core>, k: nat)
    requires 0 < k < |cs| && cs[k].Pending? && Unblocked(cs, k)
    ensures Unblocked(cs[1..], k - 1)
    ensures cs[0].Pending? ==> !Conflict(cs[0].job.op, cs[k].job.op)
  {
    hide Conflict;
    forall j | 0 <= j < k - 1 && cs[1..][j].Pending? ensures !Conflict(cs[1..][j].job.op, cs[1..][k - 1].job.op) {
      assert cs[1..][j] == cs[j + 1];
    }
  }

  lemma FilesCommute(files: Files, a: Op, b: Op)
    requires !Conflict(a, b)
    ensures Act(Act(files, a).0, b).0 == Act(Act(files, b).0, a).0
  {
    hide Act, Conflict;
    ActGrows(files, a);
    ActGrows(files, b);
    if a.WriteOp? && b.WriteOp? {
      WritesCommute(files, a, b);
    } else if a.ReadOp? {
      ActGrows(Act(files, b).0, a);
    } else {
      ActGrows(Act(files, a).0, b);
    }
  }

  /** Running an unblocked request early never changes the files in the end. */
  lemma {:induction false} EarlyFiles(files: Files, cs: seq<Core>, k: nat, r: Message)
    requires k < |cs| && cs[k].Pending? && Unblocked(cs, k)
    ensures DrainFiles(Act(files, cs[k].job.op).0, cs[k := Replied(r)]) == DrainFiles(files, cs)
    decreases k
  {
    hide Act, Conflict, Unblocked;
    var op := cs[k].job.op;
    var early := cs[k := Replied(r)];
    if k == 0 {
      assert early[1..] == cs[1..];
    } else {
      UnblockedTail(cs, k);
      assert early[1..] == cs[1..][k - 1 := Replied(r)];
      if cs[0].Pending? {
        FilesCommute(files, cs[0].job.op, op);
      }
      EarlyFiles(CoreFiles(files, cs[0]), cs[1..], k - 1, r);
    }
  }

  /** Running k now overtakes every pending request before it; this is quiet when
      no READ and WRITE among the pairs so swapped meet across the end of their
      file, as it is when the overtaken one would run. */
  predicate Quietly(files: Files, cs: seq<Core>, k: nat)
    requires k < |cs| && cs[k].Pending?
    decreases k
  {
    k == 0 ||
    ((cs[0].Pending? ==> Settled(files, cs[0].job.op, cs[k].job.op)) &&
     Quietly(CoreFiles(files, cs[0]), cs[1..], k - 1))
  }

  /** It is enough that no pair meets across the end of its file as that is now:
      files only grow until then. */
  lemma {:induction false} SettledIsQuiet(files: Files, cs: seq<Core>, k: nat)
    requires k < |cs| && cs[k].Pending?
    requires forall j :: 0 <= j < k && cs[j].Pending? ==> Settled(files, cs[j].job.op, cs[k].job.op)
    ensures Quietly(files, cs, k)
    decreases k
  {
    hide Settled, Act, Grown;
    if k > 0 {
      var files1 := CoreFiles(files, cs[0]);
      CoreGrows(files, cs[0]);
      forall j | 0 <= j < k - 1 && cs[1..][j].Pending? ensures Settled(files1, cs[1..][j].job.op, cs[k].job.op) {
        assert cs[1..][j] == cs[j + 1];
        SettledGrows(files, files1, cs[j + 1].job.op, cs[k].job.op);
      }
      SettledIsQuiet(files1, cs[1..], k - 1);
    }
  }

  /** A quiet overtaking changes no reply. */
  lemma {:induction false} EarlyReplies(files: Files, cs: seq<Core>, k: nat)
    requires k < |cs| && cs[k].Pending? && Unblocked(cs, k) && WellFormed(cs) && Quietly(files, cs, k)
    ensures DrainReplies(Act(files, cs[k].job.op).0, cs[k := Done(files, cs[k].job)]) == DrainReplies(files, cs)
    decreases k
  {
    hide Act, Conflict, Unblocked, Settled, Render;
    var op := cs[k].job.op;
    var early := cs[k := Done(files, cs[k].job)];
    if k == 0 {
      assert early[1..] == cs[1..];
    } else {
      UnblockedTail(cs, k);
      var files1 := CoreFiles(files, cs[0]);
      EarlyReplies(files1, cs[1..], k - 1);
      if cs[0].Pending? {
        Commute(files, cs[0].job.op, op);
      }
      assert early[1..] == cs[1..][k - 1 := Done(files1, cs[k].job)];
    }
  }

  // ---------- an overtaking that is not quiet shows ----------

  /** How many bytes a READ would return. */
  function ReadLen(files: Files, op: Op): nat
    requires op.ReadOp?
  {
    if op.path in files then Max(0, Min(op.End(), |files[op.path]|) - op.off) else 0
  }

  function ReplyLen(m: Message): nat { if m.Data? then |m.data| else 0 }

  lemma ReadLenIsReplyLen(files: Files, id: uint32, op: Op)
    requires op.ReadOp?
    ensures ReplyLen(Render(id, Act(files, op).1)) == ReadLen(files, op)
  {
  }

  lemma ReadLenGrows(files: Files, later: Files, op: Op)
    requires op.ReadOp? && Grown(files, later)
    ensures ReadLen(files, op) <= ReadLen(later, op)
  {
  }

  lemma CoreGrows(files: Files, c: Core)
    ensures Grown(files, CoreFiles(files, c))
  {
    if c.Pending? {
      ActGrows(files, c.job.op);
    }
  }

  /** A pending READ will return at least what it would now. */
  lemma {:induction false} PendingReadLen(files: Files, cs: seq<Core>, k: nat)
    requires k < |cs| && cs[k].Pending? && cs[k].job.op.ReadOp?
    ensures ReplyLen(DrainReplies(files, cs)[k]) >= ReadLen(files, cs[k].job.op)
    decreases k
  {
    hide Act, Render, CoreFiles, ReadLen, ReplyLen, Grown;
    if k == 0 {
      ReadLenIsReplyLen(files, cs[0].job.id, cs[0].job.op);
    } else {
      var files1 := CoreFiles(files, cs[0]);
      PendingReadLen(files1, cs[1..], k - 1);
      CoreGrows(files, cs[0]);
      ReadLenGrows(files, files1, cs[k].job.op);
    }
  }

  /** Entry i will not be answered as owed: it was answered otherwise, or it is a
      READ that already sees more bytes than it should. */
  predicate Doomed(files: Files, c: Core, owed: Message)
  {
    match c
    case Replied(r) => r != owed
    case Pending(j) => j.op.ReadOp? && ReadLen(files, j.op) > ReplyLen(owed)
  }

  /** Where an overtaking that is not quiet shows: either k itself is a READ that
      will come back short, or a READ it overtakes will come back long. */
  predicate Shows(files: Files, cs: seq<Core>, k: nat, i: nat)
    requires k < |cs| && cs[k].Pending? && i <= k
  {
    var op, owed := cs[k].job.op, ReplyLen(DrainReplies(files, cs)[i]);
    if i == k then op.ReadOp? && ReadLen(files, op) < owed
    else
      && cs[i].Pending? && cs[i].job.op.ReadOp? && op.WriteOp? && op.positional
      && op.path == cs[i].job.op.path && op.path in files
      && owed < Min(cs[i].job.op.End(), op.End()) - cs[i].job.op.off
  }

  lemma UnsettledHead(files: Files, cs: seq<Core>, k: nat) returns (i: nat)
    requires 0 < k < |cs| && cs[k].Pending? && cs[0].Pending? && WellFormed(cs)
    requires !Conflict(cs[0].job.op, cs[k].job.op) && !Settled(files, cs[0].job.op, cs[k].job.op)
    ensures i <= k && Shows(files, cs, k, i)
  {
    var u, op := cs[0].job.op, cs[k].job.op;
    var files1 := CoreFiles(files, cs[0]);
    if u.ReadOp? {
      i := 0;
      ReadLenIsReplyLen(files, cs[0].job.id, u);
      assert DrainReplies(files, cs)[0] == CoreReply(files, cs[0]);
    } else {
      i := k;
      assert ReadLen(files, op) < ReadLen(files1, op);
      PendingReadLen(files1, cs[1..], k - 1);
      assert DrainReplies(files, cs)[k] == DrainReplies(files1, cs[1..])[k - 1];
    }
  }

  lemma {:induction false} UnquietShows(files: Files, cs: seq<Core>, k: nat) returns (i: nat)
    requires k < |cs| && cs[k].Pending? && Unblocked(cs, k) && WellFormed(cs) && !Quietly(files, cs, k)
    ensures i <= k && Shows(files, cs, k, i)
    decreases k
  {
    hide Act, Conflict, Unblocked, Settled, Render, ReadLen, ReplyLen;
    UnblockedTail(cs, k);
    if cs[0].Pending? && !Settled(files, cs[0].job.op, cs[k].job.op) {
      i := UnsettledHead(files, cs, k);
    } else {
      var files1 := CoreFiles(files, cs[0]);
      var j := UnquietShows(files1, cs[1..], k - 1);
      i := j + 1;
      assert DrainReplies(files, cs)[i] == DrainReplies(files1, cs[1..])[j];
      CoreGrows(files, cs[0]);
      if i == k {
        ReadLenGrows(files, files1, cs[k].job.op);
      }
    }
  }

  /** So the request that shows is doomed once k has run. */
  lemma ShowsDooms(files: Files, cs: seq<Core>, k: nat, i: nat)
    requires k < |cs| && cs[k].Pending? && i <= k && Shows(files, cs, k, i)
    ensures Doomed(Act(files, cs[k].job.op).0, cs[k := Done(files, cs[k].job)][i], DrainReplies(files, cs)[i])
  {
    if i == k {
      ReadLenIsReplyLen(files, cs[k].job.id, cs[k].job.op);
    }
  }

  /** A doomed request that runs is answered wrongly. */
  lemma DoomedRuns(files: Files, j: Job, owed: Message)
    requires Doomed(files, Pending(j), owed)
    ensures Doomed(Act(files, j.op).0, Done(files, j), owed)
  {
    ReadLenIsReplyLen(files, j.id, j.op);
  }

  lemma DoomStays(files: Files, later: Files, c: Core, owed: Message)
    requires Doomed(files, c, owed) && Grown(files, later)
    ensures Doomed(later, c, owed)
  {
    if c.Pending? {
      ReadLenGrows(files, later, c.job.op);
    }
  }
}

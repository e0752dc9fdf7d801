/** READs and WRITEs that move their bytes one at a time, beside others with which
    they have no byte in common: how far one has got does not show. */
module Bytewise {
  import opened Bytes
  import opened Content
  import opened DataOps
  import opened Server
  import opened Reordering
  import opened Pool
  import opened Grain

  // ---------- one request beside what others have still to do ----------

  lemma ConflictSymmetric(a: Op, b: Op)
    ensures Conflict(a, b) <==> Conflict(b, a)
  {
  }

  /** Byte n of a WRITE in place. */
  function ByteOp(op: Op, n: nat): Op
    requires op.WriteOp? && n < |op.data|
  {
    WriteOp(op.path, op.off + n, [op.data[n]], true)
  }

  /** A part of a WRITE meets only what the whole of it meets. */
  lemma PartConflicts(op: Op, n: nat, b: Op)
    requires op.WriteOp? && n < |op.data| && !Conflict(op, b)
    ensures !Conflict(RestOf(op, n), b) && !Conflict(ByteOp(op, n), b)
    ensures !Conflict(b, RestOf(op, n)) && !Conflict(b, ByteOp(op, n))
  {
  }

  /** The rest of a WRITE is its next byte and then the rest. */
  lemma RestStep(files: Files, op: Op, n: nat)
    requires op.WriteOp? && n + 1 < |op.data|
    ensures Act(files, RestOf(op, n)).0 == Act(Act(files, ByteOp(op, n)).0, RestOf(op, n + 1)).0
  {
    if op.path in files {
      SpliceSplits(files[op.path], op.off + n, op.data[n..]);
      assert op.data[n..][0] == op.data[n] && op.data[n..][1..] == op.data[n + 1..];
    }
  }

  lemma SpliceSplits(file: bytes, off: nat, data: bytes)
    requires data != []
    ensures Splice(file, off, data) == Splice(Splice(file, off, [data[0]]), off + 1, data[1..])
  {
  }

  /** Nothing pending in cs conflicts with x, and every pending request is a WRITE. */
  predicate Beside(cs: seq<Core>, x: Op)
  {
    forall i :: 0 <= i < |cs| && cs[i].Pending? ==> cs[i].job.op.WriteOp? && !Conflict(cs[i].job.op, x)
  }

  lemma BesideTail(cs: seq<Core>, x: Op)
    requires cs != [] && Beside(cs, x)
    ensures Beside(cs[1..], x) && (cs[0].Pending? ==> cs[0].job.op.WriteOp? && !Conflict(cs[0].job.op, x))
  {
    hide Conflict;
    assert forall i :: 0 <= i < |cs| - 1 ==> cs[1..][i] == cs[i + 1];
  }

  /** x may run before everything pending or after it. */
  lemma {:induction false} Passes(files: Files, cs: seq<Core>, x: Op)
    requires Beside(cs, x)
    ensures DrainFiles(Act(files, x).0, cs) == Act(DrainFiles(files, cs), x).0
    decreases |cs|
  {
    hide Act, Conflict, Beside;
    if cs != [] {
      BesideTail(cs, x);
      if cs[0].Pending? {
        FilesCommute(files, cs[0].job.op, x);
      }
      Passes(CoreFiles(files, cs[0]), cs[1..], x);
    }
  }

  /** Pending at k or run last: the same files. */
  lemma {:induction false} Inserted(files: Files, cs: seq<Core>, k: nat, j: Job)
    requires k < |cs| && cs[k].Replied? && Beside(cs, j.op)
    ensures DrainFiles(files, cs[k := Pending(j)]) == Act(DrainFiles(files, cs), j.op).0
    decreases k
  {
    hide Act, Conflict, Beside;
    BesideTail(cs, j.op);
    var cs' := cs[k := Pending(j)];
    if k == 0 {
      assert cs'[1..] == cs[1..];
      Passes(files, cs[1..], j.op);
    } else {
      assert cs'[1..] == cs[1..][k - 1 := Pending(j)];
      Inserted(CoreFiles(files, cs[0]), cs[1..], k - 1, j);
    }
  }

  /** Every pending request is settled with x. */
  predicate AllSettled(files: Files, cs: seq<Core>, x: Op)
  {
    forall i :: 0 <= i < |cs| && cs[i].Pending? ==> Settled(files, cs[i].job.op, x)
  }

  /** And it is answered alike. */
  lemma {:induction false} OutcomePasses(files: Files, cs: seq<Core>, x: Op)
    requires Beside(cs, x) && AllSettled(files, cs, x) && (x.ReadOp? ==> x.n > 0)
    ensures Act(DrainFiles(files, cs), x).1 == Act(files, x).1
    decreases |cs|
  {
    hide Act, Conflict, Beside, Settled;
    if cs != [] {
      BesideTail(cs, x);
      var files1 := CoreFiles(files, cs[0]);
      if cs[0].Pending? {
        Commute(files, cs[0].job.op, x);
      }
      CoreGrows(files, cs[0]);
      forall i | 0 <= i < |cs| - 1 && cs[1..][i].Pending? ensures Settled(files1, cs[1..][i].job.op, x) {
        assert cs[1..][i] == cs[i + 1];
        SettledGrows(files, files1, cs[i + 1].job.op, x);
      }
      OutcomePasses(files1, cs[1..], x);
    }
  }

  lemma {:induction false} DrainGrows(files: Files, cs: seq<Core>)
    ensures Grown(files, DrainFiles(files, cs))
    decreases |cs|
  {
    hide CoreFiles;
    if cs != [] {
      CoreGrows(files, cs[0]);
      DrainGrows(CoreFiles(files, cs[0]), cs[1..]);
    }
  }

  // ---------- what a job has moved so far ----------

  /** What a READ has read is still there, a WRITE has reached its next byte, and a
      rewrite has read the file as it is. */
  predicate PartOk(files: Files, op: Op, moved: bytes)
  {
    && op.path in files
    && var file := files[op.path];
    match op
    case ReadOp(_, off, n) => 0 < |moved| <= n && off + |moved| <= |file| && moved == file[off..off + |moved|]
    case WriteOp(_, off, data, true) => 0 < |moved| < |data| && off + |moved| <= |file|
    case WriteOp(_, _, _, false) => moved == file
  }

  /** Another request with no byte in common leaves that so. */
  lemma PartKept(files: Files, x: Op, op: Op, moved: bytes)
    requires PartOk(files, op, moved) && !Conflict(x, op)
    ensures PartOk(Act(files, x).0, op, moved)
  {
    if x.WriteOp? && x.path == op.path && op.ReadOp? {
      var file, file' := files[op.path], Act(files, x).0[op.path];
      assert |file| <= |file'|;
      forall i | op.off <= i < op.off + |moved| ensures file'[i] == file[i] {
      }
      assert file'[op.off..op.off + |moved|] == moved;
    }
  }

  /** A READ beside the rest of a WRITE does not notice it: the first byte of the
      WRITE has moved the end of the file past the READ already. */
  lemma RestSettled(files: Files, r: Op, op: Op, moved: bytes)
    requires op.WriteOp? && op.positional && PartOk(files, op, moved) && !Conflict(op, r) && (r.ReadOp? ==> r.n > 0)
    ensures Settled(files, RestOf(op, |moved|), r)
  {
  }

  /** A READ that has come to its end has read what it would read at once. */
  lemma ReadEnds(files: Files, op: Op, moved: bytes)
    requires op.ReadOp? && op.n > 0 && op.path in files && (moved == [] || PartOk(files, op, moved))
    requires |moved| == op.n || op.off + |moved| >= |files[op.path]|
    ensures Act(files, op) == (files, if moved == [] then Eof else Chunk(moved))
  {
  }

  /** The next byte of a READ. */
  lemma ReadMoves(files: Files, op: Op, moved: bytes)
    requires op.ReadOp? && op.path in files && (moved == [] || PartOk(files, op, moved))
    requires |moved| < op.n && op.off + |moved| < |files[op.path]|
    ensures PartOk(files, op, moved + [files[op.path][op.off + |moved|]])
  {
    var file := files[op.path];
    assert file[op.off..op.off + |moved| + 1] == file[op.off..op.off + |moved|] + [file[op.off + |moved|]];
    assert moved == [] ==> file[op.off..op.off + |moved|] == [];
  }

  /** The next byte of a WRITE. */
  lemma WriteMoves(files: Files, op: Op, moved: bytes)
    requires op.WriteOp? && op.positional && op.path in files && |moved| + 1 < |op.data|
    ensures PartOk(Act(files, ByteOp(op, |moved|)).0, op, moved + [op.data[|moved|]])
  {
  }
}

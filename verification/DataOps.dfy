/** READ and WRITE as operations on the export's files, and when two of them may
    run in either order. */
module DataOps {
  import opened Bytes
  import opened Content

  type Files = map<bytes, bytes>

  /** What a prepared READ or WRITE will do. A write that is not positional
      rewrites the whole file. */
  datatype Op =
    | ReadOp(path: bytes, off: nat, n: nat)
    | WriteOp(path: bytes, off: nat, data: bytes, positional: bool)
  {
    /** One past the last byte of the span the request registers. */
    function End(): nat { if ReadOp? then off + n else off + |data| }

    predicate Whole() { WriteOp? && !positional }
  }

  datatype Outcome = Chunk(data: bytes) | Eof | Written | Refused | Missing

  function Act(files: Files, op: Op): (Files, Outcome)
  {
    if op.path !in files then (files, Missing)
    else
      var f := files[op.path];
      match op
      case ReadOp(path, off, n) =>
        (files, match ReadSpan(f, off, n) case Some(d) => Chunk(d) case None => Eof)
      case WriteOp(path, off, data, positional) =>
        if positional || Accepts(|f|, off, |data|) then (files[path := Splice(f, off, data)], Written)
        else (files, Refused)
  }

  /** The range rule: same path, at least one write, and a byte in common. A
      whole-file rewrite meets everything on its path. */
  predicate Conflict(a: Op, b: Op)
  {
    && a.path == b.path
    && (a.WriteOp? || b.WriteOp?)
    && (a.Whole() || b.Whole() || !Disjoint(a.off, a.End(), b.off, b.End()))
  }

  /** w does not move an end of file that the read r reaches past. */
  predicate StableUnder(files: Files, r: Op, w: Op)
  {
    r.path != w.path || r.path !in files || Stable(r.off, r.End(), w.End(), |files[r.path]|)
  }

  /** If one of the two is a read and the other a write, the write leaves the
      read's end of file alone. */
  predicate Settled(files: Files, a: Op, b: Op)
  {
    && (a.ReadOp? && b.WriteOp? ==> StableUnder(files, a, b))
    && (b.ReadOp? && a.WriteOp? ==> StableUnder(files, b, a))
  }

  /** Files only appear to grow under READ and WRITE. */
  predicate Grown(files: Files, later: Files)
  {
    files.Keys == later.Keys && forall p :: p in files ==> |files[p]| <= |later[p]|
  }

  lemma ActGrows(files: Files, op: Op)
    ensures Grown(files, Act(files, op).0)
    ensures op.ReadOp? ==> Act(files, op).0 == files
  {
  }

  lemma SettledGrows(files: Files, later: Files, a: Op, b: Op)
    requires Grown(files, later) && Settled(files, a, b)
    ensures Settled(later, a, b)
  {
  }

  lemma WritesCommute(files: Files, a: Op, b: Op)
    requires a.WriteOp? && b.WriteOp? && !Conflict(a, b)
    ensures Act(Act(files, a).0, b).0 == Act(Act(files, b).0, a).0
    ensures Act(Act(files, a).0, b).1 == Act(files, b).1
  {
    if a.path == b.path && a.path in files {
      SplicesCommute(files[a.path], Patch(a.off, a.data), Patch(b.off, b.data));
    }
  }

  /** A pending write that conflicts with a non-empty read in nothing changes its
      answer exactly when it is not settled. */
  lemma WriteBesideRead(files: Files, r: Op, w: Op)
    requires r.ReadOp? && w.WriteOp? && r.n > 0 && !Conflict(r, w)
    ensures Act(Act(files, w).0, r).1 == Act(files, r).1 <==> StableUnder(files, r, w)
  {
    if r.path == w.path && r.path in files {
      ReadCommutes(files[r.path], r.off, r.n, Patch(w.off, w.data));
    }
  }

  /** Two requests that do not conflict and are settled run in either order with
      the same files and the same answers. */
  lemma Commute(files: Files, a: Op, b: Op)
    requires !Conflict(a, b) && Settled(files, a, b)
    requires (a.ReadOp? ==> a.n > 0) && (b.ReadOp? ==> b.n > 0)
    ensures Act(Act(files, a).0, b).0 == Act(Act(files, b).0, a).0
    ensures Act(Act(files, a).0, b).1 == Act(files, b).1
    ensures Act(Act(files, b).0, a).1 == Act(files, a).1
  {
    hide Act, StableUnder;
    ActGrows(files, a);
    ActGrows(files, b);
    if a.WriteOp? && b.WriteOp? {
      WritesCommute(files, a, b);
      WritesCommute(files, b, a);
    } else if a.ReadOp? && b.WriteOp? {
      ActGrows(Act(files, b).0, a);
      WriteBesideRead(files, a, b);
    } else if a.WriteOp? {
      ActGrows(Act(files, a).0, b);
      WriteBesideRead(files, b, a);
    } else {
      ActGrows(Act(files, a).0, b);
      ActGrows(Act(files, b).0, a);
    }
  }
}

/** The byte content of one file: what a positional write and a read mean, how
    the whole-file fallbacks compute the same thing, and which pairs of
    operations may trade places. */
module Content {
  import opened Bytes

  /** A write of data at off: gaps are zero-filled, and the file reaches off even
      when there is no data. */
  function Splice(file: bytes, off: nat, data: bytes): (r: bytes)
  {
    seq(Max(|file|, off + |data|), i requires 0 <= i =>
      if off <= i < off + |data| then data[i - off] else if i < |file| then file[i] else 0)
  }

  /** A read of n bytes at off; None is end of file. */
  function ReadSpan(file: bytes, off: nat, n: nat): Option<bytes>
  {
    if off >= |file| then None else Some(file[off..Min(off + n, |file|)])
  }

  // ---------- the two read paths ----------

  function SatAdd(a: uint64, b: uint64): uint64
  {
    if a > MAX_UINT64 - b then MAX_UINT64 else a + b
  }

  function ReadWhole(data: bytes, off: uint64, n: uint32): Option<bytes>
  {
    if off >= |data| then None else Some(data[off..Min(SatAdd(off, n), |data|)])
  }

  /** A File.ReadAt whose driver honours io.ReaderAt. */
  function ReadAt(file: bytes, off: uint64, n: uint32): Option<bytes>
  {
    if off > MAX_INT64 then None else ReadSpan(file, off, n)
  }

  /** On every file an int64 can measure, both paths are the mathematical read. */
  lemma ReadPathsAgree(file: bytes, off: uint64, n: uint32)
    requires |file| <= MAX_INT64
    ensures ReadWhole(file, off, n) == ReadSpan(file, off, n)
    ensures ReadAt(file, off, n) == ReadSpan(file, off, n)
  {
  }

  // ---------- the whole-file write fallback ----------

  const MAX_SPLICE_GROWTH: nat := 8 * 0x10_0000
  const MAX_FILE_SPLICE: nat := 0x4000_0000

  /** Whether rewriting a file of len bytes may serve a write of n bytes at off. */
  predicate Accepts(len: nat, off: nat, n: nat)
  {
    var end := off + n;
    end <= MAX_UINT64 && (end <= len || (end - len <= MAX_SPLICE_GROWTH && end <= MAX_FILE_SPLICE))
  }

  /** writeSplice's buffer work: the file is overwritten in place, or copied into
      a longer zeroed buffer first. A null result is a refusal. */
  method WriteSplice(file: array<byte>, off: uint64, data: bytes) returns (buf: array?<byte>)
    modifies file
    ensures buf == null <==> !Accepts(file.Length, off, |data|)
    ensures buf != null ==> buf[..] == Splice(old(file[..]), off, data)
    ensures buf != file ==> file[..] == old(file[..])
    ensures buf != null && buf != file ==>
              fresh(buf) && file.Length < buf.Length <= Min(file.Length + MAX_SPLICE_GROWTH, MAX_FILE_SPLICE)
  {
    if |data| > MAX_UINT64 {
      return null;
    }
    var end := (off + |data|) % 0x1_0000_0000_0000_0000;
    if end < off || (end > file.Length && (end - file.Length > MAX_SPLICE_GROWTH || end > MAX_FILE_SPLICE)) {
      return null;
    }
    var out: array<byte> := file;
    if end > file.Length {
      out := new byte[end](_ => 0);
      forall i | 0 <= i < file.Length {
        out[i] := file[i];
      }
    }
    forall i | 0 <= i < |data| {
      out[off + i] := data[i];
    }
    buf := out;
    assert buf[..] == Splice(old(file[..]), off, data);
  }

  // ---------- lists of writes ----------

  datatype Patch = Patch(off: nat, data: bytes) {
    function End(): nat { off + |data| }

    predicate Covers(i: int) { off <= i < End() }
  }

  function SpliceAll(file: bytes, ws: seq<Patch>): bytes
  {
    if ws == [] then file
    else Splice(SpliceAll(file, ws[..|ws| - 1]), ws[|ws| - 1].off, ws[|ws| - 1].data)
  }

  /** The fallback server: each write is served or refused on the file as it is. */
  function FallbackAll(file: bytes, ws: seq<Patch>): bytes
  {
    if ws == [] then file
    else
      var f, w := FallbackAll(file, ws[..|ws| - 1]), ws[|ws| - 1];
      if Accepts(|f|, w.off, |w.data|) then Splice(f, w.off, w.data) else f
  }

  function Accepted(file: bytes, ws: seq<Patch>): seq<Patch>
  {
    if ws == [] then []
    else
      var f, w := FallbackAll(file, ws[..|ws| - 1]), ws[|ws| - 1];
      Accepted(file, ws[..|ws| - 1]) + if Accepts(|f|, w.off, |w.data|) then [w] else []
  }

  /** The last write of the list that covers byte i. */
  function LastCover(ws: seq<Patch>, i: nat): Option<Patch>
  {
    if ws == [] then None
    else if ws[|ws| - 1].Covers(i) then Some(ws[|ws| - 1])
    else LastCover(ws[..|ws| - 1], i)
  }

  function Reach(len: nat, ws: seq<Patch>): nat
  {
    if ws == [] then len else Max(Reach(len, ws[..|ws| - 1]), ws[|ws| - 1].End())
  }

  function ByteOf(file: bytes, ws: seq<Patch>, i: nat): byte
  {
    match LastCover(ws, i)
    case Some(w) => if 0 <= i - w.off < |w.data| then w.data[i - w.off] else 0
    case None => if i < |file| then file[i] else 0
  }

  lemma {:induction false} NoCoverBeyondReach(len: nat, ws: seq<Patch>, i: nat)
    requires i >= Reach(len, ws)
    ensures i >= len && LastCover(ws, i) == None
  {
    if ws != [] {
      NoCoverBeyondReach(len, ws[..|ws| - 1], i);
    }
  }

  /** Last writer wins: every byte comes from the last write covering it, else
      from the original file, else is zero. */
  lemma {:induction false} LastWriterWins(file: bytes, ws: seq<Patch>)
    ensures |SpliceAll(file, ws)| == Reach(|file|, ws)
    ensures forall i :: 0 <= i < |SpliceAll(file, ws)| ==> SpliceAll(file, ws)[i] == ByteOf(file, ws, i)
  {
    if ws != [] {
      var init := ws[..|ws| - 1];
      LastWriterWins(file, init);
      forall i | 0 <= i < |SpliceAll(file, ws)| ensures SpliceAll(file, ws)[i] == ByteOf(file, ws, i) {
        if i >= Reach(|file|, init) {
          NoCoverBeyondReach(|file|, init, i);
        }
      }
    }
  }

  /** After any list of writes the fallback holds exactly what positional writes
      of the accepted ones would, byte by byte the last writer's. */
  lemma {:induction false} FallbackLastWriterWins(file: bytes, ws: seq<Patch>)
    ensures FallbackAll(file, ws) == SpliceAll(file, Accepted(file, ws))
    ensures |FallbackAll(file, ws)| == Reach(|file|, Accepted(file, ws))
    ensures forall i :: 0 <= i < |FallbackAll(file, ws)| ==>
              FallbackAll(file, ws)[i] == ByteOf(file, Accepted(file, ws), i)
  {
    if ws != [] {
      FallbackLastWriterWins(file, ws[..|ws| - 1]);
      var prev, w := Accepted(file, ws[..|ws| - 1]), ws[|ws| - 1];
      assert (prev + [w])[..|prev + [w]| - 1] == prev;
      assert prev + [] == prev;
    }
    LastWriterWins(file, Accepted(file, ws));
  }

  // ---------- trading places ----------

  predicate Disjoint(a: nat, b: nat, c: nat, d: nat)
  {
    Max(a, c) >= Min(b, d)
  }

  /** Two writes commute exactly when they agree wherever both write; in
      particular disjoint ones always do, even when both grow the file. */
  lemma SplicesCommute(f: bytes, v: Patch, w: Patch)
    ensures Splice(Splice(f, v.off, v.data), w.off, w.data) == Splice(Splice(f, w.off, w.data), v.off, v.data)
            <==> forall i | v.Covers(i) && w.Covers(i) :: v.data[i - v.off] == w.data[i - w.off]
    ensures Disjoint(v.off, v.End(), w.off, w.End()) ==>
              Splice(Splice(f, v.off, v.data), w.off, w.data) == Splice(Splice(f, w.off, w.data), v.off, v.data)
  {
    var l := Splice(Splice(f, v.off, v.data), w.off, w.data);
    var r := Splice(Splice(f, w.off, w.data), v.off, v.data);
    assert forall i :: v.Covers(i) && w.Covers(i) ==> l[i] == w.data[i - w.off] && r[i] == v.data[i - v.off];
    if forall i | v.Covers(i) && w.Covers(i) :: v.data[i - v.off] == w.data[i - w.off] {
      forall i | 0 <= i < |l| ensures l[i] == r[i] {
        assert v.Covers(i) && w.Covers(i) ==> v.data[i - v.off] == w.data[i - w.off];
      }
      assert l == r;
    }
  }

  /** A read of [a, b) does not notice the file growing from len to end. */
  predicate Stable(a: nat, b: nat, end: nat, len: nat)
  {
    end <= a || end <= len || b <= len
  }

  /** A non-empty read and a write sharing no byte commute exactly when the write
      does not move an end of file that the read reaches past. */
  lemma ReadCommutes(f: bytes, a: nat, n: nat, w: Patch)
    requires n > 0 && Disjoint(a, a + n, w.off, w.End())
    ensures ReadSpan(Splice(f, w.off, w.data), a, n) == ReadSpan(f, a, n) <==> Stable(a, a + n, w.End(), |f|)
    ensures w.data != [] ==>
              (ReadSpan(Splice(f, w.off, w.data), a, n) == ReadSpan(f, a, n) <==> w.End() <= a || a + n <= |f|)
  {
    var g := Splice(f, w.off, w.data);
    if a < |f| && a < |g| {
      var x, y := ReadSpan(f, a, n).value, ReadSpan(g, a, n).value;
      forall i | 0 <= i < |x| ensures x[i] == y[i] {
        assert x[i] == f[a + i] && y[i] == g[a + i];
        assert !w.Covers(a + i);
      }
      assert |x| == |y| <==> Stable(a, a + n, w.End(), |f|);
      assert |x| == |y| ==> x == y;
    }
  }

  /** The read that goes wrong: 4 bytes at 0 of a 2-byte file, beside a write at
      4. Run in either order the spans are disjoint and the replies differ. */
  lemma ReadAcrossEndOfFile()
    ensures Disjoint(0, 4, 4, 5)
    ensures ReadSpan([1, 2], 0, 4) == Some([1, 2])
    ensures ReadSpan(Splice([1, 2], 4, [9]), 0, 4) == Some([1, 2, 0, 0])
  {
    assert Splice([1, 2], 4, [9]) == [1, 2, 0, 0, 9];
    assert [1, 2, 0, 0, 9][0..4] == [1, 2, 0, 0];
    assert [1, 2][0..2] == [1, 2];
  }
}

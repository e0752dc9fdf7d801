/** Server-side copy: what copy-data leaves in the destination, and the one pair
    of arguments its overflow check lets through. */
module Copying {
  import opened Bytes
  import opened Codec
  import opened Content
  import opened Messages
  import opened Packets
  import opened Opening
  import opened Server

  /** The bytes a copy of length (0: to the end) from fromOff ought to move. */
  function Available(size: nat, fromOff: nat, length: nat): nat
  {
    var left := Max(size - fromOff, 0);
    if length == 0 then left else Min(length, left)
  }

  /** The 64-bit computation is right for every size and every argument the range
      check admits, except offset and length both at the ceiling: there their sum
      wraps and the length goes unclamped. */
  lemma CopyCountExact(size: nat, fromOff: nat, length: nat)
    requires size <= MAX_INT64 && fromOff <= COPY_CEILING && length <= COPY_CEILING
    ensures CopyCount(size, fromOff, length) == Available(size, fromOff, length) <==>
            !(fromOff == COPY_CEILING && length == COPY_CEILING)
  {
  }

  /** The world after the available source bytes are written at the destination
      offset by one positional write. */
  function Copied(w: World, src: bytes, dst: bytes, c: CopyRequest): World
    requires src in w.fs.files && dst in w.fs.files
  {
    var s := w.fs.files[src];
    var n, from := Available(|s|, c.fromOff, c.length), Min(c.fromOff, |s|);
    w.(fs := w.fs.(files := w.fs.files[dst := Splice(w.fs.files[dst], c.toOff, s[from..from + n])]))
  }

  /** Offset and length both at the ceiling, and a destination that ends before the
      2^62 bytes that are then to be copied would. */
  predicate Overgrows(dst: bytes, c: CopyRequest)
  {
    c.fromOff == COPY_CEILING && c.length == COPY_CEILING && c.toOff < COPY_CEILING && |dst| < c.toOff + COPY_CEILING
  }

  lemma FilesMoved(cfg: Config, w: World, t: Table, id: uint32, src: bytes, dst: bytes, c: CopyRequest, nonce: nat)
    requires src in w.fs.files && dst in w.fs.files && cfg.drv.copy(nonce).AllMoved?
    requires CopyCount(|w.fs.files[src]|, c.fromOff, c.length) >= 0
    ensures var s, d := w.fs.files[src], w.fs.files[dst];
            var n := CopyCount(|s|, c.fromOff, c.length);
            CopyFiles(cfg, w, t, id, src, dst, c, nonce).w ==
            w.(fs := w.fs.(files := w.fs.files[dst := CopyInto(d, s, c.toOff, c.fromOff, n, n)]))
  {
    hide CopyInto, CopyCount, Render, ErrReply, Ascii;
  }

  lemma FilesCopied(cfg: Config, w: World, t: Table, id: uint32, src: bytes, dst: bytes, c: CopyRequest, nonce: nat)
    requires src in w.fs.files && dst in w.fs.files && cfg.drv.copy(nonce).AllMoved?
    requires c.fromOff <= COPY_CEILING && c.length <= COPY_CEILING && c.toOff <= COPY_CEILING
    requires |w.fs.files[src]| <= MAX_INT64
    ensures CopyFiles(cfg, w, t, id, src, dst, c, nonce).w == Copied(w, src, dst, c) <==> !Overgrows(w.fs.files[dst], c)
  {
    hide CopyInto, CopyCount, CopyFiles, Splice;
    var s, d := w.fs.files[src], w.fs.files[dst];
    var n := Available(|s|, c.fromOff, c.length);
    CopyCountExact(|s|, c.fromOff, c.length);
    if c.fromOff == COPY_CEILING && c.length == COPY_CEILING {
      CeilingCopy(d, s, c.toOff);
      var from := Min(c.fromOff, |s|);
      assert s[from..from + n] == s[from..];
      FilesMoved(cfg, w, t, id, src, dst, c, nonce);
      var copied := CopyInto(d, s, c.toOff, c.fromOff, COPY_CEILING, COPY_CEILING);
      SameFileOnly(w, dst, copied, Splice(d, c.toOff, s[from..]));
    } else {
      FilesMoved(cfg, w, t, id, src, dst, c, nonce);
      CopyIntoIsSplice(d, s, c.toOff, c.fromOff, n);
    }
  }

  lemma SameFileOnly(w: World, dst: bytes, a: bytes, b: bytes)
    ensures w.(fs := w.fs.(files := w.fs.files[dst := a])) == w.(fs := w.fs.(files := w.fs.files[dst := b])) <==> a == b
  {
    assert w.fs.files[dst := a][dst] == a && w.fs.files[dst := b][dst] == b;
  }

  /** Offset and length both at the ceiling. */
  lemma CeilingCopy(d: bytes, s: bytes, toOff: nat)
    requires |s| <= MAX_INT64 && toOff <= COPY_CEILING
    ensures CopyCount(|s|, COPY_CEILING, COPY_CEILING) == COPY_CEILING
    ensures var from := Min(COPY_CEILING, |s|);
            CopyInto(d, s, toOff, COPY_CEILING, COPY_CEILING, COPY_CEILING) == Splice(d, toOff, s[from..]) <==>
            !(toOff < COPY_CEILING && |d| < toOff + COPY_CEILING)
  {
    var from := Min(COPY_CEILING, |s|);
    assert s[from..Min(COPY_CEILING + COPY_CEILING, |s|)] == s[from..];
  }

  /** The request a copy-data packet carries, if it is one. */
  function CopyIn(p: Packet): Option<CopyRequest>
  {
    var d := DecodeExtended(p.payload);
    if p.typ != FXP_EXTENDED || d.Bad? || !d.value.Extended? || d.value.name != COPY_DATA_EXTENSION then None
    else match DecodeCopy(d.value.data)
      case Got(c, _) => Some(c)
      case Bad(_) => None
  }

  /** An int64 measures the source, as it must every file. */
  predicate Measured(w: World, t: Table, c: CopyRequest)
  {
    c.from in t && t[c.from].path in w.fs.files ==> |w.fs.files[t[c.from].path]| <= MAX_INT64
  }

  /** What a copy-data request answered with success did. */
  predicate CopyOutcome(cfg: Config, w: World, t: Table, c: CopyRequest, r: Res)
  {
    && !cfg.ro && c.from in t && c.to in t && r.t == t
    && var src, dst := t[c.from].path, t[c.to].path;
    && src != dst && src in w.fs.files && dst in w.fs.files && t[c.to].write && t[c.to].writable
    && (r.w == Copied(w, src, dst, c) <==> !Overgrows(w.fs.files[dst], c))
    && (|w.fs.files[src]| < COPY_CEILING && c.fromOff + c.length <= MAX_INT64 ==>
          c.toOff + Available(|w.fs.files[src]|, c.fromOff, c.length) <= MAX_INT64)
  }

  /** Every copy-data packet that is answered with success, served in any state:
      its handles are open on two different files, the second for writing in place.
      Exactly the available bytes of the first are written at the offset asked for in
      the second, as one positional write would, and no other file and no handle
      changes, if and only if the request does not overgrow the second; no 64-bit sum
      on the way overflows if the source is under 2^62 bytes and the offset and length
      under 2^63 together. */
  lemma CopyIsSplice(cfg: Config, w: World, t: Table, p: Packet, nonce: nat)
    requires CopyIn(p).Some? && Measured(w, t, CopyIn(p).value)
    requires SaysOk(Serve(cfg, w, t, p, nonce).reply)
    ensures CopyOutcome(cfg, w, t, CopyIn(p).value, Serve(cfg, w, t, p, nonce))
  {
    hide DecodeExtended, DecodeCopy, CopyFiles, CopyOutcome, CopyRefusal;
    var m, c := DecodeExtended(p.payload).value, CopyIn(p).value;
    IsCopyData(cfg, w, t, p, nonce);
    CopyDone(cfg, w, t, m.id, m.data, c, nonce);
  }

  lemma IsCopyData(cfg: Config, w: World, t: Table, p: Packet, nonce: nat)
    requires CopyIn(p).Some?
    ensures var m := DecodeExtended(p.payload).value;
            Serve(cfg, w, t, p, nonce) == CopyData(cfg, w, t, m.id, m.data, nonce)
  {
    hide DecodeExtended, DecodeCopy, CopyData;
    NamesDiffer();
    assert Decode(p.typ, p.payload) == Some(DecodeExtended(p.payload));
  }

  lemma CopyDone(cfg: Config, w: World, t: Table, id: uint32, data: bytes, c: CopyRequest, nonce: nat)
    requires DecodeCopy(data).Got? && DecodeCopy(data).value == c && Measured(w, t, c)
    requires SaysOk(CopyData(cfg, w, t, id, data, nonce).reply)
    ensures CopyOutcome(cfg, w, t, c, CopyData(cfg, w, t, id, data, nonce))
  {
    hide DecodeCopy, CopyInto, CopyCount, Copied, Overgrows;
    assert c.from in t && c.to in t;
    var src, dst := t[c.from].path, t[c.to].path;
    assert CopyRefusal(id, t[c.from], t[c.to], c).None?;
    assert src in w.fs.files && dst in w.fs.files && cfg.drv.copy(nonce).AllMoved?;
    FilesCopied(cfg, w, t, id, src, dst, c, nonce);
  }

  lemma NamesDiffer()
    ensures LIMITS_EXTENSION != COPY_DATA_EXTENSION
  {
    assert |LIMITS_EXTENSION| == 18 && |COPY_DATA_EXTENSION| == 9;
  }

  lemma CopyIntoIsSplice(d: bytes, s: bytes, toOff: nat, fromOff: nat, n: nat)
    requires toOff <= COPY_CEILING && n <= Max(|s| - fromOff, 0) && |s| <= MAX_INT64
    ensures var from := Min(fromOff, |s|);
            CopyInto(d, s, toOff, fromOff, n, n) == Splice(d, toOff, s[from..from + n])
  {
    var data := s[Min(fromOff, |s|)..Min(fromOff, |s|) + n];
    assert toOff + n <= MAX_INT64 ==> Wrap64(toOff + n) == toOff + n;
    if n == 0 {
      assert CopyInto(d, s, toOff, fromOff, n, n) == Splice(d, toOff, []);
    } else {
      assert s[Min(fromOff, |s|)..Min(fromOff + n, |s|)] == data;
      GrowThenWrite(d, toOff, data);
    }
  }

  /** Growing the file to a write's end first does not change the outcome. */
  lemma GrowThenWrite(d: bytes, off: nat, data: bytes)
    ensures Splice(Splice(d, off + |data|, []), off, data) == Splice(d, off, data)
  {
  }
}

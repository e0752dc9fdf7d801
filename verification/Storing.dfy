/** What the server is for: a client that stores bytes and reads them back. Whatever the
    driver, however the bytes of its requests interleave, and whether its file is
    written in place or rewritten whole, what it reads is what it wrote. */
module Storing {
  import opened Bytes
  import opened Codec
  import opened Messages
  import opened Packets
  import opened Content
  import opened DataOps
  import opened Server
  import opened Safety
  import opened Client
  import opened Pool
  import opened Runs
  import opened Grain
  import opened Realizing
  import opened Transfers
  import Crossing
  import Paths
  import Showing
  import Wire

  // ---------- the conversation ----------

  /** WRITEs on one handle, within the limits of packets and offsets. */
  predicate Puts(tok: bytes, ws: seq<Message>)
  {
    forall i :: 0 <= i < |ws| ==>
      ws[i].Write? && ws[i].handle == tok && |ws[i].data| <= 0x4_0000 && ws[i].offset < 0x8000_0000_0000_0000
  }

  predicate Gets(tok: bytes, rs: seq<Message>) { forall i :: 0 <= i < |rs| ==> rs[i].Read? && rs[i].handle == tok }

  function Sent(ms: seq<Message>): (ps: seq<Packet>)
    ensures |ps| == |ms|
  {
    seq(|ms|, i requires 0 <= i < |ms| => Wire.PacketOf(ms[i]))
  }

  /** A first packet, WRITEs, a question about the handle, and READs. */
  function Talk(p: Packet, tok: bytes, ws: seq<Message>, rs: seq<Message>): (ps: seq<Packet>)
    ensures |ps| == |ws| + |rs| + 2
  {
    [p] + Sent(ws) + [Wire.PacketOf(HandleRequest(8, 0, tok))] + Sent(rs)
  }

  /** The first packet leaves the handle open for writing on a file that is there. */
  predicate Readies(cfg: Config, w: World, p: Packet, tok: bytes)
  {
    && !cfg.ro && |tok| <= 0x4_0000 && !Prepare(cfg, map[], p).Run?
    && var r := Serve(cfg, w, map[], p, 0);
    && tok in r.t && !r.t[tok].dir && r.t[tok].write && r.t[tok].path in r.w.fs.files
  }

  function Patches(ws: seq<Message>): (ps: seq<Patch>)
    ensures |ps| == |ws|
  {
    seq(|ws|, i requires 0 <= i < |ws| => if ws[i].Write? then Patch(ws[i].offset, ws[i].data) else Patch(0, []))
  }

  /** What the file holds after the WRITEs: each is placed on what the ones before left,
      or refused if the file is rewritten whole and would grow too far. */
  function Stored(f: bytes, inPlace: bool, ws: seq<Message>): bytes
  {
    if inPlace then SpliceAll(f, Patches(ws)) else FallbackAll(f, Patches(ws))
  }

  // ---------- one after another ----------

  lemma ServesOne(cfg: Config, w: World, ps: seq<Packet>, n: nat)
    requires n < |ps|
    ensures var tr := ServeAll(cfg, w, map[], ps[..n]);
            var r := Serve(cfg, tr.w, tr.t, ps[n], n);
            ServeAll(cfg, w, map[], ps[..n + 1]) == Trace(r.w, r.t, tr.replies + [r.reply], tr.calls + r.calls)
    ensures |ServeAll(cfg, w, map[], ps[..n]).replies| == n
  {
    hide Serve;
    assert ps[..n + 1][..n] == ps[..n];
    RepliesCount(cfg, w, ps[..n]);
  }

  lemma {:induction false} RepliesCount(cfg: Config, w: World, ps: seq<Packet>)
    ensures |ServeAll(cfg, w, map[], ps).replies| == |ps|
  {
    hide Serve;
    if ps != [] {
      RepliesCount(cfg, w, ps[..|ps| - 1]);
    }
  }

  lemma ContentNext(f: bytes, inPlace: bool, ws: seq<Message>, k: nat)
    requires k < |ws| && ws[k].Write?
    ensures var g, m := Stored(f, inPlace, ws[..k]), ws[k];
            Stored(f, inPlace, ws[..k + 1]) ==
            if inPlace || Accepts(|g|, m.offset, |m.data|) then Splice(g, m.offset, m.data) else g
  {
    hide Splice, Accepts;
    assert Patches(ws[..k + 1])[..k] == Patches(ws[..k]);
  }

  lemma ContentFirst(f: bytes, inPlace: bool)
    ensures Stored(f, inPlace, []) == f
  {
  }

  /** One WRITE on the file as it is. */
  lemma WriteNext(cfg: Config, w: World, t: Table, tok: bytes, m: Message, n: nat)
    requires m.Write? && m.handle == tok && |m.data| <= 0x4_0000 && m.offset < 0x8000_0000_0000_0000
    requires !cfg.ro && |tok| <= 0x4_0000 && tok in t && !t[tok].dir && t[tok].write && t[tok].path in w.fs.files
    ensures var r, f := Serve(cfg, w, t, Wire.PacketOf(m), n), w.fs.files[t[tok].path];
            var ok := t[tok].writable || Accepts(|f|, m.offset, |m.data|);
            && r.t == t && (r.reply == Says(m.id, 0, []) <==> ok)
            && r.w == w.(fs := w.fs.(files := w.fs.files[t[tok].path := if ok then Splice(f, m.offset, m.data) else f]))
  {
    hide Ascii, Splice, Accepts, Serve, Wire.PacketOf;
    WriteRuns(cfg, w, t, m, n);
    assert w.fs.files[t[tok].path := w.fs.files[t[tok].path]] == w.fs.files;
  }

  // ---------- the WRITEs ----------

  /** After the first packet and k WRITEs. */
  ghost predicate Written(cfg: Config, w: World, p: Packet, tok: bytes, ws: seq<Message>, k: nat, tr: Trace)
    requires k <= |ws|
  {
    var r := Serve(cfg, w, map[], p, 0);
    && tok in r.t && r.t[tok].path in r.w.fs.files
    && var h := r.t[tok];
    && tr.t == r.t && |tr.replies| == k + 1
    && tr.w == r.w.(fs := r.w.fs.(files := r.w.fs.files[h.path :=
                 Stored(r.w.fs.files[h.path], h.writable, ws[..k])]))
  }

  lemma {:induction false} WritesWritten(cfg: Config, w: World, p: Packet, tok: bytes, ws: seq<Message>,
                                         rs: seq<Message>, k: nat)
    requires Readies(cfg, w, p, tok) && Puts(tok, ws) && k <= |ws|
    ensures Written(cfg, w, p, tok, ws, k, ServeAll(cfg, w, map[], Talk(p, tok, ws, rs)[..k + 1]))
  {
    hide Serve, Prepare, Stored, Wire.PacketOf;
    var ps := Talk(p, tok, ws, rs);
    var r := Serve(cfg, w, map[], p, 0);
    var path := r.t[tok].path;
    if k == 0 {
      ServesOne(cfg, w, ps, 0);
      assert ps[..0] == [] && ws[..0] == [];
      ContentFirst(r.w.fs.files[path], r.t[tok].writable);
      assert r.w.fs.files[path := r.w.fs.files[path]] == r.w.fs.files;
    } else {
      WritesWritten(cfg, w, p, tok, ws, rs, k - 1);
      ServesOne(cfg, w, ps, k);
      assert ps[k] == Wire.PacketOf(ws[k - 1]);
      var tr := ServeAll(cfg, w, map[], ps[..k]);
      WriteNext(cfg, tr.w, tr.t, tok, ws[k - 1], k);
      ContentNext(r.w.fs.files[path], r.t[tok].writable, ws, k - 1);
      assert tr.w.fs.files[path] == Stored(r.w.fs.files[path], r.t[tok].writable, ws[..k - 1]);
      SetTwice(r.w.fs.files, path, tr.w.fs.files[path], Stored(r.w.fs.files[path], r.t[tok].writable, ws[..k]));
    }
  }

  lemma SetTwice(files: Files, path: bytes, a: bytes, b: bytes)
    ensures files[path := a][path := b] == files[path := b]
  {
  }

  // ---------- the READs ----------

  lemma QuestionKeeps(cfg: Config, w: World, t: Table, tok: bytes, n: nat)
    requires |tok| <= 0x4_0000 && tok in t
    ensures var r := Serve(cfg, w, t, Wire.PacketOf(HandleRequest(8, 0, tok)), n); r.w == w && r.t == t
  {
    hide Serve, Wire.PacketOf, Showing.Tells, Paths.Clean, Ascii;
    Showing.FstatAnswered(cfg, w, t, 0, tok, n);
  }

  /** From the question on nothing changes. */
  lemma {:induction false} ReadsKeep(cfg: Config, w: World, p: Packet, tok: bytes, ws: seq<Message>, rs: seq<Message>,
                                     j: nat)
    requires Readies(cfg, w, p, tok) && Puts(tok, ws) && Gets(tok, rs) && j <= |rs|
    ensures var ps := Talk(p, tok, ws, rs);
            var tr, tr' := ServeAll(cfg, w, map[], ps[..|ws| + 1]), ServeAll(cfg, w, map[], ps[..|ws| + 2 + j]);
            tr'.w == tr.w && tr'.t == tr.t
  {
    hide Serve, Prepare, Stored, Wire.PacketOf;
    var ps, n := Talk(p, tok, ws, rs), |ws| + 1 + j;
    ServesOne(cfg, w, ps, n);
    if j == 0 {
      WritesWritten(cfg, w, p, tok, ws, rs, |ws|);
      var tr := ServeAll(cfg, w, map[], ps[..n]);
      assert ps[n] == Wire.PacketOf(HandleRequest(8, 0, tok));
      QuestionKeeps(cfg, tr.w, tr.t, tok, n);
    } else {
      ReadsKeep(cfg, w, p, tok, ws, rs, j - 1);
      var tr, m := ServeAll(cfg, w, map[], ps[..n]), rs[j - 1];
      assert ps[n] == Wire.PacketOf(m) && m == Read(m.id, tok, m.offset, m.length);
      ReadAnswered(cfg, tr.w, tr.t, m.id, tok, m.offset, m.length, n);
    }
  }

  lemma {:induction false} ReplyAt(cfg: Config, w: World, ps: seq<Packet>, i: nat)
    requires i < |ps|
    ensures var tr := ServeAll(cfg, w, map[], ps[..i]);
            |ServeAll(cfg, w, map[], ps).replies| == |ps| &&
            ServeAll(cfg, w, map[], ps).replies[i] == Serve(cfg, tr.w, tr.t, ps[i], i).reply
  {
    hide Serve;
    var n := |ps| - 1;
    assert ps[..|ps|] == ps;
    ServesOne(cfg, w, ps, n);
    if i < n {
      ReplyAt(cfg, w, ps[..n], i);
      assert ps[..n][..i] == ps[..i];
    }
  }

  // ---------- what the client sees ----------

  /** How the READ m of a file with content f is answered. */
  predicate ReadsBack(cfg: Config, f: bytes, m: Message, reply: Message)
    requires m.Read?
  {
    if m.length == 0 then reply == Data(m.id, [])
    else if m.offset >= |f| then reply == Says(m.id, 1, [])
    else Carries(reply, m.id, f, m.offset, Clamped(cfg, m.length))
  }

  /** The WRITE m of a file with content f is answered with success exactly when it is
      placed. */
  predicate WritesBack(f: bytes, inPlace: bool, m: Message, reply: Message)
    requires m.Write?
  {
    reply == Says(m.id, 0, []) <==> inPlace || !TooFar(|f|, m.offset, |m.data|)
  }

  /** The handle, and what its file held when it was opened. */
  function Held(cfg: Config, w: World, p: Packet, tok: bytes): (OpenFile, bytes)
    requires Readies(cfg, w, p, tok)
  {
    var r := Serve(cfg, w, map[], p, 0);
    (r.t[tok], r.w.fs.files[r.t[tok].path])
  }

  lemma SerialReads(cfg: Config, w: World, p: Packet, tok: bytes, ws: seq<Message>, rs: seq<Message>, j: nat)
    requires Readies(cfg, w, p, tok) && Puts(tok, ws) && Gets(tok, rs) && j < |rs|
    ensures var (h, f) := Held(cfg, w, p, tok);
            var replies := ServeAll(cfg, w, map[], Talk(p, tok, ws, rs)).replies;
            |replies| == |ws| + |rs| + 2 && ReadsBack(cfg, Stored(f, h.writable, ws), rs[j], replies[|ws| + 2 + j])
  {
    hide Serve, Prepare, Stored, Wire.PacketOf, Carries, Clamped, ServeAll;
    var ps, n := Talk(p, tok, ws, rs), |ws| + 2 + j;
    WritesWritten(cfg, w, p, tok, ws, rs, |ws|);
    ReadsKeep(cfg, w, p, tok, ws, rs, j);
    ReplyAt(cfg, w, ps, n);
    var tr, m := ServeAll(cfg, w, map[], ps[..n]), rs[j];
    assert ps[n] == Wire.PacketOf(m) && m == Read(m.id, tok, m.offset, m.length);
    ReadAnswered(cfg, tr.w, tr.t, m.id, tok, m.offset, m.length, n);
    assert ws[..|ws|] == ws;
  }

  lemma SerialWrites(cfg: Config, w: World, p: Packet, tok: bytes, ws: seq<Message>, rs: seq<Message>, k: nat)
    requires Readies(cfg, w, p, tok) && Puts(tok, ws) && Gets(tok, rs) && k < |ws|
    ensures var (h, f) := Held(cfg, w, p, tok);
            var replies := ServeAll(cfg, w, map[], Talk(p, tok, ws, rs)).replies;
            && |replies| == |ws| + |rs| + 2
            && WritesBack(Stored(f, h.writable, ws[..k]), h.writable, ws[k], replies[1 + k])
  {
    hide Serve, Prepare, Stored, Wire.PacketOf, ServeAll, Splice, TooFar;
    var ps := Talk(p, tok, ws, rs);
    WritesWritten(cfg, w, p, tok, ws, rs, k);
    ReplyAt(cfg, w, ps, k + 1);
    var tr, m := ServeAll(cfg, w, map[], ps[..k + 1]), ws[k];
    assert ps[k + 1] == Wire.PacketOf(m) && m == Write(m.id, tok, m.offset, m.data);
    WriteAnswered(cfg, tr.w, tr.t, m.id, tok, m.offset, m.data, k + 1);
  }

  // ---------- nothing crosses ----------

  lemma BarrierBetween(cfg: Config, w: World, p: Packet, tok: bytes, ws: seq<Message>, rs: seq<Message>, i: nat)
    requires Readies(cfg, w, p, tok) && Puts(tok, ws) && Gets(tok, rs) && i < |ws| + |rs| + 2
    ensures var r := PreparedAt(cfg, w, Talk(p, tok, ws, rs), i);
            && (i == 0 || i == |ws| + 1 ==> !r.Run?)
            && (1 <= i <= |ws| && r.Run? ==> r.job.op.WriteOp?)
            && (i >= |ws| + 2 && r.Run? ==> r.job.op.ReadOp?)
  {
    hide Serve, Prepare, Wire.PacketOf;
    var ps := Talk(p, tok, ws, rs);
    var t := ServeAll(cfg, w, map[], ps[..i]).t;
    if i == 0 {
      assert ps[..0] == [];
    } else if i <= |ws| {
      var m := ws[i - 1];
      assert ps[i] == Wire.PacketOf(m) && m == Write(m.id, tok, m.offset, m.data);
      Crossing.WritePrepared(cfg, t, m.id, tok, m.offset, m.data);
    } else if i == |ws| + 1 {
      assert ps[i] == Wire.PacketOf(HandleRequest(8, 0, tok));
      QuestionWaits(cfg, t, tok);
    } else {
      var m := rs[i - |ws| - 2];
      assert ps[i] == Wire.PacketOf(m) && m == Read(m.id, tok, m.offset, m.length);
      Crossing.ReadPrepared(cfg, t, m.id, tok, m.offset, m.length);
    }
  }

  lemma QuestionWaits(cfg: Config, t: Table, tok: bytes)
    ensures !Prepare(cfg, t, Wire.PacketOf(HandleRequest(8, 0, tok))).Run?
  {
    hide Encode;
  }

  lemma NoneCrosses(cfg: Config, w: World, p: Packet, tok: bytes, ws: seq<Message>, rs: seq<Message>, i: nat, j: nat)
    requires Readies(cfg, w, p, tok) && Puts(tok, ws) && Gets(tok, rs)
    ensures !Crosses(cfg, w, Talk(p, tok, ws, rs), i, j)
  {
    hide Serve, Prepare, Wire.PacketOf, PreparedAt, Waits, RunNeeded, ServeAll, Readies, StableUnder;
    var ps := Talk(p, tok, ws, rs);
    if i < j && Together(cfg, w, ps, i, j) {
      BarrierBetween(cfg, w, p, tok, ws, rs, i);
      BarrierBetween(cfg, w, p, tok, ws, rs, j);
      if |ws| + 1 < |ps| && i <= |ws| + 1 <= j {
        BarrierBetween(cfg, w, p, tok, ws, rs, |ws| + 1);
      }
      assert PreparedAt(cfg, w, ps, i).Run? && PreparedAt(cfg, w, ps, j).Run?;
      var ops := Ops(cfg, w, ps, i, j);
      assert ops[0] == PreparedAt(cfg, w, ps, i).job.op && ops[j - i] == PreparedAt(cfg, w, ps, j).job.op;
    }
  }

  // ---------- the theorem ----------

  /** Every reply to a WRITE and a READ is the one it should get. */
  ghost predicate ReadsWhatItWrote(cfg: Config, h: OpenFile, f: bytes, ws: seq<Message>, rs: seq<Message>,
                                   replies: seq<Message>)
  {
    && |replies| == |ws| + |rs| + 2
    && (forall k :: 0 <= k < |ws| ==>
          ws[k].Write? && WritesBack(Stored(f, h.writable, ws[..k]), h.writable, ws[k], replies[1 + k]))
    && (forall j :: 0 <= j < |rs| ==>
          rs[j].Read? && ReadsBack(cfg, Stored(f, h.writable, ws), rs[j], replies[|ws| + 2 + j]))
  }

  ghost predicate SeesItsBytes(cfg: Config, held: (OpenFile, bytes), ws: seq<Message>, rs: seq<Message>,
                               out: seq<seq<Message>>)
  {
    |out| == 1 && ReadsWhatItWrote(cfg, held.0, held.1, ws, rs, out[0])
  }

  lemma SerialStores(cfg: Config, w: World, p: Packet, tok: bytes, ws: seq<Message>, rs: seq<Message>)
    requires Readies(cfg, w, p, tok) && Puts(tok, ws) && Gets(tok, rs)
    ensures var (h, f) := Held(cfg, w, p, tok);
            ReadsWhatItWrote(cfg, h, f, ws, rs, ServeAll(cfg, w, map[], Talk(p, tok, ws, rs)).replies)
  {
    hide Readies, Held, Talk, ServeAll, Stored, ReadsBack, WritesBack;
    RepliesCount(cfg, w, Talk(p, tok, ws, rs));
    forall k | 0 <= k < |ws|
      ensures var (h, f) := Held(cfg, w, p, tok);
              WritesBack(Stored(f, h.writable, ws[..k]), h.writable, ws[k],
                         ServeAll(cfg, w, map[], Talk(p, tok, ws, rs)).replies[1 + k])
    {
      SerialWrites(cfg, w, p, tok, ws, rs, k);
    }
    forall j | 0 <= j < |rs|
      ensures var (h, f) := Held(cfg, w, p, tok);
              ReadsBack(cfg, Stored(f, h.writable, ws), rs[j],
                        ServeAll(cfg, w, map[], Talk(p, tok, ws, rs)).replies[|ws| + 2 + j])
    {
      SerialReads(cfg, w, p, tok, ws, rs, j);
    }
  }

  /** A client opens a file for writing, sends any WRITEs, asks about the handle, and
      sends any READs, alone on the server and without waiting for a reply. However the
      bytes of its requests interleave, each WRITE is confirmed exactly when it is
      placed, and each READ gives exactly the bytes of the file that the placed WRITEs
      make of what it was. And some run takes the packets. */
  lemma StoresAndReads(cfg: Config, w: World, p: Packet, tok: bytes, ws: seq<Message>, rs: seq<Message>)
    requires Readies(cfg, w, p, tok) && Puts(tok, ws) && Gets(tok, rs)
    ensures forall moves :: TakesThem(cfg, w, Talk(p, tok, ws, rs), moves) ==>
              SeesItsBytes(cfg, Held(cfg, w, p, tok), ws, rs, FineAfter(cfg, FineStart(w, 1), moves).st.out)
    ensures exists moves :: TakesThem(cfg, w, Talk(p, tok, ws, rs), moves)
  {
    hide Readies, Held, Talk, ServeAll, ReadsWhatItWrote, TakesThem, FineAfter, FineStart, Crosses, Puts, Gets;
    forall i, j ensures !Crosses(cfg, w, Talk(p, tok, ws, rs), i, j) {
      NoneCrosses(cfg, w, p, tok, ws, rs, i, j);
    }
    ClientBytes(cfg, w, Talk(p, tok, ws, rs));
    SerialStores(cfg, w, p, tok, ws, rs);
  }

  /** The file so made, byte by byte: the last placed WRITE that covers it, else what it
      was, else zero. Written in place, every WRITE is placed. */
  lemma StoredBytes(f: bytes, inPlace: bool, ws: seq<Message>)
    ensures var placed := if inPlace then Patches(ws) else Accepted(f, Patches(ws));
            var g := Stored(f, inPlace, ws);
            |g| == Reach(|f|, placed) && forall i :: 0 <= i < |g| ==> g[i] == ByteOf(f, placed, i)
  {
    hide SpliceAll, FallbackAll, Accepted, ByteOf, Reach, Patches;
    LastWriterWins(f, Patches(ws));
    FallbackLastWriterWins(f, Patches(ws));
  }

  // ---------- a whole file ----------

  /** The data of the replies one after another. */
  function Joined(replies: seq<Message>): bytes
  {
    if replies == [] then []
    else
      var n := |replies| - 1;
      Joined(replies[..n]) + if replies[n].Data? then replies[n].data else []
  }

  /** READs of as many bytes as one can carry or fewer, each from where the one before
      ends, beginning at the front. */
  predicate InPieces(cfg: Config, rs: seq<Message>)
  {
    forall j :: 0 <= j < |rs| ==>
      rs[j].Read? && 0 < rs[j].length <= Min(261120, Largest(cfg)) && rs[j].offset == Reached(rs, j)
  }

  /** Where the first j of them end. */
  function Reached(rs: seq<Message>, j: nat): nat
  {
    if 0 < j <= |rs| && rs[j - 1].Read? then rs[j - 1].offset + rs[j - 1].length else 0
  }

  lemma {:induction false} SoFar(cfg: Config, f: bytes, rs: seq<Message>, replies: seq<Message>, j: nat)
    requires InPieces(cfg, rs) && |replies| == |rs| && j <= |rs|
    requires forall i :: 0 <= i < |rs| ==> ReadsBack(cfg, f, rs[i], replies[i])
    ensures Joined(replies[..j]) == f[..Min(Reached(rs, j), |f|)]
  {
    hide ReadsBack;
    if j > 0 {
      var m := rs[j - 1];
      SoFar(cfg, f, rs, replies, j - 1);
      Piece(cfg, f, m, replies[j - 1], m.length);
      Pieces(f, m.offset, m.length);
      assert replies[..j][..j - 1] == replies[..j - 1];
    }
  }

  /** Read in pieces, the replies together are the file as far as the READs reach: all of
      it if they reach its end. */
  lemma Downloads(cfg: Config, f: bytes, rs: seq<Message>, replies: seq<Message>)
    requires InPieces(cfg, rs) && |replies| == |rs|
    requires forall j :: 0 <= j < |rs| ==> ReadsBack(cfg, f, rs[j], replies[j])
    ensures Joined(replies) == f[..Min(Reached(rs, |rs|), |f|)]
  {
    hide ReadsBack, InPieces, Reached, Joined;
    SoFar(cfg, f, rs, replies, |rs|);
    assert replies[..|rs|] == replies;
  }

  lemma Pieces(f: bytes, o: nat, c: nat)
    ensures f[..Min(o, |f|)] + f[Min(o, |f|)..Min(o + c, |f|)] == f[..Min(o + c, |f|)]
  {
  }

  lemma Piece(cfg: Config, f: bytes, m: Message, reply: Message, c: nat)
    requires m.Read? && m.length == c && 0 < c <= Min(261120, Largest(cfg)) && ReadsBack(cfg, f, m, reply)
    ensures (if reply.Data? then reply.data else []) == f[Min(m.offset, |f|)..Min(m.offset + c, |f|)]
  {
    if m.offset < |f| {
      assert reply.data == f[m.offset..Min(m.offset + c, |f|)];
    }
  }
}

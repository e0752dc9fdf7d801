/** A session as the program runs it: a handle table and a driver, both changed in
    place, request after request, and everything closed at the end. Each method
    is proved to do what the Server functions say. */
module Sessions {
  import opened Bytes
  import opened Codec
  import opened Messages
  import opened Packets
  import opened Wire
  import opened Paths
  import opened DataOps
  import opened Directory
  import opened Server
  import opened Safety
  import opened Lifecycle
  import opened Greeting

  // ---------- the driver, with a journal of the calls made on it ----------

  class Device {
    const drv: Driver
    var w: World
    var calls: seq<Call>

    constructor (d: Driver, world: World)
      ensures drv == d && w == world && calls == []
    {
      drv, w, calls := d, world, [];
    }

    method Stat(path: bytes, nonce: nat, entry: nat) returns (a: StatAnswer)
      modifies this`calls
      ensures a == drv.stat(w.fs, path, nonce, entry) && calls == old(calls) + [CStat(path)]
    {
      calls := calls + [CStat(path)];
      a := drv.stat(w.fs, path, nonce, entry);
    }

    method ListDir(path: bytes, nonce: nat) returns (a: Answer<seq<bytes>>)
      modifies this`calls
      ensures a == drv.listDir(w.fs, path, nonce) && calls == old(calls) + [CListDir(path)]
    {
      calls := calls + [CListDir(path)];
      a := drv.listDir(w.fs, path, nonce);
    }

    /** A file the driver opens gets the next number. */
    method OpenFile(path: bytes, nonce: nat) returns (a: OpenAnswer, fid: nat)
      modifies this
      ensures a == drv.openFile(old(w.fs), path, nonce) && calls == old(calls) + [COpenFile(path)]
      ensures fid == old(w.issued)
      ensures w == if a.Opened? then old(w).(issued := fid + 1) else old(w)
    {
      calls := calls + [COpenFile(path)];
      a, fid := drv.openFile(w.fs, path, nonce), w.issued;
      if a.Opened? {
        w := w.(issued := fid + 1);
      }
    }

    method Change(c: Call, nonce: nat) returns (err: Option<Error>)
      modifies this
      ensures (w.fs, err) == drv.change(old(w.fs), c, nonce) && w == old(w).(fs := w.fs)
      ensures calls == old(calls) + [c]
    {
      calls := calls + [c];
      var (fs, e) := drv.change(w.fs, c, nonce);
      w, err := w.(fs := fs), e;
    }

    method Sync(fid: nat, nonce: nat) returns (err: Option<Error>)
      modifies this`calls
      ensures err == drv.sync(fid, nonce) && calls == old(calls) + [CSync(fid)]
    {
      calls := calls + [CSync(fid)];
      err := drv.sync(fid, nonce);
    }

    /** A READ or WRITE on an open file or by path. */
    method Data(op: Op) returns (out: Outcome)
      modifies this
      ensures var (files, o) := Act(old(w.fs.files), op);
              out == o && w == old(w).(fs := old(w.fs).(files := files)) && calls == old(calls) + [CData(op)]
    {
      var (files, o) := Act(w.fs.files, op);
      w, out := w.(fs := w.fs.(files := files)), o;
      calls := calls + [CData(op)];
    }

    method Close(fid: nat, nonce: nat) returns (err: Option<Error>)
      modifies this
      ensures err == drv.close(fid, nonce) && w == Server.CloseFile(old(w), fid) && calls == old(calls) + [CClose(fid)]
    {
      calls := calls + [CClose(fid)];
      w := w.(closes := w.closes + [fid]);
      err := drv.close(fid, nonce);
    }
  }

  // ---------- decoding ----------

  /** The request in a packet of a barrier's type, taken off the payload field by
      field. */
  method ReadBarrier(p: Packet) returns (d: Field<Message>)
    requires IsBarrierType(p.typ)
    ensures Decode(p.typ, p.payload).Some? && d == Result(Decode(p.typ, p.payload).value)
  {
    hide DecodePath, DecodeHandle, DecodeSetstat, DecodeOpen, DecodeFsetstat, DecodeRename, DecodeSymlink,
      DecodeExtended;
    if IsPathType(p.typ) {
      d := ReadPath(p.typ, p.payload);
    } else if IsHandleType(p.typ) {
      d := ReadHandle(p.typ, p.payload);
    } else if IsSetstatType(p.typ) {
      d := ReadSetstat(p.typ, p.payload);
    } else if p.typ == FXP_OPEN {
      d := ReadOpen(p.payload);
    } else if p.typ == FXP_FSETSTAT {
      d := ReadFsetstat(p.payload);
    } else if p.typ == FXP_RENAME {
      d := ReadRename(p.payload);
    } else if p.typ == FXP_SYMLINK {
      d := ReadSymlink(p.payload);
    } else {
      d := ReadExtended(p.payload);
    }
  }

  // ---------- the handle table ----------

  /** The error of the first close that fails. */
  function FirstError(drv: Driver, fids: seq<nat>, nonce: nat): Option<Error>
  {
    if fids == [] then None
    else
      var n := |fids| - 1;
      var first := FirstError(drv, fids[..n], nonce);
      if first.Some? then first else drv.close(fids[n], nonce)
  }

  /** done lists the files of the tokens of t that are no longer in rest. */
  ghost predicate Closed(t: Table, rest: Table, done: seq<nat>)
  {
    && (forall tok :: tok in rest ==> tok in t && rest[tok] == t[tok])
    && (forall f: nat :: f in done <==> exists tok :: HeldFile(t, tok) == Some(f) && tok !in rest)
    && (Distinct(t) ==> Once(done))
  }

  lemma ClosedMore(t: Table, rest: Table, done: seq<nat>, tok: bytes)
    requires Closed(t, rest, done) && tok in rest
    ensures rest[tok].file.Some? ==> Closed(t, rest - {tok}, done + [rest[tok].file.value])
    ensures rest[tok].file.None? ==> Closed(t, rest - {tok}, done)
  {
    var rest' := rest - {tok};
    var h := rest[tok].file;
    var done' := if h.Some? then done + [h.value] else done;
    assert HeldFile(t, tok) == h;
    forall f: nat | f in done ensures exists k :: HeldFile(t, k) == Some(f) && k !in rest' {
      var k :| HeldFile(t, k) == Some(f) && k !in rest;
      assert k !in rest';
    }
    forall k | HeldFile(t, k).Some? && k !in rest' ensures HeldFile(t, k).value in done' {
      assert k != tok ==> k !in rest;
    }
    forall i | 0 <= i < |done| && Distinct(t) ensures Some(done[i]) != h {
      var k :| HeldFile(t, k) == Some(done[i]) && k !in rest;
      assert k != tok;
    }
  }

  lemma NoneClosed(drv: Driver, t: Table, nonce: nat)
    ensures Closed(t, t, []) && FirstError(drv, [], nonce) == None
  {
  }

  lemma NextError(drv: Driver, done: seq<nat>, fid: nat, nonce: nat)
    ensures var first := FirstError(drv, done, nonce);
            FirstError(drv, done + [fid], nonce) == if first.Some? then first else drv.close(fid, nonce)
  {
    assert (done + [fid])[..|done|] == done;
  }

  lemma EverythingClosed(w: World, t: Table, done: seq<nat>)
    requires Closed(t, map[], done)
    ensures forall f: nat :: f in done <==> exists tok :: HeldFile(t, tok) == Some(f)
    ensures Distinct(t) ==> ClosesAll(w, t, w.(closes := w.closes + done))
  {
    assert (w.closes + done)[|w.closes|..] == done;
  }

  class Handles {
    var m: Table

    constructor ()
      ensures m == map[]
    {
      m := map[];
    }

    /** rnd is what the random source yields. */
    method Add(h: OpenFile, rnd: Option<bytes>) returns (tok: Option<bytes>)
      modifies this
      ensures tok == rnd && m == if rnd.Some? then old(m)[rnd.value := h] else old(m)
    {
      if rnd.Some? {
        m := m[rnd.value := h];
      }
      tok := rnd;
    }

    method IsFull() returns (full: bool)
      ensures full <==> Full(m)
    {
      full := |m| >= MAX_OPEN_HANDLES;
    }

    method Get(tok: bytes) returns (h: Option<OpenFile>)
      ensures h == if tok in m then Some(m[tok]) else None
    {
      h := if tok in m then Some(m[tok]) else None;
    }

    method Remove(tok: bytes) returns (h: Option<OpenFile>)
      modifies this
      ensures h == if tok in old(m) then Some(old(m)[tok]) else None
      ensures m == old(m) - {tok}
    {
      h := if tok in m then Some(m[tok]) else None;
      m := m - {tok};
    }

    /** Closes every file still behind a token, in the order the table yields
        them, and reports the first failure without stopping at it. */
    method CloseAll(dev: Device, nonce: nat) returns (first: Option<Error>)
      modifies this, dev
      ensures m == map[] && old(dev.w.closes) <= dev.w.closes
      ensures dev.w == old(dev.w).(closes := dev.w.closes)
      ensures first == FirstError(dev.drv, dev.w.closes[|old(dev.w.closes)|..], nonce)
      ensures forall f: nat :: f in dev.w.closes[|old(dev.w.closes)|..] <==>
                exists tok :: HeldFile(old(m), tok) == Some(f)
      ensures Distinct(old(m)) ==> ClosesAll(old(dev.w), old(m), dev.w)
    {
      hide Closed, HeldFile, Distinct, Once, ClosesAll, FirstError;
      ghost var t, w, n := m, dev.w, |dev.w.closes|;
      ghost var done: seq<nat> := [];
      first := None;
      NoneClosed(dev.drv, t, nonce);
      while |m| > 0
        invariant dev.w == w.(closes := w.closes + done) && Closed(t, m, done)
        invariant first == FirstError(dev.drv, done, nonce)
        decreases |m|
      {
        var tok :| tok in m;
        ClosedMore(t, m, done, tok);
        var h := m[tok];
        if h.file.Some? {
          var err := dev.Close(h.file.value, nonce);
          NextError(dev.drv, done, h.file.value, nonce);
          assert w.closes + (done + [h.file.value]) == (w.closes + done) + [h.file.value];
          done := done + [h.file.value];
          if err.Some? && first.None? {
            first := err;
          }
        }
        m := m - {tok};
      }
      assert m == map[];
      assert dev.w.closes[n..] == done;
      EverythingClosed(w, t, done);
    }
  }

  // ---------- the session ----------

  /** r, after calls. */
  function Then(calls: seq<Call>, r: Res): Res { r.(calls := calls + r.calls) }

  lemma EntryCallsSplit(h: OpenFile, lo: nat, mid: nat, hi: nat)
    requires lo <= mid <= hi
    ensures EntryCalls(h, lo, hi) == EntryCalls(h, lo, mid) + EntryCalls(h, mid, hi)
    decreases mid - lo
  {
    if lo < mid && lo < |h.entries| {
      EntryCallsSplit(h, lo + 1, mid, hi);
    }
  }

  class Session {
    const cfg: Config
    const dev: Device
    const handles: Handles

    constructor (c: Config, d: Device)
      ensures cfg == c && dev == d && fresh(handles) && handles.m == map[]
    {
      cfg, dev := c, d;
      handles := new Handles();
    }

    /** What the session has done so far, were reply its next answer. */
    ghost function Now(reply: Message): Res
      reads dev, handles
    {
      Res(dev.w, handles.m, reply, dev.calls)
    }

    method FinishOpen(id: uint32, path: bytes, write: bool, nonce: nat) returns (reply: Message)
      requires dev.drv == cfg.drv
      modifies dev, handles
      ensures Now(reply) == Server.FinishOpen(cfg, old(dev.w), old(handles.m), id, path, write, old(dev.calls), nonce)
    {
      var h := OpenFile(path, false, [], 0, None, false, write);
      if cfg.drv.opener {
        var f, fid := dev.OpenFile(path, nonce);
        if f.OpenFailed? {
          return ErrReply(id, f.err, FAILURE);
        }
        if f.NoFile? {
          return StatusReply(id, FAILURE, Ascii("driver returned no file"));
        }
        if !write {
          h := h.(file := Some(fid));
        } else if f.writable {
          h := h.(file := Some(fid), writable := true);
        } else {
          var err := dev.Close(fid, nonce);
          if err.Some? {
            return ErrReply(id, err.value, FAILURE);
          }
        }
      }
      var tok := handles.Add(h, cfg.drv.mint(nonce));
      if tok.None? {
        if h.file.Some? {
          var _ := dev.Close(h.file.value, nonce);
        }
        return StatusReply(id, FAILURE, Ascii("random source failed"));
      }
      reply := Handle(id, tok.value);
    }

    method OpOpen(m: Message, nonce: nat) returns (reply: Message)
      requires m.Open? && dev.drv == cfg.drv
      modifies dev, handles
      ensures Now(reply) == Then(old(dev.calls), Server.OpOpen(cfg, old(dev.w), old(handles.m), m, nonce))
    {
      hide Clean, Has, Server.FinishOpen;
      var path := CleanPath(m.path);
      if path.None? {
        return InvalidPath(m.id);
      }
      var write := WantsWrite(m.pflags);
      if write && cfg.ro {
        return ReadOnlyReply(m.id);
      }
      var full := handles.IsFull();
      if full {
        return TooManyHandles(m.id);
      }
      var st := dev.Stat(path.value, nonce, 0);
      var absent := if st.StatFailed? then ErrReply(m.id, st.err, NO_SUCH_FILE) else StatusReply(m.id, OK, []);
      if st.Found? && st.stat.IsDir() {
        return StatusReply(m.id, FAILURE, Ascii("is a directory"));
      }
      ghost var calls := [CStat(path.value)];
      if !write {
        if !st.Found? {
          return absent;
        }
        CallsBefore(cfg, dev.w, handles.m, m.id, path.value, false, old(dev.calls), calls, nonce);
        reply := FinishOpen(m.id, path.value, false, nonce);
        return;
      }
      if st.Found? && Has(m.pflags, FXF_EXCL) {
        return StatusReply(m.id, FAILURE, Ascii("file already exists"));
      } else if !st.Found? && !Has(m.pflags, FXF_CREAT) {
        return absent;
      } else if !st.Found? || Has(m.pflags, FXF_TRUNC) {
        var create := CWriteFile(path.value, Perm(m.attrs, 0x1A4));
        var err := dev.Change(create, nonce);
        calls := calls + [create];
        assert old(dev.calls) + calls == old(dev.calls) + [CStat(path.value)] + [create];
        if err.Some? {
          return ErrReply(m.id, err.value, FAILURE);
        }
      }
      CallsBefore(cfg, dev.w, handles.m, m.id, path.value, true, old(dev.calls), calls, nonce);
      reply := FinishOpen(m.id, path.value, true, nonce);
    }

    method OpClose(id: uint32, token: bytes, nonce: nat) returns (reply: Message)
      requires dev.drv == cfg.drv
      modifies dev, handles
      ensures Now(reply) == Then(old(dev.calls), Server.OpClose(cfg, old(dev.w), old(handles.m), id, token, nonce))
    {
      var h := handles.Remove(token);
      if h.None? {
        assert old(handles.m) - {token} == old(handles.m);
        return UnknownHandle(id);
      }
      if h.value.file.None? {
        return StatusReply(id, OK, []);
      }
      var fid := h.value.file.value;
      if h.value.writable {
        var err := dev.Sync(fid, nonce);
        if err.Some? {
          var _ := dev.Close(fid, nonce);
          return ErrReply(id, err.value, FAILURE);
        }
      }
      var err := dev.Close(fid, nonce);
      if err.Some? {
        return ErrReply(id, err.value, FAILURE);
      }
      reply := StatusReply(id, OK, []);
    }

    method OpOpendir(id: uint32, p: bytes, nonce: nat) returns (reply: Message)
      requires dev.drv == cfg.drv
      modifies dev, handles
      ensures Now(reply) == Then(old(dev.calls), Server.OpOpendir(cfg, old(dev.w), old(handles.m), id, p, nonce))
    {
      hide Clean;
      var path := CleanPath(p);
      if path.None? {
        return InvalidPath(id);
      }
      var full := handles.IsFull();
      if full {
        return TooManyHandles(id);
      }
      var st := dev.Stat(path.value, nonce, 0);
      if st.StatFailed? {
        return ErrReply(id, st.err, NO_SUCH_FILE);
      }
      if st.NoStat? {
        return StatusReply(id, FAILURE, Ascii("driver returned no stat"));
      }
      if !st.stat.IsDir() {
        return StatusReply(id, FAILURE, Ascii("not a directory"));
      }
      var entries := dev.ListDir(path.value, nonce);
      assert dev.calls == old(dev.calls) + [CStat(path.value), CListDir(path.value)];
      if entries.No? {
        return ErrReply(id, entries.err, FAILURE);
      }
      var tok := handles.Add(OpenFile(path.value, true, entries.value, 0, None, false, false), cfg.drv.mint(nonce));
      if tok.None? {
        return StatusReply(id, FAILURE, Ascii("random source failed"));
      }
      reply := Handle(id, tok.value);
    }

    /** The cursor advances batch by batch until a batch has something to show. */
    method OpReaddir(id: uint32, token: bytes, nonce: nat) returns (reply: Message)
      requires dev.drv == cfg.drv
      modifies dev`calls, handles
      ensures Now(reply) == Then(old(dev.calls), Server.OpReaddir(cfg, old(dev.w), old(handles.m), id, token, nonce))
    {
      hide Shown, EntryCalls, JoinName, AttrsFromStat, Ascii, Collect;
      var h := handles.Get(token);
      if h.None? {
        return UnknownHandle(id);
      }
      if !h.value.dir {
        return StatusReply(id, FAILURE, Ascii("handle is not a directory"));
      }
      var f := h.value;
      ghost var look := Shown(cfg, dev.w.fs, f, nonce);
      var pos, items := f.pos, [];
      EntryCallsNone(f, pos);
      while pos < |f.entries|
        invariant f.pos <= pos && (pos < |f.entries| ==> items == [])
        invariant Page(look, f.pos, |f.entries|) == if items == [] then Page(look, pos, |f.entries|) else (pos, items)
        invariant dev.calls == old(dev.calls) + EntryCalls(f, f.pos, pos)
        invariant handles.m == old(handles.m)
      {
        var end := Min(pos + READDIR_BATCH, |f.entries|);
        items := ReaddirBatch(f, pos, end, nonce);
        EntryCallsSplit(f, f.pos, pos, end);
        pos := end;
        if items != [] {
          break;
        }
      }
      handles.m := handles.m[token := f.(pos := pos)];
      reply := if items != [] then Name(id, items) else StatusReply(id, EOF, []);
    }

    method ReaddirBatch(h: OpenFile, lo: nat, hi: nat, nonce: nat) returns (items: seq<NameItem>)
      requires lo <= hi <= |h.entries| && dev.drv == cfg.drv
      modifies dev`calls
      ensures items == Collect(Shown(cfg, dev.w.fs, h, nonce), lo, hi)
      ensures dev.calls == old(dev.calls) + EntryCalls(h, lo, hi)
    {
      hide JoinName, AttrsFromStat, Collect, EntryCalls;
      items := [];
      ghost var look := Shown(cfg, dev.w.fs, h, nonce);
      OneEntry(cfg, dev.w.fs, h, lo, nonce);
      for i := lo to hi
        invariant items == Collect(look, lo, i) && dev.calls == old(dev.calls) + EntryCalls(h, lo, i)
      {
        OneEntry(cfg, dev.w.fs, h, i, nonce);
        CollectSplit(look, lo, i, i + 1);
        EntryCallsSplit(h, lo, i, i + 1);
        var name := h.entries[i];
        var full := JoinName(h.path, name);
        if full.Some? {
          var st := dev.Stat(full.value, nonce, i);
          if st.Found? {
            var a := AttrsFromStat(cfg, st.stat);
            items := items + [NameItem(name, cfg.drv.longName(name, a), a)];
          }
        }
      }
    }

    method Dispatch(p: Packet, nonce: nat) returns (reply: Message)
      requires dev.drv == cfg.drv
      modifies dev, handles
      ensures Now(reply) == Then(old(dev.calls), Server.Dispatch(cfg, old(dev.w), old(handles.m), p, nonce))
    {
      hide Decode, Server.OpOpen, Server.OpClose, Server.OpOpendir, Server.OpReaddir, RequestId;
      var id := RequestId(p.payload);
      if !IsBarrierType(p.typ) {
        return StatusReply(id, OP_UNSUPPORTED, Ascii("unsupported request type"));
      }
      var d := ReadBarrier(p);
      if d.Fail? {
        return BadMessage(id, d.fault);
      }
      reply := Perform(d.value, nonce);
    }

    method Perform(m: Message, nonce: nat) returns (reply: Message)
      requires dev.drv == cfg.drv
      modifies dev, handles
      ensures Now(reply) == Then(old(dev.calls), Server.Perform(cfg, old(dev.w), old(handles.m), m, nonce))
    {
      hide Server.OpOpen, Server.OpClose, Server.OpOpendir, Server.OpReaddir, Server.OpFstat;
      if m.Open? {
        reply := OpOpen(m, nonce);
      } else if m.HandleRequest? && m.kind == FXP_CLOSE {
        reply := OpClose(m.id, m.handle, nonce);
      } else if m.HandleRequest? && m.kind != FXP_FSTAT {
        reply := OpReaddir(m.id, m.handle, nonce);
      } else if m.PathRequest? && m.kind == FXP_OPENDIR {
        reply := OpOpendir(m.id, m.path, nonce);
      } else {
        hide Server.Perform;
        HandlesKept(cfg, dev.w, handles.m, m, nonce);
        var r := Server.Perform(cfg, dev.w, handles.m, m, nonce);
        dev.w, dev.calls, reply := r.w, dev.calls + r.calls, r.reply;
      }
    }

    /** A READ or WRITE is decoded and everything checked that needs no driver. */
    method Prepare(p: Packet) returns (r: Prepared)
      ensures r == Server.Prepare(cfg, handles.m, p)
    {
      hide DecodeRead, DecodeWrite, RequestId;
      if p.typ == FXP_READ {
        var d := ReadRead(p.payload);
        r := match d
          case Fail(f) => Early(BadMessage(RequestId(p.payload), f))
          case Val(m) => if m.Read? then ReadJob(cfg, handles.m, m) else Barrier;
      } else if p.typ == FXP_WRITE {
        var d := ReadWrite(p.payload);
        r := match d
          case Fail(f) => Early(BadMessage(RequestId(p.payload), f))
          case Val(m) => if m.Write? then WriteJob(cfg, handles.m, m) else Barrier;
      } else {
        r := Barrier;
      }
    }

    /** One packet: a READ or WRITE, a reply known at once, or a barrier. */
    method Answer(p: Packet, nonce: nat) returns (reply: Message)
      requires dev.drv == cfg.drv
      modifies dev, handles
      ensures Now(reply) == Then(old(dev.calls), Serve(cfg, old(dev.w), old(handles.m), p, nonce))
    {
      hide Server.Prepare, Server.Dispatch, Act;
      var prepared := Prepare(p);
      match prepared {
        case Run(j) =>
          var out := dev.Data(j.op);
          reply := Render(j.id, out);
        case Early(early) => reply := early;
        case Barrier => reply := Dispatch(p, nonce);
      }
    }

    /** INIT is answered with VERSION, or the session is refused. */
    method Negotiate(src: Source, out: Sink) returns (refused: Option<Stop>)
      modifies src, out
      ensures refused == if Greet(old(src.data), cfg.PacketLimit()).TurnedAway?
                         then Some(Greet(old(src.data), cfg.PacketLimit()).why) else None
      ensures Classified(old(src.data), cfg.PacketLimit(),
                         if refused.Some? then TurnedAway(refused.value) else Agreed(src.data))
      ensures refused.Some? ==> out.data == old(out.data)
      ensures refused.None? ==>
                && src.data == Greet(old(src.data), cfg.PacketLimit()).rest
                && Sendable(Hello(cfg)) && out.data == old(out.data) + Frame(PacketOf(Hello(cfg)))
    {
      hide ReadOne, Encode, DecodeInit, VersionOf, Hello, Classified;
      HelloIs(cfg);
      GreetExactly(src.data, cfg.PacketLimit());
      var buf := new byte[0];
      var n, next, stop := ReadPacket(src, buf, cfg.PacketLimit());
      if stop.Some? {
        return Some(Over(stop.value));
      }
      if next[0] != FXP_INIT {
        return Some(NoInit);
      }
      var init := ReadInit(next[1..n]);
      if init.Fail? {
        return Some(BadInit(init.fault));
      }
      if init.value.Init? && init.value.version < VERSION {
        return Some(OldVersion);
      }
      var _, ok := Send(out, VersionOf(cfg), next);
      refused := None;
    }

    /** Packets are read from the stream, through one recycled buffer, and answered
        one at a time, until it ends or a reply is too large to frame. */
    method Loop(src: Source, out: Sink) returns (replies: seq<Message>, why: Stop)
      requires dev.drv == cfg.drv && handles.m == map[]
      modifies dev, handles, src, out
      ensures var (ps, end) := ReadAll(old(src.data), cfg.PacketLimit());
              && |replies| <= |ps| && Answered(cfg, old(dev.w), ps[..|replies|], dev.w, handles.m, replies)
              && AllSendable(SentOf(replies)) && out.data == old(out.data) + Stream(PacketsOf(SentOf(replies)))
              && if SentOf(replies) == replies then |replies| == |ps| && why == Over(end) else why == ReplyTooLarge
    {
      hide Serve, ServeAll, ReadAll, ReadOne, Encode, Stream, PacketsOf, Frame;
      var buf, scratch, max := new byte[0], new byte[0], cfg.PacketLimit();
      ghost var all := ReadAll(src.data, max);
      ghost var ps: seq<Packet> := [];
      replies := [];
      assert ps + all.0 == all.0;
      NothingServed(cfg, dev.w);
      NothingStreamed(out.data);
      while true
        invariant fresh(buf) && fresh(scratch)
        invariant all == (ps + ReadAll(src.data, max).0, ReadAll(src.data, max).1)
        invariant Answered(cfg, old(dev.w), ps, dev.w, handles.m, replies) && |replies| == |ps|
        invariant AllSendable(replies) && out.data == old(out.data) + Stream(PacketsOf(replies))
        decreases |src.data|
      {
        ReadNext(ps, src.data, max);
        var n, next, stop := ReadPacket(src, buf, max);
        if stop != None {
          return replies, Over(stop.value);
        }
        var p := Packet(next[0], next[1..n]);
        ServeNext(cfg, old(dev.w), ps, p);
        var reply := Answer(p, |replies|);
        StreamNext(old(out.data), replies, reply);
        var ok;
        scratch, ok := Send(out, reply, scratch);
        buf, ps, replies := next, ps + [p], replies + [reply];
        if !ok {
          assert all.0[..|replies|] == ps;
          assert replies[..|replies| - 1] + [reply] == replies;
          return replies, ReplyTooLarge;
        }
      }
    }

    /** A whole session: negotiation, requests, and whatever ends it, every handle
        still open closed. */
    method Run(src: Source, out: Sink) returns (replies: seq<Message>, why: Stop)
      requires dev.drv == cfg.drv && handles.m == map[]
      modifies dev, handles, src, out
      ensures handles.m == map[]
      ensures Greet(old(src.data), cfg.PacketLimit()).TurnedAway? ==>
                && why == Greet(old(src.data), cfg.PacketLimit()).why && replies == []
                && out.data == old(out.data) && dev.w == old(dev.w)
      ensures forall v, rest :: OpensWith(old(src.data), cfg.PacketLimit(), v, rest) && v >= 3 ==>
                Conversed(cfg, old(dev.w), rest, old(out.data), dev.w, out.data, replies, why)
      ensures why == OldVersion <==>
              exists v, rest :: OpensWith(old(src.data), cfg.PacketLimit(), v, rest) && v < 3
      ensures forall p, rest :: Begins(old(src.data), cfg.PacketLimit(), p, rest) && p.typ != 1 ==> why == NoInit
      ensures why.OldVersion? || why.NoInit? || why.BadInit? ==>
                replies == [] && out.data == old(out.data) && dev.w == old(dev.w)
    {
      hide Serve, ServeAll, ReadAll, ReadOne, Greet, Encode, Stream, Life, AllClosedOnce, NeverStoresOver, ClosesAll,
        Distinct, OpensWith, Begins, NoGreeting, Hello;
      GreetExactly(src.data, cfg.PacketLimit());
      var refused := Negotiate(src, out);
      if refused.Some? {
        return [], refused.value;
      }
      ghost var all := ReadAll(src.data, cfg.PacketLimit()).0;
      replies, why := Loop(src, out);
      ghost var ps := all[..|replies|];
      RunBelow(cfg, old(dev.w), ps);
      var _ := handles.CloseAll(dev, |replies|);
      if Life(old(dev.w), [map[]]) {
        Conservation(cfg, old(dev.w), ps, dev.w);
      }
      if SentOf(replies) == replies {
        assert ps == all;
      }
    }
  }

  // ---------- the conversation ----------

  /** A session that was agreed to: VERSION, and then the replies to the packets of the
      rest of the stream, up to its end or to a reply too large to frame; and every file
      closed, each once if no handle was stored over another with a file. */
  ghost predicate Conversed(cfg: Config, w0: World, rest: bytes, out0: bytes, w: World, out: bytes,
                            replies: seq<Message>, why: Stop)
  {
    var (all, end) := ReadAll(rest, cfg.PacketLimit());
    && |replies| <= |all|
    && var ps := all[..|replies|];
    && var tr := ServeAll(cfg, w0, map[], ps);
    && replies == tr.replies && ClosesAll(tr.w, tr.t, w) && Sendable(Hello(cfg)) && AllSendable(SentOf(replies))
    && out == out0 + Frame(PacketOf(Hello(cfg))) + Stream(PacketsOf(SentOf(replies)))
    && (if SentOf(replies) == replies then ps == all && why == Over(end) else why == ReplyTooLarge)
    && (Life(w0, [map[]]) ==> (AllClosedOnce(w) <==> NeverStoresOver(cfg, w0, ps)))
  }

  predicate AllSendable(ms: seq<Message>)
    ensures AllSendable(ms) ==> Framable(PacketsOf(ms))
  {
    forall i :: 0 <= i < |ms| ==> Sendable(ms[i])
  }

  /** What the client is sent of the replies: all, but for a last one too large. */
  function SentOf(replies: seq<Message>): seq<Message>
  {
    if replies != [] && !Sendable(replies[|replies| - 1]) then replies[..|replies| - 1] else replies
  }

  /** w, t and replies are what the packets lead to. */
  ghost predicate Answered(cfg: Config, w0: World, ps: seq<Packet>, w: World, t: Table, replies: seq<Message>)
  {
    var tr := ServeAll(cfg, w0, map[], ps);
    w == tr.w && t == tr.t && replies == tr.replies
  }

  lemma NothingStreamed(data: bytes)
    ensures Framable(PacketsOf([])) && data + Stream(PacketsOf([])) == data
  {
    assert PacketsOf([]) == [];
  }

  lemma {:induction false} StreamSnoc(ps: seq<Packet>, p: Packet)
    requires Framable(ps + [p]) && p.Size() <= MAX_PACKET
    ensures Framable(ps) && Stream(ps + [p]) == Stream(ps) + Frame(p)
  {
    hide Frame;
    assert forall i :: 0 <= i < |ps| ==> ps[i] == (ps + [p])[i];
    assert p == (ps + [p])[|ps|];
    if ps == [] {
      assert [p][1..] == [] && ps + [p] == [p];
    } else {
      assert (ps + [p])[1..] == ps[1..] + [p];
      StreamSnoc(ps[1..], p);
    }
  }

  lemma StreamNext(data: bytes, replies: seq<Message>, m: Message)
    requires AllSendable(replies)
    ensures Sendable(m) ==>
              && AllSendable(replies + [m]) && SentOf(replies + [m]) == replies + [m]
              && data + Stream(PacketsOf(replies)) + Frame(PacketOf(m)) == data + Stream(PacketsOf(replies + [m]))
    ensures !Sendable(m) ==> SentOf(replies + [m]) == replies && replies + [m] != replies
    ensures SentOf(replies) == replies
  {
    hide Frame, Stream, Encode;
    if Sendable(m) {
      assert PacketsOf(replies + [m]) == PacketsOf(replies) + [PacketOf(m)];
      assert AllSendable(replies + [m]);
      StreamSnoc(PacketsOf(replies), PacketOf(m));
      assert data + Stream(PacketsOf(replies)) + Frame(PacketOf(m)) ==
             data + (Stream(PacketsOf(replies)) + Frame(PacketOf(m)));
    }
    assert (replies + [m])[..|replies|] == replies;
  }

  lemma ReadNext(ps: seq<Packet>, s: bytes, max: nat)
    ensures ReadOne(s, max).Stopped? ==>
              ReadAll(s, max) == ([], ReadOne(s, max).why) && ps + ReadAll(s, max).0 == ps
    ensures ReadOne(s, max).Whole? ==>
              var p, rest := ReadOne(s, max).packet, ReadOne(s, max).rest;
              && |rest| < |s| && ReadAll(s, max).1 == ReadAll(rest, max).1
              && ps + ReadAll(s, max).0 == ps + [p] + ReadAll(rest, max).0
  {
    hide FromBE32;
  }

  lemma NothingServed(cfg: Config, w: World)
    ensures ServeAll(cfg, w, map[], []) == Trace(w, map[], [], [])
  {
  }

  lemma ServeNext(cfg: Config, w: World, ps: seq<Packet>, p: Packet)
    ensures var tr := ServeAll(cfg, w, map[], ps);
            var r := Serve(cfg, tr.w, tr.t, p, |ps|);
            ServeAll(cfg, w, map[], ps + [p]) == Trace(r.w, r.t, tr.replies + [r.reply], tr.calls + r.calls)
  {
    hide Serve;
    assert (ps + [p])[..|ps|] == ps;
  }

  /** What one entry of a listing shows and costs. */
  lemma OneEntry(cfg: Config, fs: Fs, h: OpenFile, i: nat, nonce: nat)
    ensures Collect(Shown(cfg, fs, h, nonce), i, i) == [] && EntryCalls(h, i, i) == []
    ensures i < |h.entries| ==>
              && (var e := ItemAt(cfg, fs, h, i, nonce);
                  Collect(Shown(cfg, fs, h, nonce), i, i + 1) == if e.Some? then [e.value] else [])
              && (var full := JoinName(h.path, h.entries[i]);
                  EntryCalls(h, i, i + 1) == if full.Some? then [CStat(full.value)] else [])
  {
    hide JoinName, AttrsFromStat, ItemAt;
  }

  lemma EntryCallsNone(h: OpenFile, lo: nat)
    ensures EntryCalls(h, lo, lo) == []
  {
  }

  /** The calls made before an open is finished only go in front. */
  lemma CallsBefore(cfg: Config, w: World, t: Table, id: uint32, path: bytes, write: bool, before: seq<Call>,
                    calls: seq<Call>, nonce: nat)
    ensures Server.FinishOpen(cfg, w, t, id, path, write, before + calls, nonce) ==
            Then(before, Server.FinishOpen(cfg, w, t, id, path, write, calls, nonce))
  {
    hide Full, Ascii;
    var fid := w.issued;
    assert before + calls + [COpenFile(path)] == before + (calls + [COpenFile(path)]);
    assert before + calls + [COpenFile(path)] + [CClose(fid)] == before + (calls + [COpenFile(path)] + [CClose(fid)]);
  }
}

/** What holds of every request and of every sequence of requests: one reply
    carrying the request's id, canonical paths, and a read-only export left
    alone. */
module Safety {
  import opened Bytes
  import opened Codec
  import opened Messages
  import opened Packets
  import opened Paths
  import opened DataOps
  import opened Directory
  import opened Server

  /** A whole run of requests served one at a time, numbered from 0. */
  datatype Trace = Trace(w: World, t: Table, replies: seq<Message>, calls: seq<Call>)

  function ServeAll(cfg: Config, w: World, t: Table, ps: seq<Packet>): Trace
  {
    if ps == [] then Trace(w, t, [], [])
    else
      var n := |ps| - 1;
      var tr := ServeAll(cfg, w, t, ps[..n]);
      var r := Serve(cfg, tr.w, tr.t, ps[n], n);
      Trace(r.w, r.t, tr.replies + [r.reply], tr.calls + r.calls)
  }

  // ---------- one reply, with the right id ----------

  predicate HasId(m: Message) { !m.Init? && !m.Version? }

  /** Every decoder but INIT's reads the id first. */
  lemma DecodedId(typ: byte, b: bytes)
    requires IsBarrierType(typ) || typ == FXP_READ || typ == FXP_WRITE
    requires Decode(typ, b).Some? && Decode(typ, b).value.Got?
    ensures HasId(Decode(typ, b).value.value) && Decode(typ, b).value.value.id == RequestId(b)
  {
    hide FromBE32, TakeStr, TakeU64, TakeAttrs;
  }

  predicate IsBarrierRequest(m: Message)
  {
    || m.Open? || m.HandleRequest? || m.PathRequest? || m.Setstat? || m.Fsetstat? || m.Rename? || m.Symlink?
    || m.Extended?
  }

  lemma PerformReply(cfg: Config, w: World, t: Table, m: Message, nonce: nat)
    requires IsBarrierRequest(m)
    ensures Answers(Perform(cfg, w, t, m, nonce).reply, m.id)
  {
    hide OpOpen, OpStat, OpFstat, OpSetstat, OpFsetstat, OpMkdir, OpRemove, OpRename, OpSymlink, OpReadlink,
      OpRealpath, OpOpendir, OpReaddir, OpClose, OpExtended;
  }

  lemma BarrierDecodes(typ: byte, b: bytes)
    requires IsBarrierType(typ) && Decode(typ, b).Some? && Decode(typ, b).value.Got?
    ensures IsBarrierRequest(Decode(typ, b).value.value)
  {
    hide TakeU32, TakeStr, TakeU64, TakeAttrs;
  }

  /** What is said of a READ or WRITE before any driver call. */
  lemma PreparedCarriesId(cfg: Config, t: Table, p: Packet)
    ensures var r := Prepare(cfg, t, p);
            (r.Early? ==> Answers(r.reply, RequestId(p.payload))) && (r.Run? ==> r.job.id == RequestId(p.payload))
  {
    hide FromBE32, TakeU32, TakeStr, TakeU64, RequestId, Ascii;
    if p.typ == FXP_READ || p.typ == FXP_WRITE {
      var d := Decode(p.typ, p.payload);
      if d.Some? && d.value.Got? {
        DecodedId(p.typ, p.payload);
      }
    }
  }

  /** Whatever the packet, malformed or not, it gets one reply, and the reply
      carries the packet's first four bytes as its id, or 0 if there are fewer. */
  lemma ReplyCarriesId(cfg: Config, w: World, t: Table, p: Packet, nonce: nat)
    ensures var reply := Serve(cfg, w, t, p, nonce).reply;
            Answers(reply, RequestId(p.payload))
  {
    hide Perform, RequestId, Decode, Prepare, Ascii, Act;
    PreparedCarriesId(cfg, t, p);
    var d := Decode(p.typ, p.payload);
    if IsBarrierType(p.typ) && d.Some? && d.value.Got? {
      DecodedId(p.typ, p.payload);
      BarrierDecodes(p.typ, p.payload);
      PerformReply(cfg, w, t, d.value.value, nonce);
    }
  }

  /** A run answers every request once, in order, under its own id. */
  lemma {:induction false} RunIds(cfg: Config, w: World, t: Table, ps: seq<Packet>)
    ensures var replies := ServeAll(cfg, w, t, ps).replies;
            && |replies| == |ps|
            && forall i :: 0 <= i < |ps| ==> Answers(replies[i], RequestId(ps[i].payload))
  {
    hide Serve, RequestId;
    if ps != [] {
      var n := |ps| - 1;
      RunIds(cfg, w, t, ps[..n]);
      var tr := ServeAll(cfg, w, t, ps[..n]);
      ReplyCarriesId(cfg, tr.w, tr.t, ps[n], n);
    }
  }

  // ---------- a read-only export ----------

  predicate NoMutation(calls: seq<Call>) { forall i :: 0 <= i < |calls| ==> !calls[i].Mutates() }

  /** No handle was opened for writing. */
  predicate NoWriters(t: Table) { forall tok :: tok in t ==> !t[tok].write && !t[tok].writable }

  predicate Untouched(w: World, r: Res)
  {
    r.w.fs == w.fs && NoWriters(r.t) && NoMutation(r.calls)
  }

  lemma {:induction false} EntryCallsRead(h: OpenFile, lo: nat, hi: nat)
    ensures NoMutation(EntryCalls(h, lo, hi))
    decreases hi - lo
  {
    if lo < hi {
      EntryCallsRead(h, lo + 1, hi);
    }
  }

  lemma FinishOpenReadOnly(cfg: Config, w: World, t: Table, id: uint32, path: bytes, calls: seq<Call>, nonce: nat)
    requires NoWriters(t) && NoMutation(calls)
    ensures Untouched(w, FinishOpen(cfg, w, t, id, path, false, calls, nonce))
  {
  }

  lemma OpenReadOnly(cfg: Config, w: World, t: Table, m: Message, nonce: nat)
    requires cfg.ro && NoWriters(t) && m.Open?
    ensures Untouched(w, OpOpen(cfg, w, t, m, nonce))
  {
    hide FinishOpen, Clean, Has;
    var path := Clean(m.path);
    if path.Some? {
      FinishOpenReadOnly(cfg, w, t, m.id, path.value, [CStat(path.value)], nonce);
    }
  }

  lemma HandleRequestReadOnly(cfg: Config, w: World, t: Table, m: Message, nonce: nat)
    requires NoWriters(t) && m.HandleRequest?
    ensures Untouched(w, Perform(cfg, w, t, m, nonce))
  {
    hide Clean, JoinName, Page, EntryCalls;
    if m.handle in t {
      var h := t[m.handle];
      EntryCallsRead(h, h.pos, Page(Shown(cfg, w.fs, h, nonce), h.pos, |h.entries|).0);
    }
  }

  lemma OpendirReadOnly(cfg: Config, w: World, t: Table, id: uint32, p: bytes, nonce: nat)
    requires NoWriters(t)
    ensures Untouched(w, OpOpendir(cfg, w, t, id, p, nonce))
  {
    hide Clean;
  }

  lemma PathRequestReadOnly(cfg: Config, w: World, t: Table, m: Message, nonce: nat)
    requires cfg.ro && NoWriters(t) && m.PathRequest?
    ensures Untouched(w, Perform(cfg, w, t, m, nonce))
  {
    hide Clean, OpOpendir;
    OpendirReadOnly(cfg, w, t, m.id, m.path, nonce);
  }

  lemma PerformReadOnly(cfg: Config, w: World, t: Table, m: Message, nonce: nat)
    requires cfg.ro && NoWriters(t)
    ensures Untouched(w, Perform(cfg, w, t, m, nonce))
  {
    hide OpOpen, OpStat, OpFstat, OpReadlink, OpRealpath, OpRemove, OpOpendir, OpReaddir, OpClose, Clean, DecodeCopy,
      Has;
    if m.Open? {
      OpenReadOnly(cfg, w, t, m, nonce);
    } else if m.HandleRequest? {
      HandleRequestReadOnly(cfg, w, t, m, nonce);
    } else if m.PathRequest? {
      PathRequestReadOnly(cfg, w, t, m, nonce);
    }
  }

  lemma ServeReadOnly(cfg: Config, w: World, t: Table, p: Packet, nonce: nat)
    requires cfg.ro && NoWriters(t)
    ensures Untouched(w, Serve(cfg, w, t, p, nonce))
  {
    hide Perform, Decode, TakeStr, TakeU32, TakeU64;
    var d := Decode(p.typ, p.payload);
    if d.Some? && d.value.Got? {
      PerformReadOnly(cfg, w, t, d.value.value, nonce);
    }
  }

  /** No sequence of packets whatever changes a read-only export: the filesystem
      is the one it started with, no handle is ever marked for writing, and the
      driver is never asked for a mutation. */
  lemma {:induction false} RunReadOnly(cfg: Config, w: World, ps: seq<Packet>)
    requires cfg.ro
    ensures var tr := ServeAll(cfg, w, map[], ps);
            tr.w.fs == w.fs && NoWriters(tr.t) && NoMutation(tr.calls)
  {
    hide Serve;
    if ps != [] {
      var n := |ps| - 1;
      RunReadOnly(cfg, w, ps[..n]);
      var tr := ServeAll(cfg, w, map[], ps[..n]);
      ServeReadOnly(cfg, tr.w, tr.t, ps[n], n);
    }
  }

  // ---------- canonical paths ----------

  predicate CallCanonical(c: Call)
  {
    match c
    case CSync(_) => true
    case CClose(_) => true
    case CData(op) => Canonical(op.path)
    case CRename(p, q) => Canonical(p) && Canonical(q)
    case CCopy(p, q) => Canonical(p) && Canonical(q)
    case _ => Canonical(c.path)
  }

  predicate AllCanonical(calls: seq<Call>) { forall i :: 0 <= i < |calls| ==> CallCanonical(calls[i]) }

  predicate TableCanonical(t: Table) { forall tok :: tok in t ==> Canonical(t[tok].path) }

  predicate Contained(r: Res) { TableCanonical(r.t) && AllCanonical(r.calls) }

  lemma CleanedCanonical()
    ensures forall p :: Clean(p).Some? ==> Canonical(Clean(p).value)
  {
    forall p: bytes | Clean(p).Some? ensures Canonical(Clean(p).value) {
      CleanIsCanonical(p);
    }
  }

  lemma {:induction false} ChangesPrefix(cfg: Config, fs: Fs, calls: seq<Call>, nonce: nat)
    ensures Changes(cfg, fs, calls, nonce).2 <= calls
    decreases |calls|
  {
    if calls != [] {
      var fs1 := cfg.drv.change(fs, calls[0], nonce).0;
      ChangesPrefix(cfg, fs1, calls[1..], nonce);
      assert calls == [calls[0]] + calls[1..];
    }
  }

  lemma ChangeAllCanonical(cfg: Config, w: World, t: Table, id: uint32, calls: seq<Call>, fallback: uint32, nonce: nat)
    requires TableCanonical(t) && AllCanonical(calls)
    ensures Contained(ChangeAll(cfg, w, t, id, calls, fallback, nonce))
  {
    ChangesPrefix(cfg, w.fs, calls, nonce);
  }

  lemma SetstatCanonical(cfg: Config, w: World, t: Table, id: uint32, path: bytes, a: Attributes, nonce: nat)
    requires TableCanonical(t) && Canonical(path)
    ensures Contained(OpSetstat(cfg, w, t, id, path, a, nonce))
  {
    hide Has, Canonical;
    ChangeAllCanonical(cfg, w, t, id, SetstatCalls(cfg, path, a), FAILURE, nonce);
  }

  lemma {:induction false} EntryCallsCanonical(h: OpenFile, lo: nat, hi: nat)
    requires Canonical(h.path)
    ensures AllCanonical(EntryCalls(h, lo, hi))
    decreases hi - lo
  {
    hide JoinName, Canonical;
    if lo < hi {
      EntryCallsCanonical(h, lo + 1, hi);
      if lo < |h.entries| {
        JoinNameCanonical(h.path, h.entries[lo]);
      }
    }
  }

  lemma FinishOpenCanonical(cfg: Config, w: World, t: Table, id: uint32, path: bytes, write: bool, calls: seq<Call>,
                            nonce: nat)
    requires TableCanonical(t) && AllCanonical(calls) && Canonical(path)
    ensures Contained(FinishOpen(cfg, w, t, id, path, write, calls, nonce))
  {
    hide Canonical, Ascii, ErrReply, Answers;
  }

  lemma OpenCanonical(cfg: Config, w: World, t: Table, m: Message, nonce: nat)
    requires TableCanonical(t) && m.Open?
    ensures Contained(OpOpen(cfg, w, t, m, nonce))
  {
    hide FinishOpen, Clean, Has, Canonical;
    CleanedCanonical();
    if Clean(m.path).Some? {
      var path := Clean(m.path).value;
      var stat, create := CStat(path), CWriteFile(path, Perm(m.attrs, 0x1A4));
      FinishOpenCanonical(cfg, w, t, m.id, path, false, [stat], nonce);
      FinishOpenCanonical(cfg, w, t, m.id, path, true, [stat], nonce);
      var w1 := w.(fs := cfg.drv.change(w.fs, create, nonce).0);
      FinishOpenCanonical(cfg, w1, t, m.id, path, true, [stat] + [create], nonce);
    }
  }

  lemma HandleRequestCanonical(cfg: Config, w: World, t: Table, m: Message, nonce: nat)
    requires TableCanonical(t) && m.HandleRequest?
    ensures Contained(Perform(cfg, w, t, m, nonce))
  {
    hide Clean, JoinName, Page, EntryCalls, Canonical;
    CleanedCanonical();
    if m.handle in t {
      var h := t[m.handle];
      EntryCallsCanonical(h, h.pos, Page(Shown(cfg, w.fs, h, nonce), h.pos, |h.entries|).0);
    }
  }

  lemma OpendirCanonical(cfg: Config, w: World, t: Table, id: uint32, p: bytes, nonce: nat)
    requires TableCanonical(t)
    ensures Contained(OpOpendir(cfg, w, t, id, p, nonce))
  {
    hide Clean, Canonical;
    CleanedCanonical();
  }

  lemma PathRequestCanonical(cfg: Config, w: World, t: Table, m: Message, nonce: nat)
    requires TableCanonical(t) && m.PathRequest?
    ensures Contained(Perform(cfg, w, t, m, nonce))
  {
    hide ChangeAll, Clean, OpOpendir, Canonical;
    CleanedCanonical();
    OpendirCanonical(cfg, w, t, m.id, m.path, nonce);
    if Clean(m.path).Some? {
      var path := Clean(m.path).value;
      ChangeAllCanonical(cfg, w, t, m.id, [CDeleteDir(path)], NO_SUCH_FILE, nonce);
      ChangeAllCanonical(cfg, w, t, m.id, [CDeleteFile(path)], NO_SUCH_FILE, nonce);
    }
  }

  lemma CopyContained(cfg: Config, w: World, t: Table, id: uint32, data: bytes, nonce: nat)
    requires TableCanonical(t)
    ensures Contained(CopyData(cfg, w, t, id, data, nonce))
  {
    hide DecodeCopy, CopyInto, CopyCount, CopyRefusal, Canonical, Ascii, ErrReply;
  }

  lemma ExtendedCanonical(cfg: Config, w: World, t: Table, m: Message, nonce: nat)
    requires TableCanonical(t) && m.Extended?
    ensures Contained(Perform(cfg, w, t, m, nonce))
  {
    hide CopyData, Canonical, Ascii, LimitsReply, TableCanonical;
    CopyContained(cfg, w, t, m.id, m.data, nonce);
  }

  lemma PerformCanonical(cfg: Config, w: World, t: Table, m: Message, nonce: nat)
    requires TableCanonical(t) && !(m.Setstat? && m.kind == FXP_SETSTAT)
    ensures Contained(Perform(cfg, w, t, m, nonce))
  {
    hide OpOpen, OpSetstat, OpExtended, ChangeAll, Clean, Has, Canonical, OpStat, OpFstat, OpReadlink, OpRealpath,
      OpRemove, OpOpendir, OpReaddir, OpClose, OpMkdir, OpRename, OpSymlink;
    match m
    case Open(_, _, _, _) => OpenCanonical(cfg, w, t, m, nonce);
    case HandleRequest(_, _, _) => HandleRequestCanonical(cfg, w, t, m, nonce);
    case PathRequest(_, _, _) => PathRequestCanonical(cfg, w, t, m, nonce);
    case Extended(_, _, _) => ExtendedCanonical(cfg, w, t, m, nonce);
    case Fsetstat(id, handle, attrs) =>
      if handle in t {
        SetstatCanonical(cfg, w, t, id, t[handle].path, attrs, nonce);
      }
    case Setstat(_, _, _, _) => NamedChangeCanonical(cfg, w, t, m, nonce);
    case Rename(_, _, _) => NamedChangeCanonical(cfg, w, t, m, nonce);
    case Symlink(_, _, _) => NamedChangeCanonical(cfg, w, t, m, nonce);
    case _ =>
  }

  lemma NamedChangeCanonical(cfg: Config, w: World, t: Table, m: Message, nonce: nat)
    requires TableCanonical(t) && ((m.Setstat? && m.kind != FXP_SETSTAT) || m.Rename? || m.Symlink?)
    ensures Contained(Perform(cfg, w, t, m, nonce))
  {
    hide ChangeAll, Clean, Canonical, Ascii, Answers;
    CleanedCanonical();
    match m
    case Setstat(_, id, p, attrs) =>
      if Clean(p).Some? {
        ChangeAllCanonical(cfg, w, t, id, [CMkDir(Clean(p).value, Perm(attrs, 0x1ED))], FAILURE, nonce);
      }
    case Rename(id, p, q) =>
      if Clean(p).Some? && Clean(q).Some? {
        ChangeAllCanonical(cfg, w, t, id, [CRename(Clean(p).value, Clean(q).value)], FAILURE, nonce);
      }
    case Symlink(id, target, p) =>
      if Clean(p).Some? {
        ChangeAllCanonical(cfg, w, t, id, [CSymlink(target, Clean(p).value)], FAILURE, nonce);
      }
  }

  lemma SetstatKind(typ: byte, b: bytes)
    requires IsBarrierType(typ) && Decode(typ, b).Some? && Decode(typ, b).value.Got?
    ensures var m := Decode(typ, b).value.value; m.Setstat? ==> m.kind == typ
  {
    hide TakeU32, TakeU64, TakeStr, TakeAttrs;
  }

  lemma PreparedCanonical(cfg: Config, t: Table, p: Packet)
    requires TableCanonical(t) && Prepare(cfg, t, p).Run?
    ensures Canonical(Prepare(cfg, t, p).job.op.path)
  {
    hide DecodeRead, DecodeWrite, RequestId, Canonical, Ascii;
  }

  /** Every path that reaches the driver and every path a handle holds is
      canonical, whatever the request, path SETSTAT excepted. */
  lemma ServeCanonical(cfg: Config, w: World, t: Table, p: Packet, nonce: nat)
    requires TableCanonical(t) && p.typ != FXP_SETSTAT
    ensures Contained(Serve(cfg, w, t, p, nonce))
  {
    hide Perform, Decode, Prepare, Canonical, Act, Render, Ascii, RequestId;
    if Prepare(cfg, t, p).Run? {
      PreparedCanonical(cfg, t, p);
    }
    var d := Decode(p.typ, p.payload);
    if IsBarrierType(p.typ) && d.Some? && d.value.Got? {
      SetstatKind(p.typ, p.payload);
      PerformCanonical(cfg, w, t, d.value.value, nonce);
    }
  }

  /** A call that sets an attribute of path. */
  predicate Sets(c: Call, path: bytes)
  {
    (c.CTruncate? || c.CChmod? || c.CChown? || c.CChtimes?) && c.path == path
  }

  /** Path SETSTAT hands the client's bytes to the driver: its calls are
      contained exactly when there are none or the client's path was canonical. */
  lemma SetstatVerbatim(cfg: Config, w: World, t: Table, id: uint32, path: bytes, a: Attributes, nonce: nat)
    ensures var calls := OpSetstat(cfg, w, t, id, path, a, nonce).calls;
            && (forall i :: 0 <= i < |calls| ==> Sets(calls[i], path))
            && (AllCanonical(calls) <==> calls == [] || Canonical(path))
  {
    hide Has, Canonical, Changes;
    var all := SetstatCalls(cfg, path, a);
    assert forall i :: 0 <= i < |all| ==> Sets(all[i], path);
    ChangesPrefix(cfg, w.fs, all, nonce);
    var calls := OpSetstat(cfg, w, t, id, path, a, nonce).calls;
    assert forall i :: 0 <= i < |calls| ==> calls[i] == all[i];
    if calls != [] {
      assert Sets(calls[0], path);
    }
  }

  lemma SetstatServed(cfg: Config, w: World, t: Table, m: Message, nonce: nat)
    requires m.Setstat? && m.kind == FXP_SETSTAT && Fits(m) && Zeroed(m) == m
    ensures Serve(cfg, w, t, Packet(FXP_SETSTAT, Encode(m)), nonce) ==
            OpSetstat(cfg, w, t, m.id, m.path, m.attrs, nonce)
  {
    hide Decode, Encode, OpSetstat, Fits, Zeroed;
    DecodeEncode(m);
  }

  /** For instance "..": any writable export that can set modes hands it to the
      driver unresolved. */
  lemma SetstatUnresolved(cfg: Config, w: World, nonce: nat)
    requires !cfg.ro && cfg.drv.metadataSetter
    ensures var a := Attributes(ATTR_PERMISSIONS, 0, 0, 0, 0, 0, 0, []);
            var p := Packet(FXP_SETSTAT, Encode(Setstat(FXP_SETSTAT, 7, DOTDOT, a)));
            Serve(cfg, w, map[], p, nonce).calls == [CChmod(DOTDOT, 0)] && !CallCanonical(CChmod(DOTDOT, 0))
  {
    hide Serve, Encode, Changes;
    var a := Attributes(ATTR_PERMISSIONS, 0, 0, 0, 0, 0, 0, []);
    var m := Setstat(FXP_SETSTAT, 7, DOTDOT, a);
    assert Zeroed(m) == m;
    SetstatServed(cfg, w, map[], m, nonce);
    assert SetstatCalls(cfg, DOTDOT, a) == [CChmod(DOTDOT, 0)];
    OneChange(cfg, w.fs, CChmod(DOTDOT, 0), nonce);
  }

  lemma OneChange(cfg: Config, fs: Fs, c: Call, nonce: nat)
    ensures Changes(cfg, fs, [c], nonce).2 == [c]
  {
  }

  /** A path SETSTAT that asks for something the export would do, of a path that
      is not canonical as the client sent it. */
  predicate Stray(cfg: Config, p: Packet)
  {
    p.typ == FXP_SETSTAT && DecodeSetstat(p.typ, p.payload).Got? &&
    var m := DecodeSetstat(p.typ, p.payload).value;
    m.Setstat? && !Canonical(m.path) && Acts(cfg, m.attrs)
  }

  /** A SETSTAT with these attributes reaches the driver. */
  predicate Acts(cfg: Config, a: Attributes)
  {
    && !cfg.ro && (Has(a.flags, ATTR_SIZE) ==> cfg.drv.truncater && a.size <= MAX_INT64)
    && (Has(a.flags, ATTR_SIZE) ||
        (cfg.drv.metadataSetter &&
         (Has(a.flags, ATTR_PERMISSIONS) || Has(a.flags, ATTR_UIDGID) || Has(a.flags, ATTR_ACMODTIME))))
  }

  lemma SetstatActs(cfg: Config, w: World, t: Table, id: uint32, path: bytes, a: Attributes, nonce: nat)
    ensures OpSetstat(cfg, w, t, id, path, a, nonce).calls != [] <==> Acts(cfg, a)
    ensures OpSetstat(cfg, w, t, id, path, a, nonce).t == t
  {
    hide Has;
  }

  lemma SetstatDecoded(b: bytes)
    ensures var d := DecodeSetstat(FXP_SETSTAT, b); d.Got? ==> d.value.Setstat? && d.value.kind == FXP_SETSTAT
  {
    hide TakeU32, TakeStr, TakeAttrs;
  }

  lemma ServeSetstat(cfg: Config, w: World, t: Table, p: Packet, nonce: nat)
    requires p.typ == FXP_SETSTAT
    ensures var r := Serve(cfg, w, t, p, nonce); r.t == t && (AllCanonical(r.calls) <==> !Stray(cfg, p))
  {
    SetstatDecoded(p.payload);
    hide DecodeSetstat, OpSetstat, CallCanonical, Acts, Canonical, RequestId;
    var d := DecodeSetstat(p.typ, p.payload);
    if d.Got? {
      var m := d.value;
      SetstatVerbatim(cfg, w, t, m.id, m.path, m.attrs, nonce);
      SetstatActs(cfg, w, t, m.id, m.path, m.attrs, nonce);
    }
  }

  /** Over any run whatever, every handle's path is canonical, and every path the
      driver is given is, if and only if no path SETSTAT strayed. */
  lemma {:induction false} RunCanonical(cfg: Config, w: World, ps: seq<Packet>)
    ensures var tr := ServeAll(cfg, w, map[], ps);
            TableCanonical(tr.t) && (AllCanonical(tr.calls) <==> forall i :: 0 <= i < |ps| ==> !Stray(cfg, ps[i]))
  {
    hide Serve, CallCanonical, Canonical, Stray;
    if ps != [] {
      var n := |ps| - 1;
      RunCanonical(cfg, w, ps[..n]);
      var tr := ServeAll(cfg, w, map[], ps[..n]);
      var r := Serve(cfg, tr.w, tr.t, ps[n], n);
      if ps[n].typ == FXP_SETSTAT {
        ServeSetstat(cfg, tr.w, tr.t, ps[n], n);
      } else {
        ServeCanonical(cfg, tr.w, tr.t, ps[n], n);
        OnlySetstatStrays(cfg, ps[n]);
      }
      BothCanonical(tr.calls, r.calls);
    }
  }

  lemma OnlySetstatStrays(cfg: Config, p: Packet)
    ensures Stray(cfg, p) ==> p.typ == FXP_SETSTAT
  {
  }

  lemma BothCanonical(a: seq<Call>, b: seq<Call>)
    ensures AllCanonical(a + b) <==> AllCanonical(a) && AllCanonical(b)
  {
    hide CallCanonical;
    if AllCanonical(a + b) {
      forall i | 0 <= i < |a| ensures CallCanonical(a[i]) {
        assert (a + b)[i] == a[i];
      }
      forall i | 0 <= i < |b| ensures CallCanonical(b[i]) {
        assert (a + b)[|a| + i] == b[i];
      }
    }
  }

  /** FSTAT of a handle answers as STAT of the path it was opened with, exactly
      when the resolved path still fits; a 4096-byte relative path does not. */
  lemma FstatIsStat(cfg: Config, w: World, t: Table, id: uint32, tok: bytes, p: bytes, nonce: nat)
    requires Clean(p).Some? && tok in t && t[tok].path == Clean(p).value
    ensures OpFstat(cfg, w, t, id, tok, nonce) == OpStat(cfg, w, t, id, p, nonce) <==> |Clean(p).value| <= MAX_PATH
  {
    hide Clean;
    CleanIsCanonical(p);
    CanonicalIsFixed(Clean(p).value);
  }

  // ---------- lengths on the wire ----------

  lemma DataLength(id: uint32, data: bytes)
    ensures |Encode(Data(id, data))| == 8 + |data|
  {
  }

  lemma WriteLengthOnWire(id: uint32, handle: bytes, off: uint64, data: bytes)
    ensures |Encode(Write(id, handle, off, data))| == 20 + |handle| + |data|
  {
  }

  /** Every READ is answered with a packet that can be framed, and a WRITE of the
      advertised length under a minted handle fits the packet limit exactly when
      the limit holds any WRITE at all. */
  lemma AdvertisedLimits(cfg: Config, files: Files, id: uint32, off: uint64, n: nat, handle: bytes, data: bytes)
    requires n <= cfg.ReadLength() && |handle| == 2 * HANDLE_BYTES && |data| == cfg.WriteLength()
    ensures forall path :: var out := Act(files, ReadOp(path, off, n)).1;
              out.Chunk? ==> Packet(FXP_DATA, Encode(Render(id, out))).Size() <= MAX_PACKET
    ensures Packet(FXP_WRITE, Encode(Write(id, handle, off, data))).Size() <= cfg.PacketLimit() <==>
            cfg.PacketLimit() >= 54
  {
    hide Encode;
    WriteLengthOnWire(id, handle, off, data);
    forall path ensures var out := Act(files, ReadOp(path, off, n)).1;
                        out.Chunk? ==> Packet(FXP_DATA, Encode(Render(id, out))).Size() <= MAX_PACKET
    {
      var out := Act(files, ReadOp(path, off, n)).1;
      if out.Chunk? {
        DataLength(id, out.data);
      }
    }
  }
}

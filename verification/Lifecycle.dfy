/** What becomes of the files the driver opens: each is closed exactly once, and
    until then exactly one handle owns it. */
module Lifecycle {
  import opened Bytes
  import opened Codec
  import opened Messages
  import opened Packets
  import opened Paths
  import opened Directory
  import opened Opening
  import opened Server
  import opened Safety

  /** The driver file behind a token, if any. */
  function HeldFile(t: Table, tok: bytes): Option<nat>
  {
    if tok in t then t[tok].file else None
  }

  /** What one request does to driver files. */
  datatype Event =
    | Nothing
    | Opens(tok: bytes)
    | OpensAndCloses
    | Closes(tok: bytes)
    | Replaces(tok: bytes, h: Option<nat>)

  ghost predicate SameFiles(t: Table, t': Table)
  {
    forall tok :: HeldFile(t', tok) == HeldFile(t, tok)
  }

  /** t' holds what t does, except that tok holds h. */
  ghost predicate SameFilesBut(t: Table, t': Table, tok: bytes, h: Option<nat>)
  {
    forall k :: HeldFile(t', k) == if k == tok then h else HeldFile(t, k)
  }

  /** No driver file is opened or closed, or one is opened and closed again. */
  predicate Balances(w: World, w': World)
  {
    || (w'.issued == w.issued && w'.closes == w.closes)
    || (w'.issued == w.issued + 1 && w'.closes == w.closes + [w.issued])
  }

  ghost predicate Moves(w: World, t: Table, w': World, t': Table, e: Event)
  {
    match e
    case Nothing => w'.issued == w.issued && w'.closes == w.closes && SameFiles(t, t')
    case Opens(tok) =>
      && HeldFile(t, tok) == None && w'.issued == w.issued + 1 && w'.closes == w.closes
      && SameFilesBut(t, t', tok, Some(w.issued))
    case OpensAndCloses =>
      w'.issued == w.issued + 1 && w'.closes == w.closes + [w.issued] && SameFiles(t, t')
    case Closes(tok) =>
      && HeldFile(t, tok).Some? && w'.issued == w.issued
      && w'.closes == w.closes + [HeldFile(t, tok).value] && tok !in t' && SameFilesBut(t, t', tok, None)
    case Replaces(tok, h) =>
      && HeldFile(t, tok).Some? && tok in t' && SameFilesBut(t, t', tok, h)
      && match h
         case None => Balances(w, w')
         case Some(f) => f == w.issued && w'.issued == w.issued + 1 && w'.closes == w.closes
  }

  /** The token minted for this request names a live handle that owns a file. */
  predicate Collides(cfg: Config, t: Table, nonce: nat)
  {
    cfg.drv.mint(nonce).Some? && HeldFile(t, cfg.drv.mint(nonce).value).Some?
  }

  /** Every request does one of the five things to driver files, and stores over a
      file only if the token it was given names one. */
  ghost predicate Accounted(cfg: Config, w: World, t: Table, r: Res, nonce: nat)
  {
    && (exists e :: Moves(w, t, r.w, r.t, e) && (e.Replaces? ==> Collides(cfg, t, nonce)))
    && (|t| <= MAX_OPEN_HANDLES ==> |r.t| <= MAX_OPEN_HANDLES)
  }

  ghost predicate Below(w: World, t: Table)
  {
    forall tok :: HeldFile(t, tok).Some? ==> HeldFile(t, tok).value < w.issued
  }

  /** No driver file is behind two tokens. */
  ghost predicate Distinct(t: Table)
  {
    forall tok, tok' :: HeldFile(t, tok).Some? && HeldFile(t, tok') == HeldFile(t, tok) ==> tok == tok'
  }

  /** A request that opens and closes nothing and keeps its handles. */
  lemma NothingMoves(cfg: Config, w: World, t: Table, r: Res, nonce: nat)
    requires r.w.issued == w.issued && r.w.closes == w.closes && SameFiles(t, r.t) && |r.t| == |t|
    ensures Accounted(cfg, w, t, r, nonce)
  {
    assert Moves(w, t, r.w, r.t, Nothing);
  }

  lemma StoreSize(t: Table, tok: bytes, h: OpenFile)
    ensures |t[tok := h]| <= |t| + 1
    ensures tok in t ==> |t[tok := h]| == |t|
  {
    assert t[tok := h].Keys == t.Keys + {tok};
    if tok in t {
      assert t.Keys + {tok} == t.Keys;
    }
  }

  /** Storing a handle without a file, or with the one just opened. */
  lemma RegisterAccounted(cfg: Config, w0: World, w: World, t: Table, id: uint32, h: OpenFile, calls: seq<Call>,
                          nonce: nat)
    requires !Full(t)
    requires || (h.file == None && Balances(w0, w))
             || (h.file == Some(w0.issued) && w.issued == w0.issued + 1 && w.closes == w0.closes)
    ensures Accounted(cfg, w0, t, Register(cfg, w, t, id, h, calls, nonce), nonce)
  {
    var r := Register(cfg, w, t, id, h, calls, nonce);
    match cfg.drv.mint(nonce)
    case None =>
      assert SameFiles(t, r.t);
      assert Moves(w0, t, r.w, r.t, if w.issued == w0.issued then Nothing else OpensAndCloses);
    case Some(tok) =>
      StoreSize(t, tok, h);
      assert SameFilesBut(t, r.t, tok, h.file);
      if HeldFile(t, tok).Some? {
        assert Moves(w0, t, r.w, r.t, Replaces(tok, h.file));
      } else if h.file.Some? {
        assert Moves(w0, t, r.w, r.t, Opens(tok));
      } else {
        assert SameFiles(t, r.t);
        assert Moves(w0, t, r.w, r.t, if w.issued == w0.issued then Nothing else OpensAndCloses);
      }
  }

  lemma FinishOpenAccounted(cfg: Config, w0: World, w: World, t: Table, id: uint32, path: bytes, write: bool,
                            calls: seq<Call>, nonce: nat)
    requires !Full(t) && w.issued == w0.issued && w.closes == w0.closes
    ensures Accounted(cfg, w0, t, FinishOpen(cfg, w, t, id, path, write, calls, nonce), nonce)
  {
    hide Register, Accounted, Full;
    var r := FinishOpen(cfg, w, t, id, path, write, calls, nonce);
    var h := OpenFile(path, false, [], 0, None, false, write);
    if !cfg.drv.opener {
      RegisterAccounted(cfg, w0, w, t, id, h, calls, nonce);
    } else {
      var calls1 := calls + [COpenFile(path)];
      var w1 := w.(issued := w.issued + 1);
      var w2, calls2 := CloseFile(w1, w.issued), calls1 + [CClose(w.issued)];
      match cfg.drv.openFile(w.fs, path, nonce)
      case Opened(writable) =>
        if !write || writable {
          RegisterAccounted(cfg, w0, w1, t, id, h.(file := Some(w.issued), writable := write), calls1, nonce);
        } else if cfg.drv.close(w.issued, nonce).None? {
          RegisterAccounted(cfg, w0, w2, t, id, h, calls2, nonce);
        } else {
          OpenedAndClosed(cfg, w0, t, r, nonce);
        }
      case _ => NothingMoves(cfg, w0, t, r, nonce);
    }
  }

  lemma OpenedAndClosed(cfg: Config, w: World, t: Table, r: Res, nonce: nat)
    requires r.w.issued == w.issued + 1 && r.w.closes == w.closes + [w.issued] && r.t == t
    ensures Accounted(cfg, w, t, r, nonce)
  {
    assert Moves(w, t, r.w, r.t, OpensAndCloses);
  }

  lemma OpenAccounted(cfg: Config, w: World, t: Table, m: Message, nonce: nat)
    requires m.Open?
    ensures Accounted(cfg, w, t, OpOpen(cfg, w, t, m, nonce), nonce)
  {
    hide OpOpen, FinishOpen, Accounted, Clean, Full, Ready, Created, WantsWrite;
    var calls := OpenFinishes(cfg, w, t, m, nonce);
    if Ready(cfg, w, t, m, nonce) {
      ReadyPath(cfg, w, t, m, nonce);
      var path := Clean(m.path).value;
      FinishOpenAccounted(cfg, w, w.(fs := Created(cfg, w, m, path, nonce)), t, m.id, path, WantsWrite(m.pflags), calls,
                          nonce);
    } else {
      NothingMoves(cfg, w, t, OpOpen(cfg, w, t, m, nonce), nonce);
    }
  }

  /** Everything an OPENDIR asks before a token is made. */
  predicate Lists(cfg: Config, w: World, t: Table, p: bytes, nonce: nat)
  {
    Clean(p).Some? && !Full(t) && IsDirectory(cfg, w, Clean(p).value, nonce) &&
    cfg.drv.listDir(w.fs, Clean(p).value, nonce).Yes?
  }

  /** OPENDIR stores a snapshot of the listing under a new token exactly when every
      question is answered yes and a token can be made, and otherwise nothing. */
  lemma OpendirGives(cfg: Config, w: World, t: Table, id: uint32, p: bytes, nonce: nat)
    ensures var r, tok := OpOpendir(cfg, w, t, id, p, nonce), cfg.drv.mint(nonce);
            && r.w == w && (r.reply.Handle? <==> Lists(cfg, w, t, p, nonce) && tok.Some?)
            && if r.reply.Handle? then
                 var path := Clean(p).value;
                 var entries := cfg.drv.listDir(w.fs, path, nonce).value;
                 r.reply.handle == tok.value &&
                 r.t == t[tok.value := OpenFile(path, true, entries, 0, None, false, false)]
               else r.t == t
  {
    hide Clean, Full;
  }

  lemma OpendirAccounted(cfg: Config, w: World, t: Table, id: uint32, p: bytes, nonce: nat)
    ensures Accounted(cfg, w, t, OpOpendir(cfg, w, t, id, p, nonce), nonce)
  {
    hide Register, Accounted, Clean, Full;
    var r := OpOpendir(cfg, w, t, id, p, nonce);
    if Lists(cfg, w, t, p, nonce) {
      var path := Clean(p).value;
      RegisterAccounted(cfg, w, w, t, id,
                        OpenFile(path, true, cfg.drv.listDir(w.fs, path, nonce).value, 0, None, false, false),
                        [CStat(path), CListDir(path)], nonce);
    } else {
      NothingMoves(cfg, w, t, r, nonce);
    }
  }

  lemma CloseUnknown(cfg: Config, w: World, t: Table, id: uint32, tok: bytes, nonce: nat)
    requires tok !in t
    ensures var r := OpClose(cfg, w, t, id, tok, nonce);
            r.w == w && r.t == t == t - {tok} && HeldFile(t, tok).None? && Moves(w, t, r.w, r.t, Nothing)
  {
    hide Ack, Ascii, Answers;
  }

  lemma CloseMoves(cfg: Config, w: World, t: Table, id: uint32, tok: bytes, nonce: nat)
    requires tok in t
    ensures var r := OpClose(cfg, w, t, id, tok, nonce);
            && r.t == t - {tok} && r.w.fs == w.fs
            && Moves(w, t, r.w, r.t, if HeldFile(t, tok).Some? then Closes(tok) else Nothing)
  {
    hide Ack, Ascii, Answers;
  }

  lemma RemovedSmaller(t: Table, tok: bytes)
    requires tok in t
    ensures |t - {tok}| <= |t|
  {
    assert (t - {tok}).Keys == t.Keys - {tok};
  }

  /** CLOSE of a known handle frees its token and no other, and closes its file,
      if it has one, once, whether or not the driver's calls fail. */
  lemma CloseAccounted(cfg: Config, w: World, t: Table, id: uint32, tok: bytes, nonce: nat)
    ensures var r := OpClose(cfg, w, t, id, tok, nonce);
            && Accounted(cfg, w, t, r, nonce)
            && r.t == t - {tok} && r.w.fs == w.fs
            && Moves(w, t, r.w, r.t, if HeldFile(t, tok).Some? then Closes(tok) else Nothing)
  {
    hide OpClose, Moves, HeldFile;
    var r := OpClose(cfg, w, t, id, tok, nonce);
    if tok in t {
      CloseMoves(cfg, w, t, id, tok, nonce);
      RemovedSmaller(t, tok);
    } else {
      CloseUnknown(cfg, w, t, id, tok, nonce);
      NothingMoves(cfg, w, t, r, nonce);
    }
  }

  lemma ReaddirAccounted(cfg: Config, w: World, t: Table, id: uint32, tok: bytes, nonce: nat)
    ensures Accounted(cfg, w, t, OpReaddir(cfg, w, t, id, tok, nonce), nonce)
    ensures SameFiles(t, OpReaddir(cfg, w, t, id, tok, nonce).t)
  {
    hide Accounted, Page, EntryCalls;
    var r := OpReaddir(cfg, w, t, id, tok, nonce);
    if tok in t {
      StoreSize(t, tok, t[tok]);
      assert |r.t.Keys| == |t.Keys| by {
        assert r.t.Keys == t.Keys;
      }
    }
    NothingMoves(cfg, w, t, r, nonce);
  }

  /** Requests that neither open, list nor close anything. */
  predicate KeepsHandles(m: Message)
  {
    !m.Open? && !(m.PathRequest? && m.kind == FXP_OPENDIR) && !(m.HandleRequest? && m.kind != FXP_FSTAT)
  }

  lemma ChangeAllKeeps(cfg: Config, w: World, t: Table, id: uint32, calls: seq<Call>, fallback: uint32, nonce: nat)
    ensures var r := ChangeAll(cfg, w, t, id, calls, fallback, nonce); r.t == t && r.w == w.(fs := r.w.fs)
  {
  }

  lemma CopyKeeps(cfg: Config, w: World, t: Table, id: uint32, data: bytes, nonce: nat)
    ensures var r := CopyData(cfg, w, t, id, data, nonce); r.t == t && r.w == w.(fs := r.w.fs)
  {
    hide Ascii, DecodeCopy, CopyCount, CopyInto, CopyRefusal, ErrReply;
  }

  lemma RequestKept(cfg: Config, w: World, t: Table, m: Message, nonce: nat)
    requires KeepsHandles(m) && (m.PathRequest? || m.HandleRequest? || m.Extended?)
    ensures var r := Perform(cfg, w, t, m, nonce); r.t == t && r.w == w.(fs := r.w.fs)
  {
    hide Answers, Clean, ChangeAll, CopyData, AttrsFromStat, Ascii, OpSetstat, OpRename, OpSymlink, OpMkdir, OpOpen,
      OpClose, OpOpendir, OpReaddir;
    forall calls, fallback
      ensures var r := ChangeAll(cfg, w, t, m.id, calls, fallback, nonce); r.t == t && r.w == w.(fs := r.w.fs)
    {
      ChangeAllKeeps(cfg, w, t, m.id, calls, fallback, nonce);
    }
    if m.Extended? {
      CopyKeeps(cfg, w, t, m.id, m.data, nonce);
    }
  }

  lemma HandlesKept(cfg: Config, w: World, t: Table, m: Message, nonce: nat)
    requires KeepsHandles(m)
    ensures var r := Perform(cfg, w, t, m, nonce); r.t == t && r.w == w.(fs := r.w.fs)
  {
    hide Answers, Clean, Has, ChangeAll, SetstatCalls, Ascii, OpOpen, OpClose, OpOpendir, OpReaddir, OpExtended,
      OpStat, OpFstat, OpRemove, OpReadlink, OpRealpath;
    if m.PathRequest? || m.HandleRequest? || m.Extended? {
      RequestKept(cfg, w, t, m, nonce);
    }
    forall id, calls, fallback
      ensures var r := ChangeAll(cfg, w, t, id, calls, fallback, nonce); r.t == t && r.w == w.(fs := r.w.fs)
    {
      ChangeAllKeeps(cfg, w, t, id, calls, fallback, nonce);
    }
  }

  lemma OthersAccounted(cfg: Config, w: World, t: Table, m: Message, nonce: nat)
    requires KeepsHandles(m)
    ensures Accounted(cfg, w, t, Perform(cfg, w, t, m, nonce), nonce)
  {
    hide Accounted, Perform;
    HandlesKept(cfg, w, t, m, nonce);
    NothingMoves(cfg, w, t, Perform(cfg, w, t, m, nonce), nonce);
  }

  lemma ServeAccounted(cfg: Config, w: World, t: Table, p: Packet, nonce: nat)
    ensures Accounted(cfg, w, t, Serve(cfg, w, t, p, nonce), nonce)
  {
    hide Accounted, Decode, TakeStr, TakeU32, TakeU64, OpOpen, OpOpendir, OpClose, OpReaddir, OpStat, OpFstat,
      OpSetstat, OpFsetstat, OpMkdir, OpRemove, OpRename, OpSymlink, OpReadlink, OpRealpath, OpExtended;
    var r := Serve(cfg, w, t, p, nonce);
    var d := Decode(p.typ, p.payload);
    if Prepare(cfg, t, p).Barrier? && IsBarrierType(p.typ) && d.Some? && d.value.Got? {
      var m := d.value.value;
      match m
      case Open(_, _, _, _) => OpenAccounted(cfg, w, t, m, nonce);
      case HandleRequest(kind, id, tok) =>
        CloseAccounted(cfg, w, t, id, tok, nonce);
        ReaddirAccounted(cfg, w, t, id, tok, nonce);
        if kind == FXP_FSTAT {
          OthersAccounted(cfg, w, t, m, nonce);
        }
      case PathRequest(kind, id, path) =>
        if kind == FXP_OPENDIR {
          OpendirAccounted(cfg, w, t, id, path, nonce);
        } else {
          OthersAccounted(cfg, w, t, m, nonce);
        }
      case _ => OthersAccounted(cfg, w, t, m, nonce);
    } else {
      NothingMoves(cfg, w, t, r, nonce);
    }
  }

  // ---------- when a token is stored over a file ----------

  /** A token was stored over a live handle that owns a file. */
  ghost predicate Overwrites(t: Table, t': Table)
  {
    exists tok :: HeldFile(t, tok).Some? && tok in t' && HeldFile(t', tok) != HeldFile(t, tok)
  }

  /** The packet asks for a handle and everything asked before a token is made is
      answered yes. */
  predicate Stores(cfg: Config, w: World, t: Table, p: Packet, nonce: nat)
  {
    IsBarrierType(p.typ) && Decode(p.typ, p.payload).Some? && Decode(p.typ, p.payload).value.Got? &&
    var m := Decode(p.typ, p.payload).value.value;
    || (m.Open? && Granted(cfg, w, t, m, nonce))
    || (m.PathRequest? && m.kind == FXP_OPENDIR && Lists(cfg, w, t, m.path, nonce))
  }

  /** It will be stored over a file: both can be told before the packet is served. */
  predicate StoresOver(cfg: Config, w: World, t: Table, p: Packet, nonce: nat)
  {
    Stores(cfg, w, t, p, nonce) && Collides(cfg, t, nonce)
  }

  lemma StoreOverwrites(w: World, t: Table, tok: bytes, h: OpenFile)
    requires Below(w, t) && (h.file == None || h.file == Some(w.issued))
    ensures Overwrites(t, t[tok := h]) <==> HeldFile(t, tok).Some?
  {
    var t' := t[tok := h];
    if HeldFile(t, tok).Some? {
      assert tok in t' && HeldFile(t', tok) != HeldFile(t, tok);
    } else {
      forall k | HeldFile(t, k).Some? ensures HeldFile(t', k) == HeldFile(t, k) {
      }
    }
  }

  lemma OpenOverwrites(cfg: Config, w: World, t: Table, m: Message, nonce: nat)
    requires m.Open? && Below(w, t)
    ensures Overwrites(t, OpOpen(cfg, w, t, m, nonce).t) <==> Granted(cfg, w, t, m, nonce) && Collides(cfg, t, nonce)
  {
    hide OpOpen, Granted, Clean, Created, KeepsFile, WantsWrite, Overwrites, Below;
    OpenGives(cfg, w, t, m, nonce);
    var r := OpOpen(cfg, w, t, m, nonce);
    if r.reply.Handle? {
      GrantedPath(cfg, w, t, m, nonce);
      var path, write := Clean(m.path).value, WantsWrite(m.pflags);
      var kept := KeepsFile(cfg, Created(cfg, w, m, path, nonce), path, write, nonce);
      var file: Option<nat> := if kept then Some(w.issued) else None;
      StoreOverwrites(w, t, r.reply.handle, OpenFile(path, false, [], 0, file, write && file.Some?, write));
    } else {
      SameIsNoOverwrite(t);
    }
  }

  lemma SameIsNoOverwrite(t: Table)
    ensures !Overwrites(t, t)
  {
  }

  lemma OpendirOverwrites(cfg: Config, w: World, t: Table, id: uint32, p: bytes, nonce: nat)
    requires Below(w, t)
    ensures Overwrites(t, OpOpendir(cfg, w, t, id, p, nonce).t) <==>
            Lists(cfg, w, t, p, nonce) && Collides(cfg, t, nonce)
  {
    hide OpOpendir, Clean, Full, Overwrites, Below;
    OpendirGives(cfg, w, t, id, p, nonce);
    var r := OpOpendir(cfg, w, t, id, p, nonce);
    if r.reply.Handle? {
      var path := Clean(p).value;
      StoreOverwrites(w, t, r.reply.handle,
                      OpenFile(path, true, cfg.drv.listDir(w.fs, path, nonce).value, 0, None, false, false));
    } else {
      SameIsNoOverwrite(t);
    }
  }

  lemma HandleNeverOverwrites(cfg: Config, w: World, t: Table, m: Message, nonce: nat)
    requires m.HandleRequest? && m.kind != FXP_FSTAT
    ensures !Overwrites(t, Perform(cfg, w, t, m, nonce).t)
  {
    hide OpClose, OpReaddir;
    CloseAccounted(cfg, w, t, m.id, m.handle, nonce);
    ReaddirAccounted(cfg, w, t, m.id, m.handle, nonce);
  }

  /** A packet stores over a file exactly when it stores and its token collides. */
  lemma OverwritesExactly(cfg: Config, w: World, t: Table, p: Packet, nonce: nat)
    requires Below(w, t)
    ensures Overwrites(t, Serve(cfg, w, t, p, nonce).t) <==> StoresOver(cfg, w, t, p, nonce)
  {
    hide Decode, OpOpen, OpOpendir, OpClose, OpReaddir, Granted, Lists, Overwrites, Below, Collides;
    var r := Serve(cfg, w, t, p, nonce);
    var d := Decode(p.typ, p.payload);
    SameIsNoOverwrite(t);
    if Prepare(cfg, t, p).Barrier? && IsBarrierType(p.typ) && d.Some? && d.value.Got? {
      var m := d.value.value;
      assert r == Perform(cfg, w, t, m, nonce);
      PerformOverwrites(cfg, w, t, m, nonce);
    }
  }

  lemma PerformOverwrites(cfg: Config, w: World, t: Table, m: Message, nonce: nat)
    requires Below(w, t)
    ensures Overwrites(t, Perform(cfg, w, t, m, nonce).t) <==>
            && Collides(cfg, t, nonce)
            && (|| (m.Open? && Granted(cfg, w, t, m, nonce))
                || (m.PathRequest? && m.kind == FXP_OPENDIR && Lists(cfg, w, t, m.path, nonce)))
  {
    hide OpOpen, OpOpendir, OpClose, OpReaddir, Granted, Lists, Overwrites, Below, Collides;
    if m.Open? {
      OpenOverwrites(cfg, w, t, m, nonce);
    } else if m.PathRequest? && m.kind == FXP_OPENDIR {
      OpendirOverwrites(cfg, w, t, m.id, m.path, nonce);
    } else {
      hide Perform;
      SameIsNoOverwrite(t);
      if m.HandleRequest? && m.kind != FXP_FSTAT {
        HandleNeverOverwrites(cfg, w, t, m, nonce);
      } else {
        HandlesKept(cfg, w, t, m, nonce);
      }
    }
  }

  lemma MovesOverwrites(w: World, t: Table, w': World, t': Table, e: Event)
    requires Below(w, t) && Moves(w, t, w', t', e)
    ensures e.Replaces? <==> Overwrites(t, t')
  {
    if e.Replaces? {
      assert HeldFile(t', e.tok) != HeldFile(t, e.tok);
    }
  }

  /** What a packet does to driver files, with the exact condition of the fifth. */
  lemma ServeMoves(cfg: Config, w: World, t: Table, p: Packet, nonce: nat) returns (e: Event)
    requires Below(w, t)
    ensures var r := Serve(cfg, w, t, p, nonce); Moves(w, t, r.w, r.t, e)
    ensures e.Replaces? <==> StoresOver(cfg, w, t, p, nonce)
  {
    hide Serve, StoresOver, Overwrites;
    var r := Serve(cfg, w, t, p, nonce);
    ServeAccounted(cfg, w, t, p, nonce);
    e :| Moves(w, t, r.w, r.t, e);
    OverwritesExactly(cfg, w, t, p, nonce);
    MovesOverwrites(w, t, r.w, r.t, e);
  }

  // ---------- conservation ----------

  predicate Once(fs: seq<nat>)
  {
    forall i, j :: 0 <= i < j < |fs| ==> fs[i] != fs[j]
  }

  ghost predicate Held(ts: seq<Table>, f: nat)
  {
    exists s, tok :: 0 <= s < |ts| && HeldFile(ts[s], tok) == Some(f)
  }

  /** What always holds of the driver files behind all sessions' tables: none was
      closed twice or before it was opened, and a file behind a handle is open and
      behind no other. */
  ghost predicate Sane(w: World, ts: seq<Table>)
  {
    && Once(w.closes)
    && (forall i :: 0 <= i < |w.closes| ==> w.closes[i] < w.issued)
    && (forall s, tok :: 0 <= s < |ts| && HeldFile(ts[s], tok).Some? ==>
          HeldFile(ts[s], tok).value < w.issued && HeldFile(ts[s], tok).value !in w.closes)
    && (forall s, tok, s', tok' ::
          (0 <= s < |ts| && 0 <= s' < |ts| && HeldFile(ts[s], tok).Some? &&
           HeldFile(ts[s'], tok') == HeldFile(ts[s], tok)) ==> s == s' && tok == tok')
  }

  /** The ledger balances: every file ever opened is either closed, once, or owned
      by exactly one handle. */
  ghost predicate Life(w: World, ts: seq<Table>)
  {
    Sane(w, ts) && forall f: nat :: f < w.issued ==> f in w.closes || Held(ts, f)
  }

  /** Every file opened was closed, and none twice. */
  ghost predicate AllClosedOnce(w: World)
  {
    Once(w.closes) && forall f: nat :: f in w.closes <==> f < w.issued
  }

  lemma SaneBelow(w: World, ts: seq<Table>, s: nat)
    requires Sane(w, ts) && s < |ts|
    ensures Below(w, ts[s]) && Distinct(ts[s])
  {
    forall tok, tok' | HeldFile(ts[s], tok).Some? && HeldFile(ts[s], tok') == HeldFile(ts[s], tok) ensures tok == tok' {
      assert s == s && tok == tok';
    }
  }

  /** Whatever a request does to driver files, they stay sane. */
  lemma SaneMoves(w: World, ts: seq<Table>, s: nat, w': World, t': Table, e: Event)
    requires Sane(w, ts) && s < |ts| && Moves(w, ts[s], w', t', e)
    ensures Sane(w', ts[s := t'])
  {
    hide HeldFile;
    var ts' := ts[s := t'];
    forall s0, tok | 0 <= s0 < |ts'| && HeldFile(ts'[s0], tok).Some?
      ensures HeldFile(ts'[s0], tok).value < w'.issued && HeldFile(ts'[s0], tok).value !in w'.closes
    {
      assert HeldFile(ts'[s0], tok) == Some(w.issued) || HeldFile(ts'[s0], tok) == HeldFile(ts[s0], tok);
    }
  }

  lemma HeldAfter(ts: seq<Table>, s: nat, t': Table, f: nat, gone: Option<bytes>)
    requires s < |ts| && Held(ts, f)
    requires forall tok :: HeldFile(ts[s], tok).Some? && gone != Some(tok) ==> HeldFile(t', tok) == HeldFile(ts[s], tok)
    requires gone.Some? ==> HeldFile(ts[s], gone.value) != Some(f)
    ensures Held(ts[s := t'], f)
  {
    var s0, tok :| 0 <= s0 < |ts| && HeldFile(ts[s0], tok) == Some(f);
    assert HeldFile(ts[s := t'][s0], tok) == Some(f);
  }

  lemma HeldHere(ts: seq<Table>, s: nat, tok: bytes, f: nat)
    requires s < |ts| && HeldFile(ts[s], tok) == Some(f)
    ensures Held(ts, f)
  {
  }

  /** Every move but the fifth keeps the ledger balanced. */
  lemma LifeMoves(w: World, ts: seq<Table>, s: nat, w': World, t': Table, e: Event)
    requires Life(w, ts) && s < |ts| && Moves(w, ts[s], w', t', e) && !e.Replaces?
    ensures Life(w', ts[s := t'])
  {
    hide Held, HeldFile, Sane;
    SaneMoves(w, ts, s, w', t', e);
    var ts' := ts[s := t'];
    forall f: nat | f < w'.issued ensures f in w'.closes || Held(ts', f) {
      match e
      case Nothing => if Held(ts, f) { HeldAfter(ts, s, t', f, None); }
      case OpensAndCloses => if Held(ts, f) { HeldAfter(ts, s, t', f, None); }
      case Opens(tok) =>
        if f == w.issued {
          HeldHere(ts', s, tok, f);
        } else if Held(ts, f) {
          HeldAfter(ts, s, t', f, None);
        }
      case Closes(tok) =>
        if Held(ts, f) && HeldFile(ts[s], tok) != Some(f) {
          HeldAfter(ts, s, t', f, Some(tok));
        }
      case _ =>
    }
  }

  /** closeAll at the end of a session, in whatever order the table yields. */
  ghost predicate ClosesAll(w: World, t: Table, w': World)
  {
    && w.closes <= w'.closes && w' == w.(closes := w'.closes)
    && Once(w'.closes[|w.closes|..])
    && forall f: nat :: f in w'.closes[|w.closes|..] <==> exists tok :: HeldFile(t, tok) == Some(f)
  }

  /** There always is such an order. */
  lemma {:induction false} OrderExists(t: Table) returns (order: seq<nat>)
    requires Distinct(t)
    ensures Once(order) && forall f: nat :: f in order <==> exists tok :: HeldFile(t, tok) == Some(f)
    decreases |t|
  {
    if t == map[] {
      order := [];
    } else {
      var tok :| tok in t;
      var rest := t - {tok};
      assert forall k :: HeldFile(rest, k) == if k == tok then None else HeldFile(t, k);
      var later := OrderExists(rest);
      order := if t[tok].file.Some? then [t[tok].file.value] + later else later;
      forall f: nat ensures f in order <==> exists k :: HeldFile(t, k) == Some(f) {
        if f in later {
          var k :| HeldFile(rest, k) == Some(f);
          assert HeldFile(t, k) == Some(f);
        }
        if k :| HeldFile(t, k) == Some(f) {
          assert k != tok ==> HeldFile(rest, k) == Some(f);
          assert k == tok ==> t[tok].file == Some(f);
        }
        assert t[tok].file == Some(f) ==> HeldFile(t, tok) == Some(f);
      }
      forall i | 0 <= i < |later| ensures Some(later[i]) != t[tok].file {
        assert later[i] in later;
        var k :| HeldFile(rest, k) == Some(later[i]);
        assert HeldFile(t, k) == Some(later[i]) && k != tok;
        assert HeldFile(t, tok) == t[tok].file;
      }
    }
  }

  lemma SaneEnds(w: World, ts: seq<Table>, s: nat, w': World)
    requires Sane(w, ts) && s < |ts| && ClosesAll(w, ts[s], w')
    ensures Sane(w', ts[s := map[]])
  {
    var order, ts' := w'.closes[|w.closes|..], ts[s := map[]];
    assert w'.closes == w.closes + order;
    forall i, j | 0 <= i < j < |w'.closes| ensures w'.closes[i] != w'.closes[j] {
      if i < |w.closes| <= j {
        assert w'.closes[j] == order[j - |w.closes|] && order[j - |w.closes|] in order;
        assert w'.closes[i] in w.closes;
      } else if |w.closes| <= i {
        assert w'.closes[i] == order[i - |w.closes|] && w'.closes[j] == order[j - |w.closes|];
      }
    }
    forall s0, tok | 0 <= s0 < |ts'| && HeldFile(ts'[s0], tok).Some?
      ensures HeldFile(ts'[s0], tok).value < w.issued && HeldFile(ts'[s0], tok).value !in w'.closes
    {
      assert s0 != s && HeldFile(ts[s0], tok) == HeldFile(ts'[s0], tok);
    }
    forall i | 0 <= i < |w'.closes| ensures w'.closes[i] < w.issued {
      if i >= |w.closes| {
        assert order[i - |w.closes|] in order;
      }
    }
  }

  lemma LifeEnds(w: World, ts: seq<Table>, s: nat, w': World)
    requires Life(w, ts) && s < |ts| && ClosesAll(w, ts[s], w')
    ensures Life(w', ts[s := map[]])
  {
    hide Sane;
    SaneEnds(w, ts, s, w');
    var order, ts' := w'.closes[|w.closes|..], ts[s := map[]];
    assert w'.closes == w.closes + order;
    forall f: nat | f < w'.issued ensures f in w'.closes || Held(ts', f) {
      if f !in w.closes && f !in order {
        HeldAfterEnd(ts, s, f);
      }
    }
  }

  lemma HeldAfterEnd(ts: seq<Table>, s: nat, f: nat)
    requires s < |ts| && Held(ts, f) && forall tok :: HeldFile(ts[s], tok) != Some(f)
    ensures Held(ts[s := map[]], f)
  {
    var s0, tok :| 0 <= s0 < |ts| && HeldFile(ts[s0], tok) == Some(f);
    assert HeldFile(ts[s := map[]][s0], tok) == Some(f);
  }

  // ---------- what a token collision costs ----------

  /** Opened, not closed, and out of every handle's reach. */
  ghost predicate Leaked(w: World, ts: seq<Table>, f: nat)
  {
    f < w.issued && f !in w.closes && !Held(ts, f)
  }

  /** Nothing later closes a leaked file or finds an owner for it. */
  lemma LeakStays(w: World, ts: seq<Table>, s: nat, w': World, t': Table, e: Event, f: nat)
    requires s < |ts| && Leaked(w, ts, f) && Moves(w, ts[s], w', t', e)
    ensures Leaked(w', ts[s := t'], f)
  {
    hide HeldFile;
    assert forall tok :: HeldFile(ts[s], tok) != Some(f);
    var ts' := ts[s := t'];
    forall s0, k | 0 <= s0 < |ts'| ensures HeldFile(ts'[s0], k) != Some(f) {
      assert HeldFile(ts[s0], k) != Some(f);
    }
  }

  /** Storing a token over a file leaks that file. */
  lemma ReplaceLeaks(w: World, ts: seq<Table>, s: nat, w': World, t': Table, e: Event)
    requires s < |ts| && Sane(w, ts) && e.Replaces? && Moves(w, ts[s], w', t', e)
    ensures Leaked(w', ts[s := t'], HeldFile(ts[s], e.tok).value)
  {
    hide HeldFile;
    var f, ts' := HeldFile(ts[s], e.tok).value, ts[s := t'];
    forall s0, k | 0 <= s0 < |ts'| ensures HeldFile(ts'[s0], k) != Some(f) {
      assert HeldFile(ts[s], e.tok) == HeldFile(ts[s0], k) ==> s0 == s && k == e.tok;
    }
  }

  lemma LeakSurvivesEnd(w: World, ts: seq<Table>, s: nat, w': World, f: nat)
    requires s < |ts| && Leaked(w, ts, f) && ClosesAll(w, ts[s], w')
    ensures Leaked(w', ts[s := map[]], f)
  {
    var order := w'.closes[|w.closes|..];
    assert w'.closes == w.closes + order;
    assert forall tok :: HeldFile(ts[s], tok) != Some(f);
    assert f !in order;
    var ts' := ts[s := map[]];
    forall s0, k | 0 <= s0 < |ts'| ensures HeldFile(ts'[s0], k) != Some(f) {
      assert HeldFile(ts[s0], k) != Some(f);
    }
  }

  // ---------- whole sessions ----------

  /** No packet of the run is about to be stored over a file. */
  predicate NeverStoresOver(cfg: Config, w: World, ps: seq<Packet>)
  {
    forall n :: 0 <= n < |ps| ==>
      !StoresOver(cfg, ServeAll(cfg, w, map[], ps[..n]).w, ServeAll(cfg, w, map[], ps[..n]).t, ps[n], n)
  }

  /** Along every run no file is behind two tokens and the table keeps its bound. */
  lemma {:induction false} RunBelow(cfg: Config, w: World, ps: seq<Packet>)
    ensures var tr := ServeAll(cfg, w, map[], ps);
            Below(tr.w, tr.t) && Distinct(tr.t) && |tr.t| <= MAX_OPEN_HANDLES
  {
    hide Serve, Moves, Distinct;
    if ps == [] {
      assert Distinct(map[]) by { NothingHeld(); }
    } else {
      var n := |ps| - 1;
      RunBelow(cfg, w, ps[..n]);
      var tr := ServeAll(cfg, w, map[], ps[..n]);
      var r := Serve(cfg, tr.w, tr.t, ps[n], n);
      ServeAccounted(cfg, tr.w, tr.t, ps[n], n);
      var e :| Moves(tr.w, tr.t, r.w, r.t, e);
      BelowStays(tr.w, tr.t, r.w, r.t, e);
    }
  }

  lemma NothingHeld()
    ensures Distinct(map[])
  {
  }

  lemma BelowStays(w: World, t: Table, w': World, t': Table, e: Event)
    requires Below(w, t) && Distinct(t) && Moves(w, t, w', t', e)
    ensures Below(w', t') && Distinct(t')
  {
    hide HeldFile;
    forall tok | HeldFile(t', tok).Some?
      ensures HeldFile(t', tok) == Some(w.issued) || HeldFile(t', tok) == HeldFile(t, tok)
    {
    }
  }

  /** Step n of a run. */
  lemma RunMoves(cfg: Config, w: World, ps: seq<Packet>, n: nat) returns (e: Event)
    requires n < |ps|
    ensures var tr, tr' := ServeAll(cfg, w, map[], ps[..n]), ServeAll(cfg, w, map[], ps[..n + 1]);
            && Moves(tr.w, tr.t, tr'.w, tr'.t, e)
            && (e.Replaces? <==> StoresOver(cfg, tr.w, tr.t, ps[n], n))
  {
    hide Serve, StoresOver, Moves;
    RunBelow(cfg, w, ps[..n]);
    var tr := ServeAll(cfg, w, map[], ps[..n]);
    e := ServeMoves(cfg, tr.w, tr.t, ps[n], n);
    assert ps[..n + 1][..n] == ps[..n];
  }

  /** Driver files are sane at every step of a run. */
  lemma {:induction false} RunSane(cfg: Config, w: World, ps: seq<Packet>, n: nat)
    requires Sane(w, [map[]]) && n <= |ps|
    ensures var tr := ServeAll(cfg, w, map[], ps[..n]); Sane(tr.w, [tr.t])
  {
    hide Serve, Sane, Moves, StoresOver;
    if n > 0 {
      RunSane(cfg, w, ps, n - 1);
      var e := RunMoves(cfg, w, ps, n - 1);
      var tr, tr' := ServeAll(cfg, w, map[], ps[..n - 1]), ServeAll(cfg, w, map[], ps[..n]);
      SaneMoves(tr.w, [tr.t], 0, tr'.w, tr'.t, e);
      assert [tr.t][0 := tr'.t] == [tr'.t];
    }
  }

  /** Up to step n without storing over a file, the ledger balances. */
  lemma {:induction false} RunLife(cfg: Config, w: World, ps: seq<Packet>, n: nat)
    requires Life(w, [map[]]) && n <= |ps| && NeverStoresOver(cfg, w, ps)
    ensures var tr := ServeAll(cfg, w, map[], ps[..n]); Life(tr.w, [tr.t])
  {
    hide Serve, Life, Moves, StoresOver;
    if n > 0 {
      RunLife(cfg, w, ps, n - 1);
      var e := RunMoves(cfg, w, ps, n - 1);
      var tr, tr' := ServeAll(cfg, w, map[], ps[..n - 1]), ServeAll(cfg, w, map[], ps[..n]);
      LifeMoves(tr.w, [tr.t], 0, tr'.w, tr'.t, e);
      assert [tr.t][0 := tr'.t] == [tr'.t];
    }
  }

  /** Once leaked, leaked at every later step. */
  lemma {:induction false} RunLeaks(cfg: Config, w: World, ps: seq<Packet>, k: nat, n: nat, f: nat)
    requires k <= n <= |ps|
    requires var tr := ServeAll(cfg, w, map[], ps[..k]); Leaked(tr.w, [tr.t], f)
    ensures var tr := ServeAll(cfg, w, map[], ps[..n]); Leaked(tr.w, [tr.t], f)
    decreases n
  {
    hide Serve, Leaked, Moves, StoresOver;
    if k < n {
      RunLeaks(cfg, w, ps, k, n - 1, f);
      var e := RunMoves(cfg, w, ps, n - 1);
      var tr, tr' := ServeAll(cfg, w, map[], ps[..n - 1]), ServeAll(cfg, w, map[], ps[..n]);
      LeakStays(tr.w, [tr.t], 0, tr'.w, tr'.t, e, f);
      assert [tr.t][0 := tr'.t] == [tr'.t];
    }
  }

  /** A session of any requests, with any failures, ended by closeAll: no file is
      closed twice, and every file the driver ever opened has been closed, if and
      only if no packet that was to be given a handle came with a token that named
      a handle with a file. Until the end the table holds at most 1024 handles. */
  lemma Conservation(cfg: Config, w: World, ps: seq<Packet>, w': World)
    requires Life(w, [map[]])
    requires ClosesAll(ServeAll(cfg, w, map[], ps).w, ServeAll(cfg, w, map[], ps).t, w')
    ensures Sane(w', [map[]]) && (AllClosedOnce(w') <==> NeverStoresOver(cfg, w, ps))
    ensures var tr := ServeAll(cfg, w, map[], ps); Sane(tr.w, [tr.t]) && |tr.t| <= MAX_OPEN_HANDLES
    ensures NeverStoresOver(cfg, w, ps) ==>
              var tr := ServeAll(cfg, w, map[], ps); Life(tr.w, [tr.t])
  {
    hide Serve, ServeAll, NeverStoresOver, ClosesAll, Life, Sane;
    LifeIsSane(w, [map[]]);
    var tr := ServeAll(cfg, w, map[], ps);
    assert ps[..|ps|] == ps;
    assert [tr.t][0 := map[]] == [map[]];
    RunBelow(cfg, w, ps);
    RunSane(cfg, w, ps, |ps|);
    SaneEnds(tr.w, [tr.t], 0, w');
    if NeverStoresOver(cfg, w, ps) {
      RunLife(cfg, w, ps, |ps|);
      LifeEnds(tr.w, [tr.t], 0, w');
      EmptyTableLife(w');
    } else {
      var f := FirstStoreLeaks(cfg, w, ps);
      LeakSurvivesEnd(tr.w, [tr.t], 0, w', f);
    }
  }

  lemma LifeIsSane(w: World, ts: seq<Table>)
    requires Life(w, ts)
    ensures Sane(w, ts)
  {
  }

  lemma EmptyTableLife(w: World)
    requires Life(w, [map[]])
    ensures AllClosedOnce(w)
  {
    assert forall f: nat :: !Held([map[]], f);
    forall f: nat ensures f in w.closes <==> f < w.issued {
    }
  }

  lemma FirstStoreLeaks(cfg: Config, w: World, ps: seq<Packet>) returns (f: nat)
    requires Sane(w, [map[]]) && !NeverStoresOver(cfg, w, ps)
    ensures var tr := ServeAll(cfg, w, map[], ps); Leaked(tr.w, [tr.t], f)
  {
    hide Serve, StoresOver, Sane, Leaked, Moves;
    var n :| 0 <= n < |ps| &&
      StoresOver(cfg, ServeAll(cfg, w, map[], ps[..n]).w, ServeAll(cfg, w, map[], ps[..n]).t, ps[n], n);
    hide ServeAll;
    RunSane(cfg, w, ps, n);
    var e := RunMoves(cfg, w, ps, n);
    var tr, tr' := ServeAll(cfg, w, map[], ps[..n]), ServeAll(cfg, w, map[], ps[..n + 1]);
    assert HeldFile(tr.t, e.tok).Some? by { ReplacesHeld(tr.w, tr.t, tr'.w, tr'.t, e); }
    f := HeldFile(tr.t, e.tok).value;
    ReplaceLeaks(tr.w, [tr.t], 0, tr'.w, tr'.t, e);
    assert [tr.t][0 := tr'.t] == [tr'.t];
    RunLeaks(cfg, w, ps, n + 1, |ps|, f);
    assert ps[..|ps|] == ps;
  }

  lemma ReplacesHeld(w: World, t: Table, w': World, t': Table, e: Event)
    requires e.Replaces? && Moves(w, t, w', t', e)
    ensures HeldFile(t, e.tok).Some?
  {
  }
}

/** What an OPEN creates, what its handle allows, and when it says yes without
    giving a handle. */
module Opening {
  import opened Bytes
  import opened Messages
  import opened Paths
  import opened Server

  predicate Exists(cfg: Config, w: World, path: bytes, nonce: nat) { cfg.drv.stat(w.fs, path, nonce, 0).Found? }

  predicate IsDirectory(cfg: Config, w: World, path: bytes, nonce: nat)
  {
    Exists(cfg, w, path, nonce) && cfg.drv.stat(w.fs, path, nonce, 0).stat.IsDir()
  }

  /** The request gets as far as asking the driver. */
  predicate Admitted(cfg: Config, t: Table, m: Message)
    requires m.Open?
  {
    Clean(m.path).Some? && !(WantsWrite(m.pflags) && cfg.ro) && !Full(t)
  }

  /** The file is created or emptied. */
  predicate Creates(cfg: Config, w: World, m: Message, path: bytes, nonce: nat)
    requires m.Open?
  {
    && WantsWrite(m.pflags) && !IsDirectory(cfg, w, path, nonce)
    && if Exists(cfg, w, path, nonce) then Has(m.pflags, FXF_TRUNC) && !Has(m.pflags, FXF_EXCL)
       else Has(m.pflags, FXF_CREAT)
  }

  /** The file is there to be opened, or is about to be. */
  predicate Openable(cfg: Config, w: World, m: Message, path: bytes, nonce: nat)
    requires m.Open?
  {
    && !IsDirectory(cfg, w, path, nonce)
    && if Exists(cfg, w, path, nonce) then WantsWrite(m.pflags) ==> !Has(m.pflags, FXF_EXCL)
       else WantsWrite(m.pflags) && Has(m.pflags, FXF_CREAT)
  }

  /** Finishing an open asks only for the file and for its close. */
  lemma FinishCalls(cfg: Config, w: World, t: Table, id: uint32, path: bytes, write: bool, calls: seq<Call>, nonce: nat)
    ensures var r := FinishOpen(cfg, w, t, id, path, write, calls, nonce);
            && r.w.fs == w.fs
            && forall c :: c in r.calls ==> c in calls || c == COpenFile(path) || c.CClose?
    ensures var r := FinishOpen(cfg, w, t, id, path, write, calls, nonce);
            forall c :: c in calls ==> c in r.calls
  {
  }

  /** An OPEN changes the export by one call or by none: the empty file is written
      exactly when the request is admitted and the flags ask for it. */
  lemma OpenCreates(cfg: Config, w: World, t: Table, m: Message, nonce: nat)
    requires m.Open?
    ensures var r := OpOpen(cfg, w, t, m, nonce);
            && (forall c :: c in r.calls && c.Mutates() ==>
                  Admitted(cfg, t, m) && c == CWriteFile(Clean(m.path).value, Perm(m.attrs, 0x1A4)))
            && ((exists c :: c in r.calls && c.Mutates()) <==>
                  Admitted(cfg, t, m) && Creates(cfg, w, m, Clean(m.path).value, nonce))
            && r.w.fs == if Admitted(cfg, t, m) && Creates(cfg, w, m, Clean(m.path).value, nonce)
                         then cfg.drv.change(w.fs, CWriteFile(Clean(m.path).value, Perm(m.attrs, 0x1A4)), nonce).0
                         else w.fs
  {
    hide Clean, Has, FinishOpen, Full;
    var r := OpOpen(cfg, w, t, m, nonce);
    if Admitted(cfg, t, m) {
      var path := Clean(m.path).value;
      var stat, create := CStat(path), CWriteFile(path, Perm(m.attrs, 0x1A4));
      var w1 := w.(fs := cfg.drv.change(w.fs, create, nonce).0);
      FinishCalls(cfg, w, t, m.id, path, false, [stat], nonce);
      FinishCalls(cfg, w, t, m.id, path, true, [stat], nonce);
      FinishCalls(cfg, w1, t, m.id, path, true, [stat] + [create], nonce);
      if Creates(cfg, w, m, path, nonce) {
        assert create in [stat] + [create];
        assert create in r.calls && create.Mutates();
      }
    }
  }

  /** The filesystem the driver opens the file in. */
  function Created(cfg: Config, w: World, m: Message, path: bytes, nonce: nat): Fs
    requires m.Open?
  {
    if Creates(cfg, w, m, path, nonce) then cfg.drv.change(w.fs, CWriteFile(path, Perm(m.attrs, 0x1A4)), nonce).0
    else w.fs
  }

  /** The driver lets path be opened, and a file that cannot write in place for a
      handle that is to write be closed again. */
  predicate LetsOpen(cfg: Config, fs: Fs, path: bytes, write: bool, fid: nat, nonce: nat)
  {
    cfg.drv.opener ==>
      && cfg.drv.openFile(fs, path, nonce).Opened?
      && (write && !cfg.drv.openFile(fs, path, nonce).writable ==> cfg.drv.close(fid, nonce).None?)
  }

  /** The handle keeps the driver's file. */
  predicate KeepsFile(cfg: Config, fs: Fs, path: bytes, write: bool, nonce: nat)
  {
    && cfg.drv.opener && cfg.drv.openFile(fs, path, nonce).Opened?
    && (write ==> cfg.drv.openFile(fs, path, nonce).writable)
  }

  /** The file is there, and created or emptied if it had to be. */
  predicate Ready(cfg: Config, w: World, t: Table, m: Message, nonce: nat)
    requires m.Open?
  {
    && Admitted(cfg, t, m)
    && var path := Clean(m.path).value;
    && Openable(cfg, w, m, path, nonce)
    && (Creates(cfg, w, m, path, nonce) ==>
          cfg.drv.change(w.fs, CWriteFile(path, Perm(m.attrs, 0x1A4)), nonce).1.None?)
  }

  /** Everything an OPEN asks before a token is made. */
  predicate Granted(cfg: Config, w: World, t: Table, m: Message, nonce: nat)
    requires m.Open?
  {
    && Ready(cfg, w, t, m, nonce)
    && var path := Clean(m.path).value;
    LetsOpen(cfg, Created(cfg, w, m, path, nonce), path, WantsWrite(m.pflags), w.issued, nonce)
  }

  /** An OPEN that finds its file ready is finished in the filesystem it created;
      any other is refused and leaves the table and the driver's files alone. */
  lemma OpenFinishes(cfg: Config, w: World, t: Table, m: Message, nonce: nat) returns (calls: seq<Call>)
    requires m.Open?
    ensures var r := OpOpen(cfg, w, t, m, nonce);
            if Ready(cfg, w, t, m, nonce) then
              var path := Clean(m.path).value;
              r == FinishOpen(cfg, w.(fs := Created(cfg, w, m, path, nonce)), t, m.id, path, WantsWrite(m.pflags),
                              calls, nonce)
            else !r.reply.Handle? && r.t == t && r.w == w.(fs := r.w.fs)
  {
    hide Clean, Has, Full, FinishOpen;
    calls := [];
    if Clean(m.path).Some? {
      var path := Clean(m.path).value;
      var stat, create := [CStat(path)], CWriteFile(path, Perm(m.attrs, 0x1A4));
      calls := if Creates(cfg, w, m, path, nonce) then stat + [create] else stat;
    }
  }

  lemma FinishGives(cfg: Config, w: World, t: Table, id: uint32, path: bytes, write: bool, calls: seq<Call>, nonce: nat)
    ensures var r, tok := FinishOpen(cfg, w, t, id, path, write, calls, nonce), cfg.drv.mint(nonce);
            && (r.reply.Handle? <==> LetsOpen(cfg, w.fs, path, write, w.issued, nonce) && tok.Some?)
            && if r.reply.Handle? then
                 var file := if KeepsFile(cfg, w.fs, path, write, nonce) then Some(w.issued) else None;
                 r.reply.handle == tok.value &&
                 r.t == t[tok.value := OpenFile(path, false, [], 0, file, write && file.Some?, write)]
               else r.t == t
  {
  }

  /** OPEN gives a handle exactly when every question is answered yes and a token
      can be made. The handle names the resolved path, writes only if the request
      asked to, keeps the file the driver opened unless that cannot write in place
      and should, and writes in place exactly when it may write and has a file.
      Without a handle the table is as it was. */
  lemma OpenGives(cfg: Config, w: World, t: Table, m: Message, nonce: nat)
    requires m.Open?
    ensures var r, tok := OpOpen(cfg, w, t, m, nonce), cfg.drv.mint(nonce);
            && (r.reply.Handle? <==> Granted(cfg, w, t, m, nonce) && tok.Some?)
            && if r.reply.Handle? then
                 var path, write := Clean(m.path).value, WantsWrite(m.pflags);
                 var fs := Created(cfg, w, m, path, nonce);
                 var file := if KeepsFile(cfg, fs, path, write, nonce) then Some(w.issued) else None;
                 r.reply.handle == tok.value &&
                 r.t == t[tok.value := OpenFile(path, false, [], 0, file, write && file.Some?, write)]
               else r.t == t
  {
    hide Clean, OpOpen, FinishOpen, LetsOpen, KeepsFile, Ready, Created, WantsWrite;
    var calls := OpenFinishes(cfg, w, t, m, nonce);
    if Ready(cfg, w, t, m, nonce) {
      ReadyPath(cfg, w, t, m, nonce);
      var path := Clean(m.path).value;
      FinishGives(cfg, w.(fs := Created(cfg, w, m, path, nonce)), t, m.id, path, WantsWrite(m.pflags), calls, nonce);
    }
  }

  lemma GrantedPath(cfg: Config, w: World, t: Table, m: Message, nonce: nat)
    requires m.Open? && Granted(cfg, w, t, m, nonce)
    ensures Clean(m.path).Some?
  {
  }

  lemma ReadyPath(cfg: Config, w: World, t: Table, m: Message, nonce: nat)
    requires m.Open? && Ready(cfg, w, t, m, nonce)
    ensures Clean(m.path).Some? && !Full(t)
  {
  }

  predicate SaysOk(m: Message) { m.Status? && m.code == OK }

  lemma FinishNeverOk(cfg: Config, w: World, t: Table, id: uint32, path: bytes, write: bool, calls: seq<Call>,
                      nonce: nat)
    ensures !SaysOk(FinishOpen(cfg, w, t, id, path, write, calls, nonce).reply)
  {
  }

  /** An OPEN is answered OK, which gives the client no handle, exactly when the
      driver's Stat answers neither yes nor no for a file that is not to be
      created. Every other refusal carries a failure code. */
  lemma OpenWithoutHandle(cfg: Config, w: World, t: Table, m: Message, nonce: nat)
    requires m.Open?
    ensures var r := OpOpen(cfg, w, t, m, nonce);
            SaysOk(r.reply) <==>
            && Admitted(cfg, t, m) && cfg.drv.stat(w.fs, Clean(m.path).value, nonce, 0).NoStat?
            && !(WantsWrite(m.pflags) && Has(m.pflags, FXF_CREAT))
  {
    hide Clean, Has, Full, FinishOpen;
    if Clean(m.path).Some? {
      var path := Clean(m.path).value;
      var stat, create := CStat(path), CWriteFile(path, Perm(m.attrs, 0x1A4));
      var w1 := w.(fs := cfg.drv.change(w.fs, create, nonce).0);
      FinishNeverOk(cfg, w, t, m.id, path, false, [stat], nonce);
      FinishNeverOk(cfg, w, t, m.id, path, true, [stat], nonce);
      FinishNeverOk(cfg, w1, t, m.id, path, true, [stat] + [create], nonce);
    }
  }
}

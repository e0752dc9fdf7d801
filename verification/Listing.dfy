/** Reading a directory to its end, request by request. */
module Listing {
  import opened Bytes
  import opened Messages
  import opened Directory
  import opened Server

  /** When a READDIR is served: what the filesystem then is, and the number of the
      request. */
  datatype Moment = Moment(w: World, nonce: nat)

  /** READDIR on one handle, once at every moment. */
  function Readdirs(cfg: Config, t: Table, id: uint32, tok: bytes, whens: seq<Moment>): (Table, seq<Message>)
  {
    if whens == [] then (t, [])
    else
      var n := |whens| - 1;
      var (t1, replies) := Readdirs(cfg, t, id, tok, whens[..n]);
      var r := OpReaddir(cfg, whens[n].w, t1, id, tok, whens[n].nonce);
      (r.t, replies + [r.reply])
  }

  /** How far the READDIRs have got. */
  function Position(cfg: Config, t: Table, id: uint32, tok: bytes, whens: seq<Moment>): nat
  {
    var t' := Readdirs(cfg, t, id, tok, whens).0;
    if tok in t' then t'[tok].pos else 0
  }

  /** What became of entry i: the driver's answer about it at the READDIR that
      passed it, or at the last one if none has. */
  function Seen(cfg: Config, t: Table, id: uint32, tok: bytes, whens: seq<Moment>, i: nat): Option<NameItem>
  {
    if whens == [] || tok !in t then None
    else
      var n := |whens| - 1;
      if i < Position(cfg, t, id, tok, whens[..n]) then Seen(cfg, t, id, tok, whens[..n], i)
      else ItemAt(cfg, whens[n].w.fs, t[tok], i, whens[n].nonce)
  }

  function AllSeen(cfg: Config, t: Table, id: uint32, tok: bytes, whens: seq<Moment>): nat -> Option<NameItem>
  {
    (i: nat) => Seen(cfg, t, id, tok, whens, i)
  }

  /** Everything the NAME replies name, in order. */
  function Names(replies: seq<Message>): seq<NameItem>
  {
    if replies == [] then []
    else
      var n := |replies| - 1;
      Names(replies[..n]) + if replies[n].Name? then replies[n].items else []
  }

  predicate EndOfListing(m: Message, id: uint32) { m == StatusReply(id, EOF, []) }

  lemma {:induction false} CollectSame<T>(look: nat -> Option<T>, look': nat -> Option<T>, lo: nat, hi: nat)
    requires forall i: nat :: lo <= i < hi ==> look(i) == look'(i)
    ensures Collect(look, lo, hi) == Collect(look', lo, hi)
    decreases hi - lo
  {
    if lo < hi {
      CollectSame(look, look', lo + 1, hi);
    }
  }

  /** One READDIR from position p: the usable entries up to the new position, or
      end of file, exactly when none is left. */
  lemma OneReaddir(cfg: Config, w: World, t: Table, id: uint32, tok: bytes, h: OpenFile, p: nat, nonce: nat)
    requires p <= |h.entries| && h.dir && tok in t && t[tok] == h.(pos := p)
    ensures var r, look, n := OpReaddir(cfg, w, t, id, tok, nonce), Shown(cfg, w.fs, h, nonce), |h.entries|;
            tok in r.t &&
            var p' := r.t[tok].pos;
            && r.t == t[tok := h.(pos := p')] && p <= p' <= n && (p < n ==> p < p')
            && (r.reply.Name? || EndOfListing(r.reply, id))
            && (r.reply.Name? ==> r.reply.items == Collect(look, p, p') && 1 <= |r.reply.items| <= READDIR_BATCH)
            && (EndOfListing(r.reply, id) <==> Collect(look, p, n) == [])
            && (EndOfListing(r.reply, id) ==> p' == n)
  {
    hide Collect, Page, EntryCalls, ItemAt;
    var look, look', n := Shown(cfg, w.fs, h, nonce), Shown(cfg, w.fs, h.(pos := p), nonce), |h.entries|;
    PageSteps(look', p, n);
    SameLook(cfg, w.fs, h, p, nonce);
    CollectSame(look, look', p, n);
    CollectSame(look, look', p, Page(look', p, n).0);
  }

  lemma SameLook(cfg: Config, fs: Fs, h: OpenFile, p: nat, nonce: nat)
    ensures forall i: nat :: Shown(cfg, fs, h.(pos := p), nonce)(i) == Shown(cfg, fs, h, nonce)(i)
  {
    hide AttrsFromStat;
  }

  /** What the replies to a run of READDIRs say: the names are exactly the usable
      entries between the handle's first position and p, in order and once each;
      every NAME reply has 1 to 64 of them; end of file comes only when the
      listing is exhausted and stays; and every other reply made progress. */
  ghost predicate Listed(look: nat -> Option<NameItem>, h: OpenFile, rs: seq<Message>, id: uint32, p: nat)
  {
    && h.pos <= p <= |h.entries| && Names(rs) == Collect(look, h.pos, p)
    && (forall j :: 0 <= j < |rs| ==> EndOfListing(rs[j], id) || (rs[j].Name? && 1 <= |rs[j].items| <= READDIR_BATCH))
    && (forall j :: 0 <= j < |rs| && EndOfListing(rs[j], id) ==> p == |h.entries|)
    && (forall j, k :: 0 <= j < k < |rs| && EndOfListing(rs[j], id) ==> EndOfListing(rs[k], id))
    && (p < h.pos + |rs| ==> exists j :: 0 <= j < |rs| && EndOfListing(rs[j], id))
  }

  lemma ListedNone(look: nat -> Option<NameItem>, h: OpenFile, id: uint32)
    requires h.pos <= |h.entries|
    ensures Listed(look, h, [], id, h.pos)
  {
    NoEntries(look, h.pos);
  }

  lemma ListedSame(look: nat -> Option<NameItem>, look': nat -> Option<NameItem>, h: OpenFile, rs: seq<Message>,
                   id: uint32, p: nat)
    requires Listed(look, h, rs, id, p) && forall i: nat :: i < p ==> look(i) == look'(i)
    ensures Listed(look', h, rs, id, p)
  {
    hide Collect, EndOfListing, Names;
    CollectSame(look, look', h.pos, p);
  }

  lemma ListedNext(look: nat -> Option<NameItem>, h: OpenFile, rs: seq<Message>, id: uint32, p: nat, m: Message,
                   p': nat)
    requires Listed(look, h, rs, id, p)
    requires p <= p' <= |h.entries| && (p < |h.entries| ==> p < p')
    requires m.Name? || EndOfListing(m, id)
    requires m.Name? ==> m.items == Collect(look, p, p') && 1 <= |m.items| <= READDIR_BATCH
    requires EndOfListing(m, id) <==> Collect(look, p, |h.entries|) == []
    requires EndOfListing(m, id) ==> p' == |h.entries|
    ensures Listed(look, h, rs + [m], id, p')
  {
    hide Collect, EndOfListing;
    var rs' := rs + [m];
    assert rs'[..|rs|] == rs;
    CollectSplit(look, h.pos, p, p');
    NoEntries(look, p);
    EndIsNoName(m, id);
    forall j | 0 <= j < |rs| && EndOfListing(rs'[j], id) ensures EndOfListing(m, id) {
      assert rs'[j] == rs[j];
    }
    if p' < h.pos + |rs'| {
      if p < h.pos + |rs| {
        var j :| 0 <= j < |rs| && EndOfListing(rs[j], id);
        assert EndOfListing(rs'[j], id);
      } else {
        assert EndOfListing(rs'[|rs|], id);
      }
    }
  }

  lemma EndIsNoName(m: Message, id: uint32)
    ensures EndOfListing(m, id) ==> !m.Name?
  {
  }

  /** One more READDIR, whatever has become of the filesystem since the last. */
  lemma SeenNext(cfg: Config, t: Table, id: uint32, tok: bytes, whens: seq<Moment>, rs: seq<Message>, p: nat)
    requires whens != [] && tok in t && t[tok].dir
    requires var (t1, rs1) := Readdirs(cfg, t, id, tok, whens[..|whens| - 1]);
             && tok in t1 && t1 == t[tok := t[tok].(pos := p)] && rs1 == rs && p <= |t[tok].entries|
             && Listed(AllSeen(cfg, t, id, tok, whens[..|whens| - 1]), t[tok], rs, id, p)
    ensures var (t', rs') := Readdirs(cfg, t, id, tok, whens);
            && tok in t' && t' == t[tok := t[tok].(pos := t'[tok].pos)] && |rs'| == |rs| + 1
            && Listed(AllSeen(cfg, t, id, tok, whens), t[tok], rs', id, t'[tok].pos)
  {
    hide Collect, OpReaddir, EndOfListing, Listed, Names, ItemAt;
    var n, h := |whens| - 1, t[tok];
    var (t1, _) := Readdirs(cfg, t, id, tok, whens[..n]);
    var r := OpReaddir(cfg, whens[n].w, t1, id, tok, whens[n].nonce);
    OneReaddir(cfg, whens[n].w, t1, id, tok, h, p, whens[n].nonce);
    var look, now := AllSeen(cfg, t, id, tok, whens), Shown(cfg, whens[n].w.fs, h, whens[n].nonce);
    ListedSame(AllSeen(cfg, t, id, tok, whens[..n]), look, h, rs, id, p);
    CollectSame(now, look, p, r.t[tok].pos);
    CollectSame(now, look, p, |h.entries|);
    ListedNext(look, h, rs, id, p, r.reply, r.t[tok].pos);
  }

  /** Any number of READDIRs on a directory handle, with any change of the
      filesystem and any answers of the driver between them, and what a client that
      asks once more than there are entries has by then. */
  lemma {:induction false} ReaddirRun(cfg: Config, t: Table, id: uint32, tok: bytes, whens: seq<Moment>)
    requires tok in t && t[tok].dir && t[tok].pos <= |t[tok].entries|
    ensures var (t', rs) := Readdirs(cfg, t, id, tok, whens);
            var h, look := t[tok], AllSeen(cfg, t, id, tok, whens);
            && |rs| == |whens| && tok in t' && t' == t[tok := h.(pos := t'[tok].pos)]
            && Listed(look, h, rs, id, t'[tok].pos)
            && (|whens| > |h.entries| - h.pos ==>
                  Names(rs) == Collect(look, h.pos, |h.entries|) && EndOfListing(rs[|rs| - 1], id))
  {
    hide Collect, OpReaddir, AllSeen, EndOfListing, Listed, Names;
    var h := t[tok];
    if whens == [] {
      ListedNone(AllSeen(cfg, t, id, tok, whens), h, id);
      assert t == t[tok := h];
    } else {
      var n := |whens| - 1;
      ReaddirRun(cfg, t, id, tok, whens[..n]);
      var (t1, rs) := Readdirs(cfg, t, id, tok, whens[..n]);
      ListedBounds(AllSeen(cfg, t, id, tok, whens[..n]), h, rs, id, t1[tok].pos);
      SeenNext(cfg, t, id, tok, whens, rs, t1[tok].pos);
      var (t', rs') := Readdirs(cfg, t, id, tok, whens);
      ListedBounds(AllSeen(cfg, t, id, tok, whens), h, rs', id, t'[tok].pos);
    }
  }

  lemma ListedBounds(look: nat -> Option<NameItem>, h: OpenFile, rs: seq<Message>, id: uint32, p: nat)
    requires Listed(look, h, rs, id, p)
    ensures h.pos <= p <= |h.entries|
    ensures |rs| > |h.entries| - h.pos ==>
              Names(rs) == Collect(look, h.pos, |h.entries|) && EndOfListing(rs[|rs| - 1], id)
  {
    hide Collect, EndOfListing, Names;
    if p < h.pos + |rs| {
      var j :| 0 <= j < |rs| && EndOfListing(rs[j], id);
      assert j < |rs| - 1 ==> EndOfListing(rs[|rs| - 1], id);
    }
  }

  lemma NoEntries<T>(look: nat -> Option<T>, p: nat)
    ensures Collect(look, p, p) == []
  {
  }
}

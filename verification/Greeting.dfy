/** How a session begins: what the first packet of the stream comes to, and what it is
    answered. */
module Greeting {
  import opened Bytes
  import opened Codec
  import opened Messages
  import opened Packets
  import opened Wire
  import opened Server

  const VERSION: uint32 := 3

  /** How a session ends. */
  datatype Stop = Over(end: Ending) | NoInit | BadInit(fault: Fault) | OldVersion | ReplyTooLarge

  datatype Greeted = Agreed(rest: bytes) | TurnedAway(why: Stop)

  /** What the first packet of a stream comes to. */
  function Greet(s: bytes, max: nat): Greeted
  {
    match ReadOne(s, max)
    case Stopped(why) => TurnedAway(Over(why))
    case Whole(p, rest) =>
      if p.typ != FXP_INIT then TurnedAway(NoInit)
      else match DecodeInit(p.payload)
        case Bad(f) => TurnedAway(BadInit(f))
        case Got(m, _) => if m.Init? && m.version < VERSION then TurnedAway(OldVersion) else Agreed(rest)
  }

  /** The answer to INIT: the version, and only the extensions that are answered. */
  function VersionOf(cfg: Config): Message
  {
    var limits := Pair(LIMITS_EXTENSION, Ascii("1"));
    Version(VERSION, if cfg.CopiesData() then [limits, Pair(COPY_DATA_EXTENSION, Ascii("1"))] else [limits])
  }

  predicate Sendable(m: Message) { PacketOf(m).Size() <= MAX_PACKET }

  lemma StrSize(s: bytes, rest: bytes)
    requires |s| < 0x1_0000_0000
    ensures |PutStr(s, rest)| == 4 + |s| + |rest|
  {
  }

  lemma VersionFits(cfg: Config)
    ensures Sendable(VersionOf(cfg))
  {
    var one, m := Ascii("1"), VersionOf(cfg);
    var pair, limits := Pair(COPY_DATA_EXTENSION, one), Pair(LIMITS_EXTENSION, one);
    PairSize(pair, []);
    PairSize(limits, []);
    PairSize(limits, [pair]);
    assert |LIMITS_EXTENSION| == 18 && |COPY_DATA_EXTENSION| == 9 && |one| == 1;
    hide PutPairs;
    assert Encode(m) == PutU32(VERSION, PutPairs(m.extensions, []));
    assert [limits] + [pair] == [limits, pair] && [limits] + [] == [limits] && [pair] + [] == [pair];
    assert |PutPairs([], [])| == 0 by { NoPairs(); }
  }

  lemma NoPairs()
    ensures PutPairs([], []) == []
  {
  }

  lemma PairSize(p: Pair, rest: seq<Pair>)
    requires |p.kind| < 0x1_0000_0000 && |p.data| < 0x1_0000_0000
    ensures |PutPairs([p] + rest, [])| == 8 + |p.kind| + |p.data| + |PutPairs(rest, [])|
  {
    hide PutStr;
    assert ([p] + rest)[1..] == rest;
    StrSize(p.data, PutPairs(rest, []));
    StrSize(p.kind, PutStr(p.data, PutPairs(rest, [])));
  }

  // ---------- streams that begin with a packet ----------

  /** s is the frame of p, no longer than the limit, and then rest. */
  ghost predicate Begins(s: bytes, max: nat, p: Packet, rest: bytes)
  {
    p.Size() <= max && p.Size() < 0x1_0000_0000 && s == Frame(p) + rest
  }

  lemma BeginsWhole(s: bytes, max: nat, p: Packet, rest: bytes)
    requires Begins(s, max, p, rest)
    ensures ReadOne(s, max) == Whole(p, rest)
  {
    hide BE32, FromBE32;
    BE32Inverse(p.Size());
    assert s[..4] == BE32(p.Size());
    assert s[5..4 + p.Size()] == p.payload;
    assert s[4 + p.Size()..] == rest;
  }

  lemma WholeBegins(s: bytes, max: nat)
    requires ReadOne(s, max).Whole?
    ensures Begins(s, max, ReadOne(s, max).packet, ReadOne(s, max).rest)
  {
    hide BE32, FromBE32;
    FromBE32Inverse(s[..4]);
    var p, rest := ReadOne(s, max).packet, ReadOne(s, max).rest;
    assert s == s[..4] + [s[4]] + s[5..4 + p.Size()] + rest;
  }

  /** s begins with the INIT of version v; the extensions do not matter. */
  ghost predicate OpensWith(s: bytes, max: nat, v: uint32, rest: bytes)
  {
    exists ext :: Fits(Init(v, ext)) && Begins(s, max, Packet(1, Encode(Init(v, ext))), rest)
  }

  /** No INIT has this payload. */
  ghost predicate NoGreeting(payload: bytes) { forall m: Message :: m.Init? && Fits(m) ==> Encode(m) != payload }

  lemma InitDecodes(v: uint32, ext: seq<Pair>)
    requires Fits(Init(v, ext))
    ensures DecodeInit(Encode(Init(v, ext))) == Got(Init(v, ext), [])
  {
    hide Encode, DecodeInit;
    DecodeEncode(Init(v, ext));
  }

  lemma InitEncodes(payload: bytes)
    requires DecodeInit(payload).Got?
    ensures var m := DecodeInit(payload).value; m.Init? && Fits(m) && Encode(m) == payload
  {
    hide Encode, TakeAllPairs, Fits;
    assert Decode(1, payload) == Some(DecodeInit(payload));
    EncodeDecode(1, payload);
  }

  lemma OpensGreets(s: bytes, max: nat, v: uint32, rest: bytes)
    requires OpensWith(s, max, v, rest)
    ensures Greet(s, max) == if v < 3 then TurnedAway(OldVersion) else Agreed(rest)
  {
    hide Encode, ReadOne, DecodeInit, Begins;
    var ext :| Fits(Init(v, ext)) && Begins(s, max, Packet(1, Encode(Init(v, ext))), rest);
    BeginsWhole(s, max, Packet(1, Encode(Init(v, ext))), rest);
    InitDecodes(v, ext);
  }

  lemma GreetOpens(s: bytes, max: nat)
    requires Greet(s, max).Agreed? || Greet(s, max) == TurnedAway(OldVersion)
    ensures exists v, rest :: OpensWith(s, max, v, rest)
  {
    hide Encode, ReadOne, DecodeInit, Begins;
    WholeBegins(s, max);
    var p, rest := ReadOne(s, max).packet, ReadOne(s, max).rest;
    InitEncodes(p.payload);
    var m := DecodeInit(p.payload).value;
    assert m == Init(m.version, m.extensions) && p == Packet(1, Encode(m));
    assert OpensWith(s, max, m.version, rest);
  }

  /** What becomes of a session, by how its stream begins. */
  ghost predicate Classified(s: bytes, max: nat, g: Greeted)
  {
    && (forall v, rest :: OpensWith(s, max, v, rest) ==> g == if v < 3 then TurnedAway(OldVersion) else Agreed(rest))
    && (forall p, rest :: Begins(s, max, p, rest) && p.typ != 1 ==> g == TurnedAway(NoInit))
    && (forall p, rest :: Begins(s, max, p, rest) && p.typ == 1 && NoGreeting(p.payload) ==>
          g.TurnedAway? && g.why.BadInit?)
    && ((forall p, rest :: !Begins(s, max, p, rest)) ==> g.TurnedAway? && g.why.Over?)
    && (g.Agreed? || g == TurnedAway(OldVersion) ==> exists v, rest :: OpensWith(s, max, v, rest))
  }

  /** A stream that begins with the INIT of a version from 3 on is agreed to, one with an
      older version turned away for that, one with another packet for that, one with a
      bad INIT for that, and one without a packet at its end; and nothing else leads to
      the first two. */
  lemma GreetExactly(s: bytes, max: nat)
    ensures Classified(s, max, Greet(s, max))
  {
    hide Encode, ReadOne, DecodeInit, Begins, OpensWith, Fits;
    forall v, rest | OpensWith(s, max, v, rest)
      ensures Greet(s, max) == if v < 3 then TurnedAway(OldVersion) else Agreed(rest)
    {
      OpensGreets(s, max, v, rest);
    }
    forall p, rest | Begins(s, max, p, rest)
      ensures p.typ != 1 ==> Greet(s, max) == TurnedAway(NoInit)
      ensures p.typ == 1 && NoGreeting(p.payload) ==> Greet(s, max).TurnedAway? && Greet(s, max).why.BadInit?
    {
      BeginsWhole(s, max, p, rest);
      if p.typ == 1 && DecodeInit(p.payload).Got? {
        InitEncodes(p.payload);
      }
    }
    if ReadOne(s, max).Whole? {
      WholeBegins(s, max);
    }
    if Greet(s, max).Agreed? || Greet(s, max) == TurnedAway(OldVersion) {
      GreetOpens(s, max);
    }
  }

  /** The answer to INIT: version 3, limits@openssh.com, and copy-data exactly when the
      driver opens files and the export is writable. */
  function Hello(cfg: Config): Message
  {
    Version(3, [Pair(Ascii("limits@openssh.com"), Ascii("1"))] +
               if cfg.drv.opener && !cfg.ro then [Pair(Ascii("copy-data"), Ascii("1"))] else [])
  }

  lemma HelloIs(cfg: Config)
    ensures VersionOf(cfg) == Hello(cfg) && Sendable(Hello(cfg))
  {
    VersionFits(cfg);
    hide Ascii, Sendable;
    var limits := Pair(Ascii("limits@openssh.com"), Ascii("1"));
    assert [limits] + [] == [limits];
  }
}

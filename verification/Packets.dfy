/** Packet framing over a byte stream: a 4-byte length, a type byte, a payload. */
module Packets {
  import opened Bytes

  const MAX_PACKET: nat := 260 * 1024

  datatype Packet = Packet(typ: byte, payload: bytes) {
    function Size(): nat { 1 + |payload| }
  }

  datatype Ending = CleanEnd | CutShort | EmptyPacket | TooLarge

  datatype Reading = Whole(packet: Packet, rest: bytes) | Stopped(why: Ending)

  function Frame(p: Packet): bytes
    requires p.Size() < 0x1_0000_0000
  {
    BE32(p.Size()) + [p.typ] + p.payload
  }

  /** What one ReadPacket sees at the front of a stream that ends after s. */
  function ReadOne(s: bytes, max: nat): Reading
  {
    if s == [] then Stopped(CleanEnd)
    else if |s| < 4 then Stopped(CutShort)
    else
      var n := FromBE32(s[..4]);
      if n == 0 then Stopped(EmptyPacket)
      else if n > max then Stopped(TooLarge)
      else if |s| < 4 + n then Stopped(CutShort)
      else Whole(Packet(s[4], s[5..4 + n]), s[4 + n..])
  }

  function ReadAll(s: bytes, max: nat): (seq<Packet>, Ending)
    decreases |s|
  {
    match ReadOne(s, max)
    case Stopped(why) => ([], why)
    case Whole(p, rest) =>
      var (ps, why) := ReadAll(rest, max);
      ([p] + ps, why)
  }

  predicate Framable(ps: seq<Packet>)
  {
    forall i :: 0 <= i < |ps| ==> ps[i].Size() <= MAX_PACKET
  }

  function Stream(ps: seq<Packet>): bytes
    requires Framable(ps)
  {
    if ps == [] then [] else Frame(ps[0]) + Stream(ps[1..])
  }

  /** A whole packet in front of anything is read back whole, and a prefix of one
      that is not all of it is never taken for a packet. */
  lemma ReadFrame(p: Packet, rest: bytes, max: nat, cut: nat)
    requires p.Size() <= MAX_PACKET && p.Size() <= max
    ensures ReadOne(Frame(p) + rest, max) == Whole(p, rest)
    ensures 0 < cut < |Frame(p)| ==> ReadOne(Frame(p)[..cut], max) == Stopped(CutShort)
  {
    BE32Inverse(p.Size());
    var s := Frame(p) + rest;
    assert s[..4] == BE32(p.Size());
    assert s[5..4 + p.Size()] == p.payload;
    assert s[4 + p.Size()..] == rest;
    if 4 <= cut < |Frame(p)| {
      assert Frame(p)[..cut][..4] == BE32(p.Size());
    }
  }

  lemma ReadFirst(p: Packet, rest: bytes, max: nat, cut: nat)
    requires p.Size() <= MAX_PACKET && p.Size() <= max
    ensures ReadAll(Frame(p) + rest, max) == ([p] + ReadAll(rest, max).0, ReadAll(rest, max).1)
    ensures cut < |Frame(p)| ==> ReadAll(Frame(p)[..cut], max) == ([], if cut == 0 then CleanEnd else CutShort)
  {
    hide BE32, FromBE32;
    ReadFrame(p, rest, max, cut);
  }

  lemma {:induction false} ReadStream(ps: seq<Packet>, max: nat)
    requires Framable(ps) && forall i :: 0 <= i < |ps| ==> ps[i].Size() <= max
    ensures ReadAll(Stream(ps), max) == (ps, CleanEnd)
  {
    hide Frame, ReadOne;
    if ps == [] {
      assert ReadOne([], max) == Stopped(CleanEnd) by { ReadNothing(max); }
    } else {
      ReadFirst(ps[0], Stream(ps[1..]), max, 0);
      ReadStream(ps[1..], max);
      assert [ps[0]] + ps[1..] == ps;
    }
  }

  lemma ReadNothing(max: nat)
    ensures ReadOne([], max) == Stopped(CleanEnd)
  {
  }

  /** The stream of the first k + 1 packets, from that of the k after the first. */
  lemma StreamFirst(ps: seq<Packet>, k: nat)
    requires Framable(ps) && k < |ps|
    ensures Stream(ps[..k + 1]) == Frame(ps[0]) + Stream(ps[1..][..k])
    ensures [ps[0]] + ps[1..][..k] == ps[..k + 1]
  {
    hide Frame;
    assert ps[..k + 1][0] == ps[0] && ps[..k + 1][1..] == ps[1..][..k];
  }

  /** A stream of written packets cut anywhere yields exactly the packets wholly
      before the cut, then a clean end if the cut falls between packets and an
      unexpected one everywhere else. */
  lemma {:induction false} CutStream(ps: seq<Packet>, max: nat, cut: nat)
    returns (k: nat)
    requires Framable(ps) && (forall i :: 0 <= i < |ps| ==> ps[i].Size() <= max)
    requires cut <= |Stream(ps)|
    ensures k <= |ps| && |Stream(ps[..k])| <= cut && (k < |ps| ==> cut < |Stream(ps[..k + 1])|)
    ensures ReadAll(Stream(ps)[..cut], max) ==
            (ps[..k], if cut == |Stream(ps[..k])| then CleanEnd else CutShort)
  {
    hide Frame, ReadOne;
    if ps == [] {
      k := 0;
      ReadNothing(max);
      assert Stream(ps)[..cut] == [];
    } else {
      var first := Frame(ps[0]);
      if cut < |first| {
        k := 0;
        assert Stream(ps)[..cut] == first[..cut];
        StreamFirst(ps, 0);
        ReadFirst(ps[0], [], max, cut);
      } else {
        var j := CutStream(ps[1..], max, cut - |first|);
        k := j + 1;
        assert Stream(ps)[..cut] == first + Stream(ps[1..])[..cut - |first|];
        ReadFirst(ps[0], Stream(ps[1..])[..cut - |first|], max, 0);
        StreamFirst(ps, j);
        if k < |ps| {
          StreamFirst(ps, k);
        }
      }
    }
  }

  /** A packet over the reader's limit stops it exactly there. */
  lemma {:induction false} OversizeStops(ps: seq<Packet>, max: nat, k: nat)
    requires Framable(ps) && k < |ps| && ps[k].Size() > max
    requires forall i :: 0 <= i < k ==> ps[i].Size() <= max
    ensures ReadAll(Stream(ps), max) == (ps[..k], TooLarge)
  {
    hide BE32, FromBE32;
    if k == 0 {
      BE32Inverse(ps[0].Size());
      assert Stream(ps)[..4] == BE32(ps[0].Size());
    } else {
      ReadFirst(ps[0], Stream(ps[1..]), max, 0);
      OversizeStops(ps[1..], max, k - 1);
      assert [ps[0]] + ps[1..][..k - 1] == ps[..k];
    }
  }

  // ---------- the reader and writer over reused buffers ----------

  /** The bytes of a peer's stream not yet read. */
  class Source {
    var data: bytes

    constructor (d: bytes)
      ensures data == d
    {
      data := d;
    }

    /** io.ReadFull of n bytes into the front of buf: CleanEnd if there was
        nothing, CutShort if there was too little. */
    method ReadFull(buf: array<byte>, n: nat) returns (why: Option<Ending>)
      requires 0 < n <= buf.Length
      modifies this, buf
      ensures why == if old(data) == [] then Some(CleanEnd) else if |old(data)| < n then Some(CutShort) else None
      ensures why == None ==> buf[..n] == old(data)[..n] && data == old(data)[n..]
    {
      var have := Min(n, |data|);
      forall i | 0 <= i < have {
        buf[i] := data[i];
      }
      why := if data == [] then Some(CleanEnd) else if |data| < n then Some(CutShort) else None;
      data := data[have..];
    }
  }

  /** Reads one packet, into buf when it is large enough and into a new buffer
      otherwise. On success the packet is next[..n]: its type byte, then its
      payload, which the next call overwrites. */
  method ReadPacket(r: Source, buf: array<byte>, limit: int) returns (n: nat, next: array<byte>, why: Option<Ending>)
    modifies r, buf
    ensures next == buf || (fresh(next) && next.Length == n && buf.Length < n)
    ensures match ReadOne(old(r.data), if limit <= 0 then MAX_PACKET else limit)
            case Stopped(w) => why == Some(w)
            case Whole(p, rest) =>
              why == None && 0 < n <= next.Length && next[0] == p.typ && next[1..n] == p.payload && r.data == rest
  {
    var max := if limit <= 0 then MAX_PACKET else limit;
    var hdr := new byte[4];
    ghost var s := r.data;
    next, n := buf, 0;
    why := r.ReadFull(hdr, 4);
    if why != None {
      return;
    }
    assert hdr[..] == hdr[..4] == s[..4];
    var size := FromBE32(hdr[..]);
    if size == 0 {
      why := Some(EmptyPacket);
      return;
    }
    if size > max {
      why := Some(TooLarge);
      return;
    }
    n := size;
    if buf.Length < n {
      next := new byte[n];
    }
    why := r.ReadFull(next, n);
    if why == Some(CleanEnd) {
      // The stream ended between the length and the body.
      why := Some(CutShort);
    }
    if why == None {
      assert next[..n] == s[4..4 + n];
      assert next[0] == next[..n][0] && next[1..n] == next[..n][1..];
      assert s[4..4 + n][1..] == s[5..4 + n];
    }
  }

  /** Reading a stream to its end through one recycled buffer yields every packet
      intact. */
  method ReadPackets(r: Source, limit: int) returns (ps: seq<Packet>, why: Ending)
    modifies r
    ensures (ps, why) == ReadAll(old(r.data), if limit <= 0 then MAX_PACKET else limit)
  {
    hide FromBE32;
    var max: nat := if limit <= 0 then MAX_PACKET else limit;
    var buf := new byte[0];
    ghost var start := ReadAll(r.data, max);
    ps := [];
    assert [] + start.0 == start.0;
    while true
      invariant fresh(buf)
      invariant start == (ps + ReadAll(r.data, max).0, ReadAll(r.data, max).1)
      decreases |r.data|
    {
      var n, next, stop := ReadPacket(r, buf, limit);
      if stop != None {
        assert ps + [] == ps;
        return ps, stop.value;
      }
      var p := Packet(next[0], next[1..n]);
      assert ps + ([p] + ReadAll(r.data, max).0) == ps + [p] + ReadAll(r.data, max).0;
      ps := ps + [p];
      buf := next;
    }
  }

  /** The bytes a peer has been sent. */
  class Sink {
    var data: bytes

    constructor ()
      ensures data == []
    {
      data := [];
    }
  }

  /** Frames a packet in out, grown if need be, and writes it in one call. */
  method WritePacket(w: Sink, p: Packet, out: array<byte>) returns (next: array<byte>, ok: bool)
    modifies w, out
    ensures ok <==> p.Size() <= MAX_PACKET
    ensures w.data == old(w.data) + if ok then Frame(p) else []
    ensures next == out || fresh(next)
  {
    next := out;
    var total := 1 + |p.payload|;
    if total > MAX_PACKET {
      return next, false;
    }
    var need := 4 + total;
    if out.Length < need {
      next := new byte[need];
    }
    var length := BE32(total);
    forall i | 0 <= i < 4 {
      next[i] := length[i];
    }
    next[4] := p.typ;
    forall i | 0 <= i < |p.payload| {
      next[5 + i] := p.payload[i];
    }
    assert next[..need] == Frame(p);
    w.data := w.data + next[..need];
    ok := true;
  }
}

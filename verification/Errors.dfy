/** Which status a driver's error is answered with: the known error it wraps, or the
    first of fourteen fragments that its text contains whatever the case of its
    letters, or what the request falls back on. */
module Errors {
  import opened Bytes
  import opened Messages
  import opened Server

  /** A byte of a fragment: a small letter or another ASCII character that has no other
      case. */
  predicate Small(c: byte) { c < 0x80 && !(0x41 <= c <= 0x5A) }

  predicate AllSmall(frag: bytes) { forall i :: 0 <= i < |frag| ==> Small(frag[i]) }

  /** How many bytes at the front of s write the character c in some case; 0 if none
      do. */
  function Width(s: bytes, c: byte): nat
  {
    if c == 0x69 && [0xC4, 0xB0] <= s then 2
    else if c == 0x6B && [0xE2, 0x84, 0xAA] <= s then 3
    else if s != [] && (s[0] == c || (0x61 <= c <= 0x7A && s[0] == c - 0x20)) then 1
    else 0
  }

  /** s begins with frag, in some case. */
  predicate Reads(s: bytes, frag: bytes)
  {
    frag == [] || (Width(s, frag[0]) > 0 && Width(s, frag[0]) <= |s| && Reads(s[Width(s, frag[0])..], frag[1..]))
  }

  /** frag stands somewhere in s, in some case. */
  ghost predicate Contains(s: bytes, frag: bytes) { exists p :: 0 <= p <= |s| && Reads(s[p..], frag) }

  lemma FrontLowered(s: bytes, c: byte)
    requires Small(c)
    ensures Width(s, c) <= |s|
    ensures (Lowered(s) != [] && Lowered(s)[0] == c) <==> Width(s, c) > 0
    ensures Width(s, c) > 0 ==> Lowered(s)[1..] == Lowered(s[Width(s, c)..])
  {
    if [0xC4, 0xB0] <= s {
      assert s[..2] == [0xC4, 0xB0] && s[0] == 0xC4;
    } else if [0xE2, 0x84, 0xAA] <= s {
      assert s[..3] == [0xE2, 0x84, 0xAA] && s[0] == 0xE2;
    }
  }

  lemma {:induction false} StartsLowered(s: bytes, frag: bytes)
    requires AllSmall(frag)
    ensures frag <= Lowered(s) <==> Reads(s, frag)
    decreases |frag|
  {
    hide Lowered, Width;
    if frag != [] {
      FrontLowered(s, frag[0]);
      var low := Lowered(s);
      if Width(s, frag[0]) > 0 {
        StartsLowered(s[Width(s, frag[0])..], frag[1..]);
        if frag <= low {
          assert frag[1..] <= low[1..];
        }
        if frag[1..] <= low[1..] {
          assert frag == [frag[0]] + frag[1..] && low == [low[0]] + low[1..];
        }
      }
    }
  }

  /** A continuation byte is no front of a fragment. */
  lemma NotInside(s: bytes, frag: bytes)
    requires s != [] && s[0] in {0xB0, 0x84, 0xAA} && frag != [] && AllSmall(frag)
    ensures !Reads(s, frag)
  {
    assert Small(frag[0]);
  }

  lemma {:induction false} OccursLowered(s: bytes, frag: bytes)
    requires AllSmall(frag) && frag != []
    ensures Occurs(frag, Lowered(s)) <==> Contains(s, frag)
    decreases |s|
  {
    StartsLowered(s, frag);
    assert s[0..] == s;
    if s == [] {
    } else if |s| >= 2 && s[..2] == [0xC4, 0xB0] {
      OccursLater(s, frag, 2);
    } else if |s| >= 3 && s[..3] == [0xE2, 0x84, 0xAA] {
      OccursLater(s, frag, 3);
    } else {
      OccursLater(s, frag, 1);
    }
  }

  lemma {:induction false} OccursLater(s: bytes, frag: bytes, n: nat)
    requires AllSmall(frag) && frag != [] && 0 < n <= |s| && s[0..] == s
    requires frag <= Lowered(s) <==> Reads(s, frag)
    requires Lowered(s) != [] && Lowered(s)[1..] == Lowered(s[n..])
    requires forall p :: 0 < p < n ==> s[p] in {0xB0, 0x84, 0xAA}
    ensures Occurs(frag, Lowered(s)) <==> Contains(s, frag)
    decreases |s|, 0
  {
    hide Lowered, Reads;
    OccursLowered(s[n..], frag);
    if Contains(s, frag) {
      var p :| 0 <= p <= |s| && Reads(s[p..], frag);
      if p >= n {
        assert s[n..][p - n..] == s[p..];
      } else if p > 0 {
        NotInside(s[p..], frag);
      }
    }
    if Contains(s[n..], frag) {
      var p :| 0 <= p <= |s[n..]| && Reads(s[n..][p..], frag);
      assert s[n..][p..] == s[n + p..];
    }
  }

  predicate SmallText(s: string) { forall i :: 0 <= i < |s| ==> s[i] as int < 0x80 && !('A' <= s[i] <= 'Z') }

  lemma AsciiSmall(s: string)
    requires SmallText(s) && s != ""
    ensures Ascii(s) != [] && AllSmall(Ascii(s))
  {
  }

  /** The fragments in the order in which they are looked for, with the codes of
      SSH_FX_NO_SUCH_FILE, SSH_FX_FAILURE, SSH_FX_PERMISSION_DENIED and
      SSH_FX_OP_UNSUPPORTED. */
  const WORDS: seq<(string, uint32)> := [
    ("not found", 2), ("no such", 2), ("does not exist", 2), ("not a directory", 4),
    ("is a directory", 4), ("not a regular file", 4), ("not a symbolic link", 4), ("not empty", 4),
    ("read-only", 3), ("permission", 3), ("already exists", 4), ("no space", 4),
    ("not supported", 8), ("unsupported", 8)
  ]

  lemma Words0To3(i: nat)
    requires 0 <= i < 4
    ensures Fragment(i) == (Ascii(WORDS[i].0), WORDS[i].1) && WORDS[i].0 != "" && SmallText(WORDS[i].0)
  {
  }

  lemma Words4To7(i: nat)
    requires 4 <= i < 8
    ensures Fragment(i) == (Ascii(WORDS[i].0), WORDS[i].1) && WORDS[i].0 != "" && SmallText(WORDS[i].0)
  {
  }

  lemma Words8To10(i: nat)
    requires 8 <= i < 11
    ensures Fragment(i) == (Ascii(WORDS[i].0), WORDS[i].1) && WORDS[i].0 != "" && SmallText(WORDS[i].0)
  {
  }

  lemma Words11To13(i: nat)
    requires 11 <= i < 14
    ensures Fragment(i) == (Ascii(WORDS[i].0), WORDS[i].1) && WORDS[i].0 != "" && SmallText(WORDS[i].0)
  {
  }

  lemma FragmentIs(i: nat)
    requires i < 14
    ensures Fragment(i) == (Ascii(WORDS[i].0), WORDS[i].1) && Fragment(i).0 != [] && AllSmall(Fragment(i).0)
  {
    hide Fragment, SmallText, AllSmall, Ascii;
    if i < 4 {
      Words0To3(i);
    } else if i < 8 {
      Words4To7(i);
    } else if i < 11 {
      Words8To10(i);
    } else {
      Words11To13(i);
    }
    AsciiSmall(WORDS[i].0);
  }

  /** The i-th fragment is the first one in the text. */
  ghost predicate FirstIn(text: bytes, i: nat)
  {
    i < 14 && Contains(text, Ascii(WORDS[i].0)) && forall j: nat :: j < i ==> !Contains(text, Ascii(WORDS[j].0))
  }

  lemma {:induction false} MatchingFirst(text: bytes, from: nat)
    requires forall j: nat :: j < from && j < 14 ==> !Contains(text, Ascii(WORDS[j].0))
    ensures Matching(Lowered(text), from).Some? ==>
              exists i | 0 <= i < 14 :: FirstIn(text, i) && Matching(Lowered(text), from) == Some(WORDS[i].1)
    ensures Matching(Lowered(text), from).None? ==> forall i :: !FirstIn(text, i)
    decreases 14 - from
  {
    hide Fragment, Contains, Lowered, Occurs, Ascii;
    if from < 14 {
      FragmentIs(from);
      OccursLowered(text, Fragment(from).0);
      if Contains(text, Fragment(from).0) {
        assert FirstIn(text, from);
      } else {
        MatchingFirst(text, from + 1);
      }
    }
  }

  lemma OneFirst(text: bytes, i: nat, j: nat)
    requires FirstIn(text, i) && FirstIn(text, j)
    ensures i == j
  {
  }

  /** The status of every error. An error that wraps a known one has that one's status
      whatever it says; any other has the status of the first fragment in its text, and
      without any the one the request falls back on. It is success only for a request
      that falls back on success, and there is none. */
  lemma ErrorStatus(err: Error, fallback: uint32)
    ensures var code := StatusFor(err, fallback);
            && (err.cause.IsNotExist? ==> code == 2) && (err.cause.IsPermission? ==> code == 3)
            && (err.cause.IsExist? || err.cause.IsInvalid? ==> code == 4)
            && (err.cause.IsShrinkUnsupported? ==> code == 8)
            && (err.cause.Unmarked? ==>
                  && (forall i | 0 <= i < 14 :: FirstIn(err.text, i) ==> code == WORDS[i].1)
                  && ((forall i | 0 <= i < 14 :: !FirstIn(err.text, i)) ==> code == fallback))
            && (fallback != 0 ==> code != 0)
  {
    hide FirstIn, Lowered, Matching, Fragment;
    MatchingFirst(err.text, 0);
    forall i, j | FirstIn(err.text, i) && FirstIn(err.text, j) ensures i == j {
      OneFirst(err.text, i, j);
    }
    FirstBelow(err.text);
  }

  lemma FirstBelow(text: bytes)
    ensures forall i :: FirstIn(text, i) ==> i < 14
  {
  }

  /** The text that goes with it: all of it up to 512 bytes, and an ellipsis after the
      first 512 of a longer one. */
  lemma ErrorText(id: uint32, err: Error, fallback: uint32)
    ensures var m := ErrReply(id, err, fallback);
            && m.Status? && m.id == id && m.code == StatusFor(err, fallback) && m.lang == []
            && (|err.text| <= 512 ==> m.message == err.text)
            && (|err.text| > 512 ==> err.text[..512] <= m.message && m.message[512..] == [0xE2, 0x80, 0xA6])
  {
    hide StatusFor;
  }
}

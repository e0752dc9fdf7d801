/** Path canonicalisation: every client path is resolved against the export
    root with ".." clamped there. */
module Paths {
  import opened Bytes

  const MAX_PATH: nat := 4096
  const NUL: byte := 0
  const SLASH: byte := 47
  const ROOT: bytes := [SLASH]
  const DOT: bytes := [46]
  const DOTDOT: bytes := [46, 46]

  // ---------- splitting and joining on "/" ----------

  /** Splits at every slash; there is always at least one part. */
  function Split(p: bytes): seq<bytes> { SplitFrom(p, []) }

  /** The parts of p when cur has been read of the first one. */
  function SplitFrom(p: bytes, cur: bytes): (parts: seq<bytes>)
    ensures |parts| > 0
    decreases |p|
  {
    if p == [] then [cur]
    else if p[0] == SLASH then [cur] + SplitFrom(p[1..], [])
    else SplitFrom(p[1..], cur + [p[0]])
  }

  function Join(parts: seq<bytes>): bytes
  {
    if parts == [] then [] else if |parts| == 1 then parts[0] else parts[0] + ROOT + Join(parts[1..])
  }

  predicate SlashFree(parts: seq<bytes>)
  {
    forall i :: 0 <= i < |parts| ==> SLASH !in parts[i]
  }

  lemma {:induction false} JoinSplitFrom(p: bytes, cur: bytes)
    requires SLASH !in cur
    ensures Join(SplitFrom(p, cur)) == cur + p
    ensures SlashFree(SplitFrom(p, cur))
    decreases |p|
  {
    if p == [] {
      assert cur + p == cur;
    } else if p[0] == SLASH {
      JoinSplitFrom(p[1..], []);
      var rest := SplitFrom(p[1..], []);
      assert ([cur] + rest)[1..] == rest;
      assert cur + ROOT + ([] + p[1..]) == cur + p;
    } else {
      JoinSplitFrom(p[1..], cur + [p[0]]);
      assert cur + [p[0]] + p[1..] == cur + p;
    }
  }

  lemma JoinSplit(p: bytes)
    ensures Join(Split(p)) == p
    ensures SlashFree(Split(p))
  {
    JoinSplitFrom(p, []);
    assert [] + p == p;
  }

  lemma {:induction false} SplitFromAppend(a: bytes, b: bytes, cur: bytes)
    ensures SplitFrom(a + ROOT + b, cur) == SplitFrom(a, cur) + Split(b)
    decreases |a|
  {
    var whole := a + ROOT + b;
    if a == [] {
      assert whole[1..] == b;
    } else {
      assert whole[1..] == a[1..] + ROOT + b;
      SplitFromAppend(a[1..], b, if a[0] == SLASH then [] else cur + [a[0]]);
    }
  }

  lemma SplitAppend(a: bytes, b: bytes)
    ensures Split(a + ROOT + b) == Split(a) + Split(b)
  {
    SplitFromAppend(a, b, []);
  }

  lemma {:induction false} SplitSlashFree(p: bytes, cur: bytes)
    requires SLASH !in p
    ensures SplitFrom(p, cur) == [cur + p]
    decreases |p|
  {
    if p == [] {
      assert cur + p == cur;
    } else {
      SplitSlashFree(p[1..], cur + [p[0]]);
      assert cur + [p[0]] + p[1..] == cur + p;
    }
  }

  lemma {:induction false} SplitJoin(parts: seq<bytes>)
    requires parts != [] && SlashFree(parts)
    ensures Split(Join(parts)) == parts
  {
    SplitSlashFree(parts[0], []);
    assert [] + parts[0] == parts[0];
    if |parts| > 1 {
      SplitJoin(parts[1..]);
      SplitAppend(parts[0], Join(parts[1..]));
      assert [parts[0]] + parts[1..] == parts;
    } else {
      assert parts == [parts[0]];
    }
  }

  // ---------- the clamped stack walk ----------

  predicate IsName(c: bytes)
  {
    c != [] && c != DOT && c != DOTDOT && SLASH !in c && NUL !in c
  }

  predicate AllNames(cs: seq<bytes>)
  {
    forall i :: 0 <= i < |cs| ==> IsName(cs[i])
  }

  /** One path component applied to the stack of components so far. */
  function Push(out: seq<bytes>, part: bytes): seq<bytes>
  {
    if part == [] || part == DOT then out
    else if part == DOTDOT then if |out| > 0 then out[..|out| - 1] else out
    else out + [part]
  }

  function Walk(parts: seq<bytes>, out: seq<bytes>): seq<bytes>
    decreases |parts|
  {
    if parts == [] then out else Walk(parts[1..], Push(out, parts[0]))
  }

  function Absolute(comps: seq<bytes>): (p: bytes)
    ensures |p| > 0
  {
    ROOT + Join(comps)
  }

  function Clean(p: bytes): Option<bytes>
  {
    if NUL in p || |p| > MAX_PATH then None else Some(Absolute(Walk(Split(p), [])))
  }

  /** The loop of clean: part by part over an explicit stack. */
  method CleanPath(p: bytes) returns (r: Option<bytes>)
    ensures r == Clean(p)
  {
    if NUL in p {
      return None;
    }
    if |p| > MAX_PATH {
      return None;
    }
    var out: seq<bytes> := [];
    var parts := Split(p);
    var i := 0;
    while i < |parts|
      invariant 0 <= i <= |parts|
      invariant Walk(parts[i..], out) == Walk(parts, [])
    {
      var part := parts[i];
      assert parts[i..][0] == part && parts[i..][1..] == parts[i + 1..];
      if part == [] || part == DOT {
      } else if part == DOTDOT {
        if |out| > 0 {
          out := out[..|out| - 1];
        }
      } else {
        out := out + [part];
      }
      i := i + 1;
    }
    r := Some(ROOT + Join(out));
  }

  lemma {:induction false} WalkAppend(xs: seq<bytes>, ys: seq<bytes>, out: seq<bytes>)
    ensures Walk(xs + ys, out) == Walk(ys, Walk(xs, out))
    decreases |xs|
  {
    if xs == [] {
      assert xs + ys == ys;
    } else {
      assert (xs + ys)[1..] == xs[1..] + ys;
      WalkAppend(xs[1..], ys, Push(out, xs[0]));
    }
  }

  lemma {:induction false} WalkOfNames(cs: seq<bytes>, out: seq<bytes>)
    requires AllNames(cs)
    ensures Walk(cs, out) == out + cs
    decreases |cs|
  {
    if cs != [] {
      assert IsName(cs[0]);
      WalkOfNames(cs[1..], out + [cs[0]]);
      assert out + [cs[0]] + cs[1..] == out + cs;
    }
  }

  predicate NulFree(parts: seq<bytes>)
  {
    forall i :: 0 <= i < |parts| ==> NUL !in parts[i]
  }

  lemma {:induction false} SplitNulFree(p: bytes, cur: bytes)
    requires NUL !in p && NUL !in cur
    ensures NulFree(SplitFrom(p, cur))
    decreases |p|
  {
    if p != [] {
      SplitNulFree(p[1..], if p[0] == SLASH then [] else cur + [p[0]]);
    }
  }

  lemma {:induction false} WalkNames(parts: seq<bytes>, out: seq<bytes>)
    requires AllNames(out) && SlashFree(parts) && NulFree(parts)
    ensures AllNames(Walk(parts, out))
    decreases |parts|
  {
    if parts != [] {
      assert SLASH !in parts[0] && NUL !in parts[0];
      WalkNames(parts[1..], Push(out, parts[0]));
    }
  }

  // ---------- what the output looks like ----------

  /** The components a canonical path names. */
  function Components(c: bytes): seq<bytes>
    requires c != []
  {
    if |c| == 1 then [] else Split(c[1..])
  }

  /** "/" followed by proper names separated by single slashes. */
  predicate Canonical(c: bytes)
  {
    c != [] && c[0] == SLASH && AllNames(Components(c))
  }

  lemma NamesAreSlashFree(comps: seq<bytes>)
    requires AllNames(comps)
    ensures SlashFree(comps)
  {
    forall i | 0 <= i < |comps| ensures SLASH !in comps[i] {
      assert IsName(comps[i]);
    }
  }

  lemma AbsoluteComponents(comps: seq<bytes>)
    requires AllNames(comps)
    ensures Components(Absolute(comps)) == comps
    ensures Canonical(Absolute(comps))
    ensures NUL !in Absolute(comps)
  {
    assert Absolute(comps)[1..] == Join(comps);
    if comps != [] {
      assert IsName(comps[0]);
      assert |Join(comps)| > 0;
      NamesAreSlashFree(comps);
      SplitJoin(comps);
    }
    JoinNulFree(comps);
  }

  lemma {:induction false} JoinNulFree(comps: seq<bytes>)
    requires AllNames(comps)
    ensures NUL !in Join(comps)
  {
    if comps != [] {
      assert IsName(comps[0]);
      JoinNulFree(comps[1..]);
    }
  }

  /** A canonical path is determined by its components. */
  lemma CanonicalIsAbsolute(c: bytes)
    requires Canonical(c)
    ensures c == Absolute(Components(c))
    ensures NUL !in c
  {
    AbsoluteComponents(Components(c));
    if |c| == 1 {
      assert c == ROOT;
    } else {
      JoinSplit(c[1..]);
      assert c == [c[0]] + c[1..];
    }
  }

  lemma CleanIsCanonical(p: bytes)
    requires Clean(p).Some?
    ensures Canonical(Clean(p).value)
    ensures Components(Clean(p).value) == Walk(Split(p), [])
  {
    JoinSplit(p);
    SplitNulFree(p, []);
    WalkNames(Split(p), []);
    AbsoluteComponents(Walk(Split(p), []));
  }

  // ---------- the walk against an independent reading ----------

  /** Reads the parts from the right: a ".." cancels the nearest name to its
      left that no later ".." has cancelled. k counts the pending ones. */
  function Cancel(parts: seq<bytes>, k: nat): seq<bytes>
    decreases |parts|
  {
    if parts == [] then []
    else
      var init, last := parts[..|parts| - 1], parts[|parts| - 1];
      if last == [] || last == DOT then Cancel(init, k)
      else if last == DOTDOT then Cancel(init, k + 1)
      else if k > 0 then Cancel(init, k - 1)
      else Cancel(init, 0) + [last]
  }

  function DropLast(s: seq<bytes>, k: nat): seq<bytes>
  {
    if k >= |s| then [] else s[..|s| - k]
  }

  lemma {:induction false} WalkIsCancel(parts: seq<bytes>, k: nat)
    ensures Cancel(parts, k) == DropLast(Walk(parts, []), k)
    decreases |parts|
  {
    if parts != [] {
      var init, last := parts[..|parts| - 1], parts[|parts| - 1];
      var w := Walk(init, []);
      WalkAppend(init, [last], []);
      assert init + [last] == parts;
      assert Walk([last], w) == Push(w, last);
      if last == [] || last == DOT {
        WalkIsCancel(init, k);
      } else if last == DOTDOT {
        WalkIsCancel(init, k + 1);
        assert DropLast(Push(w, last), k) == DropLast(w, k + 1);
      } else if k > 0 {
        WalkIsCancel(init, k - 1);
        assert DropLast(w + [last], k) == DropLast(w, k - 1);
      } else {
        WalkIsCancel(init, 0);
        assert DropLast(w, 0) == w;
      }
    }
  }

  // ---------- lengths ----------

  /** Total length of the parts, each with one separator. */
  function Cost(parts: seq<bytes>): nat
  {
    if parts == [] then 0 else |parts[0]| + 1 + Cost(parts[1..])
  }

  lemma {:induction false} CostAppend(xs: seq<bytes>, ys: seq<bytes>)
    ensures Cost(xs + ys) == Cost(xs) + Cost(ys)
  {
    if xs == [] {
      assert xs + ys == ys;
    } else {
      assert (xs + ys)[1..] == xs[1..] + ys;
      CostAppend(xs[1..], ys);
    }
  }

  lemma {:induction false} JoinLength(parts: seq<bytes>)
    requires parts != []
    ensures |Join(parts)| + 1 == Cost(parts)
  {
    if |parts| > 1 {
      JoinLength(parts[1..]);
    } else {
      assert parts[1..] == [];
    }
  }

  /** A component costs at most itself, and exactly itself only when kept. */
  lemma PushCost(out: seq<bytes>, part: bytes)
    ensures Cost(Push(out, part)) <= Cost(out) + |part| + 1
    ensures Cost(Push(out, part)) == Cost(out) + |part| + 1 ==> Push(out, part) == out + [part]
  {
    CostAppend(out, [part]);
    assert Cost([part]) == |part| + 1;
    if part == DOTDOT && |out| > 0 {
      var next := Push(out, part);
      CostAppend(next, [out[|out| - 1]]);
      assert next + [out[|out| - 1]] == out;
    }
  }

  /** The walk never costs more than its input, and costs as much only when it
      keeps every part. */
  lemma {:induction false} WalkCost(parts: seq<bytes>, out: seq<bytes>)
    ensures Cost(Walk(parts, out)) <= Cost(out) + Cost(parts)
    ensures Cost(Walk(parts, out)) == Cost(out) + Cost(parts) ==> Walk(parts, out) == out + parts
    decreases |parts|
  {
    hide Push;
    if parts == [] {
      assert out + parts == out;
    } else {
      PushCost(out, parts[0]);
      WalkCost(parts[1..], Push(out, parts[0]));
      assert out + [parts[0]] + parts[1..] == out + parts;
    }
  }

  /** The output is at most one byte longer than the input, and exactly then
      the input was a clean relative path that only gained its slash. */
  lemma CleanLength(p: bytes)
    requires Clean(p).Some?
    ensures |Clean(p).value| <= |p| + 1
    ensures |Clean(p).value| == |p| + 1 && p != [] ==> Clean(p).value == ROOT + p
  {
    var parts := Split(p);
    var comps := Walk(parts, []);
    JoinSplit(p);
    JoinLength(parts);
    WalkCost(parts, []);
    if comps != [] {
      JoinLength(comps);
      assert [] + parts == parts;
    }
  }

  // ---------- algebra ----------

  lemma SplitAbsolute(comps: seq<bytes>)
    requires AllNames(comps)
    ensures Walk(Split(Absolute(comps)), []) == comps
  {
    var p := Absolute(comps);
    assert p == [] + ROOT + Join(comps);
    SplitAppend([], Join(comps));
    assert Split(p) == [[]] + Split(Join(comps));
    assert Split(p)[1..] == Split(Join(comps));
    if comps != [] {
      NamesAreSlashFree(comps);
      SplitJoin(comps);
      WalkOfNames(comps, []);
      assert [] + comps == comps;
    } else {
      assert Walk([[]], []) == [];
    }
    assert Walk(Split(p), []) == Walk(Split(p)[1..], []);
  }

  /** A canonical path of allowed length is a fixed point. */
  lemma CanonicalIsFixed(c: bytes)
    requires Canonical(c)
    ensures Clean(c) == if |c| <= MAX_PATH then Some(c) else None
  {
    CanonicalIsAbsolute(c);
    SplitAbsolute(Components(c));
  }

  /** clean fixes its own output exactly when that output fits; it fails to only
      for a clean relative path of exactly MAX_PATH bytes. */
  lemma CleanIdempotent(p: bytes)
    requires Clean(p).Some?
    ensures Clean(Clean(p).value) == Clean(p) <==> |Clean(p).value| <= MAX_PATH
    ensures |Clean(p).value| > MAX_PATH <==> |p| == MAX_PATH && Clean(p).value == ROOT + p
  {
    CleanIsCanonical(p);
    CanonicalIsFixed(Clean(p).value);
    CleanLength(p);
  }

  /** Resolving in two steps is resolving at once, exactly when the length limit
      treats both inputs alike. */
  lemma CleanCompose(p: bytes, q: bytes)
    requires Clean(p).Some?
    ensures Clean(Clean(p).value + ROOT + q) == Clean(p + ROOT + q) <==>
            (NUL in q || (|Clean(p).value + ROOT + q| <= MAX_PATH <==> |p + ROOT + q| <= MAX_PATH))
  {
    var c := Clean(p).value;
    CleanIsCanonical(p);
    CanonicalIsAbsolute(c);
    SplitAbsolute(Components(c));
    SplitAppend(c, q);
    SplitAppend(p, q);
    WalkAppend(Split(c), Split(q), []);
    WalkAppend(Split(p), Split(q), []);
  }

  // ---------- directory entries ----------

  function JoinName(dir: bytes, name: bytes): Option<bytes>
  {
    if name == [] || name == DOT || name == DOTDOT || SLASH in name || NUL in name then None
    else if dir == ROOT then Some(ROOT + name)
    else
      var full := dir + ROOT + name;
      if |full| > MAX_PATH then None else Some(full)
  }

  function Joined(dir: bytes, name: bytes): bytes { if dir == ROOT then ROOT + name else dir + ROOT + name }

  lemma JoinedComponents(dir: bytes, name: bytes)
    requires Canonical(dir) && IsName(name)
    ensures Canonical(Joined(dir, name)) && Components(Joined(dir, name)) == Components(dir) + [name]
  {
    hide Walk, Join;
    var full := Joined(dir, name);
    SplitSlashFree(name, []);
    assert [] + name == name;
    if dir == ROOT {
      assert full[1..] == name;
      assert Components(full) == [] + [name];
    } else {
      CanonicalIsAbsolute(dir);
      assert |dir| > 1;
      assert full[1..] == dir[1..] + ROOT + name;
      SplitAppend(dir[1..], name);
    }
  }

  /** Joining appends exactly one component. It refuses a name precisely when it
      is not a proper one or the result is too long, except that under the root
      the length goes unchecked, so there the result may not resolve back. */
  lemma JoinNameCanonical(dir: bytes, name: bytes)
    requires Canonical(dir)
    ensures JoinName(dir, name).Some? <==> IsName(name) && (dir == ROOT || |dir| + 1 + |name| <= MAX_PATH)
    ensures JoinName(dir, name).Some? ==>
              var full := JoinName(dir, name).value;
              && Canonical(full)
              && Components(full) == Components(dir) + [name]
              && (Clean(full) == Some(full) <==> dir != ROOT || |name| < MAX_PATH)
  {
    hide Canonical, Components, Clean;
    if JoinName(dir, name).Some? {
      JoinedComponents(dir, name);
      CanonicalIsFixed(Joined(dir, name));
    }
  }

  function LastSlash(p: bytes): (i: int)
    ensures -1 <= i < |p|
    ensures i >= 0 ==> p[i] == SLASH
    ensures forall j :: i < j < |p| ==> p[j] != SLASH
  {
    if p == [] then -1
    else if p[|p| - 1] == SLASH then |p| - 1
    else
      var init := p[..|p| - 1];
      assert forall j :: 0 <= j < |init| ==> init[j] == p[j];
      LastSlash(init)
  }

  function Parent(p: bytes): bytes
  {
    var i := LastSlash(p);
    if i <= 0 then ROOT else p[..i]
  }

  function Base(p: bytes): bytes
  {
    if p == ROOT then ROOT else p[LastSlash(p) + 1..]
  }

  /** parent and base undo join on every entry that join accepts. */
  lemma ParentBaseOfJoin(dir: bytes, name: bytes)
    requires Canonical(dir) && JoinName(dir, name).Some?
    ensures Parent(JoinName(dir, name).value) == dir
    ensures Base(JoinName(dir, name).value) == name
  {
    var full := JoinName(dir, name).value;
    var k := |full| - |name| - 1;
    assert full[k] == SLASH && full[k + 1..] == name;
    assert forall j :: k < j < |full| ==> full[j] == name[j - k - 1];
    assert LastSlash(full) == k;
    assert dir != ROOT ==> full[..k] == dir;
    if |dir| == 1 {
      assert dir == ROOT;
    }
  }
}

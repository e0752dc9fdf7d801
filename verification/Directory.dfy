/** READDIR paging: a directory snapshot handed out in batches, skipping the
    entries that cannot be listed. */
module Directory {
  import opened Bytes

  const READDIR_BATCH: nat := 64

  /** The usable entries with index in [lo, hi), in order. look says what became
      of each entry when it was visited. */
  function Collect<T>(look: nat -> Option<T>, lo: nat, hi: nat): seq<T>
    decreases hi - lo
  {
    if lo >= hi then []
    else (if look(lo).Some? then [look(lo).value] else []) + Collect(look, lo + 1, hi)
  }

  /** One READDIR on a snapshot of n entries: the new position and the items of
      the reply, none meaning end of file. */
  function Page<T>(look: nat -> Option<T>, pos: nat, n: nat): (nat, seq<T>)
    decreases n - pos
  {
    if pos >= n then (pos, [])
    else
      var end := Min(pos + READDIR_BATCH, n);
      var items := Collect(look, pos, end);
      if items != [] then (end, items) else Page(look, end, n)
  }

  lemma {:induction false} CollectSplit<T>(look: nat -> Option<T>, lo: nat, mid: nat, hi: nat)
    requires lo <= mid <= hi
    ensures Collect(look, lo, hi) == Collect(look, lo, mid) + Collect(look, mid, hi)
    decreases mid - lo
  {
    if lo < mid {
      CollectSplit(look, lo + 1, mid, hi);
    } else {
      assert Collect(look, lo, mid) == [];
    }
  }

  lemma {:induction false} CollectBound<T>(look: nat -> Option<T>, lo: nat, hi: nat)
    requires lo <= hi
    ensures |Collect(look, lo, hi)| <= hi - lo
    decreases hi - lo
  {
    if lo < hi {
      CollectBound(look, lo + 1, hi);
    }
  }

  /** A reply carries the usable entries between the old and the new position, at
      most a batch of them, and is end of file exactly when no usable entry is
      left; from then on the position stays at the end. */
  lemma {:induction false} PageSteps<T>(look: nat -> Option<T>, pos: nat, n: nat)
    requires pos <= n
    ensures var (next, items) := Page(look, pos, n);
            && pos <= next <= n
            && (pos < n ==> pos < next)
            && items == Collect(look, pos, next)
            && |items| <= READDIR_BATCH
            && (items == [] <==> Collect(look, pos, n) == [])
            && (items == [] ==> next == n)
    decreases n - pos
  {
    if pos < n {
      var end := Min(pos + READDIR_BATCH, n);
      CollectSplit(look, pos, end, n);
      CollectBound(look, pos, end);
      if Collect(look, pos, end) == [] {
        PageSteps(look, end, n);
        CollectSplit(look, pos, end, Page(look, end, n).0);
      }
    }
  }

  /** Which entries a listing holds: the usable ones and no others. */
  lemma {:induction false} CollectMember<T>(look: nat -> Option<T>, lo: nat, hi: nat, x: T)
    ensures x in Collect(look, lo, hi) <==> exists i: nat :: lo <= i < hi && look(i) == Some(x)
    decreases hi - lo
  {
    if lo < hi {
      CollectMember(look, lo + 1, hi, x);
      var head := if look(lo).Some? then [look(lo).value] else [];
      assert x in Collect(look, lo, hi) <==> x in head || x in Collect(look, lo + 1, hi);
    }
  }
}

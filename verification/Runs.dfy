/**
 The provenance runs of the out-of-order store (src/segment_reassembler.rs):
 which segment, by start offset, supplied each held byte. A `BTreeMap` keyed by
 start is its list of entries in key order.
 */
module Provenance {
  import opened Types
  import opened Seqs

  /** Offsets `start` to `end` carry bytes of segment `seg`. */
  datatype Run = Run(start: nat, end: nat, seg: nat)

  /** Non-empty, disjoint, in order. */
  ghost predicate Tiled(rs: seq<Run>)
    decreases |rs|
  {
    rs == [] ||
    (var init, last := rs[..|rs| - 1], rs[|rs| - 1];
     Tiled(init) && last.start < last.end && (init == [] || init[|init| - 1].end <= last.start))
  }

  lemma {:induction false} TiledOrder(rs: seq<Run>, i: nat, j: nat)
    requires Tiled(rs) && i <= j < |rs|
    ensures rs[i].start < rs[i].end && rs[j].start < rs[j].end
    ensures i < j ==> rs[i].end <= rs[j].start
    decreases |rs|
  {
    var n := |rs| - 1;
    if j < n {
      TiledOrder(rs[..n], i, j);
    } else if i < n {
      TiledOrder(rs[..n], i, n - 1);
    }
  }

  lemma {:induction false} TiledTake(rs: seq<Run>, n: nat)
    requires Tiled(rs) && n <= |rs|
    ensures Tiled(rs[..n])
    decreases |rs| - n
  {
    if n == |rs| {
      assert rs[..n] == rs;
    } else {
      TiledTake(rs, n + 1);
      assert rs[..n + 1][..n] == rs[..n];
    }
  }

  lemma {:induction false} TiledDrop(rs: seq<Run>, n: nat)
    requires Tiled(rs) && n <= |rs|
    ensures Tiled(rs[n..])
    decreases |rs|
  {
    if n < |rs| {
      TiledDrop(rs[..|rs| - 1], n);
      assert rs[n..][..|rs| - n - 1] == rs[..|rs| - 1][n..];
    }
  }

  /** Joining two tiled lists that do not interleave. */
  lemma {:induction false} TiledConcat(a: seq<Run>, b: seq<Run>)
    requires Tiled(a) && Tiled(b)
    requires a != [] && b != [] ==> a[|a| - 1].end <= b[0].start
    ensures Tiled(a + b)
    decreases |b|
  {
    if b == [] {
      assert a + b == a;
    } else {
      hide Tiled;
      TiledLast(b);
      TiledConcat(a, b[..|b| - 1]);
      TiledGrow(a, b[..|b| - 1], b[|b| - 1]);
      SplitLast(b);
    }
  }

  lemma TiledLast(b: seq<Run>)
    requires Tiled(b) && b != []
    ensures var n := |b| - 1; Tiled(b[..n]) && Tiled([b[n]]) && (n > 0 ==> b[n - 1].end <= b[n].start) && (n > 0 ==> b[..n][0] == b[0])
  {
    assert [b[|b| - 1]][..0] == [];
  }

  lemma TiledGrow(a: seq<Run>, init: seq<Run>, last: Run)
    requires Tiled(a + init) && Tiled([last])
    requires if init != [] then init[|init| - 1].end <= last.start else a != [] ==> a[|a| - 1].end <= last.start
    ensures Tiled(a + (init + [last]))
  {
    hide Tiled;
    TiledSnoc(a + init, last);
    Assoc(a, init, [last]);
  }

  lemma TiledSnoc(a: seq<Run>, r: Run)
    requires Tiled(a) && Tiled([r]) && (a != [] ==> a[|a| - 1].end <= r.start)
    ensures Tiled(a + [r])
  {
    assert (a + [r])[..|a|] == a;
  }

  /** The segment that supplied offset `o`. */
  function SegAt(rs: seq<Run>, o: nat): Option<nat> {
    if rs == [] then None
    else
      var r := rs[|rs| - 1];
      if r.start <= o < r.end then Some(r.seg) else SegAt(rs[..|rs| - 1], o)
  }

  lemma {:induction false} SegAtConcat(a: seq<Run>, b: seq<Run>, o: nat)
    ensures SegAt(a + b, o) == if SegAt(b, o).Some? then SegAt(b, o) else SegAt(a, o)
    decreases |b|
  {
    if b == [] {
      assert a + b == a;
    } else {
      assert (a + b)[..|a + b| - 1] == a + b[..|b| - 1];
      SegAtConcat(a, b[..|b| - 1], o);
    }
  }

  lemma {:induction false} SegAtIndex(rs: seq<Run>, i: nat, o: nat)
    requires Tiled(rs) && i < |rs| && rs[i].start <= o < rs[i].end
    ensures SegAt(rs, o) == Some(rs[i].seg)
    decreases |rs|
  {
    if i < |rs| - 1 {
      TiledOrder(rs, i, |rs| - 1);
      SegAtIndex(rs[..|rs| - 1], i, o);
    }
  }

  /** Replacing the runs of `[start, end)` by nothing. */
  ghost predicate Cut(before: seq<Run>, after: seq<Run>, start: nat, end: nat) {
    forall o: nat :: SegAt(after, o) == if start <= o < end then None else SegAt(before, o)
  }

  /** Handing `[start, end)` to `seg`. */
  ghost predicate Assigned(before: seq<Run>, after: seq<Run>, start: nat, end: nat, seg: nat) {
    forall o: nat :: SegAt(after, o) == if start <= o < end then Some(seg) else SegAt(before, o)
  }

  /** How many runs start before `x`. */
  method CountBelow(rs: seq<Run>, x: nat) returns (n: nat)
    ensures n <= |rs|
    ensures n > 0 ==> rs[n - 1].start < x
    ensures n < |rs| ==> rs[n].start >= x
  {
    n := |rs|;
    while n > 0 && rs[n - 1].start >= x
      invariant n <= |rs|
      invariant n < |rs| ==> rs[n].start >= x
    {
      n := n - 1;
    }
  }

  /** The runs up to `x`, the last one shortened if it straddles. */
  function Trim(rs: seq<Run>, x: nat): seq<Run> {
    if |rs| > 0 && rs[|rs| - 1].end > x
    then rs[..|rs| - 1] + [Run(rs[|rs| - 1].start, x, rs[|rs| - 1].seg)]
    else rs
  }

  /** What the last run holds from `x` on. */
  function Tail(rs: seq<Run>, x: nat): seq<Run> {
    if |rs| > 0 && rs[|rs| - 1].end > x then [Run(x, rs[|rs| - 1].end, rs[|rs| - 1].seg)] else []
  }

  lemma {:induction false} SegAtBelow(rs: seq<Run>, o: nat)
    requires Tiled(rs) && (rs == [] || o < rs[0].start)
    ensures SegAt(rs, o) == None
    decreases |rs|
  {
    if rs != [] {
      TiledOrder(rs, 0, |rs| - 1);
      SegAtBelow(rs[..|rs| - 1], o);
    }
  }

  lemma {:induction false} SegAtAbove(rs: seq<Run>, o: nat)
    requires Tiled(rs) && (rs == [] || rs[|rs| - 1].end <= o)
    ensures SegAt(rs, o) == None
    decreases |rs|
  {
    if rs != [] {
      SegAtAbove(rs[..|rs| - 1], o);
    }
  }

  lemma TrimAt(rs: seq<Run>, x: nat, o: nat)
    requires Tiled(rs) && (rs == [] || rs[|rs| - 1].start < x)
    ensures SegAt(Trim(rs, x), o) == if o < x then SegAt(rs, o) else None
  {
    if rs != [] {
      var init, last := rs[..|rs| - 1], rs[|rs| - 1];
      assert Trim(rs, x)[..|rs| - 1] == init;
      if o >= x {
        SegAtAbove(init, o);
      }
    }
  }

  lemma TailAt(rs: seq<Run>, x: nat, o: nat)
    requires Tiled(rs) && (rs == [] || rs[|rs| - 1].start < x)
    ensures SegAt(Tail(rs, x), o) == if o >= x then SegAt(rs, o) else None
  {
    if rs != [] && o >= x {
      SegAtAbove(rs[..|rs| - 1], o);
    }
    assert Tail(rs, x) != [] ==> Tail(rs, x)[..0] == [];
  }

  lemma TrimTiled(rs: seq<Run>, x: nat)
    requires Tiled(rs) && (rs == [] || rs[|rs| - 1].start < x)
    ensures Tiled(Trim(rs, x))
    ensures Trim(rs, x) != [] ==> Trim(rs, x)[|Trim(rs, x)| - 1].end <= x
  {
    if rs != [] { assert Trim(rs, x)[..|rs| - 1] == rs[..|rs| - 1]; }
  }

  /** `cut_runs`: no offset in `[start, end)` has a provenance any more; all others keep theirs. */
  method CutRuns(rs: seq<Run>, start: nat, end: nat) returns (r: seq<Run>)
    requires Tiled(rs) && start < end
    ensures Tiled(r) && Cut(rs, r, start, end)
    ensures rs == [] ==> r == []
    ensures SegAt(rs, end) == None ==> |r| <= |rs|
  {
    hide Tiled, SegAt, Trim, Tail, InThree;
    var i := CountBelow(rs, start);
    var j := CountBelow(rs, end);
    if j < i { TiledOrder(rs, j, i - 1); }
    var left := rs[..i];
    if i > 0 && rs[i - 1].end > start {
      left := rs[..i - 1] + [Run(rs[i - 1].start, start, rs[i - 1].seg)];
    }
    var rest := CutTail(rs, if i > 0 then i - 1 else 0, j, end);
    CutSlices(rs, i, j, start, end);
    CutParts(rs[..i], rs[i..j], rs[j..], start, end);
    r := left + (rest + rs[j..]);
  }

  /** Whatever a run of the range, or the one before it, holds from `end` on. */
  method CutTail(rs: seq<Run>, i: nat, j: nat, end: nat) returns (rest: seq<Run>)
    requires Tiled(rs) && i <= j <= |rs| && (j > 0 ==> rs[j - 1].start < end) && (i > 0 ==> i < j)
    ensures rest == if j > 0 && rs[j - 1].end > end then [Run(end, rs[j - 1].end, rs[j - 1].seg)] else []
  {
    hide Tiled;
    rest := [];
    for k := i to j
      invariant k > i ==> rest == if rs[k - 1].end > end then [Run(end, rs[k - 1].end, rs[k - 1].seg)] else []
      invariant k == i ==> rest == []
      invariant rest != [] ==> k == j
    {
      var p := rs[k];
      if p.end > end {
        rest := [Run(end, p.end, p.seg)];
        if k + 1 < j {
          TiledOrder(rs, k + 1, j - 1);
          TiledOrder(rs, k, k + 1);
        }
      }
    }
  }

  lemma CutSlices(rs: seq<Run>, i: nat, j: nat, start: nat, end: nat)
    requires Tiled(rs) && start < end && i <= j <= |rs|
    requires (i > 0 ==> rs[i - 1].start < start) && (i < |rs| ==> rs[i].start >= start)
    requires (j > 0 ==> rs[j - 1].start < end) && (j < |rs| ==> rs[j].start >= end)
    ensures InThree(rs[..i], rs[i..j], rs[j..], start, end)
    ensures rs == rs[..i] + rs[i..j] + rs[j..]
    ensures Tail(rs[..i] + rs[i..j], end) == if j > 0 && rs[j - 1].end > end then [Run(end, rs[j - 1].end, rs[j - 1].seg)] else []
    ensures Trim(rs[..i], start) == if i > 0 && rs[i - 1].end > start then rs[..i - 1] + [Run(rs[i - 1].start, start, rs[i - 1].seg)] else rs[..i]
    ensures j > 0 && rs[j - 1].end > end ==> SegAt(rs, end).Some?
  {
    hide Tiled, SegAt, InThree;
    CutInThree(rs, i, j, start, end);
    if j > 0 && rs[j - 1].end > end { SegAtIndex(rs, j - 1, end); }
    TailSlice(rs, j, end);
    TrimSlice(rs, i, start);
  }

  lemma TailSlice(rs: seq<Run>, j: nat, end: nat)
    requires j <= |rs|
    ensures Tail(rs[..j], end) == if j > 0 && rs[j - 1].end > end then [Run(end, rs[j - 1].end, rs[j - 1].seg)] else []
  {
  }

  lemma TrimSlice(rs: seq<Run>, i: nat, start: nat)
    requires i <= |rs|
    ensures Trim(rs[..i], start) == if i > 0 && rs[i - 1].end > start then rs[..i - 1] + [Run(rs[i - 1].start, start, rs[i - 1].seg)] else rs[..i]
  {
    if i > 0 { assert rs[..i][..i - 1] == rs[..i - 1]; }
  }

  /** A list cut in three at offsets `start` and `end`. */
  ghost predicate InThree(l: seq<Run>, m: seq<Run>, c: seq<Run>, start: nat, end: nat) {
    && Tiled(l) && Tiled(m) && Tiled(c) && Tiled(l + m)
    && (l == [] || l[|l| - 1].start < start)
    && (m == [] || m[0].start >= start)
    && (l + m == [] || (l + m)[|l + m| - 1].start < end)
    && (c == [] || c[0].start >= end)
    && (l + m != [] && c != [] ==> (l + m)[|l + m| - 1].end <= c[0].start)
  }

  lemma CutInThree(rs: seq<Run>, i: nat, j: nat, start: nat, end: nat)
    requires Tiled(rs) && start < end && i <= j <= |rs|
    requires (i > 0 ==> rs[i - 1].start < start) && (i < |rs| ==> rs[i].start >= start)
    requires (j > 0 ==> rs[j - 1].start < end) && (j < |rs| ==> rs[j].start >= end)
    ensures InThree(rs[..i], rs[i..j], rs[j..], start, end)
    ensures rs[..j] == rs[..i] + rs[i..j] && rs == rs[..i] + rs[i..j] + rs[j..]
  {
    hide Tiled, InThree;
    ThreeSlices(rs, i, j);
    TiledTake(rs, j);
    TiledTake(rs, i);
    TiledDrop(rs[..j], i);
    TiledDrop(rs, j);
    if 0 < j < |rs| { TiledOrder(rs, j - 1, j); }
    InThreeIs(rs, rs[..i], rs[i..j], rs[j..], start, end);
  }

  lemma InThreeIs(rs: seq<Run>, l: seq<Run>, m: seq<Run>, c: seq<Run>, start: nat, end: nat)
    requires Tiled(l) && Tiled(m) && Tiled(c) && Tiled(l + m) && rs == l + m + c
    requires (l != [] ==> rs[|l| - 1].start < start) && (|l| < |rs| ==> rs[|l|].start >= start)
    requires var j := |l| + |m|;
             && (j > 0 ==> rs[j - 1].start < end) && (j < |rs| ==> rs[j].start >= end)
             && (0 < j < |rs| ==> rs[j - 1].end <= rs[j].start)
    ensures InThree(l, m, c, start, end)
  {
    hide Tiled;
  }

  /** The list assembled by `cut_runs` is tiled and has lost exactly `[start, end)`. */
  lemma CutParts(l: seq<Run>, m: seq<Run>, c: seq<Run>, start: nat, end: nat)
    requires start < end && InThree(l, m, c, start, end)
    ensures var r := Trim(l, start) + (Tail(l + m, end) + c);
            Tiled(r) && Cut(l + m + c, r, start, end)
  {
    CutTiled(l, m, c, start, end);
    forall o: nat
      ensures SegAt(Trim(l, start) + (Tail(l + m, end) + c), o) == if start <= o < end then None else SegAt(l + m + c, o)
    {
      CutAt(l, m, c, start, end, o);
    }
  }

  lemma CutTiled(l: seq<Run>, m: seq<Run>, c: seq<Run>, start: nat, end: nat)
    requires start < end && InThree(l, m, c, start, end)
    ensures Tiled(Trim(l, start) + (Tail(l + m, end) + c))
  {
    TrimTiled(l, start);
    TailTiled(l, m, c, start, end);
    hide Tiled, Trim, Tail, InThree;
    TiledConcat(Trim(l, start), Tail(l + m, end) + c);
  }

  /** What is left past the cut is tiled, and starts no earlier than the cut ends. */
  lemma TailTiled(l: seq<Run>, m: seq<Run>, c: seq<Run>, start: nat, end: nat)
    requires start < end && InThree(l, m, c, start, end)
    ensures var t := Tail(l + m, end) + c; Tiled(t) && (t != [] ==> end <= t[0].start)
  {
    TiledConcat(Tail(l + m, end), c);
  }

  lemma CutAt(l: seq<Run>, m: seq<Run>, c: seq<Run>, start: nat, end: nat, o: nat)
    requires start < end && InThree(l, m, c, start, end)
    ensures SegAt(Trim(l, start) + (Tail(l + m, end) + c), o) == if start <= o < end then None else SegAt(l + m + c, o)
  {
    SegAtConcat(Trim(l, start), Tail(l + m, end) + c, o);
    SegAtConcat(Tail(l + m, end), c, o);
    TrimAt(l, start, o);
    TailAt(l + m, end, o);
    SegAtConcat(l + m, c, o);
    SegAtConcat(l, m, o);
    if o < end { SegAtBelow(c, o); }
    if o < start { SegAtBelow(m, o); }
  }

  lemma SplitAt(rs: seq<Run>, n: nat, o: nat)
    requires n <= |rs|
    ensures SegAt(rs, o) == if SegAt(rs[n..], o).Some? then SegAt(rs[n..], o) else SegAt(rs[..n], o)
  {
    assert rs == rs[..n] + rs[n..];
    SegAtConcat(rs[..n], rs[n..], o);
  }

  /** `set_runs`: offsets in `[start, end)` now have provenance `seg`; all others keep theirs. */
  method SetRuns(rs: seq<Run>, start: nat, end: nat, seg: nat) returns (r: seq<Run>)
    requires Tiled(rs)
    ensures Tiled(r) && Assigned(rs, r, start, end, seg)
  {
    if start >= end {
      return rs;
    }
    var cut := CutRuns(rs, start, end);
    var n := CountBelow(cut, start);
    InsertRun(cut, n, Run(start, end, seg));
    r := cut[..n] + [Run(start, end, seg)] + cut[n..];
    forall o: nat ensures SegAt(r, o) == if start <= o < end then Some(seg) else SegAt(rs, o) {
    }
  }

  /** Putting a run into the space left free for it. */
  lemma InsertRun(rs: seq<Run>, n: nat, x: Run)
    requires Tiled(rs) && n <= |rs| && x.start < x.end
    requires n > 0 ==> rs[n - 1].start < x.start
    requires n < |rs| ==> rs[n].start >= x.start
    requires forall o: nat :: x.start <= o < x.end ==> SegAt(rs, o) == None
    ensures Tiled(rs[..n] + [x] + rs[n..])
    ensures forall o: nat :: SegAt(rs[..n] + [x] + rs[n..], o) == if x.start <= o < x.end then Some(x.seg) else SegAt(rs, o)
  {
    if n > 0 && rs[n - 1].end > x.start { SegAtIndex(rs, n - 1, x.start); }
    if n < |rs| && rs[n].start < x.end { TiledOrder(rs, n, n); SegAtIndex(rs, n, rs[n].start); }
    InsertTiled(rs, n, x);
    forall o: nat ensures SegAt(rs[..n] + [x] + rs[n..], o) == if x.start <= o < x.end then Some(x.seg) else SegAt(rs, o) {
      InsertAt(rs, n, x, o);
    }
  }

  lemma InsertTiled(rs: seq<Run>, n: nat, x: Run)
    requires Tiled(rs) && n <= |rs| && x.start < x.end
    requires n > 0 ==> rs[n - 1].end <= x.start
    requires n < |rs| ==> x.end <= rs[n].start
    ensures Tiled(rs[..n] + [x] + rs[n..])
  {
    TiledTake(rs, n);
    TiledDrop(rs, n);
    assert [x][..0] == [];
    TiledConcat(rs[..n], [x]);
    TiledConcat(rs[..n] + [x], rs[n..]);
  }

  lemma InsertAt(rs: seq<Run>, n: nat, x: Run, o: nat)
    requires Tiled(rs) && n <= |rs|
    requires n < |rs| ==> x.end <= rs[n].start
    ensures SegAt(rs[..n] + [x] + rs[n..], o) == if x.start <= o < x.end then Some(x.seg) else SegAt(rs, o)
  {
    SegAtConcat(rs[..n] + [x], rs[n..], o);
    SegAtConcat(rs[..n], [x], o);
    assert [x][..0] == [];
    SplitAt(rs, n, o);
    if x.start <= o < x.end {
      TiledDrop(rs, n);
      SegAtBelow(rs[n..], o);
    }
  }

  /** `seg_of`: look up the run that starts last at or before `off`. */
  method SegOf(rs: seq<Run>, off: nat) returns (r: Option<nat>)
    requires Tiled(rs)
    ensures r == SegAt(rs, off)
  {
    var n := CountBelow(rs, off + 1);
    if n > 0 && off < rs[n - 1].end {
      SegAtIndex(rs, n - 1, off);
      return Some(rs[n - 1].seg);
    }
    SplitAt(rs, n, off);
    TiledTake(rs, n);
    TiledDrop(rs, n);
    SegAtAbove(rs[..n], off);
    SegAtBelow(rs[n..], off);
    return None;
  }

  /** `run_end`: how far the provenance of `off` extends. */
  method RunEnd(rs: seq<Run>, off: nat) returns (e: nat)
    requires Tiled(rs)
    ensures e > off
    ensures forall o: nat :: off <= o < e ==> SegAt(rs, o) == SegAt(rs, off)
  {
    var n := CountBelow(rs, off + 1);
    if n == 0 {
      return off + 1;
    }
    e := Max(rs[n - 1].end, off + 1);
    forall o: nat | off <= o < e ensures SegAt(rs, o) == SegAt(rs, off) {
      if o != off {
        SegAtIndex(rs, n - 1, o);
        SegAtIndex(rs, n - 1, off);
      }
    }
  }
}

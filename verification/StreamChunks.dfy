/**
 `StreamChunks` (src/reassembler.rs): bytes plus gap markers, edited in place,
 and the sequence of cells they stand for.
 */
module Chunks {
  import opened Types
  import opened Cells
  import opened Seqs

  /** A hole of `len` bytes stands before the byte at index `at`. */
  datatype GapMark = GapMark(at: nat, len: nat)

  /** One element of a walk. */
  datatype Chunk = Bytes(data: seq<byte>) | Hole(len: nat)

  /** Markers lie inside the buffer, in order (equal positions allowed). */
  ghost predicate Ordered(n: nat, gaps: seq<GapMark>)
    decreases |gaps|
  {
    gaps == [] || (gaps[|gaps| - 1].at <= n && Ordered(gaps[|gaps| - 1].at, gaps[..|gaps| - 1]))
  }

  /** Strictly increasing, positive markers. */
  ghost predicate Strict(gaps: seq<GapMark>) {
    && (forall i :: 0 <= i < |gaps| ==> gaps[i].len > 0)
    && (forall i, j :: 0 <= i < j < |gaps| ==> gaps[i].at < gaps[j].at)
  }

  /** What every `StreamChunks` keeps. */
  ghost predicate Normal(n: nat, gaps: seq<GapMark>) {
    Ordered(n, gaps) && Strict(gaps)
  }

  /** The cells that bytes and markers stand for. */
  ghost function Meaning(bytes: seq<byte>, gaps: seq<GapMark>): seq<Cell>
    requires Ordered(|bytes|, gaps)
    decreases |gaps|
  {
    if gaps == [] then DataCells(bytes)
    else
      var g := gaps[|gaps| - 1];
      Meaning(bytes[..g.at], gaps[..|gaps| - 1]) + Gap(g.len) + DataCells(bytes[g.at..])
  }

  lemma MeaningSnoc(bytes: seq<byte>, gaps: seq<GapMark>, g: GapMark)
    requires g.at <= |bytes| && Ordered(g.at, gaps)
    ensures Ordered(|bytes|, gaps + [g])
    ensures Meaning(bytes, gaps + [g]) == Meaning(bytes[..g.at], gaps) + Gap(g.len) + DataCells(bytes[g.at..])
  {
    var gs := gaps + [g];
    assert gs[..|gs| - 1] == gaps && gs[|gs| - 1] == g;
  }

  lemma {:induction false} OrderedBound(n: nat, gaps: seq<GapMark>)
    requires Ordered(n, gaps)
    ensures forall i :: 0 <= i < |gaps| ==> gaps[i].at <= n
    decreases |gaps|
  {
    if gaps != [] {
      OrderedBound(gaps[|gaps| - 1].at, gaps[..|gaps| - 1]);
    }
  }

  ghost function Shift(gaps: seq<GapMark>, d: nat): (r: seq<GapMark>)
    ensures |r| == |gaps|
  {
    if gaps == [] then []
    else
      var g := gaps[|gaps| - 1];
      Shift(gaps[..|gaps| - 1], d) + [GapMark(g.at + d, g.len)]
  }

  /** Appending bytes appends their cells. */
  lemma MeaningPushData(bytes: seq<byte>, gaps: seq<GapMark>, d: seq<byte>)
    requires Ordered(|bytes|, gaps)
    ensures Ordered(|bytes + d|, gaps)
    ensures Meaning(bytes + d, gaps) == Meaning(bytes, gaps) + DataCells(d)
  {
    if gaps == [] {
      DataCellsConcat(bytes, d);
    } else {
      var at := gaps[|gaps| - 1].at;
      assert (bytes + d)[..at] == bytes[..at];
      assert (bytes + d)[at..] == bytes[at..] + d;
      DataCellsConcat(bytes[at..], d);
    }
  }

  /** A marker at the end appends missing cells. */
  lemma MeaningPushMark(bytes: seq<byte>, gaps: seq<GapMark>, len: nat)
    requires Ordered(|bytes|, gaps)
    ensures Ordered(|bytes|, gaps + [GapMark(|bytes|, len)])
    ensures Meaning(bytes, gaps + [GapMark(|bytes|, len)]) == Meaning(bytes, gaps) + Gap(len)
  {
    MeaningSnoc(bytes, gaps, GapMark(|bytes|, len));
    assert bytes[..|bytes|] == bytes;
    assert bytes[|bytes|..] == [];
  }

  /** The merging insertion that `push_gap` and `append` both perform. */
  function AddMark(gaps: seq<GapMark>, at: nat, len: nat): seq<GapMark> {
    if |gaps| > 0 && gaps[|gaps| - 1].at == at
    then gaps[..|gaps| - 1] + [GapMark(at, gaps[|gaps| - 1].len + len)]
    else gaps + [GapMark(at, len)]
  }

  lemma StrictSnoc(gaps: seq<GapMark>, g: GapMark)
    requires Strict(gaps) && g.len > 0 && (gaps == [] || gaps[|gaps| - 1].at < g.at)
    ensures Strict(gaps + [g])
  {
  }

  lemma AddMarkStrict(n: nat, gaps: seq<GapMark>, len: nat)
    requires Normal(n, gaps) && len > 0
    ensures Strict(AddMark(gaps, n, len))
  {
    if |gaps| > 0 && gaps[|gaps| - 1].at == n {
      var init := gaps[..|gaps| - 1];
      StrictSnoc(init, GapMark(n, gaps[|gaps| - 1].len + len));
    } else {
      StrictSnoc(gaps, GapMark(n, len));
    }
  }

  lemma AddMarkMeaning(bytes: seq<byte>, gaps: seq<GapMark>, len: nat)
    requires Ordered(|bytes|, gaps)
    ensures Ordered(|bytes|, AddMark(gaps, |bytes|, len))
    ensures Meaning(bytes, AddMark(gaps, |bytes|, len)) == Meaning(bytes, gaps) + Gap(len)
  {
    var at := |bytes|;
    if |gaps| > 0 && gaps[|gaps| - 1].at == at {
      var m := gaps[|gaps| - 1].len;
      var init := gaps[..|gaps| - 1];
      MeaningPushMark(bytes, init, m);
      SplitLast(gaps);
      MeaningPushMark(bytes, init, m + len);
      GapConcat(m, len);
      Assoc(Meaning(bytes, init), Gap(m), Gap(len));
    } else {
      MeaningPushMark(bytes, gaps, len);
    }
  }

  lemma ShiftSnoc(g1: seq<GapMark>, r: seq<GapMark>, g: GapMark, d: nat)
    ensures g1 + Shift(r + [g], d) == g1 + Shift(r, d) + [GapMark(g.at + d, g.len)]
  {
    assert (r + [g])[..|r|] == r;
    Assoc(g1, Shift(r, d), [GapMark(g.at + d, g.len)]);
  }

  lemma {:induction false} ShiftZero(gaps: seq<GapMark>)
    ensures Shift(gaps, 0) == gaps
  {
    if gaps != [] { ShiftZero(gaps[..|gaps| - 1]); }
  }

  /** Concatenating buffers and rebased markers concatenates meanings. */
  lemma {:induction false} MeaningConcat(b1: seq<byte>, g1: seq<GapMark>, b2: seq<byte>, g2: seq<GapMark>)
    requires Ordered(|b1|, g1) && Ordered(|b2|, g2)
    ensures Ordered(|b1| + |b2|, g1 + Shift(g2, |b1|))
    ensures Meaning(b1 + b2, g1 + Shift(g2, |b1|)) == Meaning(b1, g1) + Meaning(b2, g2)
    decreases |g2|
  {
    if g2 == [] {
      assert g1 + Shift(g2, |b1|) == g1;
      if g1 != [] { assert Ordered(|b1| + |b2|, g1); }
      MeaningPushData(b1, g1, b2);
    } else {
      hide DataCells, Gap, Shift;
      var g := g2[|g2| - 1];
      var r := g2[..|g2| - 1];
      var h := GapMark(g.at + |b1|, g.len);
      MeaningConcat(b1, g1, b2[..g.at], r);
      ShiftSnoc(g1, r, g, |b1|);
      SplitLast(g2);
      ConcatSlices(b1, b2, g.at);
      MeaningSnoc(b1 + b2, g1 + Shift(r, |b1|), h);
      Assoc(Meaning(b1, g1), Meaning(b2[..g.at], r), Gap(g.len));
      Assoc(Meaning(b1, g1), Meaning(b2[..g.at], r) + Gap(g.len), DataCells(b2[g.at..]));
    }
  }

  function MarkSum(gaps: seq<GapMark>): nat {
    if gaps == [] then 0 else MarkSum(gaps[..|gaps| - 1]) + gaps[|gaps| - 1].len
  }

  /** Every byte is one cell and every marker `len` of them. */
  lemma {:induction false} MeaningCounts(bytes: seq<byte>, gaps: seq<GapMark>)
    requires Ordered(|bytes|, gaps)
    ensures DataLen(Meaning(bytes, gaps)) == |bytes| && MissLen(Meaning(bytes, gaps)) == MarkSum(gaps)
    decreases |gaps|
  {
    if gaps == [] {
      DataLenOfBytes(bytes);
    } else {
      var g := gaps[|gaps| - 1];
      var r := Meaning(bytes[..g.at], gaps[..|gaps| - 1]);
      MeaningCounts(bytes[..g.at], gaps[..|gaps| - 1]);
      DataLenConcat(r + Gap(g.len), DataCells(bytes[g.at..]));
      DataLenConcat(r, Gap(g.len));
      DataLenOfGap(g.len);
      DataLenOfBytes(bytes[g.at..]);
    }
  }

  /** No bytes and no markers is the only form of "nothing". */
  lemma MeaningEmpty(bytes: seq<byte>, gaps: seq<GapMark>)
    requires Normal(|bytes|, gaps)
    ensures Meaning(bytes, gaps) == [] <==> bytes == [] && gaps == []
  {
    MeaningCounts(bytes, gaps);
  }

  lemma {:induction false} MeaningLength(bytes: seq<byte>, gaps: seq<GapMark>)
    requires Ordered(|bytes|, gaps)
    ensures |Meaning(bytes, gaps)| == |bytes| + MarkSum(gaps)
    decreases |gaps|
  {
    if gaps != [] {
      MeaningLength(bytes[..gaps[|gaps| - 1].at], gaps[..|gaps| - 1]);
    }
  }

  /** Splitting at byte `n`, markers at `n` going to the front part. */
  lemma MeaningSplit(bytes: seq<byte>, front: seq<GapMark>, back: seq<GapMark>, n: nat)
    requires n <= |bytes| && Ordered(n, front) && Ordered(|bytes| - n, back)
    ensures Ordered(|bytes|, front + Shift(back, n))
    ensures Meaning(bytes, front + Shift(back, n)) == Meaning(bytes[..n], front) + Meaning(bytes[n..], back)
  {
    assert bytes == bytes[..n] + bytes[n..];
    MeaningConcat(bytes[..n], front, bytes[n..], back);
  }

  /** Cutting an ordered marker list at byte `n`. */
  lemma {:induction false} OrderedCut(len: nat, front: seq<GapMark>, back: seq<GapMark>, n: nat)
    requires n <= len && Ordered(len, front + Shift(back, n))
    requires forall i :: 0 <= i < |front| ==> front[i].at <= n
    ensures Ordered(n, front) && Ordered(len - n, back)
    decreases |back|
  {
    var all := front + Shift(back, n);
    if back == [] {
      assert all == front;
    } else {
      var g := back[|back| - 1];
      SplitLast(back);
      ShiftSnoc(front, back[..|back| - 1], g, n);
      assert all[..|all| - 1] == front + Shift(back[..|back| - 1], n);
      OrderedCut(g.at + n, front, back[..|back| - 1], n);
    }
  }

  /** The core of `drop_front`: the front becomes one marker, the rest is rebased. */
  lemma DropFrontMeaning(bytes: seq<byte>, front: seq<GapMark>, back: seq<GapMark>, n: nat)
    requires n <= |bytes| && Ordered(n, front) && Ordered(|bytes| - n, back)
    ensures Ordered(|bytes|, front + Shift(back, n))
    ensures Ordered(|bytes[n..]|, [GapMark(0, n + MarkSum(front))] + back)
    ensures Meaning(bytes[n..], [GapMark(0, n + MarkSum(front))] + back)
         == MaskFirst(Meaning(bytes, front + Shift(back, n)), n)
  {
    hide Meaning, Ordered, Shift, MarkSum, MaskFirst;
    MeaningSplit(bytes, front, back, n);
    MaskSplit(bytes[..n], front, Meaning(bytes[n..], back));
    LeadMark(bytes[n..], back, n + MarkSum(front));
  }

  lemma MaskSplit(bytes: seq<byte>, gaps: seq<GapMark>, tail: seq<Cell>)
    requires Ordered(|bytes|, gaps)
    ensures MaskFirst(Meaning(bytes, gaps) + tail, |bytes|) == Gap(|bytes| + MarkSum(gaps)) + tail
  {
    MeaningCounts(bytes, gaps);
    MeaningLength(bytes, gaps);
    MaskConcat(Meaning(bytes, gaps), tail, |bytes|);
    MaskNone(tail);
  }

  lemma LeadMark(bytes: seq<byte>, gaps: seq<GapMark>, len: nat)
    requires Ordered(|bytes|, gaps)
    ensures Ordered(|bytes|, [GapMark(0, len)] + gaps)
    ensures Meaning(bytes, [GapMark(0, len)] + gaps) == Gap(len) + Meaning(bytes, gaps)
  {
    var m := [GapMark(0, len)];
    LoneMark(len);
    hide Meaning, Ordered, Shift;
    MeaningConcat([], m, bytes, gaps);
    assert [] + bytes == bytes;
    ShiftZero(gaps);
  }

  lemma LoneMark(len: nat)
    ensures Ordered(0, [GapMark(0, len)]) && Meaning([], [GapMark(0, len)]) == Gap(len)
  {
    MeaningPushMark([], [], len);
    assert [] + [GapMark(0, len)] == [GapMark(0, len)];
  }

  /** `gaps` over `b1 + b2` means `cells` followed by `g2` over `b2`. */
  ghost predicate Rebased(b1: seq<byte>, gaps: seq<GapMark>, b2: seq<byte>, g2: seq<GapMark>, cells: seq<Cell>) {
    && Ordered(|b1 + b2|, gaps)
    && Ordered(|b2|, g2)
    && Meaning(b1 + b2, gaps) == cells + Meaning(b2, g2)
  }

  lemma EmptyPrefix(b1: seq<byte>, g1: seq<GapMark>, b2: seq<byte>, g2: seq<GapMark>)
    requires Ordered(|b1|, g1)
    ensures Rebased(b1, g1, b2[..0], g2[..0], Meaning(b1, g1))
  {
    assert b2[..0] == [] && g2[..0] == [];
    assert b1 + [] == b1;
    assert Meaning(b1, g1) + [] == Meaning(b1, g1);
  }

  /** More bytes on both sides. */
  lemma RebasedExtend(b1: seq<byte>, gaps: seq<GapMark>, b2: seq<byte>, g2: seq<GapMark>, cells: seq<Cell>, d: seq<byte>)
    requires Rebased(b1, gaps, b2, g2, cells)
    ensures Rebased(b1, gaps, b2 + d, g2, cells)
  {
    Assoc(b1, b2, d);
    MeaningPushData(b1 + b2, gaps, d);
    MeaningPushData(b2, g2, d);
    Assoc(cells, Meaning(b2, g2), DataCells(d));
  }

  /** A marker at the end on both sides. */
  lemma RebasedMark(b1: seq<byte>, gaps: seq<GapMark>, b2: seq<byte>, g2: seq<GapMark>, cells: seq<Cell>, len: nat)
    requires Rebased(b1, gaps, b2, g2, cells)
    ensures Rebased(b1, AddMark(gaps, |b1| + |b2|, len), b2, g2 + [GapMark(|b2|, len)], cells)
  {
    AddMarkMeaning(b1 + b2, gaps, len);
    MeaningPushMark(b2, g2, len);
    Assoc(cells, Meaning(b2, g2), Gap(len));
  }

  lemma AppendStep(b1: seq<byte>, gaps: seq<GapMark>, ob: seq<byte>, og: seq<GapMark>, i: nat, p: nat, cells: seq<Cell>)
    requires i < |og| && Strict(og) && og[i].at <= |ob| && p <= |ob| && p == if i == 0 then 0 else og[i - 1].at
    requires Strict(gaps) && Rebased(b1, gaps, ob[..p], og[..i], cells)
    ensures Strict(AddMark(gaps, |b1| + og[i].at, og[i].len))
    ensures Rebased(b1, AddMark(gaps, |b1| + og[i].at, og[i].len), ob[..og[i].at], og[..i + 1], cells)
  {
    hide Meaning, Ordered, Strict, AddMark, Rebased;
    NextMark(ob, og, i, p);
    MarkStep(b1, gaps, ob[..p], ob[p..og[i].at], og[..i], cells, og[i].len);
  }

  lemma MarkStep(b1: seq<byte>, gaps: seq<GapMark>, x: seq<byte>, y: seq<byte>, gs: seq<GapMark>, cells: seq<Cell>, len: nat)
    requires Rebased(b1, gaps, x, gs, cells) && Strict(gaps) && len > 0
    ensures Strict(AddMark(gaps, |b1| + |x + y|, len))
    ensures Rebased(b1, AddMark(gaps, |b1| + |x + y|, len), x + y, gs + [GapMark(|x + y|, len)], cells)
  {
    hide Meaning, Ordered, Strict, AddMark, Rebased;
    RebasedExtend(b1, gaps, x, gs, cells, y);
    RebasedMark(b1, gaps, x + y, gs, cells, len);
    RebasedStrict(b1, gaps, x + y, gs, cells, len);
  }

  lemma NextMark(ob: seq<byte>, og: seq<GapMark>, i: nat, p: nat)
    requires i < |og| && Strict(og) && og[i].at <= |ob| && p == if i == 0 then 0 else og[i - 1].at
    ensures p <= og[i].at && og[i].len > 0 && ob[..og[i].at] == ob[..p] + ob[p..og[i].at]
    ensures og[..i + 1] == og[..i] + [GapMark(|ob[..og[i].at]|, og[i].len)]
  {
  }

  lemma RebasedStrict(b1: seq<byte>, gaps: seq<GapMark>, b2: seq<byte>, g2: seq<GapMark>, cells: seq<Cell>, len: nat)
    requires Rebased(b1, gaps, b2, g2, cells) && Strict(gaps) && len > 0
    ensures Strict(AddMark(gaps, |b1| + |b2|, len))
  {
    hide Meaning, Strict, AddMark;
    AddMarkStrict(|b1| + |b2|, gaps, len);
  }

  lemma AppendRest(b1: seq<byte>, gaps: seq<GapMark>, ob: seq<byte>, og: seq<GapMark>, p: nat, cells: seq<Cell>)
    requires p <= |ob| && Rebased(b1, gaps, ob[..p], og[..|og|], cells)
    ensures Rebased(b1, gaps, ob, og, cells)
  {
    assert og[..|og|] == og;
    Slices(ob, p, |ob|);
    assert ob[..|ob|] == ob;
    RebasedExtend(b1, gaps, ob[..p], og, cells, ob[p..]);
  }

  /** `gaps` is `cut` markers at or before `m`, then `kept` moved by `m`. */
  ghost predicate SplitAt(gaps: seq<GapMark>, cut: nat, kept: seq<GapMark>, m: nat) {
    && |gaps| == cut + |kept|
    && (forall j :: 0 <= j < cut ==> gaps[j].at <= m)
    && (forall j :: 0 <= j < |kept| ==> kept[j].at > 0 && gaps[cut + j] == GapMark(kept[j].at + m, kept[j].len))
  }

  lemma SplitAtStep(gaps: seq<GapMark>, i: nat, cut: nat, kept: seq<GapMark>, m: nat)
    requires i < |gaps| && SplitAt(gaps[..i], cut, kept, m)
    ensures gaps[..i + 1] == gaps[..i] + [gaps[i]]
    ensures gaps[i].at <= m && kept == [] ==> SplitAt(gaps[..i + 1], cut + 1, kept, m)
    ensures gaps[i].at > m ==> SplitAt(gaps[..i + 1], cut, kept + [GapMark(gaps[i].at - m, gaps[i].len)], m)
  {
    assert gaps[..i + 1] == gaps[..i] + [gaps[i]];
  }

  lemma StrictAt(gaps: seq<GapMark>, i: nat)
    requires Strict(gaps) && 0 < i < |gaps|
    ensures gaps[i - 1].at < gaps[i].at
  {
  }

  lemma NoMarks(gaps: seq<GapMark>, m: nat)
    ensures MarkSum(gaps[..0]) == 0 && SplitAt(gaps[..0], 0, [], m)
  {
  }

  lemma MarkSumSnoc(gaps: seq<GapMark>, g: GapMark)
    ensures MarkSum(gaps + [g]) == MarkSum(gaps) + g.len
  {
    assert (gaps + [g])[..|gaps|] == gaps;
  }

  lemma {:induction false} SplitConcat(gaps: seq<GapMark>, cut: nat, kept: seq<GapMark>, m: nat)
    requires SplitAt(gaps, cut, kept, m)
    ensures gaps == gaps[..cut] + Shift(kept, m)
    decreases |kept|
  {
    if kept == [] {
      assert gaps == gaps[..cut] + [];
    } else {
      hide Shift;
      var g, k := gaps[..|gaps| - 1], kept[..|kept| - 1];
      var last := kept[|kept| - 1];
      assert gaps[cut + |k|] == GapMark(last.at + m, last.len);
      assert SplitAt(g, cut, k, m);
      hide SplitAt;
      SplitConcat(g, cut, k, m);
      SplitLast(gaps);
      SplitLast(kept);
      assert g[..cut] == gaps[..cut];
      ShiftSnoc(gaps[..cut], k, last, m);
    }
  }

  lemma SplitStrict(gaps: seq<GapMark>, cut: nat, kept: seq<GapMark>, m: nat)
    requires SplitAt(gaps, cut, kept, m) && Strict(gaps)
    ensures forall len: nat :: len > 0 ==> Strict([GapMark(0, len)] + kept)
  {
    forall i, j | 0 <= i < j < |kept| ensures kept[i].at < kept[j].at {
      assert gaps[cut + i].at < gaps[cut + j].at;
    }
    forall i | 0 <= i < |kept| ensures kept[i].len > 0 {
      assert gaps[cut + i].len > 0;
    }
  }

  lemma SplitDone(n: nat, gaps: seq<GapMark>, cut: nat, kept: seq<GapMark>, m: nat)
    requires SplitAt(gaps, cut, kept, m) && Normal(n, gaps) && m <= n
    ensures gaps == gaps[..cut] + Shift(kept, m)
    ensures Ordered(m, gaps[..cut]) && Ordered(n - m, kept)
    ensures forall len: nat :: len > 0 ==> Strict([GapMark(0, len)] + kept)
  {
    SplitConcat(gaps, cut, kept, m);
    SplitStrict(gaps, cut, kept, m);
    OrderedCut(n, gaps[..cut], kept, m);
  }

  /** Bytes and gaps in stream order, and a stop. */
  class StreamChunks {
    var bytes: seq<byte>
    var gaps: seq<GapMark>
    var stop: Option<Stop>

    ghost predicate Valid()
      reads this
    {
      Normal(|bytes|, gaps)
    }

    /** The cells this value stands for. */
    ghost function Cells(): seq<Cell>
      requires Valid()
      reads this
    {
      Meaning(bytes, gaps)
    }

    constructor ()
      ensures Valid() && Cells() == [] && stop == None
    {
      bytes, gaps, stop := [], [], None;
    }

    method Clear()
      modifies this
      ensures Valid() && Cells() == [] && stop == None
    {
      bytes, gaps, stop := [], [], None;
    }

    method IsEmpty() returns (r: bool)
      requires Valid()
      ensures r <==> Cells() == [] && stop == None
    {
      MeaningEmpty(bytes, gaps);
      r := bytes == [] && gaps == [] && stop == None;
    }

    /** How many bytes are present. */
    function Len(): (n: nat)
      requires Valid()
      reads this
      ensures n == DataLen(Cells())
    {
      MeaningCounts(bytes, gaps);
      |bytes|
    }

    method PushData(d: seq<byte>)
      requires Valid()
      modifies `bytes
      ensures Valid() && Cells() == old(Cells()) + DataCells(d)
    {
      MeaningPushData(bytes, gaps, d);
      bytes := bytes + d;
    }

    /** `push_owned`: same cells as `push`, whichever buffer ends up holding them. */
    method PushOwned(d: seq<byte>)
      requires Valid()
      modifies `bytes
      ensures Valid() && Cells() == old(Cells()) + DataCells(d)
    {
      MeaningPushData(bytes, gaps, d);
      if bytes == [] {
        assert bytes + d == d;
        bytes := d;
      } else {
        bytes := bytes + d;
      }
    }

    /** Adjacent gaps coalesce; a zero length is ignored. */
    method PushGap(len: nat)
      requires Valid()
      modifies `gaps
      ensures Valid() && Cells() == old(Cells()) + Gap(len)
    {
      if len == 0 {
        assert Gap(0) == [];
        return;
      }
      AddMarkMeaning(bytes, gaps, len);
      AddMarkStrict(|bytes|, gaps, len);
      gaps := AddMark(gaps, |bytes|, len);
    }

    /** The first reason wins. */
    method SetStop(s: Stop)
      modifies `stop
      ensures stop == if old(stop).Some? then old(stop) else Some(s)
    {
      if stop == None {
        stop := Some(s);
      }
    }

    /** `other`'s cells follow ours; `other` ends empty. */
    method Append(other: StreamChunks)
      requires this != other && Valid() && other.Valid()
      modifies this, other
      ensures Valid() && other.Valid()
      ensures Cells() == old(Cells()) + old(other.Cells())
      ensures other.Cells() == [] && other.stop == None
      ensures stop == if old(stop).Some? then old(stop) else old(other.stop)
    {
      MeaningEmpty(bytes, gaps);
      if bytes == [] && gaps == [] {
        assert Cells() == [];
        bytes, gaps := other.bytes, other.gaps;
        other.bytes, other.gaps := [], [];
      } else {
        AppendMarks(other.bytes, other.gaps);
        bytes := bytes + other.bytes;
        other.Release();
      }
      if other.stop.Some? {
        var s := other.stop.value;
        other.stop := None;
        SetStop(s);
      }
    }

    /** The loop of `append`: rebase and merge the other value's markers. */
    method AppendMarks(ob: seq<byte>, og: seq<GapMark>)
      requires Valid() && Normal(|ob|, og)
      modifies `gaps
      ensures Normal(|bytes + ob|, gaps)
      ensures Meaning(bytes + ob, gaps) == old(Cells()) + Meaning(ob, og)
    {
      hide Meaning, Ordered, Strict, AddMark;
      var base := |bytes|;
      ghost var cells := Meaning(bytes, gaps);
      ghost var p := 0;
      EmptyPrefix(bytes, gaps, ob, og);
      for i := 0 to |og|
        invariant p <= |ob| && p == if i == 0 then 0 else og[i - 1].at
        invariant Strict(gaps) && Rebased(bytes, gaps, ob[..p], og[..i], cells)
      {
        var g := og[i];
        OrderedBound(|ob|, og);
        AppendStep(bytes, gaps, ob, og, i, p, cells);
        gaps := AddMark(gaps, base + g.at, g.len);
        p := g.at;
      }
      AppendRest(bytes, gaps, ob, og, p, cells);
    }

    /** The first `n` present bytes become missing; positions and total length stay. */
    method DropFront(n: nat)
      requires Valid()
      modifies `bytes, `gaps
      ensures Valid() && Cells() == MaskFirst(old(Cells()), n)
    {
      hide Meaning, Ordered, Strict, MarkSum, MaskFirst, Shift, DataLen;
      MeaningCounts(bytes, gaps);
      var m := if n <= |bytes| then n else |bytes|;
      if m == 0 {
        MaskCap(Cells(), n);
        MaskNone(Cells());
        return;
      }
      var front, kept := SplitMarks(m);
      ghost var merged := gaps[..|gaps| - |kept|];
      DropFrontMeaning(bytes, merged, kept, m);
      MaskCap(Cells(), n);
      bytes := bytes[m..];
      gaps := [GapMark(0, front)] + kept;
    }

    /** The `retain_mut` of `drop_front`: markers up to `m` merge, later ones are rebased. */
    method SplitMarks(m: nat) returns (front: nat, kept: seq<GapMark>)
      requires Valid() && 0 < m <= |bytes|
      ensures |kept| <= |gaps| && gaps == gaps[..|gaps| - |kept|] + Shift(kept, m)
      ensures Ordered(m, gaps[..|gaps| - |kept|]) && Ordered(|bytes| - m, kept)
      ensures forall len: nat :: len > 0 ==> Strict([GapMark(0, len)] + kept)
      ensures front == m + MarkSum(gaps[..|gaps| - |kept|])
    {
      hide Ordered, Strict, MarkSum, Shift, SplitAt;
      var gs := gaps;
      front, kept := m, [];
      NoMarks(gs, m);
      ghost var cut := 0;
      for i := 0 to |gs|
        invariant 0 <= cut <= i && |kept| == i - cut
        invariant cut < i ==> gs[i - 1].at > m
        invariant SplitAt(gs[..i], cut, kept, m)
        invariant front == m + MarkSum(gs[..cut])
      {
        var g := gs[i];
        SplitAtStep(gs, i, cut, kept, m);
        if g.at <= m {
          front := front + g.len;
          if i > 0 { StrictAt(gs, i); }
          assert cut == i;
          MarkSumSnoc(gs[..i], g);
          cut := i + 1;
        } else {
          kept := kept + [GapMark(g.at - m, g.len)];
        }
      }
      assert gs[..|gs|] == gs;
      SplitDone(|bytes|, gs, cut, kept, m);
    }

    method Release()
      modifies `bytes, `gaps
      ensures Valid() && Cells() == []
    {
      bytes, gaps := [], [];
    }
  }
}

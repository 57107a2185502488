/**
 The second half of `absorb` (src/segment_reassembler.rs): writing the bytes the
 new segment wins, then coalescing every piece it touches into one.
 */
module Absorbing {
  import opened Types
  import opened Seqs
  import opened Provenance
  import opened Pieces
  import opened OutOfOrder

  // ----- writing won ranges in place

  /** Same extents and capacities; only bytes may differ. */
  ghost predicate SameShape(a: seq<Piece>, b: seq<Piece>) {
    && |a| == |b|
    && forall i :: 0 <= i < |a| ==> b[i].start == a[i].start && |b[i].data| == |a[i].data| && b[i].cap == a[i].cap
  }

  lemma {:induction false} ShapeKeeps(a: seq<Piece>, b: seq<Piece>)
    requires SameShape(a, b)
    ensures Apart(a) ==> Apart(b)
    ensures SumLen(b) == SumLen(a) && SumCap(b) == SumCap(a)
    decreases |a|
  {
    if a != [] {
      var n := |a| - 1;
      assert b[n].start == a[n].start;
      if n > 0 { assert b[n - 1].start == a[n - 1].start; }
      ShapeKeeps(a[..n], b[..n]);
    }
  }

  lemma {:induction false} ByteAtUpdate(ps: seq<Piece>, i: nat, q: Piece, o: nat)
    requires Apart(ps) && i < |ps| && q.start == ps[i].start && |q.data| == |ps[i].data|
    ensures ByteAt(ps[i := q], o) == if q.start <= o < q.End() then Some(q.data[o - q.start]) else ByteAt(ps, o)
    decreases |ps|
  {
    var n := |ps| - 1;
    if i == n {
      assert ps[i := q][..n] == ps[..n];
    } else {
      assert ps[i := q][..n] == ps[..n][i := q];
      ByteAtUpdate(ps[..n], i, q, o);
      ApartOrder(ps, i, n);
    }
  }

  /** Overwriting `[a, b)` of a buffer starting at `s` with the segment's bytes. */
  function Overwritten(s: nat, data: seq<byte>, a: nat, b: nat, start: nat, payload: seq<byte>): (r: seq<byte>)
    requires s <= a <= b <= s + |data| && start <= a && b <= start + |payload|
    ensures |r| == |data|
  {
    data[..a - s] + payload[a - start..b - start] + data[b - s..]
  }

  lemma OverwrittenAt(s: nat, data: seq<byte>, a: nat, b: nat, start: nat, payload: seq<byte>, o: nat)
    requires s <= a <= b <= s + |data| && start <= a && b <= start + |payload|
    requires s <= o < s + |data|
    ensures Overwritten(s, data, a, b, start, payload)[o - s] == if a <= o < b then payload[o - start] else data[o - s]
  {
  }

  /** The segment's byte for offset `o`. */
  function PayloadAt(start: nat, payload: seq<byte>, o: nat): Option<byte> {
    if start <= o < start + |payload| then Some(payload[o - start]) else None
  }

  /** Write one won range into the piece that holds it. */
  method WriteRange(ps: seq<Piece>, a: nat, b: nat, start: nat, payload: seq<byte>) returns (r: seq<Piece>)
    requires Apart(ps) && Inside(ps, (a, b)) && start <= a && b <= start + |payload|
    ensures SameShape(ps, r)
    ensures forall o: nat :: ByteAt(r, o) == if a <= o < b then PayloadAt(start, payload, o) else ByteAt(ps, o)
  {
    ghost var j :| 0 <= j < |ps| && ps[j].start <= a < b <= ps[j].End();
    var n := |ps|;
    while ps[n - 1].start > a
      invariant j < n <= |ps|
      decreases n
    {
      n := n - 1;
    }
    assert j == n - 1 by { if j < n - 1 { ApartOrder(ps, j, n - 1); } }
    var p := ps[n - 1];
    var q := p.(data := Overwritten(p.start, p.data, a, b, start, payload));
    r := ps[n - 1 := q];
    forall o: nat ensures ByteAt(r, o) == if a <= o < b then PayloadAt(start, payload, o) else ByteAt(ps, o) {
      ByteAtUpdate(ps, n - 1, q, o);
      if p.start <= o < p.End() {
        ByteAtIndex(ps, n - 1, o);
        OverwrittenAt(p.start, p.data, a, b, start, payload, o);
      }
    }
  }

  /** Apply every won range, and hand its provenance over under the sequence policies. */
  method ApplyWrites(ps: seq<Piece>, rs: seq<Run>, sequenced: bool, start: nat, payload: seq<byte>, ws: seq<(nat, nat)>)
    returns (qs: seq<Piece>, ss: seq<Run>)
    requires Apart(ps) && Tiled(rs) && AllInside(ps, ws) && RangesIn(ws, start, start + |payload|)
    ensures SameShape(ps, qs) && Apart(qs) && Tiled(ss)
    ensures forall o: nat :: ByteAt(qs, o) == if InRanges(ws, o) then PayloadAt(start, payload, o) else ByteAt(ps, o)
    ensures !sequenced ==> ss == rs
    ensures sequenced ==> forall o: nat :: SegAt(ss, o) == if InRanges(ws, o) then Some(start) else SegAt(rs, o)
  {
    qs, ss := ps, rs;
    for k := 0 to |ws|
      invariant SameShape(ps, qs) && Apart(qs) && Tiled(ss)
      invariant forall o: nat :: ByteAt(qs, o) == if InRanges(ws[..k], o) then PayloadAt(start, payload, o) else ByteAt(ps, o)
      invariant !sequenced ==> ss == rs
      invariant sequenced ==> forall o: nat :: SegAt(ss, o) == if InRanges(ws[..k], o) then Some(start) else SegAt(rs, o)
    {
      var (a, b) := ws[k];
      InsideKept(ps, qs, ws[k]);
      ghost var before := qs;
      qs := WriteRange(qs, a, b, start, payload);
      ShapeKeeps(before, qs);
      if sequenced {
        ss := SetRuns(ss, a, b, start);
      }
      assert ws[..k + 1] == ws[..k] + [ws[k]];
      forall o: nat ensures InRanges(ws[..k + 1], o) <==> a <= o < b || InRanges(ws[..k], o) {
        InRangesSnoc(ws[..k], ws[k], o);
      }
    }
    assert ws[..|ws|] == ws;
  }

  lemma InsideKept(a: seq<Piece>, b: seq<Piece>, w: (nat, nat))
    requires SameShape(a, b) && Inside(a, w)
    ensures Inside(b, w)
  {
    var i :| 0 <= i < |a| && a[i].start <= w.0 < w.1 <= a[i].End();
    assert b[i].start == a[i].start;
  }

  // ----- coalescing

  /** A stretch of the union: an existing piece (by index) or new bytes. */
  datatype Fill = Fill(lo: nat, hi: nat, src: Option<nat>)

  function Text(parts: seq<Piece>, start: nat, payload: seq<byte>, f: Fill): seq<byte>
    requires FillFits(parts, start, payload, f)
  {
    if f.src.Some? then parts[f.src.value].data else payload[f.lo - start..f.hi - start]
  }

  predicate FillFits(parts: seq<Piece>, start: nat, payload: seq<byte>, f: Fill) {
    if f.src.Some? then
      f.src.value < |parts| && f.lo == parts[f.src.value].start && f.hi == parts[f.src.value].End()
    else start <= f.lo <= f.hi <= start + |payload|
  }

  ghost predicate AllFit(parts: seq<Piece>, start: nat, payload: seq<byte>, fill: seq<Fill>) {
    forall k :: 0 <= k < |fill| ==> FillFits(parts, start, payload, fill[k])
  }

  /** The bytes of consecutive stretches. */
  ghost function Cat(parts: seq<Piece>, start: nat, payload: seq<byte>, fill: seq<Fill>): seq<byte>
    requires AllFit(parts, start, payload, fill)
    decreases |fill|
  {
    if fill == [] then []
    else Cat(parts, start, payload, fill[..|fill| - 1]) + Text(parts, start, payload, fill[|fill| - 1])
  }

  /** Offsets that new bytes fill. */
  predicate InNew(fill: seq<Fill>, o: nat) {
    |fill| > 0 &&
    ((fill[|fill| - 1].src.None? && fill[|fill| - 1].lo <= o < fill[|fill| - 1].hi) || InNew(fill[..|fill| - 1], o))
  }

  /** How many new bytes there are. */
  function NewLen(fill: seq<Fill>): int {
    if fill == [] then 0
    else NewLen(fill[..|fill| - 1]) + if fill[|fill| - 1].src.None? then fill[|fill| - 1].hi - fill[|fill| - 1].lo else 0
  }

  function FillLen(fill: seq<Fill>): int {
    if fill == [] then 0 else FillLen(fill[..|fill| - 1]) + fill[|fill| - 1].hi - fill[|fill| - 1].lo
  }

  /** Stretches are new bytes or the first `i` pieces. */
  ghost predicate FillSum(fill: seq<Fill>, parts: seq<Piece>, i: nat)
    requires i <= |parts|
  {
    FillLen(fill) == NewLen(fill) + SumLen(parts[..i])
  }

  lemma FillSumNew(fill: seq<Fill>, parts: seq<Piece>, i: nat, lo: nat, hi: nat)
    requires i <= |parts| && FillSum(fill, parts, i)
    ensures FillSum(fill + [Fill(lo, hi, None)], parts, i)
  {
    assert (fill + [Fill(lo, hi, None)])[..|fill|] == fill;
  }

  lemma FillSumOld(fill: seq<Fill>, parts: seq<Piece>, i: nat)
    requires i < |parts| && FillSum(fill, parts, i)
    ensures FillSum(fill + [Fill(parts[i].start, parts[i].End(), Some(i))], parts, i + 1)
  {
    assert (fill + [Fill(parts[i].start, parts[i].End(), Some(i))])[..|fill|] == fill;
    TakeSnoc(parts, i);
  }

  lemma FillSnoc(parts: seq<Piece>, start: nat, payload: seq<byte>, fill: seq<Fill>, f: Fill)
    requires AllFit(parts, start, payload, fill) && FillFits(parts, start, payload, f)
    ensures AllFit(parts, start, payload, fill + [f])
    ensures Cat(parts, start, payload, fill + [f]) == Cat(parts, start, payload, fill) + Text(parts, start, payload, f)
    ensures NewLen(fill + [f]) == NewLen(fill) + if f.src.None? then f.hi - f.lo else 0
    ensures FillLen(fill + [f]) == FillLen(fill) + f.hi - f.lo
  {
    assert (fill + [f])[..|fill|] == fill;
  }

  lemma InNewSnoc(fill: seq<Fill>, f: Fill, o: nat)
    ensures InNew(fill + [f], o) <==> (f.src.None? && f.lo <= o < f.hi) || InNew(fill, o)
  {
    assert (fill + [f])[..|fill|] == fill;
  }

  lemma {:induction false} InNewCons(f: Fill, fill: seq<Fill>, o: nat)
    ensures InNew([f] + fill, o) <==> (f.src.None? && f.lo <= o < f.hi) || InNew(fill, o)
    decreases |fill|
  {
    if fill == [] {
      assert [f] + fill == [] + [f];
      InNewSnoc([], f, o);
    } else {
      var c, g := fill[..|fill| - 1], fill[|fill| - 1];
      SplitLast(fill);
      Assoc([f], c, [g]);
      InNewSnoc([f] + c, g, o);
      InNewSnoc(c, g, o);
      InNewCons(f, c, o);
    }
  }

  lemma {:induction false} FillConcat(parts: seq<Piece>, start: nat, payload: seq<byte>, a: seq<Fill>, b: seq<Fill>)
    requires AllFit(parts, start, payload, a) && AllFit(parts, start, payload, b)
    ensures AllFit(parts, start, payload, a + b)
    ensures Cat(parts, start, payload, a + b) == Cat(parts, start, payload, a) + Cat(parts, start, payload, b)
    ensures NewLen(a + b) == NewLen(a) + NewLen(b)
    decreases |b|
  {
    if b == [] {
      assert a + b == a;
    } else {
      var c, f := b[..|b| - 1], b[|b| - 1];
      SplitLast(b);
      FillConcat(parts, start, payload, a, c);
      Assoc(a, c, [f]);
      FillSnoc(parts, start, payload, a + c, f);
      FillSnoc(parts, start, payload, c, f);
      Assoc(Cat(parts, start, payload, a), Cat(parts, start, payload, c), Text(parts, start, payload, f));
    }
  }

  /** The byte the coalesced piece must hold at `o`. */
  ghost function WantAt(parts: seq<Piece>, start: nat, payload: seq<byte>, o: nat): Option<byte> {
    if ByteAt(parts, o).Some? then ByteAt(parts, o) else PayloadAt(start, payload, o)
  }

  /** `d`, read from offset `s`, is what is wanted there. */
  ghost predicate Spells(parts: seq<Piece>, start: nat, payload: seq<byte>, s: nat, d: seq<byte>) {
    forall o: nat :: s <= o < s + |d| ==> WantAt(parts, start, payload, o) == Some(d[o - s])
  }

  lemma SpellsConcat(parts: seq<Piece>, start: nat, payload: seq<byte>, s: nat, a: seq<byte>, b: seq<byte>)
    requires Spells(parts, start, payload, s, a) && Spells(parts, start, payload, s + |a|, b)
    ensures Spells(parts, start, payload, s, a + b)
  {
    forall o: nat | s <= o < s + |a + b| ensures WantAt(parts, start, payload, o) == Some((a + b)[o - s]) {
      if o >= s + |a| { assert (a + b)[o - s] == b[o - (s + |a|)]; }
    }
  }

  /** The fill covers `[s, cursor)`, spelling the right bytes, and is new exactly where nothing was held. */
  ghost predicate FillTo(parts: seq<Piece>, start: nat, payload: seq<byte>, fill: seq<Fill>, s: nat, cursor: nat) {
    && s <= cursor
    && AllFit(parts, start, payload, fill)
    && |Cat(parts, start, payload, fill)| == cursor - s == FillLen(fill)
    && Spells(parts, start, payload, s, Cat(parts, start, payload, fill))
    && (forall o: nat :: InNew(fill, o) <==> s <= o < cursor && ByteAt(parts, o).None?)
  }

  lemma SpellsNew(parts: seq<Piece>, start: nat, payload: seq<byte>, lo: nat, hi: nat)
    requires start <= lo <= hi <= start + |payload|
    requires forall o: nat :: lo <= o < hi ==> ByteAt(parts, o).None?
    ensures Spells(parts, start, payload, lo, payload[lo - start..hi - start])
  {
  }

  lemma SpellsOld(parts: seq<Piece>, start: nat, payload: seq<byte>, i: nat)
    requires Apart(parts) && i < |parts|
    ensures Spells(parts, start, payload, parts[i].start, parts[i].data)
    ensures forall o: nat :: parts[i].start <= o < parts[i].End() ==> ByteAt(parts, o).Some?
  {
    forall o: nat | parts[i].start <= o < parts[i].End()
      ensures ByteAt(parts, o) == Some(parts[i].data[o - parts[i].start])
    {
      ByteAtIndex(parts, i, o);
    }
  }

  /** One more stretch. */
  lemma FillMore(parts: seq<Piece>, start: nat, payload: seq<byte>, fill: seq<Fill>, s: nat, f: Fill)
    requires FillTo(parts, start, payload, fill, s, f.lo) && FillFits(parts, start, payload, f) && f.lo <= f.hi
    requires Spells(parts, start, payload, f.lo, Text(parts, start, payload, f))
    requires forall o: nat :: f.lo <= o < f.hi ==> ByteAt(parts, o).None? == f.src.None?
    ensures FillTo(parts, start, payload, fill + [f], s, f.hi)
  {
    hide Spells, Cat, FillLen, InNew, ByteAt, NewLen;
    TextLen(parts, start, payload, f);
    hide Text, FillFits;
    FillSnoc(parts, start, payload, fill, f);
    forall o: nat ensures InNew(fill + [f], o) <==> s <= o < f.hi && ByteAt(parts, o).None? {
      InNewSnoc(fill, f, o);
    }
    SpellsConcat(parts, start, payload, s, Cat(parts, start, payload, fill), Text(parts, start, payload, f));
  }

  lemma TextLen(parts: seq<Piece>, start: nat, payload: seq<byte>, f: Fill)
    requires FillFits(parts, start, payload, f)
    ensures |Text(parts, start, payload, f)| == f.hi - f.lo
  {
  }

  /** Every part touches the segment. */
  ghost predicate Touching(parts: seq<Piece>, start: nat, payload: seq<byte>) {
    forall i :: 0 <= i < |parts| ==> parts[i].End() >= start && parts[i].start <= start + |payload|
  }

  function UnionStart(parts: seq<Piece>, start: nat): nat {
    if parts == [] then start else Min(parts[0].start, start)
  }

  function UnionEnd(parts: seq<Piece>, end: nat): nat {
    if parts == [] then end else Max(parts[|parts| - 1].End(), end)
  }

  /** New bytes from the end of piece `i - 1` to `hi`, before piece `i`. */
  lemma FillGap(parts: seq<Piece>, start: nat, payload: seq<byte>, fill: seq<Fill>, s: nat, i: nat, lo: nat, hi: nat)
    requires Apart(parts) && i <= |parts| && start <= lo <= hi <= start + |payload|
    requires (i > 0 ==> parts[i - 1].End() <= lo) && (i < |parts| ==> hi <= parts[i].start)
    requires FillTo(parts, start, payload, fill, s, lo)
    ensures FillTo(parts, start, payload, fill + [Fill(lo, hi, None)], s, hi)
  {
    hide ByteAt, Spells, FillTo, Apart;
    forall o: nat | lo <= o < hi ensures ByteAt(parts, o).None? {
      GapBytes(parts, i, o);
    }
    SpellsNew(parts, start, payload, lo, hi);
    FillMore(parts, start, payload, fill, s, Fill(lo, hi, None));
  }

  lemma FillPiece(parts: seq<Piece>, start: nat, payload: seq<byte>, fill: seq<Fill>, s: nat, i: nat)
    requires Apart(parts) && i < |parts| && FillTo(parts, start, payload, fill, s, parts[i].start)
    ensures FillTo(parts, start, payload, fill + [Fill(parts[i].start, parts[i].End(), Some(i))], s, parts[i].End())
  {
    SpellsOld(parts, start, payload, i);
    FillMore(parts, start, payload, fill, s, Fill(parts[i].start, parts[i].End(), Some(i)));
  }

  /** `at[i]` is where piece `i` ended up. */
  ghost predicate Placed(fill: seq<Fill>, at: seq<nat>) {
    forall i :: 0 <= i < |at| ==> at[i] < |fill| && fill[at[i]].src == Some(i)
  }

  /** Lay the union out in stream order. */
  method BuildFill(parts: seq<Piece>, start: nat, payload: seq<byte>) returns (fill: seq<Fill>, ghost at: seq<nat>)
    requires Apart(parts) && Touching(parts, start, payload) && |payload| > 0
    ensures FillTo(parts, start, payload, fill, UnionStart(parts, start), UnionEnd(parts, start + |payload|))
    ensures |at| == |parts| && Placed(fill, at)
    ensures FillLen(fill) == NewLen(fill) + SumLen(parts)
    ensures parts == [] ==> |fill| == 1 && fill[0].src == None
  {
    hide Apart, Touching, FillState, FillTo, Placed, FillLen, NewLen, SumLen, UnionStart, UnionEnd;
    var s, e := UnionStart(parts, start), UnionEnd(parts, start + |payload|);
    fill, at := [], [];
    FillFirst(parts, start, payload, s);
    var cursor := s;
    for i := 0 to |parts|
      invariant cursor == if i == 0 then s else parts[i - 1].End()
      invariant FillState(parts, start, payload, fill, at, s, cursor, i)
    {
      var p := parts[i];
      at := FillStep(parts, start, payload, fill, at, s, i, cursor);
      if p.start > cursor {
        fill := fill + [Fill(cursor, p.start, None)];
      }
      fill := fill + [Fill(p.start, p.End(), Some(i))];
      cursor := p.End();
    }
    FillLast(parts, start, payload, fill, at, s, cursor);
    if cursor < e {
      fill := fill + [Fill(cursor, e, None)];
    }
  }

  /** The fill after the first `i` pieces. */
  ghost predicate FillState(parts: seq<Piece>, start: nat, payload: seq<byte>, fill: seq<Fill>, at: seq<nat>, s: nat, cursor: nat, i: nat) {
    && i <= |parts| && |at| == i && Placed(fill, at)
    && FillTo(parts, start, payload, fill, s, cursor)
    && FillSum(fill, parts, i)
    && (i == 0 ==> fill == [])
  }

  lemma PlacedMore(fill: seq<Fill>, at: seq<nat>, f: Fill)
    requires Placed(fill, at)
    ensures Placed(fill + [f], at)
    ensures f.src == Some(|at|) ==> Placed(fill + [f], at + [|fill|])
  {
  }

  lemma FillStep(parts: seq<Piece>, start: nat, payload: seq<byte>, fill: seq<Fill>, at: seq<nat>, s: nat, i: nat, cursor: nat)
    returns (at': seq<nat>)
    requires Apart(parts) && Touching(parts, start, payload) && i < |parts|
    requires cursor == if i == 0 then UnionStart(parts, start) else parts[i - 1].End()
    requires FillState(parts, start, payload, fill, at, s, cursor, i)
    ensures var p := parts[i];
            var f := if p.start > cursor then fill + [Fill(cursor, p.start, None)] else fill;
            FillState(parts, start, payload, f + [Fill(p.start, p.End(), Some(i))], at', s, p.End(), i + 1)
  {
    hide FillTo, ByteAt, Placed, FillLen, NewLen, SumLen, FillSum, Apart;
    var p, f := parts[i], fill;
    CursorReady(parts, start, payload, i, cursor);
    if p.start > cursor {
      FillGap(parts, start, payload, fill, s, i, cursor, p.start);
      FillSumNew(fill, parts, i, cursor, p.start);
      PlacedMore(fill, at, Fill(cursor, p.start, None));
      f := fill + [Fill(cursor, p.start, None)];
    }
    FillPiece(parts, start, payload, f, s, i);
    FillSumOld(f, parts, i);
    PlacedMore(f, at, Fill(p.start, p.End(), Some(i)));
    at' := at + [|f|];
  }

  lemma FillFirst(parts: seq<Piece>, start: nat, payload: seq<byte>, s: nat)
    ensures FillState(parts, start, payload, [], [], s, s, 0)
  {
    hide ByteAt;
    assert parts[..0] == [];
  }

  lemma FillLast(parts: seq<Piece>, start: nat, payload: seq<byte>, fill: seq<Fill>, at: seq<nat>, s: nat, cursor: nat)
    requires Apart(parts) && Touching(parts, start, payload) && |payload| > 0
    requires cursor == if parts == [] then UnionStart(parts, start) else parts[|parts| - 1].End()
    requires FillState(parts, start, payload, fill, at, s, cursor, |parts|)
    ensures var e := UnionEnd(parts, start + |payload|);
            var f := if cursor < e then fill + [Fill(cursor, e, None)] else fill;
            && FillTo(parts, start, payload, f, s, e) && Placed(f, at) && |at| == |parts|
            && FillLen(f) == NewLen(f) + SumLen(parts)
            && (parts == [] ==> |f| == 1 && f[0].src == None)
  {
    hide FillTo, ByteAt, Placed, FillLen, NewLen, SumLen, Apart;
    assert parts[..|parts|] == parts;
    var e := UnionEnd(parts, start + |payload|);
    if cursor < e {
      CursorLast(parts, start, payload, cursor);
      FillGap(parts, start, payload, fill, s, |parts|, cursor, e);
      FillSumNew(fill, parts, |parts|, cursor, e);
      PlacedMore(fill, at, Fill(cursor, e, None));
    }
  }

  lemma CursorReady(parts: seq<Piece>, start: nat, payload: seq<byte>, i: nat, cursor: nat)
    requires Apart(parts) && Touching(parts, start, payload) && i < |parts|
    requires cursor == if i == 0 then UnionStart(parts, start) else parts[i - 1].End()
    ensures cursor <= parts[i].start && |parts[i].data| > 0
    ensures cursor < parts[i].start ==> start <= cursor && parts[i].start <= start + |payload|
  {
    ApartOrder(parts, if i == 0 then 0 else i - 1, i);
    assert i > 0 ==> parts[i - 1].End() >= start;
  }

  lemma CursorLast(parts: seq<Piece>, start: nat, payload: seq<byte>, cursor: nat)
    requires Touching(parts, start, payload)
    requires cursor == if parts == [] then UnionStart(parts, start) else parts[|parts| - 1].End()
    requires cursor < UnionEnd(parts, start + |payload|)
    ensures start <= cursor && UnionEnd(parts, start + |payload|) == start + |payload|
  {
    assert |parts| > 0 ==> parts[|parts| - 1].End() >= start;
  }

  // ----- growing the largest piece in place

  /** The longest piece (the last of several). */
  method Largest(parts: seq<Piece>) returns (i: nat)
    requires parts != []
    ensures i < |parts| && forall k :: 0 <= k < |parts| ==> |parts[k].data| <= |parts[i].data|
  {
    i := 0;
    for k := 1 to |parts|
      invariant i < |parts| && forall j :: 0 <= j < k ==> |parts[j].data| <= |parts[i].data|
    {
      if |parts[k].data| >= |parts[i].data| {
        i := k;
      }
    }
  }

  method Position(fill: seq<Fill>, i: nat, ghost at: nat) returns (pos: nat)
    requires at < |fill| && fill[at].src == Some(i)
    ensures pos < |fill| && fill[pos].src == Some(i)
  {
    pos := 0;
    while fill[pos].src != Some(i)
      invariant pos <= at
      decreases at - pos
    {
      pos := pos + 1;
    }
  }

  /** Room for `need` bytes: the capacity at least doubles, but not much past the budget. */
  method Grown(cap: nat, need: nat, others: nat, budget: nat) returns (c: nat)
    ensures c >= need && c >= cap
  {
    c := cap;
    if need > cap {
      var room := if budget >= others + PIECE_OVERHEAD then budget - (others + PIECE_OVERHEAD) else 0;
      var target := Max(Min(cap * 2, room), need);
      c :| c >= target;
    }
  }

  /** Runs after handing every new stretch of `fill` to the segment. */
  ghost predicate NewRuns(rs: seq<Run>, ss: seq<Run>, sequenced: bool, start: nat, fill: seq<Fill>) {
    && Tiled(ss)
    && (!sequenced ==> ss == rs)
    && (sequenced ==> forall o: nat :: SegAt(ss, o) == if InNew(fill, o) then Some(start) else SegAt(rs, o))
  }

  /** Concatenate the stretches, growing the base piece towards both ends. */
  method Merge(parts: seq<Piece>, rs: seq<Run>, sequenced: bool, start: nat, payload: seq<byte>,
               fill: seq<Fill>, ghost at: seq<nat>, others: nat, budget: nat)
    returns (data: seq<byte>, cap: nat, added: int, ss: seq<Run>)
    requires Tiled(rs) && AllFit(parts, start, payload, fill) && FillLen(fill) >= 0
    requires |at| == |parts| && Placed(fill, at) && (parts == [] ==> |fill| == 1 && fill[0].src == None)
    requires |Cat(parts, start, payload, fill)| == FillLen(fill)
    ensures data == Cat(parts, start, payload, fill) && cap >= |data|
    ensures added == NewLen(fill)
    ensures NewRuns(rs, ss, sequenced, start, fill)
  {
    var pos, after := 0, 0;
    data, cap := [], 0;
    if parts != [] {
      var b := Largest(parts);
      pos := Position(fill, b, at[b]);
      after := pos + 1;
      data, cap := parts[b].data, parts[b].cap;
    } else {
      cap :| cap >= |payload|;
    }
    var need := FillLen(fill);
    cap := Grown(cap, need, others, budget);
    data, added, ss := GrowFront(parts, rs, sequenced, start, payload, fill, data, pos, after);
    data, added, ss := GrowBack(parts, rs, ss, sequenced, start, payload, fill, data, added, after);
  }

  /** `data`, `added` and `ss` are what the stretches `fill` amount to. */
  ghost predicate Amounts(parts: seq<Piece>, rs: seq<Run>, sequenced: bool, start: nat, payload: seq<byte>,
                          fill: seq<Fill>, data: seq<byte>, added: int, ss: seq<Run>)
    requires AllFit(parts, start, payload, fill)
  {
    && data == Cat(parts, start, payload, fill)
    && added == NewLen(fill)
    && NewRuns(rs, ss, sequenced, start, fill)
  }

  /** Runs after one more stretch. */
  ghost predicate RunsStep(ss: seq<Run>, ts: seq<Run>, sequenced: bool, start: nat, f: Fill) {
    && Tiled(ts)
    && if sequenced && f.src.None? then Assigned(ss, ts, f.lo, f.hi, start) else ts == ss
  }

  lemma AmountsBase(parts: seq<Piece>, rs: seq<Run>, sequenced: bool, start: nat, payload: seq<byte>, fill: seq<Fill>, base: seq<byte>)
    requires Tiled(rs) && AllFit(parts, start, payload, fill)
    requires (fill == [] && base == []) || (|fill| == 1 && fill[0].src.Some? && base == Text(parts, start, payload, fill[0]))
    ensures Amounts(parts, rs, sequenced, start, payload, fill, base, 0, rs)
  {
    if |fill| == 1 {
      assert fill == [] + [fill[0]];
      FillSnoc(parts, start, payload, [], fill[0]);
      forall o: nat ensures !InNew(fill, o) { InNewSnoc([], fill[0], o); }
    }
  }

  lemma AmountsSnoc(parts: seq<Piece>, rs: seq<Run>, sequenced: bool, start: nat, payload: seq<byte>,
                    fill: seq<Fill>, data: seq<byte>, added: int, ss: seq<Run>, f: Fill, ts: seq<Run>)
    requires AllFit(parts, start, payload, fill) && FillFits(parts, start, payload, f)
    requires Amounts(parts, rs, sequenced, start, payload, fill, data, added, ss) && RunsStep(ss, ts, sequenced, start, f)
    ensures AllFit(parts, start, payload, fill + [f])
    ensures Amounts(parts, rs, sequenced, start, payload, fill + [f], data + Text(parts, start, payload, f),
                    added + (if f.src.None? then f.hi - f.lo else 0), ts)
  {
    FillSnoc(parts, start, payload, fill, f);
    RunsMore(rs, sequenced, start, fill, ss, f, ts);
  }

  lemma AmountsCons(parts: seq<Piece>, rs: seq<Run>, sequenced: bool, start: nat, payload: seq<byte>,
                    fill: seq<Fill>, data: seq<byte>, added: int, ss: seq<Run>, f: Fill, ts: seq<Run>)
    requires AllFit(parts, start, payload, fill) && FillFits(parts, start, payload, f)
    requires Amounts(parts, rs, sequenced, start, payload, fill, data, added, ss) && RunsStep(ss, ts, sequenced, start, f)
    ensures AllFit(parts, start, payload, [f] + fill)
    ensures Amounts(parts, rs, sequenced, start, payload, [f] + fill, Text(parts, start, payload, f) + data,
                    added + (if f.src.None? then f.hi - f.lo else 0), ts)
  {
    CatCons(parts, start, payload, f, fill);
    RunsMore(rs, sequenced, start, fill, ss, f, ts);
  }

  lemma CatCons(parts: seq<Piece>, start: nat, payload: seq<byte>, f: Fill, fill: seq<Fill>)
    requires AllFit(parts, start, payload, fill) && FillFits(parts, start, payload, f)
    ensures AllFit(parts, start, payload, [f] + fill)
    ensures Cat(parts, start, payload, [f] + fill) == Text(parts, start, payload, f) + Cat(parts, start, payload, fill)
    ensures NewLen([f] + fill) == NewLen(fill) + if f.src.None? then f.hi - f.lo else 0
  {
    CatOne(parts, start, payload, f);
    hide Cat, NewLen, Text, FillFits;
    FillConcat(parts, start, payload, [f], fill);
  }

  lemma CatOne(parts: seq<Piece>, start: nat, payload: seq<byte>, f: Fill)
    requires FillFits(parts, start, payload, f)
    ensures AllFit(parts, start, payload, [f])
    ensures Cat(parts, start, payload, [f]) == Text(parts, start, payload, f)
    ensures NewLen([f]) == if f.src.None? then f.hi - f.lo else 0
  {
    hide Text, FillFits;
    assert [f][..0] == [];
  }

  lemma RunsMore(rs: seq<Run>, sequenced: bool, start: nat, fill: seq<Fill>, ss: seq<Run>, f: Fill, ts: seq<Run>)
    requires NewRuns(rs, ss, sequenced, start, fill) && RunsStep(ss, ts, sequenced, start, f)
    ensures NewRuns(rs, ts, sequenced, start, fill + [f])
    ensures NewRuns(rs, ts, sequenced, start, [f] + fill)
  {
    forall o: nat
      ensures InNew(fill + [f], o) <==> (f.src.None? && f.lo <= o < f.hi) || InNew(fill, o)
      ensures InNew([f] + fill, o) <==> (f.src.None? && f.lo <= o < f.hi) || InNew(fill, o)
    {
      InNewSnoc(fill, f, o);
      InNewCons(f, fill, o);
    }
  }

  method StepRuns(ss: seq<Run>, sequenced: bool, start: nat, f: Fill) returns (ts: seq<Run>)
    requires Tiled(ss)
    ensures Tiled(ts) && RunsStep(ss, ts, sequenced, start, f)
  {
    ts := ss;
    if sequenced && f.src.None? {
      ts := SetRuns(ss, f.lo, f.hi, start);
    }
  }

  method GrowFront(parts: seq<Piece>, rs: seq<Run>, sequenced: bool, start: nat, payload: seq<byte>,
                   fill: seq<Fill>, base: seq<byte>, pos: nat, after: nat)
    returns (data: seq<byte>, added: int, ss: seq<Run>)
    requires Tiled(rs) && AllFit(parts, start, payload, fill)
    requires pos <= after <= |fill| && after <= pos + 1 && (after == pos ==> pos == 0 && base == [])
    requires after == pos + 1 ==> fill[pos].src.Some? && base == Text(parts, start, payload, fill[pos])
    ensures Amounts(parts, rs, sequenced, start, payload, fill[..after], data, added, ss)
  {
    data, added, ss := base, 0, rs;
    ghost var done: seq<Fill> := if after == pos then [] else [fill[pos]];
    AmountsBase(parts, rs, sequenced, start, payload, done, base);
    hide Amounts, Cat, NewRuns, RunsStep, Tiled, SegAt, InNew, NewLen;
    var j := pos;
    assert fill[..after] == fill[..j] + done;
    while j > 0
      invariant 0 <= j <= pos
      invariant Tiled(ss) && AllFit(parts, start, payload, done) && fill[..after] == fill[..j] + done
      invariant Amounts(parts, rs, sequenced, start, payload, done, data, added, ss)
    {
      j := j - 1;
      var f := fill[j];
      var ts := StepRuns(ss, sequenced, start, f);
      AmountsCons(parts, rs, sequenced, start, payload, done, data, added, ss, f, ts);
      PrevSlice(fill, j, done);
      done := [f] + done;
      data := Text(parts, start, payload, f) + data;
      if f.src.None? {
        added := added + (f.hi - f.lo);
      }
      ss := ts;
    }
    assert fill[..after] == done;
  }

  method GrowBack(parts: seq<Piece>, rs: seq<Run>, mid: seq<Run>, sequenced: bool, start: nat, payload: seq<byte>,
                  fill: seq<Fill>, base: seq<byte>, count: int, after: nat)
    returns (data: seq<byte>, added: int, ss: seq<Run>)
    requires Tiled(rs) && AllFit(parts, start, payload, fill) && after <= |fill|
    requires Amounts(parts, rs, sequenced, start, payload, fill[..after], base, count, mid)
    ensures Amounts(parts, rs, sequenced, start, payload, fill, data, added, ss)
  {
    data, added, ss := base, count, mid;
    ghost var done := fill[..after];
    assert Tiled(ss);
    hide Amounts, Cat, NewRuns, RunsStep, Tiled, SegAt, InNew, NewLen;
    for j := after to |fill|
      invariant Tiled(ss) && |done| == j && fill == done + fill[j..]
      invariant AllFit(parts, start, payload, done)
      invariant Amounts(parts, rs, sequenced, start, payload, done, data, added, ss)
    {
      var f := fill[j];
      var ts := StepRuns(ss, sequenced, start, f);
      AmountsSnoc(parts, rs, sequenced, start, payload, done, data, added, ss, f, ts);
      NextSlice(fill, done, j);
      done := done + [f];
      data := data + Text(parts, start, payload, f);
      if f.src.None? {
        added := added + (f.hi - f.lo);
      }
      ss := ts;
    }
    assert fill == done;
  }
}

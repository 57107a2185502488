/**
 `Ooo` as an object (src/segment_reassembler.rs): pieces, runs and totals updated
 in place, tied to the per-byte map they stand for.
 */
module Store {
  import opened Types
  import opened Seqs
  import opened Provenance
  import opened Pieces
  import opened OutOfOrder
  import opened Absorbing

  /** The pieces hold exactly the bytes of the map. */
  ghost predicate Matches(ps: seq<Piece>, held: Held) {
    forall o: nat :: ByteAt(ps, o) == if o in held then Some(held[o].b) else None
  }

  /** The runs tile it exactly, with the right provenance. */
  ghost predicate RunsMatch(rs: seq<Run>, held: Held) {
    forall o: nat :: SegAt(rs, o) == if o in held then Some(held[o].seg) else None
  }

  // ----- the map's first contiguous stretch

  lemma {:induction false} LeastOf(s: set<nat>) returns (m: nat)
    requires s != {}
    ensures m in s && forall o :: o in s ==> m <= o
    decreases |s|
  {
    var x :| x in s;
    var t := s - {x};
    m := x;
    if t != {} {
      var y := LeastOf(t);
      if y < x { m := y; }
    }
    forall o | o in s ensures m <= o {
      assert o == x || o in t;
    }
  }

  lemma LowestExists(held: Held)
    requires held != map[]
    ensures exists m :: m in held && forall o :: o in held ==> m <= o
  {
    var x :| x in held;
    var m := LeastOf(held.Keys);
  }

  /** The lowest held offset. */
  ghost function Lowest(held: Held): (m: nat)
    requires held != map[]
    ensures m in held && forall o :: o in held ==> m <= o
  {
    LowestExists(held);
    var m :| m in held && forall o :: o in held ==> m <= o;
    m
  }

  /** The first offset from `n` on that is not held. */
  ghost function StretchEnd(held: Held, n: nat): (e: nat)
    ensures n <= e && e !in held
    ensures forall o :: n <= o < e ==> o in held
    decreases |held|
  {
    if n in held then
      var e := StretchEnd(held - {n}, n + 1);
      assert forall o: nat :: n <= o < e ==> o in held by {
        forall o: nat | n <= o < e ensures o in held { if o > n { assert o in held - {n}; } }
      }
      e
    else n
  }

  lemma {:induction false} StretchEndIs(held: Held, n: nat, e: nat)
    requires n <= e && e !in held && forall o :: n <= o < e ==> o in held
    ensures StretchEnd(held, n) == e
  {
    var f := StretchEnd(held, n);
    assert f < e ==> f in held;
    assert e < f ==> e in held;
  }

  /** The held bytes of `[n, e)`. */
  ghost function BytesOf(held: Held, n: nat, e: nat): (r: seq<byte>)
    requires n <= e && forall o :: n <= o < e ==> o in held
    ensures |r| == e - n
  {
    seq(e - n, i requires 0 <= i < e - n => held[n + i].b)
  }

  /** What remains from `e` on. */
  ghost function From(held: Held, e: nat): Held { map o | o in held && o >= e :: held[o] }

  /** More than one contiguous stretch is held. */
  ghost predicate Split(held: Held)
  {
    held != map[] && From(held, StretchEnd(held, Lowest(held))) != map[]
  }

  // ----- pieces and the map

  lemma FirstPiece(ps: seq<Piece>, held: Held)
    requires Apart(ps) && Matches(ps, held) && ps != []
    ensures held != map[] && Lowest(held) == ps[0].start && StretchEnd(held, ps[0].start) == ps[0].End()
    ensures forall o :: ps[0].start <= o < ps[0].End() ==> o in held
    ensures BytesOf(held, ps[0].start, ps[0].End()) == ps[0].data
  {
    hide Apart, Matches;
    var p := ps[0];
    ApartOrder(ps, 0, 0);
    forall o: nat | o < p.End() ensures o in held <==> o >= p.start {
      PieceBytes(ps, 0, o);
      MatchAt(ps, held, o);
    }
    assert p.start in held;
    assert Lowest(held) == p.start;
    assert p.End() !in held by {
      if |ps| > 1 { ApartOrder(ps, 0, 1); }
      GapBytes(ps, 1, p.End());
      MatchAt(ps, held, p.End());
    }
    StretchEndIs(held, p.start, p.End());
    forall i | 0 <= i < |p.data| ensures BytesOf(held, p.start, p.End())[i] == p.data[i] {
      PieceBytes(ps, 0, p.start + i);
      MatchAt(ps, held, p.start + i);
    }
  }

  lemma MatchAt(ps: seq<Piece>, held: Held, o: nat)
    requires Matches(ps, held)
    ensures ByteAt(ps, o) == if o in held then Some(held[o].b) else None
  {
  }

  lemma NoPieces(held: Held)
    requires Matches([], held)
    ensures held == map[]
  {
    forall o: nat ensures o !in held {
      assert ByteAt([], o) == None;
    }
  }

  lemma {:induction false} HeldSize(ps: seq<Piece>, held: Held)
    requires Apart(ps) && Matches(ps, held)
    ensures |held| == SumLen(ps)
    decreases |ps|
  {
    if ps == [] {
      NoPieces(held);
    } else {
      var n := |ps| - 1;
      var p, init := ps[n], ps[..n];
      var rest: Held := map o | o in held && o < p.start :: held[o];
      MatchesInit(ps, held, rest);
      HeldSize(init, rest);
      KeysSplit(ps, held, rest);
      assert |held| == |held.Keys| && |rest| == |rest.Keys|;
    }
  }

  lemma MatchesInit(ps: seq<Piece>, held: Held, rest: Held)
    requires Apart(ps) && Matches(ps, held) && ps != []
    requires rest == map o | o in held && o < ps[|ps| - 1].start :: held[o]
    ensures Matches(ps[..|ps| - 1], rest)
  {
    var p, init := ps[|ps| - 1], ps[..|ps| - 1];
    forall o: nat ensures ByteAt(init, o) == if o in rest then Some(rest[o].b) else None {
      assert ByteAt(ps, o) == if o in held then Some(held[o].b) else None;
      if o >= p.start { ByteAtAbove(init, o); }
    }
  }

  lemma KeysSplit(ps: seq<Piece>, held: Held, rest: Held)
    requires Apart(ps) && Matches(ps, held) && ps != []
    requires rest == map o | o in held && o < ps[|ps| - 1].start :: held[o]
    ensures held.Keys == rest.Keys + Span(ps[|ps| - 1].start, |ps[|ps| - 1].data|)
    ensures rest.Keys !! Span(ps[|ps| - 1].start, |ps[|ps| - 1].data|)
  {
    hide Apart, Matches;
    var p := ps[|ps| - 1];
    forall o | o in held ensures o in rest.Keys + Span(p.start, |p.data|) {
      MatchAt(ps, held, o);
      if o >= p.End() { ByteAtAbove(ps, o); }
    }
    forall o | o in Span(p.start, |p.data|) ensures o in held {
      MatchAt(ps, held, o);
    }
  }

  lemma HoldsSome(ps: seq<Piece>, held: Held)
    requires Apart(ps) && Matches(ps, held) && ps != []
    ensures held != map[]
  {
    FirstPiece(ps, held);
  }

  /** Cutting the first stretch out of the runs leaves the runs of the rest. */
  lemma CutFirst(rs: seq<Run>, cut: seq<Run>, held: Held, start: nat, end: nat)
    requires RunsMatch(rs, held) && Cut(rs, cut, start, end)
    requires held != map[] && start == Lowest(held) && end == StretchEnd(held, start)
    ensures RunsMatch(cut, From(held, end)) && SegAt(rs, end) == None
  {
    forall o: nat ensures SegAt(cut, o) == if o in From(held, end) then Some(held[o].seg) else None {
      assert SegAt(rs, o) == if o in held then Some(held[o].seg) else None;
    }
  }

  /** Dropping the first piece drops the first stretch. */
  lemma DropFirst(ps: seq<Piece>, held: Held)
    requires Apart(ps) && Matches(ps, held) && ps != []
    ensures Apart(ps[1..]) && Matches(ps[1..], From(held, ps[0].End()))
    ensures SumLen(ps[1..]) == SumLen(ps) - |ps[0].data| && SumCap(ps[1..]) == SumCap(ps) - ps[0].cap
  {
    ApartDrop(ps, 1);
    assert ps == ps[..1] + ps[1..] && ps[..1] == [ps[0]];
    SumConcat([ps[0]], ps[1..]);
    SumOne(ps[0]);
    forall o: nat ensures ByteAt(ps[1..], o) == if o in From(held, ps[0].End()) then Some(held[o].b) else None {
      assert ByteAt(ps, o) == if o in held then Some(held[o].b) else None;
      ByteAtConcat([ps[0]], ps[1..], o);
      if o < ps[0].End() {
        if |ps| > 1 { ApartOrder(ps, 0, 1); }
        ByteAtBelow(ps[1..], o);
      } else {
        assert [ps[0]][..0] == [];
      }
    }
  }

  lemma SplitIffTwo(ps: seq<Piece>, held: Held)
    requires Apart(ps) && Matches(ps, held)
    ensures Split(held) <==> |ps| >= 2
  {
    if ps == [] {
      NoPieces(held);
    } else {
      FirstPiece(ps, held);
      DropFirst(ps, held);
      if |ps| == 1 {
        assert ps[1..] == [];
        NoPieces(From(held, ps[0].End()));
      } else {
        FirstPiece(ps[1..], From(held, ps[0].End()));
      }
    }
  }

  // ----- absorb, offset by offset

  /** A piece list cut into what lies before the segment, what it touches, and the rest. */
  ghost predicate Around(l: seq<Piece>, m: seq<Piece>, r: seq<Piece>, start: nat, end: nat) {
    && Apart(l) && Apart(m) && Apart(r)
    && (l == [] || l[|l| - 1].End() < start)
    && (r == [] || r[0].start > end)
    && (m != [] ==> m[0].End() >= start && m[|m| - 1].start <= end)
  }

  lemma HitsAround(qs: seq<Piece>, lo: nat, hi: nat, start: nat, end: nat)
    requires Apart(qs) && Hits(qs, lo, hi, start, end)
    ensures Around(qs[..lo], qs[lo..hi], qs[hi..], start, end)
    ensures qs == qs[..lo] + qs[lo..hi] + qs[hi..]
  {
    hide Apart;
    HitsEdges(qs, lo, hi, start, end);
    assert lo <= hi <= |qs|;
    hide Hits;
    ThreeSlices(qs, lo, hi);
    ApartTake(qs, lo);
    ApartTake(qs, hi);
    ApartDrop(qs[..hi], lo);
    ApartDrop(qs, hi);
  }

  lemma HitsEdges(qs: seq<Piece>, lo: nat, hi: nat, start: nat, end: nat)
    requires Hits(qs, lo, hi, start, end)
    ensures var (l, m, r) := (qs[..lo], qs[lo..hi], qs[hi..]);
            && (l == [] || l[|l| - 1].End() < start)
            && (r == [] || r[0].start > end)
            && (m != [] ==> m[0].End() >= start && m[|m| - 1].start <= end)
  {
    if lo < hi { assert qs[lo..hi][0] == qs[lo] && qs[lo..hi][hi - lo - 1] == qs[hi - 1]; }
  }

  lemma ThreeAt(l: seq<Piece>, m: seq<Piece>, r: seq<Piece>, o: nat)
    ensures ByteAt(l + m + r, o) ==
            if ByteAt(r, o).Some? then ByteAt(r, o) else if ByteAt(m, o).Some? then ByteAt(m, o) else ByteAt(l, o)
  {
    ByteAtConcat(l + m, r, o);
    ByteAtConcat(l, m, o);
  }

  /** What the coalesced list holds: what it held before, else the segment's bytes. */
  lemma CoalesceAt(l: seq<Piece>, m: seq<Piece>, r: seq<Piece>, start: nat, payload: seq<byte>, merged: Piece, o: nat)
    requires Around(l, m, r, start, start + |payload|)
    requires merged.start == UnionStart(m, start) && merged.End() == UnionEnd(m, start + |payload|)
    requires Spells(m, start, payload, merged.start, merged.data)
    ensures ByteAt(l + [merged] + r, o) == WantAt(l + m + r, start, payload, o)
  {
    ThreeAt(l, m, r, o);
    ThreeAt(l, [merged], r, o);
    assert [merged][..0] == [];
    if start <= o < start + |payload| {
      ByteAtAbove(l, o);
    }
    if o < merged.start {
      ByteAtBelow(m, o);
    } else if o >= merged.End() {
      ByteAtAbove(m, o);
    } else {
      assert WantAt(m, start, payload, o) == Some(merged.data[o - merged.start]);
    }
  }

  /** Inside the union, "no touched piece holds it" is "nothing holds it". */
  lemma NewIsUncovered(l: seq<Piece>, m: seq<Piece>, r: seq<Piece>, start: nat, payload: seq<byte>, o: nat)
    requires Around(l, m, r, start, start + |payload|)
    ensures (UnionStart(m, start) <= o < UnionEnd(m, start + |payload|) && ByteAt(m, o).None?)
       <==> (start <= o < start + |payload| && ByteAt(l + m + r, o).None?)
  {
    ThreeAt(l, m, r, o);
    if start <= o < start + |payload| {
      ByteAtAbove(l, o);
      ByteAtBelow(r, o);
    } else if UnionStart(m, start) <= o < start {
      ByteAtIndex(m, 0, o);
    } else if start + |payload| <= o < UnionEnd(m, start + |payload|) {
      ByteAtIndex(m, |m| - 1, o);
    }
  }

  /** The piece list after `absorb` is apart again. */
  lemma CoalesceApart(qs: seq<Piece>, lo: nat, hi: nat, start: nat, payload: seq<byte>, merged: Piece)
    requires Apart(qs) && Hits(qs, lo, hi, start, start + |payload|)
    requires merged.start == UnionStart(qs[lo..hi], start) && merged.End() == UnionEnd(qs[lo..hi], start + |payload|)
    requires merged.data != [] && merged.cap >= |merged.data|
    ensures Apart(qs[..lo] + [merged] + qs[hi..])
  {
    if lo > 0 && lo < hi { ApartOrder(qs, lo - 1, lo); }
    if hi < |qs| && lo < hi { ApartOrder(qs, hi - 1, hi); }
    SpliceApart(qs, lo, hi, merged);
  }

  lemma UnionNotEmpty(m: seq<Piece>, start: nat, end: nat)
    requires start < end
    ensures UnionStart(m, start) < UnionEnd(m, end)
  {
  }

  lemma HitsTouch(qs: seq<Piece>, lo: nat, hi: nat, start: nat, payload: seq<byte>)
    requires Hits(qs, lo, hi, start, start + |payload|)
    ensures Touching(qs[lo..hi], start, payload)
  {
    var m := qs[lo..hi];
    forall i | 0 <= i < |m| ensures m[i].End() >= start && m[i].start <= start + |payload| {
      assert m[i] == qs[lo + i];
    }
  }

  lemma PartsTouch(qs: seq<Piece>, lo: nat, hi: nat, start: nat, payload: seq<byte>)
    requires Apart(qs) && Hits(qs, lo, hi, start, start + |payload|)
    ensures Apart(qs[lo..hi]) && Touching(qs[lo..hi], start, payload)
    ensures UnionStart(qs[lo..hi], start) < UnionEnd(qs[lo..hi], start + |payload|) || payload == []
  {
    hide Apart, Touching, UnionStart, UnionEnd;
    HitsTouch(qs, lo, hi, start, payload);
    HitsAround(qs, lo, hi, start, start + |payload|);
    if payload != [] { UnionNotEmpty(qs[lo..hi], start, start + |payload|); }
    hide Hits;
  }

  /** Per offset, writing then coalescing is `AbsorbHeld`. */
  lemma AbsorbAt(policy: OverlapPolicy, held: Held, rs: seq<Run>, start: nat, payload: seq<byte>, o: nat, won: bool)
    requires SeqPolicy(policy) ==> SegAt(rs, o) == if o in held then Some(held[o].seg) else None
    requires won <==> start <= o < start + |payload| && o in held && WinsAt(rs, policy, start, o)
    ensures var h := AbsorbHeld(policy, held, start, payload);
            && (o in h <==> o in held || start <= o < start + |payload|)
            && (o in h ==> h[o] == if o in held && !won then held[o] else Src(payload[o - start], start))
  {
    var h := AbsorbHeld(policy, held, start, payload);
    assert o in h <==> o in held.Keys + Span(start, |payload|);
    assert o in h ==> h[o] == AbsorbCell(policy, held, start, payload, o);
  }

  class Ooo {
    var pieces: seq<Piece>
    var runs: seq<Run>
    var bytes: nat
    /** Sum of the pieces' capacities. */
    var capacity: nat
    /** Insertions since the position last moved. */
    var arrivals: nat
    /** The per-byte map that pieces and runs implement. */
    ghost var held: Held

    ghost predicate Valid(sequenced: bool)
      reads this
    {
      && Apart(pieces) && Tiled(runs)
      && bytes == SumLen(pieces) && capacity == SumCap(pieces)
      && Matches(pieces, held)
      && (if sequenced then RunsMatch(runs, held) else runs == [])
    }

    constructor ()
      ensures forall sequenced :: Valid(sequenced)
      ensures held == map[] && arrivals == 0
    {
      pieces, runs, bytes, capacity, arrivals, held := [], [], 0, 0, 0, map[];
    }

    function Charged(): nat
      reads this
    {
      capacity + |pieces| * PIECE_OVERHEAD + |runs| * RUN_OVERHEAD
    }

    /** `absorb`: insert `[start, start + |payload|)`, resolving overlaps and coalescing. */
    method Absorb(policy: OverlapPolicy, start: nat, payload: seq<byte>, budget: nat)
      returns (divergent: bool, overlapped: bool)
      requires Valid(SeqPolicy(policy)) && |payload| > 0
      modifies this
      ensures Valid(SeqPolicy(policy))
      ensures held == AbsorbHeld(policy, old(held), start, payload)
      ensures arrivals == old(arrivals) + 1
      ensures overlapped <==> Overlaps(old(held), start, payload)
      ensures divergent <==> Diverges(old(held), start, payload)
    {
      hide Apart, Tiled, Matches, RunsMatch, SumLen, SumCap, ByteAt, SegAt, AbsorbHeld, Overlaps, Diverges, Hits, WantAt;
      arrivals := arrivals + 1;
      var lo, hi := FindHits(pieces, start, start + |payload|);
      ghost var met, clash;
      var ws;
      ws, divergent, overlapped, met, clash := Resolve(pieces, runs, policy, start, payload, lo, hi);
      FlagsMean(pieces, held, start, payload, overlapped, met, divergent, clash);
      var qs, ss := ApplyWrites(pieces, runs, SeqPolicy(policy), start, payload, ws);
      WritesKeep(pieces, qs, lo, hi, start, start + |payload|);
      var ts := Coalesce(qs, ss, SeqPolicy(policy), start, payload, lo, hi, budget);
      AbsorbMeans(policy, held, old(pieces), runs, start, payload, ws, qs, ss, pieces, ts);
      runs := ts;
      held := AbsorbHeld(policy, held, start, payload);
    }

    /** The store's part of `deliver_first`: take the first piece out. */
    method TakeFirst(sequenced: bool) returns (p: Piece)
      requires Valid(sequenced) && pieces != []
      modifies this
      ensures Valid(sequenced) && arrivals == 0 && pieces == old(pieces[1..]) && p == old(pieces[0])
      ensures old(held) != map[] && p.start == Lowest(old(held)) && p.End() == StretchEnd(old(held), p.start)
      ensures p.data == BytesOf(old(held), p.start, p.End()) && p.data != []
      ensures held == From(old(held), p.End())
      ensures Charged() + |p.data| <= old(Charged())
    {
      hide Apart, Matches, RunsMatch, Tiled, Cut, Lowest, StretchEnd, BytesOf, From, SumLen, SumCap;
      p := pieces[0];
      FirstPiece(pieces, held);
      DropFirst(pieces, held);
      ApartOrder(pieces, 0, 0);
      var cut := CutRuns(runs, p.start, p.End());
      if sequenced { CutFirst(runs, cut, held, p.start, p.End()); }
      pieces := pieces[1..];
      bytes := bytes - |p.data|;
      capacity := capacity - p.cap;
      runs := cut;
      arrivals := 0;
      held := From(held, p.End());
    }

    /** Replace every hit piece and the uncovered new bytes by one piece. */
    method Coalesce(qs: seq<Piece>, ss: seq<Run>, sequenced: bool, start: nat, payload: seq<byte>, lo: nat, hi: nat, budget: nat)
      returns (ts: seq<Run>)
      requires Apart(qs) && Tiled(ss) && |payload| > 0 && Hits(qs, lo, hi, start, start + |payload|)
      requires bytes == SumLen(qs) && capacity == SumCap(qs)
      modifies `pieces, `bytes, `capacity
      ensures Apart(pieces) && bytes == SumLen(pieces) && capacity == SumCap(pieces)
      ensures forall o: nat :: ByteAt(pieces, o) == WantAt(qs, start, payload, o)
      ensures Tiled(ts) && (!sequenced ==> ts == ss)
      ensures sequenced ==> forall o: nat ::
                (SegAt(ts, o) == if start <= o < start + |payload| && ByteAt(qs, o).None? then Some(start) else SegAt(ss, o))
    {
      hide Apart, ByteAt, SegAt, Cat, InNew, Spells, Tiled, WantAt, FillLen, NewLen, Hits;
      PartsTouch(qs, lo, hi, start, payload);
      assert lo <= hi <= |qs| by { HitsBounds(qs, lo, hi, start, start + |payload|); }
      var parts := qs[lo..hi];
      SpliceSums(qs, lo, hi, Piece(0, [], 0));
      capacity := capacity - SumCap(parts);
      var fill, at := BuildFill(parts, start, payload);
      var others := capacity + (|qs| - |parts|) * PIECE_OVERHEAD + |ss| * RUN_OVERHEAD;
      var data, cap, added;
      data, cap, added, ts := Merge(parts, ss, sequenced, start, payload, fill, at, others, budget);
      var merged := Piece(UnionStart(parts, start), data, cap);
      CoalesceMeans(qs, lo, hi, ss, sequenced, start, payload, fill, merged, ts);
      bytes := bytes + added;
      capacity := capacity + cap;
      pieces := qs[..lo] + [merged] + qs[hi..];
    }
  }

  lemma HitsBounds(qs: seq<Piece>, lo: nat, hi: nat, start: nat, end: nat)
    requires Hits(qs, lo, hi, start, end)
    ensures lo <= hi <= |qs|
  {
  }

  lemma CoalesceMeans(qs: seq<Piece>, lo: nat, hi: nat, ss: seq<Run>, sequenced: bool, start: nat, payload: seq<byte>,
                      fill: seq<Fill>, merged: Piece, ts: seq<Run>)
    requires Apart(qs) && |payload| > 0 && Hits(qs, lo, hi, start, start + |payload|)
    requires FillTo(qs[lo..hi], start, payload, fill, UnionStart(qs[lo..hi], start), UnionEnd(qs[lo..hi], start + |payload|))
    requires merged.start == UnionStart(qs[lo..hi], start) && merged.cap >= |merged.data|
    requires merged.data == Cat(qs[lo..hi], start, payload, fill)
    requires NewRuns(ss, ts, sequenced, start, fill)
    ensures var ps := qs[..lo] + [merged] + qs[hi..];
            && Apart(ps)
            && SumLen(ps) == SumLen(qs) - SumLen(qs[lo..hi]) + |merged.data|
            && SumCap(ps) == SumCap(qs) - SumCap(qs[lo..hi]) + merged.cap
            && (forall o: nat :: ByteAt(ps, o) == WantAt(qs, start, payload, o))
    ensures sequenced ==> forall o: nat ::
              (SegAt(ts, o) == if start <= o < start + |payload| && ByteAt(qs, o).None? then Some(start) else SegAt(ss, o))
  {
    hide Apart, SumLen, SumCap, ByteAt, SegAt, Cat, InNew, Spells, Around, WantAt, FillTo, NewRuns, Hits, UnionStart, UnionEnd, Touching;
    HitsBounds(qs, lo, hi, start, start + |payload|);
    var l, m, r := qs[..lo], qs[lo..hi], qs[hi..];
    PartsTouch(qs, lo, hi, start, payload);
    MergedShape(m, start, payload, fill, merged);
    CoalesceApart(qs, lo, hi, start, payload, merged);
    SpliceSums(qs, lo, hi, merged);
    HitsAround(qs, lo, hi, start, start + |payload|);
    CoalesceBytes(l, m, r, start, payload, merged);
    if sequenced { CoalesceRuns(qs, lo, hi, ss, start, payload, fill, ts); }
  }

  lemma MergedShape(m: seq<Piece>, start: nat, payload: seq<byte>, fill: seq<Fill>, merged: Piece)
    requires payload != [] && UnionStart(m, start) < UnionEnd(m, start + |payload|)
    requires FillTo(m, start, payload, fill, UnionStart(m, start), UnionEnd(m, start + |payload|))
    requires merged.start == UnionStart(m, start) && merged.data == Cat(m, start, payload, fill)
    ensures merged.data != [] && merged.End() == UnionEnd(m, start + |payload|)
    ensures Spells(m, start, payload, merged.start, merged.data)
  {
    hide Spells, ByteAt, InNew, FillLen, UnionStart, UnionEnd;
  }

  lemma CoalesceRuns(qs: seq<Piece>, lo: nat, hi: nat, ss: seq<Run>, start: nat, payload: seq<byte>, fill: seq<Fill>, ts: seq<Run>)
    requires Apart(qs) && |payload| > 0 && Hits(qs, lo, hi, start, start + |payload|)
    requires FillTo(qs[lo..hi], start, payload, fill, UnionStart(qs[lo..hi], start), UnionEnd(qs[lo..hi], start + |payload|))
    requires NewRuns(ss, ts, true, start, fill)
    ensures forall o: nat ::
              (SegAt(ts, o) == if start <= o < start + |payload| && ByteAt(qs, o).None? then Some(start) else SegAt(ss, o))
  {
    hide Apart, ByteAt, SegAt, Cat, InNew, Spells, Around, Tiled, FillLen;
    var l, m, r := qs[..lo], qs[lo..hi], qs[hi..];
    HitsAround(qs, lo, hi, start, start + |payload|);
    forall o: nat ensures InNew(fill, o) <==> start <= o < start + |payload| && ByteAt(qs, o).None? {
      NewIsUncovered(l, m, r, start, payload, o);
    }
  }

  lemma CoalesceBytes(l: seq<Piece>, m: seq<Piece>, r: seq<Piece>, start: nat, payload: seq<byte>, merged: Piece)
    requires Around(l, m, r, start, start + |payload|)
    requires merged.start == UnionStart(m, start) && merged.End() == UnionEnd(m, start + |payload|)
    requires Spells(m, start, payload, merged.start, merged.data)
    ensures forall o: nat :: ByteAt(l + [merged] + r, o) == WantAt(l + m + r, start, payload, o)
  {
    forall o: nat ensures ByteAt(l + [merged] + r, o) == WantAt(l + m + r, start, payload, o) {
      CoalesceAt(l, m, r, start, payload, merged, o);
    }
  }

  lemma WritesKeep(ps: seq<Piece>, qs: seq<Piece>, lo: nat, hi: nat, start: nat, end: nat)
    requires SameShape(ps, qs) && Hits(ps, lo, hi, start, end)
    ensures SumLen(qs) == SumLen(ps) && SumCap(qs) == SumCap(ps) && Hits(qs, lo, hi, start, end)
  {
    ShapeKeeps(ps, qs);
    forall i | 0 <= i < |ps| ensures qs[i].start == ps[i].start && qs[i].End() == ps[i].End() {
    }
  }

  lemma FlagsMean(ps: seq<Piece>, held: Held, start: nat, payload: seq<byte>, m: bool, met: nat, c: bool, clash: nat)
    requires Matches(ps, held)
    requires MetBelow(ps, start, start + |payload|, start + |payload|, m, met)
    requires ClashBelow(ps, start, payload, start + |payload|, c, clash)
    ensures m <==> Overlaps(held, start, payload)
    ensures c <==> Diverges(held, start, payload)
  {
    if m { assert met in held; }
    if c { assert clash in held; }
    if o :| o in held && start <= o < start + |payload| { assert ByteAt(ps, o).Some?; }
    if o :| o in held && start <= o < start + |payload| && held[o].b != payload[o - start] { assert Clash(ps, start, payload, o); }
  }

  lemma AbsorbMeans(policy: OverlapPolicy, held: Held, ps: seq<Piece>, rs: seq<Run>, start: nat, payload: seq<byte>,
                    ws: seq<(nat, nat)>, qs: seq<Piece>, ss: seq<Run>, ps': seq<Piece>, ts: seq<Run>)
    requires Matches(ps, held) && (if SeqPolicy(policy) then RunsMatch(rs, held) else rs == [])
    requires WonBelow(ps, rs, policy, start, start + |payload|, start + |payload|, ws)
    requires forall o: nat :: ByteAt(qs, o) == if InRanges(ws, o) then PayloadAt(start, payload, o) else ByteAt(ps, o)
    requires SeqPolicy(policy) ==> forall o: nat :: SegAt(ss, o) == if InRanges(ws, o) then Some(start) else SegAt(rs, o)
    requires forall o: nat :: ByteAt(ps', o) == WantAt(qs, start, payload, o)
    requires SeqPolicy(policy) ==> forall o: nat ::
               (SegAt(ts, o) == if start <= o < start + |payload| && ByteAt(qs, o).None? then Some(start) else SegAt(ss, o))
    ensures Matches(ps', AbsorbHeld(policy, held, start, payload))
    ensures SeqPolicy(policy) ==> RunsMatch(ts, AbsorbHeld(policy, held, start, payload))
  {
    var h := AbsorbHeld(policy, held, start, payload);
    forall o: nat
      ensures ByteAt(ps', o) == if o in h then Some(h[o].b) else None
      ensures SeqPolicy(policy) ==> SegAt(ts, o) == if o in h then Some(h[o].seg) else None
    {
      AbsorbAt(policy, held, rs, start, payload, o, InRanges(ws, o));
    }
  }
}

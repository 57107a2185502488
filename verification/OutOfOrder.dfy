/**
 `Ooo` and `absorb` (src/segment_reassembler.rs): coalescing pieces and split
 provenance runs, against the per-byte map they implement.
 */
module OutOfOrder {
  import opened Types
  import opened Seqs
  import opened Provenance
  import opened Pieces

  const PIECE_OVERHEAD: nat := 64
  const RUN_OVERHEAD: nat := 32

  /** A held byte and the start of the segment that supplied it. */
  datatype Src = Src(b: byte, seg: nat)

  /** The out-of-order store, seen one byte at a time. */
  type Held = map<nat, Src>

  /** Whether the policy prefers the segment at `seg` to the one at `existing`. */
  predicate NewWins(policy: OverlapPolicy, seg: nat, existing: Option<nat>) {
    match policy
    case Last => true
    case LowerSeq => existing.Some? && seg < existing.value
    case HigherSeq => existing.Some? && seg > existing.value
    case First => false
  }

  predicate SeqPolicy(policy: OverlapPolicy) { policy.LowerSeq? || policy.HigherSeq? }

  /** The offsets `[start, start + n)`. */
  ghost function Span(start: nat, n: nat): (r: set<nat>)
    ensures forall o: nat :: o in r <==> start <= o < start + n
    ensures |r| == n
  {
    if n == 0 then {} else Span(start, n - 1) + {start + n - 1}
  }

  /** Who holds offset `o` after a segment arrives. */
  ghost function AbsorbCell(policy: OverlapPolicy, held: Held, start: nat, payload: seq<byte>, o: nat): Src
    requires o in held || start <= o < start + |payload|
  {
    if o in held && !(start <= o < start + |payload| && NewWins(policy, start, Some(held[o].seg)))
    then held[o]
    else Src(payload[o - start], start)
  }

  /**
   What absorbing a segment means: an uncovered offset takes the new byte, a
   covered one changes hands exactly when the policy prefers the new segment
   to the one that really supplied it.
   */
  ghost function AbsorbHeld(policy: OverlapPolicy, held: Held, start: nat, payload: seq<byte>): Held {
    map o: nat | o in held.Keys + Span(start, |payload|) :: AbsorbCell(policy, held, start, payload, o)
  }

  /** The segment meets something already held. */
  ghost predicate Overlaps(held: Held, start: nat, payload: seq<byte>) {
    exists o :: o in held && start <= o < start + |payload|
  }

  /** It meets something held with different content. */
  ghost predicate Diverges(held: Held, start: nat, payload: seq<byte>) {
    exists o :: o in held && start <= o < start + |payload| && held[o].b != payload[o - start]
  }

  // ----- which offsets the new segment wins

  /** Membership in a list of half-open ranges. */
  predicate InRanges(ws: seq<(nat, nat)>, o: nat) {
    |ws| > 0 && (ws[|ws| - 1].0 <= o < ws[|ws| - 1].1 || InRanges(ws[..|ws| - 1], o))
  }

  lemma InRangesSnoc(ws: seq<(nat, nat)>, w: (nat, nat), o: nat)
    ensures InRanges(ws + [w], o) <==> w.0 <= o < w.1 || InRanges(ws, o)
  {
    assert (ws + [w])[..|ws|] == ws;
  }

  lemma {:induction false} InRangesConcat(a: seq<(nat, nat)>, b: seq<(nat, nat)>, o: nat)
    ensures InRanges(a + b, o) <==> InRanges(a, o) || InRanges(b, o)
    decreases |b|
  {
    if b == [] {
      assert a + b == a;
    } else {
      assert a + b == a + b[..|b| - 1] + [b[|b| - 1]];
      InRangesSnoc(a + b[..|b| - 1], b[|b| - 1], o);
      InRangesConcat(a, b[..|b| - 1], o);
    }
  }

  /** The policy's answer at `o`, from the runs (which only the sequence policies keep). */
  predicate WinsAt(rs: seq<Run>, policy: OverlapPolicy, start: nat, o: nat) {
    NewWins(policy, start, if SeqPolicy(policy) then SegAt(rs, o) else None)
  }

  /** Every range is non-empty and inside `[lo, hi)`. */
  ghost predicate RangesIn(ws: seq<(nat, nat)>, lo: nat, hi: nat) {
    forall k :: 0 <= k < |ws| ==> lo <= ws[k].0 < ws[k].1 <= hi
  }

  /** The inner loop of `absorb`: walk one overlap run by run. */
  method WonRanges(rs: seq<Run>, policy: OverlapPolicy, start: nat, lo: nat, hi: nat) returns (ws: seq<(nat, nat)>)
    requires Tiled(rs) && lo < hi
    ensures forall o: nat :: InRanges(ws, o) <==> lo <= o < hi && WinsAt(rs, policy, start, o)
    ensures RangesIn(ws, lo, hi)
  {
    ws := [];
    var at := lo;
    while at < hi
      invariant lo <= at <= hi
      invariant forall o: nat :: InRanges(ws, o) <==> lo <= o < at && WinsAt(rs, policy, start, o)
      invariant RangesIn(ws, lo, hi)
    {
      var runEnd, existing := hi, None;
      if SeqPolicy(policy) {
        var e := RunEnd(rs, at);
        runEnd := Min(e, hi);
        existing := SegOf(rs, at);
      }
      assert forall o: nat :: at <= o < runEnd ==> WinsAt(rs, policy, start, o) == NewWins(policy, start, existing);
      if NewWins(policy, start, existing) {
        forall o: nat ensures InRanges(ws + [(at, runEnd)], o) <==> at <= o < runEnd || InRanges(ws, o) {
          InRangesSnoc(ws, (at, runEnd), o);
        }
        ws := ws + [(at, runEnd)];
      }
      at := runEnd;
    }
  }

  // ----- finding and resolving overlaps

  /** Pieces `[lo, hi)` are exactly those overlapping or touching `[start, end]`. */
  ghost predicate Hits(ps: seq<Piece>, lo: nat, hi: nat, start: nat, end: nat) {
    && lo <= hi <= |ps|
    && (lo > 0 ==> ps[lo - 1].End() < start)
    && (hi < |ps| ==> ps[hi].start > end)
    && (forall i :: lo <= i < hi ==> ps[i].End() >= start && ps[i].start <= end)
  }

  method FindHits(ps: seq<Piece>, start: nat, end: nat) returns (lo: nat, hi: nat)
    requires Apart(ps) && start <= end
    ensures Hits(ps, lo, hi, start, end)
  {
    hi := |ps|;
    while hi > 0 && ps[hi - 1].start > end
      invariant hi <= |ps|
      invariant hi < |ps| ==> ps[hi].start > end
    {
      hi := hi - 1;
    }
    lo := hi;
    while lo > 0 && ps[lo - 1].End() >= start
      invariant lo <= hi
      invariant forall i :: lo <= i < hi ==> ps[i].End() >= start && ps[i].start <= end
    {
      lo := lo - 1;
      ApartOrder(ps, lo, hi - 1);
    }
  }

  /** Each range lies inside one piece. */
  ghost predicate Inside(ps: seq<Piece>, w: (nat, nat)) {
    exists i :: 0 <= i < |ps| && ps[i].start <= w.0 < w.1 <= ps[i].End()
  }

  /** The segment meets something held below `bound` (at `at`), or nothing. */
  ghost predicate MetBelow(ps: seq<Piece>, start: nat, end: nat, bound: nat, met: bool, at: nat) {
    if met then start <= at < end && ByteAt(ps, at).Some?
    else forall o: nat :: start <= o < end && o < bound ==> ByteAt(ps, o).None?
  }

  ghost predicate Clash(ps: seq<Piece>, start: nat, payload: seq<byte>, o: nat) {
    start <= o < start + |payload| && ByteAt(ps, o).Some? && ByteAt(ps, o).value != payload[o - start]
  }

  /** It meets different content below `bound` (at `at`), or nowhere. */
  ghost predicate ClashBelow(ps: seq<Piece>, start: nat, payload: seq<byte>, bound: nat, clash: bool, at: nat) {
    if clash then Clash(ps, start, payload, at)
    else forall o: nat :: o < bound ==> !Clash(ps, start, payload, o)
  }

  /** The ranges won so far are exactly the won offsets below `bound`. */
  ghost predicate WonBelow(ps: seq<Piece>, rs: seq<Run>, policy: OverlapPolicy, start: nat, end: nat, bound: nat, ws: seq<(nat, nat)>) {
    forall o: nat :: InRanges(ws, o) <==>
      start <= o < end && o < bound && ByteAt(ps, o).Some? && WinsAt(rs, policy, start, o)
  }

  ghost predicate AllInside(ps: seq<Piece>, ws: seq<(nat, nat)>) {
    forall k :: 0 <= k < |ws| ==> Inside(ps, ws[k])
  }

  /** Offsets below this belong to the first `i` pieces. */
  ghost function Reach(ps: seq<Piece>, i: nat): nat
    requires i <= |ps|
  {
    if i == 0 then 0 else ps[i - 1].End()
  }

  /** The overlap loop of `absorb`. */
  method Resolve(ps: seq<Piece>, rs: seq<Run>, policy: OverlapPolicy, start: nat, payload: seq<byte>, lo: nat, hi: nat)
    returns (ws: seq<(nat, nat)>, divergent: bool, overlapped: bool, ghost met: nat, ghost clash: nat)
    requires Apart(ps) && Tiled(rs) && Hits(ps, lo, hi, start, start + |payload|)
    ensures WonBelow(ps, rs, policy, start, start + |payload|, start + |payload|, ws)
    ensures AllInside(ps, ws) && RangesIn(ws, start, start + |payload|)
    ensures MetBelow(ps, start, start + |payload|, start + |payload|, overlapped, met)
    ensures ClashBelow(ps, start, payload, start + |payload|, divergent, clash)
  {
    var end := start + |payload|;
    ws, divergent, overlapped := [], false, false;
    met, clash := 0, 0;
    ResolveStart(ps, rs, policy, start, payload, Reach(ps, lo));
    hide Apart, Tiled, ByteAt, SegAt, WonBelow, MetBelow, ClashBelow, AllInside, WinsAt, InRanges, Inside, Clash, Agree;
    for i := lo to hi
      invariant WonBelow(ps, rs, policy, start, end, Reach(ps, i), ws) && AllInside(ps, ws) && RangesIn(ws, start, end)
      invariant MetBelow(ps, start, end, Reach(ps, i), overlapped, met)
      invariant ClashBelow(ps, start, payload, Reach(ps, i), divergent, clash)
    {
      var p := ps[i];
      var oStart, oEnd := Max(start, p.start), Min(end, p.End());
      if oStart >= oEnd {
        WonSkip(ps, i, rs, policy, start, end, ws);
        FlagsSkip(ps, i, start, payload, overlapped, met, divergent, clash);
      } else {
        ghost var at;
        var same;
        same, at := Compare(p, start, payload, oStart, oEnd);
        var won := WonRanges(rs, policy, start, oStart, oEnd);
        WonStep(ps, i, rs, policy, start, end, ws, won);
        met, clash := FlagsStep(ps, i, start, payload, divergent, clash, same, at);
        overlapped := true;
        if !divergent && !same {
          divergent := true;
        }
        ws := ws + won;
      }
    }
    WonEnd(ps, hi, rs, policy, start, end, ws);
    FlagsEnd(ps, hi, start, payload, overlapped, met, divergent, clash);
  }

  lemma ResolveStart(ps: seq<Piece>, rs: seq<Run>, policy: OverlapPolicy, start: nat, payload: seq<byte>, bound: nat)
    requires bound <= start
    ensures WonBelow(ps, rs, policy, start, start + |payload|, bound, []) && AllInside(ps, [])
    ensures MetBelow(ps, start, start + |payload|, bound, false, 0) && ClashBelow(ps, start, payload, bound, false, 0)
  {
  }

  lemma WonSkip(ps: seq<Piece>, i: nat, rs: seq<Run>, policy: OverlapPolicy, start: nat, end: nat, ws: seq<(nat, nat)>)
    requires Apart(ps) && i < |ps| && Max(start, ps[i].start) >= Min(end, ps[i].End())
    requires WonBelow(ps, rs, policy, start, end, Reach(ps, i), ws)
    ensures WonBelow(ps, rs, policy, start, end, Reach(ps, i + 1), ws)
  {
    if i > 0 { ApartOrder(ps, i - 1, i); }
    forall o: nat | Reach(ps, i) <= o < ps[i].End() && start <= o < end ensures ByteAt(ps, o).None? {
      PieceBytes(ps, i, o);
    }
  }

  lemma FlagsSkip(ps: seq<Piece>, i: nat, start: nat, payload: seq<byte>, m: bool, met: nat, c: bool, clash: nat)
    requires Apart(ps) && i < |ps| && Max(start, ps[i].start) >= Min(start + |payload|, ps[i].End())
    requires MetBelow(ps, start, start + |payload|, Reach(ps, i), m, met)
    requires ClashBelow(ps, start, payload, Reach(ps, i), c, clash)
    ensures MetBelow(ps, start, start + |payload|, Reach(ps, i + 1), m, met)
    ensures ClashBelow(ps, start, payload, Reach(ps, i + 1), c, clash)
  {
    forall o: nat | Reach(ps, i) <= o < ps[i].End() && start <= o < start + |payload| ensures ByteAt(ps, o).None? {
      PieceBytes(ps, i, o);
    }
  }

  lemma WonStep(ps: seq<Piece>, i: nat, rs: seq<Run>, policy: OverlapPolicy, start: nat, end: nat, ws: seq<(nat, nat)>, won: seq<(nat, nat)>)
    requires Apart(ps) && i < |ps| && AllInside(ps, ws)
    requires WonBelow(ps, rs, policy, start, end, Reach(ps, i), ws)
    requires forall o: nat :: InRanges(won, o) <==> Max(start, ps[i].start) <= o < Min(end, ps[i].End()) && WinsAt(rs, policy, start, o)
    requires RangesIn(won, Max(start, ps[i].start), Min(end, ps[i].End()))
    ensures WonBelow(ps, rs, policy, start, end, Reach(ps, i + 1), ws + won) && AllInside(ps, ws + won)
  {
    if i > 0 { ApartOrder(ps, i - 1, i); }
    forall o: nat ensures InRanges(ws + won, o) <==>
      start <= o < end && o < ps[i].End() && ByteAt(ps, o).Some? && WinsAt(rs, policy, start, o)
    {
      InRangesConcat(ws, won, o);
      if Reach(ps, i) <= o < ps[i].End() { PieceBytes(ps, i, o); }
    }
    forall k | 0 <= k < |ws + won| ensures Inside(ps, (ws + won)[k]) {
      if k >= |ws| { assert (ws + won)[k] == won[k - |ws|]; }
    }
  }

  /** Where both have a byte for `o`, it is the same one. */
  ghost predicate Agree(p: Piece, start: nat, payload: seq<byte>, o: nat) {
    p.start <= o < p.End() && start <= o < start + |payload| ==> p.data[o - p.start] == payload[o - start]
  }

  /** Compare the overlap `[lo, hi)` of a piece and the segment. */
  method Compare(p: Piece, start: nat, payload: seq<byte>, lo: nat, hi: nat) returns (same: bool, ghost at: nat)
    requires lo == Max(start, p.start) < hi == Min(start + |payload|, p.End())
    ensures if same then forall o: nat :: Agree(p, start, payload, o) else !Agree(p, start, payload, at)
  {
    at := 0;
    same := p.data[lo - p.start..hi - p.start] == payload[lo - start..hi - start];
    if same {
      AgreeAll(p, start, payload, lo, hi);
    } else {
      at := Disagree(p, start, payload, lo, hi);
    }
  }

  lemma AgreeAll(p: Piece, start: nat, payload: seq<byte>, lo: nat, hi: nat)
    requires lo == Max(start, p.start) < hi == Min(start + |payload|, p.End())
    requires p.data[lo - p.start..hi - p.start] == payload[lo - start..hi - start]
    ensures forall o: nat :: Agree(p, start, payload, o)
  {
    forall o: nat ensures Agree(p, start, payload, o) {
      if lo <= o < hi { SlicesAgree(p.data, lo - p.start, payload, lo - start, hi - lo, o - lo); }
    }
  }

  lemma Disagree(p: Piece, start: nat, payload: seq<byte>, lo: nat, hi: nat) returns (at: nat)
    requires lo == Max(start, p.start) < hi == Min(start + |payload|, p.End())
    requires p.data[lo - p.start..hi - p.start] != payload[lo - start..hi - start]
    ensures !Agree(p, start, payload, at)
  {
    var k := SlicesDiffer(p.data, lo - p.start, payload, lo - start, hi - lo);
    at := lo + k;
  }

  lemma FlagsStep(ps: seq<Piece>, i: nat, start: nat, payload: seq<byte>, c: bool, clash: nat, same: bool, at: nat)
    returns (met: nat, clash': nat)
    requires Apart(ps) && i < |ps| && Max(start, ps[i].start) < Min(start + |payload|, ps[i].End())
    requires ClashBelow(ps, start, payload, Reach(ps, i), c, clash)
    requires if same then forall o: nat :: Agree(ps[i], start, payload, o) else !Agree(ps[i], start, payload, at)
    ensures MetBelow(ps, start, start + |payload|, Reach(ps, i + 1), true, met)
    ensures ClashBelow(ps, start, payload, Reach(ps, i + 1), c || !same, clash')
  {
    met, clash' := Max(start, ps[i].start), clash;
    ByteAtIndex(ps, i, met);
    if !c && !same {
      clash' := at;
      ByteAtIndex(ps, i, at);
    } else if !c {
      forall o: nat | Reach(ps, i) <= o < ps[i].End() ensures !Clash(ps, start, payload, o) {
        PieceBytes(ps, i, o);
        assert Agree(ps[i], start, payload, o);
      }
    }
  }

  lemma WonEnd(ps: seq<Piece>, hi: nat, rs: seq<Run>, policy: OverlapPolicy, start: nat, end: nat, ws: seq<(nat, nat)>)
    requires Apart(ps) && hi <= |ps| && (hi < |ps| ==> ps[hi].start > end)
    requires WonBelow(ps, rs, policy, start, end, Reach(ps, hi), ws)
    ensures WonBelow(ps, rs, policy, start, end, end, ws)
  {
    forall o: nat | Reach(ps, hi) <= o < end ensures ByteAt(ps, o).None? {
      GapBytes(ps, hi, o);
    }
  }

  lemma FlagsEnd(ps: seq<Piece>, hi: nat, start: nat, payload: seq<byte>, m: bool, met: nat, c: bool, clash: nat)
    requires Apart(ps) && hi <= |ps| && (hi < |ps| ==> ps[hi].start > start + |payload|)
    requires MetBelow(ps, start, start + |payload|, Reach(ps, hi), m, met)
    requires ClashBelow(ps, start, payload, Reach(ps, hi), c, clash)
    ensures MetBelow(ps, start, start + |payload|, start + |payload|, m, met)
    ensures ClashBelow(ps, start, payload, start + |payload|, c, clash)
  {
    forall o: nat | Reach(ps, hi) <= o < start + |payload| ensures ByteAt(ps, o).None? {
      GapBytes(ps, hi, o);
    }
  }
}

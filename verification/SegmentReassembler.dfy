/** `SegmentBufferReassembler` (src/segment_reassembler.rs), updated in place and proved against `SegmentSpec`. */
module SegmentReassembler {
  import opened Types
  import opened Cells
  import opened Chunks
  import opened Tracking
  import opened OutOfOrder
  import opened Pieces
  import opened Provenance
  import opened Store
  import opened SinkSpec
  import opened SinkWindow
  import opened Weights
  import S = SegmentSpec

  /** Delivering, step by step. */
  lemma DeliverIs(cfg: Config, s: S.Stream, ts: Time)
    requires S.Ahead(s) && s.k.track.next in s.held
    ensures var e := StretchEnd(s.held, s.k.track.next);
            var k := Append(cfg, Advance(s.k, e, ts), BytesOf(s.held, s.k.track.next, e), |From(s.held, e)|);
            S.Deliver(cfg, s, ts) == S.Stream(k, if k.stop.Some? then map[] else From(s.held, e), 0)
  {
  }

  class SegmentBufferReassembler {
    const cfg: Config
    const ready: StreamChunks
    const track: Track
    /** Null while no byte is held. */
    var ooo: Ooo?
    var c: Counters
    var above: bool
    var stop: Option<Stop>

    constructor (cfg: Config)
      ensures Ok() && this.cfg == cfg && Abs() == S.Fresh() && fresh(ready) && fresh(track)
    {
      this.cfg := cfg;
      ready := new StreamChunks();
      track := new Track();
      ooo, c, above, stop := null, ZeroCounters(), false, None;
    }

    /** The representation is well formed. */
    ghost predicate Ok()
      reads this, ready, track, ooo
    {
      && ready.Valid() && ready.stop == None && track.Valid()
      && (ooo != null ==> ooo.Valid(SeqPolicy(cfg.overlap)) && ooo.pieces != [])
    }

    /** The value it stands for. */
    ghost function Abs(): S.Stream
      requires Ok()
      reads this, ready, track, ooo
    {
      S.Stream(Sink(track.View(), ready.Cells(), stop, c, above),
               if ooo == null then map[] else ooo.held,
               if ooo == null then 0 else ooo.arrivals)
    }

    /** Ready bytes, and what is charged for those held past the position. */
    ghost function Load(): nat
      requires Ok()
      reads this, ready, track, ooo
    {
      DataLen(Abs().k.ready) + if ooo == null then 0 else ooo.Charged()
    }

    /** `current_bytes`, with `size` for a candidate's own record. */
    ghost function CurrentBytes(size: nat): nat
      requires Ok()
      reads this, ready, track, ooo
    {
      Load() + Kept(size, track.oow)
    }

    /** How many offsets are held past the position. */
    method HeldBytes() returns (n: nat)
      requires Ok()
      ensures n == |Abs().held|
    {
      if ooo == null {
        n := 0;
      } else {
        HeldSize(ooo.pieces, ooo.held);
        n := ooo.bytes;
      }
    }

    method UpdateWatermark()
      requires Ok()
      modifies this`c, this`above
      ensures Ok() && Abs() == S.Marked(cfg, old(Abs()))
    {
      hide Meaning, Normal, Ring, Matches, RunsMatch, Apart, SumLen, SumCap, Tiled, Lowest, DataLen;
      var held := HeldBytes();
      var len := ready.Len();
      if len + held > c.peak {
        c := c.(peak := len + held);
      }
      if cfg.pct.Some? && cfg.maxBuffer.Some? {
        var trigger := cfg.maxBuffer.value * cfg.pct.value / 100;
        if len >= trigger {
          if !above {
            above := true;
            c := c.(crossings := c.crossings + 1);
          }
        } else {
          above := false;
        }
      }
    }

    /** The sliding window: drop the oldest bytes so that `bytes` fit (or their own head). */
    method Slide(bytes: seq<byte>, cap: nat)
      requires Ok() && DataLen(ready.Cells()) + |bytes| > cap
      modifies this`c, ready
      ensures Ok()
      ensures var over := DataLen(old(ready.Cells())) + |bytes| - cap;
              && ready.Cells() == MaskFirst(old(ready.Cells()) + DataCells(bytes), over)
              && c == old(c).(oversize := old(c).oversize + over)
    {
      hide Meaning, Normal, Strict, Ordered, Matches, RunsMatch, Apart, SumLen, SumCap, Tiled;
      var len := ready.Len();
      ghost var cells := ready.Cells();
      var n := Min(len + |bytes| - cap, len);
      c := c.(oversize := c.oversize + n);
      ready.DropFront(n);
      if |bytes| > cap {
        var extra := |bytes| - cap;
        c := c.(oversize := c.oversize + extra);
        ready.PushGap(extra);
        ready.PushData(bytes[extra..]);
        TrimLong(cells, bytes, cap);
      } else {
        ready.PushData(bytes);
        MaskConcat(cells, DataCells(bytes), n);
      }
    }

    /** Append in-order bytes under the ready-buffer cap. */
    method AppendReady(bytes: seq<byte>)
      requires Ok()
      modifies this, ready, track
      ensures Ok() && (ooo == old(ooo) || ooo == null)
      ensures var s := old(Abs());
              var k := Append(cfg, s.k, bytes, |s.held|);
              Abs() == if s.k.stop.None? && k.stop.Some? then S.Stream(k, map[], 0) else s.(k := k)
    {
      hide Meaning, Normal, Strict, Ordered, Ring, Matches, RunsMatch, Apart, SumLen, SumCap, MaskFirst, DataLen, DataCells, Watermark;
      if stop.Some? || bytes == [] {
        return;
      }
      var len := ready.Len();
      if cfg.maxBuffer.Some? && len + |bytes| > cfg.maxBuffer.value {
        match cfg.overflow
        case SlidingWindow =>
          Slide(bytes, cfg.maxBuffer.value);
          UpdateWatermark();
        case DropFlow =>
          c := c.(oversize := c.oversize + |bytes|);
          stop := Some(Overflow);
          ooo := null;
          track.oow := None;
      } else {
        ready.PushData(bytes);
        UpdateWatermark();
      }
    }

    /** The stream moves to `to`; offsets passed over read as missing. */
    method SkipToOff(to: nat, ts: Time)
      requires Ok()
      modifies this`c, ready, track
      ensures Ok() && Abs() == old(Abs()).(k := SkipTo(old(Abs()).k, to, ts))
    {
      hide Meaning, Normal, Ring, Matches, RunsMatch, Apart, SumLen, SumCap;
      var from := track.nextOff;
      if to <= from {
        return;
      }
      var missing := to - from;
      c := c.(gaps := c.gaps + 1, gapBytes := c.gapBytes + missing);
      track.DoRecordSkip(from, to);
      ready.PushGap(missing);
      track.DoAdvanceTo(to, ts);
    }
  
    /** `AppendReady` on an owned buffer: same output, same counters. */
    method AppendReadyOwned(bytes: seq<byte>)
      requires Ok() && bytes != []
      modifies this, ready, track
      ensures Ok() && (ooo == old(ooo) || ooo == null)
      ensures var s := old(Abs());
              var k := Append(cfg, s.k, bytes, |s.held|);
              Abs() == if s.k.stop.None? && k.stop.Some? then S.Stream(k, map[], 0) else s.(k := k)
    {
      hide Meaning, Normal, Ring, Matches, RunsMatch, Apart, SumLen, SumCap, DataLen, DataCells, Watermark;
      var len := ready.Len();
      var fits := cfg.maxBuffer.None? || len + |bytes| <= cfg.maxBuffer.value;
      if fits && stop.None? && ready.bytes == [] {
        ready.PushOwned(bytes);
        UpdateWatermark();
      } else {
        AppendReady(bytes);
      }
    }

    /** Take the first held stretch out, freeing the out-of-order state when it is empty. */
    method PopFirst() returns (p: Piece)
      requires Ok() && ooo != null
      modifies this`ooo, ooo
      ensures Ok() && (ooo != null ==> ooo == old(ooo) && ooo.Charged() <= old(ooo.Charged()))
      ensures Load() + |p.data| <= old(Load())
      ensures var h := old(Abs()).held;
              && h != map[] && p.start == Lowest(h) && p.End() == StretchEnd(h, p.start)
              && p.data != [] && p.data == BytesOf(h, p.start, p.End())
              && Abs() == old(Abs()).(held := From(h, p.End()), arrivals := 0)
    {
      hide Meaning, Normal, Ring, Matches, RunsMatch, Apart, SumLen, SumCap, DataLen;
      p := ooo.TakeFirst(SeqPolicy(cfg.overlap));
      if ooo.pieces == [] {
        NoPieces(ooo.held);
        ooo := null;
      }
    }

    /** The first held stretch comes out when it starts at the position. */
    method DeliverFirst(ts: Time) returns (r: bool)
      requires Ok() && S.Ahead(Abs())
      modifies this, ready, track, ooo
      ensures Ok() && (ooo != null ==> ooo == old(ooo) && ooo.Charged() <= old(ooo.Charged()))
      ensures Abs() == S.Deliver(cfg, old(Abs()), ts)
      ensures r <==> old(track.nextOff) in old(Abs()).held
      ensures Load() <= old(Load())
    {
      hide Meaning, Normal, Ring, Matches, RunsMatch, Apart, SumLen, SumCap, Append, Tiled, Lowest, From, BytesOf, AdvanceTo, DataLen;
      var next := track.nextOff;
      if ooo == null {
        return false;
      }
      FirstPiece(ooo.pieces, ooo.held);
      if ooo.pieces[0].start > next {
        return false;
      }
      ghost var s0 := Abs();
      var p := PopFirst();
      assert p.start == next;
      ghost var s1 := Abs();
      if p.End() > next {
        var data := p.data[next - p.start..];
        assert data == p.data;
        track.DoAdvanceTo(p.End(), ts);
        ghost var s2 := Abs();
        assert s2 == s1.(k := Advance(s1.k, p.End(), ts));
        AppendReadyOwned(data);
        DeliverIs(cfg, s0, ts);
        DeliverWeight(cfg, s0, ts);
      }
      return true;
    }
  
    /** The first held stretch comes out with a gap before it. */
    method SkipToFirst(ts: Time)
      requires Ok() && S.Ahead(Abs())
      modifies this, ready, track, ooo
      ensures Ok() && (ooo != null ==> ooo == old(ooo) && ooo.Charged() <= old(ooo.Charged()))
      ensures Abs() == S.SkipFirst(cfg, old(Abs()), ts) && Load() <= old(Load())
    {
      hide Meaning, Normal, Ring, Matches, RunsMatch, Apart, SumLen, SumCap, Tiled, Lowest, SkipTo, S.Deliver, DataLen;
      if ooo == null {
        return;
      }
      FirstPiece(ooo.pieces, ooo.held);
      SkipWeight(Abs().k, ooo.pieces[0].start, ts);
      SkipToOff(ooo.pieces[0].start, ts);
      var _ := DeliverFirst(ts);
    }

    /** Everything held comes out in offset order, gaps between. */
    method FlushOoo(ts: Time)
      requires Ok() && S.Ahead(Abs())
      modifies this, ready, track, ooo
      ensures Ok() && (ooo != null ==> ooo == old(ooo) && ooo.Charged() <= old(ooo.Charged()))
      ensures Abs() == S.Flush(cfg, old(Abs()), ts) && Load() <= old(Load())
    {
      hide Meaning, Normal, Ring, Matches, RunsMatch, Apart, SumLen, SumCap, Tiled, Lowest, S.SkipFirst, DataLen;
      ghost var s0 := Abs();
      while stop.None? && ooo != null
        invariant Ok() && S.Ahead(Abs()) && (ooo != null ==> ooo == old(ooo) && ooo.Charged() <= old(ooo.Charged()))
        invariant S.Flush(cfg, Abs(), ts) == S.Flush(cfg, s0, ts) && Load() <= old(Load())
        decreases |Abs().held|
      {
        HoldsSome(ooo.pieces, ooo.held);
        SkipToFirst(ts);
      }
    }

    /** Skip the oldest holes until what is held fits the byte budget. */
    method EnforceOooCap(ts: Time) returns (ghost n: nat)
      requires Ok() && S.Calm(Abs())
      modifies this, ready, track, ooo
      ensures Ok() && (ooo != null ==> ooo == old(ooo) && ooo.Charged() <= old(ooo.Charged()))
      ensures Abs() == S.CapSkips(cfg, old(Abs()), ts, n)
      ensures ooo != null ==> ooo.Charged() <= cfg.budget
      ensures old(ooo != null && ooo.Charged() <= cfg.budget) ==> n == 0
    {
      hide Meaning, Normal, Ring, Matches, RunsMatch, Apart, SumLen, SumCap, Tiled, Lowest, S.SkipFirst;
      ghost var s0 := Abs();
      n := 0;
      assert S.CapSkips(cfg, s0, ts, 0) == s0;
      hide S.CapSkips;
      while stop.None? && ooo != null && ooo.Charged() > cfg.budget
        invariant Ok() && S.Calm(Abs()) && (ooo != null ==> ooo == old(ooo) && ooo.Charged() <= old(ooo.Charged()))
        invariant Abs() == S.CapSkips(cfg, s0, ts, n)
        invariant n > 0 ==> old(ooo != null && ooo.Charged() > cfg.budget)
        decreases |Abs().held|
      {
        HoldsSome(ooo.pieces, ooo.held);
        CapSkipsMore(cfg, s0, ts, n);
        SkipToFirst(ts);
        n := n + 1;
      }
      if ooo != null { HoldsSome(ooo.pieces, ooo.held); }
    }

    /** The lowest held offset, if anything is held. */
    method FirstStart() returns (r: Option<nat>)
      requires Ok()
      ensures r == if Abs().held == map[] then None else Some(Lowest(Abs().held))
    {
      if ooo == null {
        return None;
      }
      FirstPiece(ooo.pieces, ooo.held);
      return Some(ooo.pieces[0].start);
    }

    /** Acknowledged holes, after the grace period. */
    method CheckEvidence(now: Time)
      requires Ok() && S.Calm(Abs()) && stop.None?
      modifies this, ready, track, ooo
      ensures Ok() && (ooo != null ==> ooo == old(ooo) && ooo.Charged() <= old(ooo.Charged()))
      ensures Abs() == S.AckTimer(cfg, old(Abs()), now) && Load() <= old(Load())
    {
      hide Meaning, Normal, Ring, Matches, RunsMatch, Apart, SumLen, SumCap, Tiled, Lowest, SkipTo, S.SkipUpTo, DataLen;
      var due := track.evidenceSince.Some? && track.evidence > track.nextOff
                 && Since(now, track.evidenceSince.value) >= cfg.ackGrace;
      if !due {
        return;
      }
      var frontier := track.evidence;
      var first := FirstStart();
      if first.None? {
        c := c.(ackGaps := c.ackGaps + 1);
        SkipWeight(Abs().k, frontier, now);
        SkipToOff(frontier, now);
      } else if first.value <= frontier {
        c := c.(ackGaps := c.ackGaps + 1);
        SkipHolesUpTo(frontier, now);
      }
    }

    /** Skip every hole that ends at or before `frontier`. */
    method SkipHolesUpTo(frontier: nat, now: Time)
      requires Ok() && S.Calm(Abs()) && stop.None?
      modifies this, ready, track, ooo
      ensures Ok() && (ooo != null ==> ooo == old(ooo) && ooo.Charged() <= old(ooo.Charged()))
      ensures Abs() == S.SkipUpTo(cfg, old(Abs()), now, frontier) && Load() <= old(Load())
    {
      hide Meaning, Normal, Ring, Matches, RunsMatch, Apart, SumLen, SumCap, Tiled, Lowest, S.SkipFirst, DataLen;
      ghost var s0 := Abs();
      var f := FirstStart();
      while f.Some? && f.value <= frontier && stop.None?
        invariant Ok() && S.Calm(Abs()) && (ooo != null ==> ooo == old(ooo) && ooo.Charged() <= old(ooo.Charged()))
        invariant f == if Abs().held == map[] then None else Some(Lowest(Abs().held))
        invariant S.SkipUpTo(cfg, Abs(), now, frontier) == S.SkipUpTo(cfg, s0, now, frontier) && Load() <= old(Load())
        decreases |Abs().held|
      {
        SkipToFirst(now);
        f := FirstStart();
      }
    }

    /** A hole that blocked the stream for too long. */
    method CheckStall(now: Time)
      requires Ok() && S.Calm(Abs())
      modifies this, ready, track, ooo
      ensures Ok() && (ooo != null ==> ooo == old(ooo) && ooo.Charged() <= old(ooo.Charged()))
      ensures Abs() == S.StallTimer(cfg, old(Abs()), now) && Load() <= old(Load())
    {
      hide Meaning, Normal, Ring, Matches, RunsMatch, Apart, SumLen, SumCap, Tiled, Lowest, S.SkipFirst, Split, DataLen;
      if ooo == null {
        return;
      }
      var stalled := Since(now, track.lastProgress);
      FirstPiece(ooo.pieces, ooo.held);
      var first := ooo.pieces[0].start;
      SplitIffTwo(ooo.pieces, ooo.held);
      var corroborated := ooo.arrivals >= 2 || |ooo.pieces| >= 2
                          || (track.evidence > track.nextOff && track.evidence >= first);
      if (corroborated && stalled > cfg.deadline) || stalled > cfg.deadline * 4 {
        SkipToFirst(now);
      }
    }

    /** Deadlines and ACK evidence. */
    method CheckTimers(now: Time)
      requires Ok() && S.Calm(Abs())
      modifies this, ready, track, ooo
      ensures Ok() && (ooo != null ==> ooo == old(ooo) && ooo.Charged() <= old(ooo.Charged()))
      ensures Abs() == S.CheckTimers(cfg, old(Abs()), now) && Load() <= old(Load())
    {
      hide Meaning, Normal, Ring, Matches, RunsMatch, Apart, SumLen, SumCap, Tiled, Lowest, S.AckTimer, S.StallTimer, DataLen;
      if stop.Some? {
        return;
      }
      CheckEvidence(now);
      CheckStall(now);
      track.DoExpireStray(now, cfg.deadline * 4);
    }

    /** The store takes the segment's bytes as its overlap policy says. */
    method Insert(start: nat, data: seq<byte>)
      requires Ok() && S.Ahead(Abs()) && stop.None? && start >= track.nextOff && data != []
      modifies this`ooo, this`c, ooo
      ensures Ok() && ooo != null && (ooo == old(ooo) || fresh(ooo))
      ensures Abs() == S.Absorb(cfg, old(Abs()), start, data)
    {
      hide Meaning, Normal, Ring, Matches, RunsMatch, Apart, SumLen, SumCap, Tiled, Lowest, AbsorbHeld, Overlaps, Diverges;
      if ooo == null {
        ooo := new Ooo();
      }
      ghost var held := ooo.held;
      var divergent, overlapped := ooo.Absorb(cfg.overlap, start, data, cfg.budget);
      SomethingHeld(ooo.pieces, ooo.held, cfg.overlap, held, start, data);
      if divergent {
        c := c.(inconsistencies := c.inconsistencies + 1);
      }
      if overlapped {
        c := c.(retransmits := c.retransmits + 1);
      }
    }

    /** What is held fits the byte budget. */
    ghost predicate Budgeted()
      reads this, ooo
    {
      ooo != null ==> ooo.Charged() <= cfg.budget
    }

    /** What holds between calls. */
    ghost predicate Valid()
      reads this, ready, track, ooo
    {
      Ok() && S.Calm(Abs()) && Budgeted()
    }

    /** A segment that ends at or before the position. */
    method FeedOld(start: int, end: int, ts: Time)
      requires Valid() && start <= end <= track.nextOff
      modifies this, ready, track, ooo
      ensures Valid() && (ooo != null ==> ooo == old(ooo))
      ensures Abs() == S.FeedOld(cfg, old(Abs()), start, end, ts)
    {
      hide Meaning, Normal, Ring, Matches, RunsMatch, Apart, SumLen, SumCap, Tiled, Lowest, S.CheckTimers, InSkipped;
      ghost var s0 := Abs();
      if end < track.nextOff - cfg.maxAhead {
        track.outOfWindow := track.outOfWindow + 1;
      } else {
        var late := false;
        if start >= 0 {
          late := track.IsInSkipped(start, end);
        }
        if late {
          c := c.(dropped := c.dropped + 1);
        } else {
          c := c.(retransmits := c.retransmits + 1);
        }
      }
      assert Abs() == s0.(k := CountOld(cfg, s0.k, start, end));
      CheckTimers(ts);
    }

    /** In order, nothing waiting. */
    method FeedInOrder(data: seq<byte>, ts: Time, pass: bool, skip: nat) returns (r: Outcome)
      requires Valid() && ooo == null && stop.None? && data != []
      modifies this, ready, track
      ensures Valid() && ooo == null
      ensures (Abs(), r) == S.FeedInOrder(cfg, old(Abs()), data, ts, pass, skip)
    {
      hide Meaning, Normal, Ring, Matches, RunsMatch, Apart, SumLen, SumCap, Tiled, Lowest, S.CheckTimers, Append, AdvanceTo, NotePass, DataLen, DataCells;
      track.DoAdvanceTo(track.nextOff + |data|, ts);
      var empty := ready.IsEmpty();
      if pass && empty && (cfg.maxBuffer.None? || |data| <= cfg.maxBuffer.value) {
        NotePassthrough(|data|);
        return Passthrough(skip);
      }
      AppendInOrder(data, ts);
      return Buffered;
    }

    /** The bytes join the output, then the timers are looked at. */
    method AppendInOrder(data: seq<byte>, ts: Time)
      requires Ok() && ooo == null
      modifies this, ready, track
      ensures Valid() && ooo == null
      ensures Abs() == S.CheckTimers(cfg, old(Abs()).(k := Append(cfg, old(Abs()).k, data, 0)), ts)
    {
      hide Meaning, Normal, Ring, Matches, RunsMatch, Apart, SumLen, SumCap, Tiled, Lowest, S.CheckTimers, Append, DataLen, DataCells;
      AppendReady(data);
      CheckTimers(ts);
    }

    /** Let-through bytes raise the high-water mark as if they had been stored. */
    method NotePassthrough(len: nat)
      requires Ok()
      modifies this`c, this`above
      ensures Ok() && Abs() == old(Abs()).(k := NotePass(cfg, old(Abs()).k, len))
    {
      hide Meaning, Normal, Ring, Matches, RunsMatch, Apart, SumLen, SumCap, Tiled, Lowest;
      c := c.(peak := Max(c.peak, len));
      if cfg.pct.Some? && cfg.maxBuffer.Some? && len >= cfg.maxBuffer.value * cfg.pct.value / 100 {
        c := c.(crossings := c.crossings + 1);
      }
      above := false;
    }

    /** Absorb the segment, noting whether a hole opens or is filled. */
    method InsertFilled(start: nat, data: seq<byte>, ts: Time)
      requires Valid() && stop.None? && start >= track.nextOff && data != []
      modifies this, track, ooo
      ensures Ok() && ooo != null && (ooo == old(ooo) || fresh(ooo))
      ensures Abs() == S.Inserted(cfg, old(Abs()), start, data, ts)
    {
      hide Meaning, Normal, Ring, Matches, RunsMatch, Apart, SumLen, SumCap, Tiled, Lowest, S.Absorb;
      ghost var s0 := Abs();
      var next := track.nextOff;
      var blocked := ooo != null;
      if blocked {
        FirstPiece(ooo.pieces, ooo.held);
      } else {
        track.lastProgress := ts;
      }
      ghost var s1 := Abs();
      assert s1 == S.OpenHole(s0, ts);
      Insert(start, data);
      if start == next && blocked {
        c := c.(holesFilled := c.holesFilled + 1);
      }
    }

    /** Ahead of the position, or at it in front of held data. */
    method FeedHole(start: nat, data: seq<byte>, ts: Time) returns (ghost cap: nat)
      requires Valid() && stop.None? && start >= track.nextOff && data != []
      modifies this, ready, track, ooo
      ensures Valid() && (ooo != null ==> ooo == old(ooo) || fresh(ooo))
      ensures Abs() == S.FeedHole(cfg, old(Abs()), start, data, ts, cap)
    {
      hide Meaning, Normal, Ring, Matches, RunsMatch, Apart, SumLen, SumCap, Tiled, Lowest, S.CheckTimers, S.Inserted, S.Deliver, S.CapSkips, S.Marked;
      InsertFilled(start, data, ts);
      DeliverAll(ts);
      cap := EnforceOooCap(ts);
      UpdateWatermark();
      CheckTimers(ts);
    }

    /** `while deliver_first() {}`: pieces are not adjacent, so one delivery is all there is. */
    method DeliverAll(ts: Time)
      requires Ok() && S.Ahead(Abs())
      modifies this, ready, track, ooo
      ensures Ok() && (ooo != null ==> ooo == old(ooo) && ooo.Charged() <= old(ooo.Charged()))
      ensures Abs() == S.Deliver(cfg, old(Abs()), ts)
    {
      hide Meaning, Normal, Ring, Matches, RunsMatch, Apart, SumLen, SumCap, Tiled, Lowest, S.Deliver;
      ghost var s0 := Abs();
      var more := DeliverFirst(ts);
      while more
        invariant Ok() && S.Calm(Abs()) && (ooo != null ==> ooo == old(ooo) && ooo.Charged() <= old(ooo.Charged()))
        invariant Abs() == S.Deliver(cfg, s0, ts)
        decreases more
      {
        DeliverCalm(cfg, Abs(), ts);
        more := DeliverFirst(ts);
      }
    }

    /** A segment at `start`, not too far ahead. */
    method FeedNear(start: int, payload: seq<byte>, ts: Time, pass: bool) returns (r: Outcome, ghost cap: nat)
      requires Valid() && stop.None? && payload != []
      modifies this, ready, track, ooo
      ensures Valid() && (ooo != null ==> ooo == old(ooo) || fresh(ooo))
      ensures (Abs(), r) == S.FeedNear(cfg, old(Abs()), start, payload, ts, pass, cap)
    {
      hide Meaning, Normal, Ring, Matches, RunsMatch, Apart, SumLen, SumCap, Tiled, Lowest, S.FeedOld, S.FeedInOrder, S.FeedHole;
      cap := 0;
      var next, end := track.nextOff, start + |payload|;
      if end <= next {
        FeedOld(start, end, ts);
        return Buffered, 0;
      }
      var skip := 0;
      if start < next {
        // Only offsets past the position are of interest.
        c := c.(retransmits := c.retransmits + 1);
        skip := next - start;
      }
      var data := payload[skip..];
      if ooo != null { HoldsSome(ooo.pieces, ooo.held); }
      if ooo == null && start <= next {
        r := FeedInOrder(data, ts, pass, skip);
        return;
      }
      cap := FeedHole(Max(start, next), data, ts);
      r := Buffered;
    }

    /** The stream continues at a candidate that evidence confirmed. */
    method Resync(cand: Candidate, ts: Time)
      requires Valid() && track.anchored && track.oow.None? && S.Below(Abs(), cand.off + TWO_31)
      modifies this, ready, track, ooo
      ensures Valid() && track.anchored && track.oow.None? && (ooo != null ==> ooo == old(ooo) || fresh(ooo))
      ensures Abs() == S.Resync(cfg, old(Abs()), cand, ts) && Load() <= old(Load()) + |cand.data|
      decreases 0, 1
    {
      hide Meaning, Normal, Ring, Matches, RunsMatch, Apart, SumLen, SumCap, Tiled, Lowest, S.Flush, S.FeedNear, S.Feed, SkipTo, DataLen;
      ghost var s0 := Abs();
      S.FlushBelow(cfg, s0, ts, cand.off + TWO_31);
      FlushOoo(ts);
      ResyncWeight(cfg, s0, cand, ts);
      SkipToOff(cand.off, ts);
      ghost var s2 := Abs();
      var seq_ := track.SeqOf(cand.off);
      var r, cap := Feed(seq_, cand.data, ts, false);
      S.FeedCandidate(cfg, s2, cand, ts, cap);
      if stop.None? {
        SkipToOff(cand.End(), ts);
      }
      if ooo != null { HoldsSome(ooo.pieces, ooo.held); }
    }

    /** One data segment; `pass` asks for in-order bytes to be let through. */
    method Feed(seq_: u32, payload: seq<byte>, ts: Time, pass: bool) returns (r: Outcome, ghost cap: nat)
      requires Valid() && S.FarInWindow(cfg, Abs(), seq_)
      modifies this, ready, track, ooo
      ensures Valid() && (ooo != null ==> ooo == old(ooo) || fresh(ooo))
      ensures (Abs(), r) == S.Feed(cfg, old(Abs()), seq_, payload, ts, pass, cap)
      decreases if track.oow.Some? then 1 else 0, 0
    {
      hide Meaning, Normal, Ring, Matches, RunsMatch, Apart, SumLen, SumCap, Tiled, Lowest, S.FeedNear, S.Resync, S.Feed, OffsetOf, Anchor, DataLen;
      cap := 0;
      if stop.Some? || payload == [] {
        FeedNothing(cfg, Abs(), seq_, payload, ts, pass);
        return Buffered, 0;
      }
      ghost var s0 := Abs();
      track.DoAnchor(seq_, ts);
      ghost var s1 := Abs();
      assert s1 == S.Anchored(s0, seq_, ts);
      S.FirstIsNear(cfg, s0, seq_, ts);
      var start := track.OffOf(seq_);
      if start - track.nextOff > cfg.maxAhead {
        var cand := track.DoFarAhead(start, payload, ts, cfg.maxAhead);
        if cand.Some? {
          assert Abs() == S.Taken(s1);
          Resync(cand.value, ts);
          r, cap := Feed(seq_, payload, ts, false);
          S.FeedCases(cfg, s0, seq_, payload, ts, pass, cap);
          return;
        }
        S.FeedCases(cfg, s0, seq_, payload, ts, pass, 0);
        return Buffered, 0;
      }
      r, cap := FeedNear(start, payload, ts, pass);
      S.FeedCases(cfg, s0, seq_, payload, ts, pass, cap);
    }

    /** Offset 0 is fixed at `seq_`, once. */
    method SetOrigin(seq_: u32)
      requires Valid()
      modifies track
      ensures Valid() && Abs() == S.SetOrigin(old(Abs()), seq_)
      ensures forall size: nat :: CurrentBytes(size) == old(CurrentBytes(size))
    {
      hide Meaning, Normal, Ring, Matches, RunsMatch, Apart, SumLen, SumCap, Tiled, Lowest;
      track.DoAnchor(seq_, 0);
    }

    /** Evidence up to `seq_`: a candidate it confirms takes over, and the timers are looked at. */
    method Reaches(seq_: u32, ts: Time)
      requires Valid() && S.InWindow(Abs())
      modifies this, ready, track, ooo
      ensures Valid() && (ooo != null ==> ooo == old(ooo) || fresh(ooo))
      ensures Abs() == S.MissingAhead(cfg, old(Abs()), seq_, ts)
      ensures forall size: nat :: CurrentBytes(size) <= old(CurrentBytes(size))
    {
      hide Meaning, Normal, Ring, Matches, RunsMatch, Apart, SumLen, SumCap, Tiled, Lowest, S.Resync, S.CheckTimers, Evidence, DataLen;
      ghost var s0 := Abs();
      EvidenceKeeps(s0.k.track, seq_, ts, cfg.maxAhead);
      var cand := track.DoEvidence(seq_, ts, cfg.maxAhead);
      if cand.Some? {
        Resync(cand.value, ts);
      }
      CheckTimers(ts);
    }

    /** An acknowledgement is evidence for the byte before `ack`. */
    method PeerAck(ack: u32, ts: Time)
      requires Valid() && S.InWindow(Abs())
      modifies this, ready, track, ooo
      ensures Valid() && (ooo != null ==> ooo == old(ooo) || fresh(ooo))
      ensures Abs() == S.PeerAck(cfg, old(Abs()), ack, ts)
      ensures forall size: nat :: CurrentBytes(size) <= old(CurrentBytes(size))
    {
      hide Meaning, Normal, Ring, Matches, RunsMatch, Apart, SumLen, SumCap, Tiled, Lowest, S.WithEvidence, S.CheckTimers, Evidence;
      if stop.Some? {
        return;
      }
      Reaches((ack - 1) % TWO_32, ts);
    }

    /** A FIN is evidence for every byte before `end`. */
    method FinSeen(end: u32, ts: Time)
      requires Valid() && S.InWindow(Abs())
      modifies this, ready, track, ooo
      ensures Valid() && (ooo != null ==> ooo == old(ooo) || fresh(ooo))
      ensures Abs() == S.FinSeen(cfg, old(Abs()), end, ts)
      ensures forall size: nat :: CurrentBytes(size) <= old(CurrentBytes(size))
    {
      hide Meaning, Normal, Ring, Matches, RunsMatch, Apart, SumLen, SumCap, Tiled, Lowest, S.Resync, Fin, DataLen;
      if stop.Some? {
        return;
      }
      ghost var s0 := Abs();
      EvidenceKeeps(s0.k.track, end, ts, cfg.maxAhead);
      var cand := track.DoFin(end, ts, cfg.maxAhead);
      if cand.Some? {
        Resync(cand.value, ts);
      }
    }

    /** Skip cut bytes up to `end`, delivering held data that falls inside. */
    method SkipRange(end: nat, ts: Time)
      requires Valid()
      modifies this, ready, track, ooo
      ensures Valid() && (ooo != null ==> ooo == old(ooo))
      ensures Abs() == S.SkipRange(cfg, old(Abs()), end, ts)
    {
      hide Meaning, Normal, Ring, Matches, RunsMatch, Apart, SumLen, SumCap, Tiled, Lowest, SkipTo, S.Deliver, DataLen;
      ghost var s0 := Abs();
      while stop.None? && track.nextOff < end
        invariant Ok() && S.Calm(Abs()) && (ooo != null ==> ooo == old(ooo) && ooo.Charged() <= old(ooo.Charged()))
        invariant S.SkipRange(cfg, Abs(), end, ts) == S.SkipRange(cfg, s0, end, ts)
        decreases end - track.nextOff
      {
        var first := FirstStart();
        var to := if first.None? then end else Min(first.value, end);
        SkipToOff(to, ts);
        DeliverAll(ts);
      }
    }

    /** The capture lost `len` bytes from `seq_` on. */
    method Missing(seq_: u32, len: u32, ts: Time)
      requires Valid() && S.InWindow(Abs())
      modifies this, ready, track, ooo
      ensures Valid() && (ooo != null ==> ooo == old(ooo) || fresh(ooo))
      ensures Abs() == S.MissingBytes(cfg, old(Abs()), seq_, len, ts)
      decreases if track.oow.Some? then 1 else 0, 1
    {
      hide Meaning, Normal, Ring, Matches, RunsMatch, Apart, SumLen, SumCap, Tiled, Lowest, S.Resync, S.MissingOnce, S.CheckTimers, S.SkipRange, S.Marked, S.MissingBytes, S.MissingAhead, Anchor, OffsetOf, Evidence, DataLen;
      ghost var s0 := Abs();
      if stop.Some? || len == 0 {
        MissingNothing(cfg, s0, seq_, len, ts);
        return;
      }
      track.DoAnchor(seq_, ts);
      ghost var s1 := Abs();
      assert s1 == S.Anchored(s0, seq_, ts);
      S.MissingCases(cfg, s0, seq_, len, ts);
      S.MissingAnchored(cfg, s0, seq_, len, ts);
      var start := track.OffOf(seq_);
      var end := start + len;
      if end <= track.nextOff {
        return;
      }
      if start - track.nextOff > cfg.maxAhead {
        FarCut(seq_, start, len, ts);
      } else if start <= track.nextOff {
        // No hole before the lost bytes: they become a gap.
        SkipCut(end, ts);
      } else {
        // The hole before them may still fill; their end is evidence.
        Reaches((seq_ + len) % TWO_32, ts);
      }
    }

    /** Too far to believe yet: a candidate without data, unless it confirms the one there is. */
    method FarCut(seq_: u32, start: nat, len: u32, ts: Time)
      requires Valid() && S.InWindow(Abs()) && stop.None? && len > 0
      requires track.anchored && start == OffsetOf(Abs().k.track, seq_) && start - track.nextOff > cfg.maxAhead
      modifies this, ready, track, ooo
      ensures Valid() && (ooo != null ==> ooo == old(ooo) || fresh(ooo))
      ensures Abs() == S.MissingBytes(cfg, old(Abs()), seq_, len, ts)
      decreases if track.oow.Some? then 1 else 0, 0
    {
      hide Meaning, Normal, Ring, Matches, RunsMatch, Apart, SumLen, SumCap, Tiled, Lowest, S.Resync, S.MissingOnce, S.CheckTimers, S.SkipRange, S.Marked, S.MissingBytes, S.MissingAhead, OffsetOf, FarMissing, DataLen;
      ghost var s1 := Abs();
      S.MissingCases(cfg, s1, seq_, len, ts);
      var cand := track.DoFarMissing(start, len, ts, cfg.maxAhead);
      if cand.Some? {
        assert Abs() == S.Taken(s1);
        Resync(cand.value, ts);
        Missing(seq_, len, ts);
      } else {
        FarMissingFacts(s1.k.track, start, len, ts, cfg.maxAhead);
        CheckTimers(ts);
      }
    }

    /** The lost bytes become a gap, around any held bytes. */
    method SkipCut(end: nat, ts: Time)
      requires Valid()
      modifies this, ready, track, ooo
      ensures Valid() && (ooo != null ==> ooo == old(ooo))
      ensures Abs() == S.CheckTimers(cfg, S.Marked(cfg, S.SkipRange(cfg, old(Abs()), end, ts)), ts)
    {
      hide Meaning, Normal, Ring, Matches, RunsMatch, Apart, SumLen, SumCap, Tiled, Lowest, S.CheckTimers, S.SkipRange, S.Marked;
      SkipRange(end, ts);
      UpdateWatermark();
      CheckTimers(ts);
    }

    /** `out` grows by the ready cells and learns the stop; ready becomes empty. */
    method DrainInto(out: StreamChunks)
      requires Valid() && out.Valid() && out != ready
      modifies this`above, ready, out
      ensures Valid() && out.Valid() && Abs() == S.Drain(old(Abs()))
      ensures out.Cells() == old(out.Cells()) + old(Abs()).k.ready
      ensures out.stop == if old(out.stop).Some? then old(out.stop) else stop
      ensures forall size: nat :: CurrentBytes(size) <= old(CurrentBytes(size))
    {
      hide Meaning, Normal, Ring, Matches, RunsMatch, Apart, SumLen, SumCap, Tiled, Lowest;
      above := false;
      out.Append(ready);
      if stop.Some? {
        out.SetStop(stop.value);
      }
    }

    /** The flow is over: all that is held or proven comes out now. */
    method FlushPending()
      requires Valid()
      modifies this, ready, track, ooo
      ensures Valid() && (ooo != null ==> ooo == old(ooo))
      ensures Abs() == S.FlushPending(cfg, old(Abs()))
      ensures forall size: nat :: CurrentBytes(size) <= old(CurrentBytes(size))
    {
      hide Meaning, Normal, Ring, Matches, RunsMatch, Apart, SumLen, SumCap, Tiled, Lowest, S.Flush, S.SkipProven, S.Below, DataLen;
      var ts := track.lastProgress;
      ghost var s0 := Abs();
      FlushOoo(ts);
      ghost var t := Abs();
      assert t == S.Flush(cfg, s0, ts);
      SkipProven(ts);
      ghost var u := Abs();
      track.oow := None;
      assert Abs() == u.(k := u.k.(track := DropStray(u.k.track)));
    }

    /** What evidence vouches for past the position becomes a gap. */
    method SkipProven(ts: Time)
      requires Ok()
      modifies this`c, ready, track
      ensures Ok() && Abs() == S.SkipProven(old(Abs()), ts) && Load() == old(Load())
    {
      hide Meaning, Normal, Ring, Matches, RunsMatch, Apart, SumLen, SumCap, Tiled, Lowest, SkipTo, RecordSkip, AdvanceTo, DataLen;
      if stop.None? && track.evidence > track.nextOff {
        c := c.(ackGaps := c.ackGaps + 1);
        SkipWeight(Abs().k, track.evidence, ts);
        SkipToOff(track.evidence, ts);
      }
    }

    method AdvanceTime(now: Time)
      requires Valid()
      modifies this, ready, track, ooo
      ensures Valid() && (ooo != null ==> ooo == old(ooo))
      ensures Abs() == S.CheckTimers(cfg, old(Abs()), now)
      ensures forall size: nat :: CurrentBytes(size) <= old(CurrentBytes(size))
    {
      hide Meaning, Normal, Ring, Matches, RunsMatch, Apart, SumLen, SumCap, Tiled, Lowest, S.CheckTimers;
      CheckTimers(now);
    }

    /** From here on there is no output and nothing is held. */
    method DoRelease()
      requires Valid()
      modifies this, ready, track
      ensures Valid() && Abs() == S.Release(old(Abs()))
    {
      hide Meaning, Normal, Ring, Matches, RunsMatch, Apart, SumLen, SumCap, Tiled, Lowest, SeqAt, DataLen, Ordered, Strict;
      ready.Clear();
      ready.Release();
      ooo := null;
      track.oow := None;
      if stop.None? {
        stop := Some(Memcap);
      }
    }
  }

  lemma FeedNothing(cfg: Config, s: S.Stream, seq_: u32, payload: seq<byte>, ts: Time, pass: bool)
    requires S.Calm(s) && (S.Stopped(s) || payload == [])
    ensures S.Feed(cfg, s, seq_, payload, ts, pass, 0) == (s, Buffered)
  {
  }

  /** A far cut that corroborates nothing leaves position and anchor alone. */
  lemma FarMissingFacts(v: TrackView, start: nat, len: nat, ts: Time, maxAhead: nat)
    ensures var w := FarMissing(v, start, len, ts, maxAhead).0; w.next == v.next && w.origin == v.origin
  {
  }

  lemma MissingNothing(cfg: Config, s: S.Stream, seq_: u32, len: nat, ts: Time)
    requires S.Calm(s) && (S.Stopped(s) || len == 0)
    ensures S.MissingBytes(cfg, s, seq_, len, ts) == s
  {
  }

  lemma DeliverCalm(cfg: Config, s: S.Stream, ts: Time)
    requires S.Calm(s)
    ensures S.Deliver(cfg, s, ts) == s
  {
  }

  lemma SomethingHeld(ps: seq<Piece>, held: Held, policy: OverlapPolicy, before: Held, start: nat, data: seq<byte>)
    requires Matches(ps, held) && held == AbsorbHeld(policy, before, start, data) && data != []
    ensures ps != []
  {
    AbsorbHeldKeys(policy, before, start, data);
    MatchAt(ps, held, start);
  }

  lemma AbsorbHeldKeys(policy: OverlapPolicy, before: Held, start: nat, data: seq<byte>)
    ensures AbsorbHeld(policy, before, start, data).Keys == before.Keys + Span(start, |data|)
  {
  }

  /** One more forced skip. */
  lemma {:induction false} CapSkipsMore(cfg: Config, s: S.Stream, ts: Time, n: nat)
    requires S.Calm(s)
    ensures var t := S.CapSkips(cfg, s, ts, n);
            !S.Stopped(t) && t.held != map[] ==> S.CapSkips(cfg, s, ts, n + 1) == S.SkipFirst(cfg, t, ts)
    decreases n
  {
    hide S.SkipFirst;
    if n > 0 && !S.Stopped(s) && s.held != map[] {
      CapSkipsMore(cfg, S.SkipFirst(cfg, s, ts), ts, n - 1);
    }
  }
}

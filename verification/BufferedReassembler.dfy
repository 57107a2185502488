/** `BufferedReassembler` (src/reassembler.rs), updated in place and proved against `BufferedSpec`. */
module BufferedReassembly {
  import opened Types
  import opened Cells
  import opened Chunks
  import opened Tracking
  import opened SinkSpec
  import opened SinkWindow
  import B = BufferedSpec

  class BufferedReassembler {
    const cfg: Config
    const ready: StreamChunks
    const track: Track
    /** At most one segment is kept while something before it is missing. */
    var reorder: Option<Candidate>
    var c: Counters
    var above: bool
    var stop: Option<Stop>

    constructor (cfg: Config)
      ensures Valid() && this.cfg == cfg && Abs() == B.FreshLine() && fresh(ready) && fresh(track)
    {
      this.cfg := cfg;
      ready := new StreamChunks();
      track := new Track();
      reorder, c, above, stop := None, ZeroCounters(), false, None;
    }

    ghost predicate Ok()
      reads this, ready, track
    {
      ready.Valid() && ready.stop == None && track.Valid()
    }

    /** The value it stands for. */
    ghost function Abs(): B.Line
      requires Ok()
      reads this, ready, track
    {
      B.Line(Sink(track.View(), ready.Cells(), stop, c, above), reorder)
    }

    ghost predicate Valid()
      reads this, ready, track
    {
      Ok() && B.Calm(Abs())
    }

    method UpdateWatermark()
      requires Ok()
      modifies this`c, this`above
      ensures Ok() && Abs() == old(Abs()).(k := Watermark(cfg, old(Abs()).k, 0))
    {
      var len := ready.Len();
      if len > c.peak {
        c := c.(peak := len);
      }
      if cfg.pct.Some? && cfg.maxBuffer.Some? {
        var trigger := cfg.maxBuffer.value * cfg.pct.value / 100;
        if len >= trigger {
          if !above {
            above := true;
            c := c.(crossings := c.crossings + 1);
          }
        } else {
          above := false;
        }
      }
    }

    /** The sliding window: everything ready goes if need be, then the head of the payload. */
    method Slide(payload: seq<byte>, cap: nat)
      requires Ok() && DataLen(ready.Cells()) + |payload| > cap
      modifies this`c, ready
      ensures Ok()
      ensures var over := DataLen(old(ready.Cells())) + |payload| - cap;
              && ready.Cells() == MaskFirst(old(ready.Cells()) + DataCells(payload), over)
              && c == old(c).(oversize := old(c).oversize + over)
    {
      hide Meaning, Normal, Strict, Ordered;
      var buffered := ready.Len();
      ghost var cells := ready.Cells();
      var toDrop := buffered + |payload| - cap;
      if toDrop >= buffered {
        c := c.(oversize := c.oversize + buffered);
        ready.DropFront(buffered);
        var extra := if |payload| > cap then |payload| - cap else 0;
        c := c.(oversize := c.oversize + extra);
        ready.PushGap(extra);
        ready.PushData(payload[extra..]);
        if |payload| > cap {
          TrimLong(cells, payload, cap);
        } else {
          TrimExact(cells, payload);
        }
      } else {
        c := c.(oversize := c.oversize + toDrop);
        ready.DropFront(toDrop);
        ready.PushData(payload);
        MaskConcat(cells, DataCells(payload), toDrop);
      }
    }

    method AppendWithCap(payload: seq<byte>)
      requires Ok()
      modifies this, ready, track
      ensures Ok()
      ensures var s := old(Abs());
              var k := Append(cfg, s.k, payload, 0);
              Abs() == B.Line(k, if s.k.stop.None? && k.stop.Some? then None else s.wait)
    {
      hide Meaning, Normal, Strict, Ordered, Ring, MaskFirst, DataLen, DataCells, Watermark;
      if stop.Some? || payload == [] {
        return;
      }
      if cfg.maxBuffer.None? {
        ready.PushData(payload);
        UpdateWatermark();
        return;
      }
      var cap := cfg.maxBuffer.value;
      var len := ready.Len();
      if len + |payload| <= cap {
        ready.PushData(payload);
        UpdateWatermark();
        return;
      }
      match cfg.overflow
      case DropFlow =>
        c := c.(oversize := c.oversize + |payload|);
        stop := Some(Overflow);
        reorder := None;
        track.oow := None;
      case SlidingWindow =>
        Slide(payload, cap);
        UpdateWatermark();
    }

    /** The stream moves to `to`; offsets passed over read as missing. */
    method SkipToOff(to: nat, ts: Time)
      requires Ok()
      modifies this`c, ready, track
      ensures Ok() && Abs() == old(Abs()).(k := SkipTo(old(Abs()).k, to, ts))
    {
      hide Meaning, Normal, Ring;
      var from := track.nextOff;
      if to <= from {
        return;
      }
      var missing := to - from;
      c := c.(gaps := c.gaps + 1, gapBytes := c.gapBytes + missing);
      track.DoRecordSkip(from, to);
      ready.PushGap(missing);
      track.DoAdvanceTo(to, ts);
    }

    /** Of bytes that begin no later than the position, only what lies past it is output. */
    method DeliverAt(off: nat, data: seq<byte>, ts: Time)
      requires Ok() && off <= track.nextOff && (stop.Some? ==> reorder.None?)
      modifies this, ready, track
      ensures Ok() && Abs() == B.Place(cfg, old(Abs()), off, data, ts)
    {
      hide Meaning, Normal, Ring, Append, AdvanceTo;
      var next := track.nextOff;
      var end := off + |data|;
      if end <= next {
        return;
      }
      var skip := next - off;
      track.DoAdvanceTo(end, ts);
      AppendWithCap(data[skip..]);
    }

    /** The waiting segment comes out, with a gap before it unless the stream is already there. */
    method ReleaseReorder(ts: Time)
      requires Valid()
      modifies this, ready, track
      ensures Valid() && Abs() == B.ReleaseWait(cfg, old(Abs()), ts)
    {
      hide Meaning, Normal, Ring, SkipTo, B.Place;
      if reorder.Some? {
        var w := reorder.value;
        reorder := None;
        SkipToOff(w.off, ts);
        DeliverAt(w.off, w.data, ts);
      }
    }

    /** The waiting segment comes out once nothing before it is missing. */
    method TryReorder(ts: Time)
      requires Ok() && (stop.Some? ==> reorder.None?) && (reorder.Some? ==> reorder.value.data != [])
      modifies this, ready, track
      ensures Valid() && Abs() == B.TryWait(cfg, old(Abs()), ts)
    {
      hide Meaning, Normal, Ring, B.Place;
      if reorder.Some? && reorder.value.off <= track.nextOff {
        var w := reorder.value;
        reorder := None;
        DeliverAt(w.off, w.data, ts);
      }
    }

    method Resync(cand: Candidate, ts: Time)
      requires Valid()
      modifies this, ready, track
      ensures Valid() && Abs() == B.Resync(cfg, old(Abs()), cand, ts)
    {
      hide Meaning, Normal, Ring, SkipTo, B.Place, B.ReleaseWait;
      ReleaseReorder(ts);
      SkipToOff(cand.off, ts);
      DeliverAt(cand.off, cand.data, ts);
      if stop.None? {
        SkipToOff(cand.End(), ts);
      }
    }

    /** Acknowledged holes, after the grace period. */
    method CheckEvidence(now: Time)
      requires Valid() && stop.None?
      modifies this, ready, track
      ensures Valid() && Abs() == B.AckTimer(cfg, old(Abs()), now)
    {
      hide Meaning, Normal, Ring, SkipTo, B.ReleaseWait;
      if track.evidenceSince.Some? && track.evidence > track.nextOff
         && Since(now, track.evidenceSince.value) >= cfg.ackGrace {
        var frontier := track.evidence;
        if reorder.None? {
          c := c.(ackGaps := c.ackGaps + 1);
          SkipToOff(frontier, now);
        } else if reorder.value.off <= frontier {
          c := c.(ackGaps := c.ackGaps + 1);
          ReleaseReorder(now);
        }
      }
    }

    /** Deadlines: an acknowledged hole, any hole, a lone stray. */
    method CheckTimers(now: Time)
      requires Valid()
      modifies this, ready, track
      ensures Valid() && Abs() == B.CheckTimers(cfg, old(Abs()), now)
    {
      hide Meaning, Normal, Ring, B.AckTimer, B.ReleaseWait;
      if stop.Some? {
        return;
      }
      CheckEvidence(now);
      if reorder.Some? && Since(now, reorder.value.ts) > cfg.deadline {
        ReleaseReorder(now);
      }
      track.DoExpireStray(now, cfg.deadline * 4);
    }

    method NotePassthrough(len: nat)
      requires Ok()
      modifies this`c, this`above
      ensures Ok() && Abs() == old(Abs()).(k := NotePass(cfg, old(Abs()).k, len))
    {
      if len > c.peak {
        c := c.(peak := len);
      }
      if cfg.pct.Some? && cfg.maxBuffer.Some? && len >= cfg.maxBuffer.value * cfg.pct.value / 100 {
        c := c.(crossings := c.crossings + 1);
      }
      above := false;
    }

    /** A segment that ends at or before the position. */
    method FeedOld(start: int, end: int, ts: Time)
      requires Valid() && start <= end <= track.nextOff
      modifies this, ready, track
      ensures Valid()
      ensures Abs() == B.CheckTimers(cfg, old(Abs()).(k := CountOld(cfg, old(Abs()).k, start, end)), ts)
    {
      hide Meaning, Normal, Ring, B.CheckTimers, InSkipped;
      ghost var s0 := Abs();
      if end < track.nextOff - cfg.maxAhead {
        track.outOfWindow := track.outOfWindow + 1;
      } else {
        var late := false;
        if start >= 0 {
          late := track.IsInSkipped(start, end);
        }
        if late {
          c := c.(dropped := c.dropped + 1);
        } else {
          c := c.(retransmits := c.retransmits + 1);
        }
      }
      assert Abs() == s0.(k := CountOld(cfg, s0.k, start, end));
      CheckTimers(ts);
    }

    method FeedInOrder(start: int, payload: seq<byte>, ts: Time, pass: bool) returns (r: Outcome)
      requires Valid() && stop.None? && start <= track.nextOff < start + |payload|
      modifies this, ready, track
      ensures Valid() && (Abs(), r) == B.FeedInOrder(cfg, old(Abs()), start, payload, ts, pass)
    {
      hide Meaning, Normal, Ring, B.CheckTimers, B.TryWait, Append, AdvanceTo, NotePass;
      ghost var s0 := Abs();
      var skip := track.nextOff - start;
      var len := |payload| - skip;
      var empty := ready.IsEmpty();
      track.DoAdvanceTo(start + |payload|, ts);
      if pass && empty && reorder.None? && (cfg.maxBuffer.None? || len <= cfg.maxBuffer.value) {
        NotePassthrough(len);
        return Passthrough(skip);
      }
      ghost var s1 := Abs();
      assert s1.k == Advance(s0.k, start + |payload|, ts);
      AppendWithCap(payload[skip..]);
      TryReorder(ts);
      CheckTimers(ts);
      return Buffered;
    }

    /** Ahead of the stream, nothing waiting. */
    method FeedAhead(start: nat, payload: seq<byte>, ts: Time)
      requires Valid() && stop.None? && reorder.None? && track.nextOff < start && payload != []
      modifies this, ready, track
      ensures Valid() && Abs() == B.FeedAhead(cfg, old(Abs()), start, payload, ts)
    {
      hide Meaning, Normal, Ring, B.CheckTimers;
      reorder := Some(Candidate(start, payload, ts, 0));
      track.lastProgress := ts;
      CheckTimers(ts);
    }

    /** One data segment; `pass` asks for in-order bytes to be let through. */
    method Feed(seq_: u32, payload: seq<byte>, ts: Time, pass: bool) returns (r: Outcome)
      requires Valid()
      modifies this, ready, track
      ensures Valid() && (Abs(), r) == B.Feed(cfg, old(Abs()), seq_, payload, ts, pass)
      decreases B.Rank(Abs())
    {
      hide Meaning, Normal, Ring, Anchor, OffsetOf, B.CheckTimers, B.Resync, B.ReleaseWait, B.FeedAhead, B.FeedInOrder, CountOld;
      if payload == [] || stop.Some? {
        return Buffered;
      }
      ghost var s0 := Abs();
      track.DoAnchor(seq_, ts);
      ghost var s1 := Abs();
      assert s1 == B.Anchored(s0, seq_, ts);
      var start := track.OffOf(seq_);
      var end := start + |payload|;
      var next := track.nextOff;
      if start - next > cfg.maxAhead {
        var cand := track.DoFarAhead(start, payload, ts, cfg.maxAhead);
        if cand.Some? {
          assert Abs() == B.Taken(s1);
          Resync(cand.value, ts);
          r := Feed(seq_, payload, ts, false);
          return;
        }
        return Buffered;
      }
      if end <= next {
        FeedOld(start, end, ts);
        return Buffered;
      }
      if start > next {
        // One slot: a second early segment pushes the first one out, gap and all.
        if reorder.Some? {
          ReleaseReorder(ts);
          r := Feed(seq_, payload, ts, false);
          return;
        }
        FeedAhead(start, payload, ts);
        return Buffered;
      }
      if start < next {
        c := c.(retransmits := c.retransmits + 1);
        assert Abs() == B.Retransmitted(s1);
      }
      r := FeedInOrder(start, payload, ts, pass);
    }

    method SetOrigin(seq_: u32)
      requires Valid()
      modifies track
      ensures Valid() && Abs() == B.Anchored(old(Abs()), seq_, 0)
    {
      hide Meaning, Normal, Ring;
      track.DoAnchor(seq_, 0);
    }

    method PeerAck(ack: u32, ts: Time)
      requires Valid()
      modifies this, ready, track
      ensures Valid() && Abs() == B.PeerAck(cfg, old(Abs()), ack, ts)
    {
      hide Meaning, Normal, Ring, B.Resync, B.CheckTimers, Evidence;
      if stop.Some? {
        return;
      }
      ghost var s0 := Abs();
      EvidenceKeeps(s0.k.track, (ack - 1) % TWO_32, ts, cfg.maxAhead);
      var cand := track.DoEvidence((ack - 1) % TWO_32, ts, cfg.maxAhead);
      if cand.Some? {
        Resync(cand.value, ts);
      }
      CheckTimers(ts);
    }

    method FinSeen(end: u32, ts: Time)
      requires Valid()
      modifies this, ready, track
      ensures Valid() && Abs() == B.FinSeen(cfg, old(Abs()), end, ts)
    {
      hide Meaning, Normal, Ring, B.Resync, Fin;
      if stop.Some? {
        return;
      }
      ghost var s0 := Abs();
      EvidenceKeeps(s0.k.track, end, ts, cfg.maxAhead);
      var cand := track.DoFin(end, ts, cfg.maxAhead);
      if cand.Some? {
        Resync(cand.value, ts);
      }
    }

    /** Bytes lost to the capture become a gap up to `end`; a waiting segment in the way keeps its bytes. */
    method SkipRange(end: nat, ts: Time)
      requires Valid()
      modifies this, ready, track
      ensures Valid() && Abs() == B.SkipRange(cfg, old(Abs()), end, ts)
    {
      hide Meaning, Normal, Ring, SkipTo, B.TryWait;
      ghost var s0 := Abs();
      while stop.None? && track.nextOff < end
        invariant Valid() && B.SkipRange(cfg, Abs(), end, ts) == B.SkipRange(cfg, s0, end, ts)
        decreases end - track.nextOff
      {
        var to := if reorder.None? then end else Min(reorder.value.off, end);
        SkipToOff(to, ts);
        TryReorder(ts);
      }
    }

    /** The capture lost `len` bytes from `seq_` on. */
    method Missing(seq_: u32, len: u32, ts: Time)
      requires Valid()
      modifies this, ready, track
      ensures Valid() && Abs() == B.MissingBytes(cfg, old(Abs()), seq_, len, ts)
      decreases if track.oow.Some? then 1 else 0
    {
      hide Meaning, Normal, Ring, Anchor, OffsetOf, Evidence, B.CheckTimers, B.Resync, B.SkipRange;
      if stop.Some? || len == 0 {
        return;
      }
      ghost var s0 := Abs();
      track.DoAnchor(seq_, ts);
      ghost var s1 := Abs();
      assert s1 == B.Anchored(s0, seq_, ts);
      var start := track.OffOf(seq_);
      var end := start + len;
      if end <= track.nextOff {
        return;
      }
      if start - track.nextOff > cfg.maxAhead {
        var cand := track.DoFarMissing(start, len, ts, cfg.maxAhead);
        if cand.Some? {
          assert Abs() == B.Taken(s1);
          Resync(cand.value, ts);
          Missing(seq_, len, ts);
          return;
        }
        CheckTimers(ts);
        return;
      }
      if start <= track.nextOff {
        SkipRange(end, ts);
      } else {
        EvidenceKeeps(s1.k.track, (seq_ + len) % TWO_32, ts, cfg.maxAhead);
        var cand := track.DoEvidence((seq_ + len) % TWO_32, ts, cfg.maxAhead);
        if cand.Some? {
          Resync(cand.value, ts);
        }
      }
      CheckTimers(ts);
    }

    method DrainInto(out: StreamChunks)
      requires Valid() && out.Valid() && out != ready
      modifies this`above, ready, out
      ensures Valid() && out.Valid() && Abs() == B.Drain(old(Abs()))
      ensures out.Cells() == old(out.Cells()) + old(Abs()).k.ready
      ensures out.stop == if old(out.stop).Some? then old(out.stop) else stop
    {
      hide Meaning, Normal, Ring;
      above := false;
      out.Append(ready);
      if stop.Some? {
        out.SetStop(stop.value);
      }
    }

    method FlushPending()
      requires Valid()
      modifies this, ready, track
      ensures Valid() && Abs() == B.FlushPending(cfg, old(Abs()))
    {
      hide Meaning, Normal, Ring, SkipTo, B.ReleaseWait;
      if stop.Some? {
        return;
      }
      var ts := track.lastProgress;
      ReleaseReorder(ts);
      if track.evidence > track.nextOff {
        c := c.(ackGaps := c.ackGaps + 1);
        SkipToOff(track.evidence, ts);
      }
      track.oow := None;
    }

    /** From here on there is no output and nothing is kept. */
    method DoRelease()
      requires Valid()
      modifies this, ready, track
      ensures Valid() && Abs() == B.Release(old(Abs()))
    {
      hide Meaning, Normal, Ring;
      ready.Clear();
      ready.Release();
      reorder := None;
      track.oow := None;
      if stop.None? {
        stop := Some(Memcap);
      }
    }
  }
}

/**
 What both built-in reassemblers do to their output, as functions on values:
 the ready buffer as cells, the stream position, the stop and the counters.
 */
module SinkSpec {
  import opened Types
  import opened Cells
  import opened Tracking

  datatype Config = Config(
    maxBuffer: Option<nat>,
    budget: nat,
    overflow: OverflowPolicy,
    overlap: OverlapPolicy,
    pct: Option<nat>,
    maxAhead: nat,
    ackGrace: Time,
    deadline: Time)

  datatype Counters = Counters(
    holesFilled: nat,
    gaps: nat,
    gapBytes: nat,
    ackGaps: nat,
    dropped: nat,
    retransmits: nat,
    inconsistencies: nat,
    oversize: nat,
    peak: nat,
    crossings: nat)

  datatype Outcome = Buffered | Passthrough(skip: nat)

  /** Output side of a reassembler. */
  datatype Sink = Sink(track: TrackView, ready: seq<Cell>, stop: Option<Stop>, c: Counters, above: bool)

  /** The occupancy at which a high-watermark crossing is counted. */
  function Trigger(cfg: Config): Option<nat> {
    if cfg.pct.Some? && cfg.maxBuffer.Some? then Some(cfg.maxBuffer.value * cfg.pct.value / 100) else None
  }

  predicate Fits(cfg: Config, n: nat) { cfg.maxBuffer.None? || n <= cfg.maxBuffer.value }

  /** `update_watermark`, with `extra` bytes held besides the ready ones. */
  ghost function Watermark(cfg: Config, k: Sink, extra: nat): (r: Sink)
    ensures r.track == k.track && r.ready == k.ready && r.stop == k.stop
    ensures r.c == k.c.(peak := r.c.peak, crossings := r.c.crossings)
  {
    var len := DataLen(k.ready);
    var c := k.c.(peak := Max(k.c.peak, len + extra));
    if Trigger(cfg).None? then k.(c := c)
    else if len < Trigger(cfg).value then k.(c := c, above := false)
    else if k.above then k.(c := c)
    else k.(c := c.(crossings := c.crossings + 1), above := true)
  }

  /** `note_passthrough`: the high-water mark sees let-through bytes as stored. */
  ghost function NotePass(cfg: Config, k: Sink, len: nat): Sink {
    var c := k.c.(peak := Max(k.c.peak, len));
    k.(c := if Trigger(cfg).Some? && len >= Trigger(cfg).value then c.(crossings := c.crossings + 1) else c,
       above := false)
  }

  /**
   Append in-order bytes. Past the cap, a sliding window turns the oldest bytes
   of the concatenation into missing ones; dropping the flow stops the side.
   */
  ghost function Append(cfg: Config, k: Sink, bytes: seq<byte>, extra: nat): (r: Sink)
    ensures r.track == k.track || r.track == DropStray(k.track)
    ensures k.stop.Some? ==> r == k
    ensures r.c.gaps == k.c.gaps && r.c.gapBytes == k.c.gapBytes
  {
    if k.stop.Some? || bytes == [] then k
    else
      var n := DataLen(k.ready) + |bytes|;
      if Fits(cfg, n) then Watermark(cfg, k.(ready := k.ready + DataCells(bytes)), extra)
      else if cfg.overflow.DropFlow? then
        k.(c := k.c.(oversize := k.c.oversize + |bytes|), stop := Some(Overflow), track := DropStray(k.track))
      else
        var over := n - cfg.maxBuffer.value;
        Watermark(cfg, k.(ready := MaskFirst(k.ready + DataCells(bytes), over),
                          c := k.c.(oversize := k.c.oversize + over)), extra)
  }

  /** The stream moves to `to`; offsets passed over read as missing. */
  ghost function SkipTo(k: Sink, to: nat, ts: Time): (r: Sink)
    ensures r.track.next == Max(k.track.next, to) && r.stop == k.stop
    ensures r.track.stray == k.track.stray && r.track.origin == k.track.origin
  {
    if to <= k.track.next then k
    else
      var missing := to - k.track.next;
      k.(c := k.c.(gaps := k.c.gaps + 1, gapBytes := k.c.gapBytes + missing),
         ready := k.ready + Gap(missing),
         track := AdvanceTo(RecordSkip(k.track, k.track.next, to), to, ts))
  }

  /** How a segment that ends at or before the position is counted. */
  ghost function CountOld(cfg: Config, k: Sink, start: int, end: int): (r: Sink)
    ensures r.ready == k.ready && r.stop == k.stop && r.above == k.above
    ensures r.track.(outOfWindow := k.track.outOfWindow) == k.track && r.track.outOfWindow >= k.track.outOfWindow
    ensures r.c.(dropped := k.c.dropped, retransmits := k.c.retransmits) == k.c
  {
    var v, c := k.track, k.c;
    if end < v.next - cfg.maxAhead then k.(track := v.(outOfWindow := v.outOfWindow + 1))
    else if start >= 0 && InSkipped(v, start, end) then k.(c := c.(dropped := c.dropped + 1))
    else k.(c := c.(retransmits := c.retransmits + 1))
  }

  ghost function Advance(k: Sink, off: nat, ts: Time): Sink { k.(track := AdvanceTo(k.track, off, ts)) }

  /** Moving everything ready to the caller. */
  ghost function Drained(k: Sink): Sink { k.(ready := [], above := false) }

  function ZeroCounters(): Counters { Counters(0, 0, 0, 0, 0, 0, 0, 0, 0, 0) }

  function FreshTrack(): TrackView { TrackView(None, 0, 0, None, None, None, [], 0, 0, 0) }

  function FreshSink(): Sink { Sink(FreshTrack(), [], None, ZeroCounters(), false) }
}

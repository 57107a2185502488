/**
 `SegmentBufferReassembler` (src/segment_reassembler.rs) as functions on values:
 out-of-order bytes are a map from stream offset to (byte, supplying segment),
 output is a sequence of cells. How many holes the byte budget forces open
 depends on allocator capacities, so that number is an argument (`cap`).
 */
module SegmentSpec {
  import opened Types
  import opened Seqs
  import opened Tracking
  import opened OutOfOrder
  import opened Store
  import opened SinkSpec

  datatype Stream = Stream(k: Sink, held: Held, arrivals: nat)

  function Fresh(): Stream { Stream(FreshSink(), map[], 0) }

  ghost predicate Stopped(s: Stream) { s.k.stop.Some? }

  /** Everything held lies at or past the position, and a stopped side holds nothing. */
  ghost predicate Ahead(s: Stream) {
    && (forall o :: o in s.held ==> o >= s.k.track.next)
    && (Stopped(s) ==> s.held == map[])
    && (s.held == map[] ==> s.arrivals == 0)
  }

  /** At rest nothing held is deliverable. */
  ghost predicate Calm(s: Stream) {
    Ahead(s) && s.k.track.next !in s.held
  }

  /** No new stray appears. */
  ghost predicate NoNewStray(s: Stream, t: Stream) {
    t.k.track.stray == s.k.track.stray || t.k.track.stray == None
  }

  /** Deliver the contiguous stretch at the position, if there is one. */
  ghost function Deliver(cfg: Config, s: Stream, ts: Time): (r: Stream)
    requires Ahead(s)
    ensures Calm(r) && NoNewStray(s, r) && r.k.track.origin == s.k.track.origin
    ensures r.k.track.next >= s.k.track.next
    ensures s.k.track.next in s.held ==> r.k.track.next > s.k.track.next && |r.held| < |s.held|
  {
    var next := s.k.track.next;
    if next !in s.held then s
    else
      var e := StretchEnd(s.held, next);
      var rest := From(s.held, e);
      assert next in s.held.Keys - rest.Keys && rest.Keys <= s.held.Keys;
      FewerKeys(rest, s.held, next);
      var k := Append(cfg, Advance(s.k, e, ts), BytesOf(s.held, next, e), |rest|);
      Stream(k, if k.stop.Some? then map[] else rest, 0)
  }

  lemma FewerKeys(a: Held, b: Held, x: nat)
    requires a.Keys <= b.Keys && x in b && x !in a
    ensures |a| < |b|
  {
    assert a.Keys <= b.Keys - {x};
    SubsetSize(a.Keys, b.Keys - {x});
  }

  /** The first held stretch comes out with a gap before it. */
  ghost function SkipFirst(cfg: Config, s: Stream, ts: Time): (r: Stream)
    requires Ahead(s)
    ensures Ahead(r) && NoNewStray(s, r) && r.k.track.origin == s.k.track.origin
    ensures r.k.track.next >= s.k.track.next
    ensures s.held != map[] ==> Calm(r) && |r.held| < |s.held| && r.k.track.next > Lowest(s.held)
  {
    if s.held == map[] then s
    else Deliver(cfg, s.(k := SkipTo(s.k, Lowest(s.held), ts)), ts)
  }

  /** Skip every hole. */
  ghost function Flush(cfg: Config, s: Stream, ts: Time): (r: Stream)
    requires Ahead(s)
    ensures Calm(r) && r.held == map[] && NoNewStray(s, r) && r.k.track.origin == s.k.track.origin
    ensures r.k.track.next >= s.k.track.next
    ensures s.held == map[] ==> r == s
    decreases |s.held|
  {
    if Stopped(s) || s.held == map[] then s else Flush(cfg, SkipFirst(cfg, s, ts), ts)
  }

  /** Skip `n` holes (fewer if nothing is left or the side stops): the byte budget at work. */
  ghost function CapSkips(cfg: Config, s: Stream, ts: Time, n: nat): (r: Stream)
    requires Calm(s)
    ensures Calm(r) && NoNewStray(s, r) && r.k.track.origin == s.k.track.origin
    ensures r.k.track.next >= s.k.track.next
    decreases n
  {
    if n == 0 || Stopped(s) || s.held == map[] then s else CapSkips(cfg, SkipFirst(cfg, s, ts), ts, n - 1)
  }

  /** Skip every hole that ends at or before `frontier`. */
  ghost function SkipUpTo(cfg: Config, s: Stream, ts: Time, frontier: nat): (r: Stream)
    requires Calm(s)
    ensures Calm(r) && NoNewStray(s, r) && r.k.track.origin == s.k.track.origin
    ensures r.k.track.next >= s.k.track.next
    ensures s.held != map[] && !Stopped(s) && Lowest(s.held) <= frontier ==> r.k.track.next > s.k.track.next
    decreases |s.held|
  {
    if Stopped(s) || s.held == map[] || Lowest(s.held) > frontier then s
    else SkipUpTo(cfg, SkipFirst(cfg, s, ts), ts, frontier)
  }

  ghost function CountAckGap(s: Stream): Stream { s.(k := s.k.(c := s.k.c.(ackGaps := s.k.c.ackGaps + 1))) }

  /** Acknowledged bytes that never came, once the grace period has passed. */
  ghost function AckTimer(cfg: Config, s: Stream, now: Time): (r: Stream)
    requires Calm(s)
    ensures Calm(r) && NoNewStray(s, r) && r.k.track.origin == s.k.track.origin
    ensures r.k.track.next >= s.k.track.next
    ensures s.held == map[] ==> r.held == map[]
  {
    match EvidenceDue(s.k.track, now, cfg.ackGrace)
    case None => s
    case Some(frontier) =>
      if s.held == map[] then
        var t := CountAckGap(s);
        t.(k := SkipTo(t.k, frontier, now))
      else if Lowest(s.held) <= frontier then SkipUpTo(cfg, CountAckGap(s), now, frontier)
      else s
  }

  /** A hole has blocked the stream for too long. */
  ghost predicate Stalled(cfg: Config, s: Stream, now: Time)
    requires s.held != map[]
  {
    var stalled := Since(now, s.k.track.progress);
    var corroborated :=
      s.arrivals >= 2 || Split(s.held)
      || (Frontier(s.k.track).Some? && Frontier(s.k.track).value >= Lowest(s.held));
    (corroborated && stalled > cfg.deadline) || stalled > cfg.deadline * 4
  }

  ghost function StallTimer(cfg: Config, s: Stream, now: Time): (r: Stream)
    requires Calm(s)
    ensures Calm(r) && NoNewStray(s, r) && r.k.track.origin == s.k.track.origin
    ensures r.k.track.next >= s.k.track.next
    ensures s.held != map[] && Stalled(cfg, s, now) ==> r.k.track.next > s.k.track.next
  {
    if s.held != map[] && Stalled(cfg, s, now) then SkipFirst(cfg, s, now) else s
  }

  ghost function CheckTimers(cfg: Config, s: Stream, now: Time): (r: Stream)
    requires Calm(s)
    ensures Calm(r) && NoNewStray(s, r) && r.k.track.origin == s.k.track.origin
    ensures r.k.track.next >= s.k.track.next
    ensures s.held == map[] ==> r.held == map[]
  {
    if Stopped(s) then s
    else
      var t := StallTimer(cfg, AckTimer(cfg, s, now), now);
      t.(k := t.k.(track := ExpireStray(t.k.track, now, cfg.deadline * 4)))
  }

  /** Insert a segment into the held bytes and count what it met. */
  ghost function Absorb(cfg: Config, s: Stream, start: nat, data: seq<byte>): (r: Stream)
    requires Ahead(s) && !Stopped(s) && start >= s.k.track.next && data != []
    ensures Ahead(r) && r.k.track == s.k.track && r.k.stop == s.k.stop
  {
    var c := s.k.c;
    var h := AbsorbHeld(cfg.overlap, s.held, start, data);
    assert start in h.Keys;
    Stream(s.k.(c := c.(inconsistencies := c.inconsistencies + (if Diverges(s.held, start, data) then 1 else 0),
                        retransmits := c.retransmits + (if Overlaps(s.held, start, data) then 1 else 0))),
           h, s.arrivals + 1)
  }

  // ----- feed

  /** A segment that ends at or before the position. */
  ghost function FeedOld(cfg: Config, s: Stream, start: int, end: int, ts: Time): (r: Stream)
    requires Calm(s)
    ensures Calm(r) && NoNewStray(s, r) && r.k.track.origin == s.k.track.origin
    ensures s.held == map[] ==> r.held == map[]
  {
    CheckTimers(cfg, s.(k := CountOld(cfg, s.k, start, end)), ts)
  }

  /** In order with nothing waiting: let through, or append. */
  ghost function FeedInOrder(cfg: Config, s: Stream, data: seq<byte>, ts: Time, pass: bool, skip: nat): (r: (Stream, Outcome))
    requires Calm(s) && s.held == map[] && !Stopped(s) && data != []
    ensures Calm(r.0) && NoNewStray(s, r.0) && r.0.k.track.origin == s.k.track.origin
    ensures r.0.held == map[]
  {
    var k := Advance(s.k, s.k.track.next + |data|, ts);
    if pass && k.ready == [] && Fits(cfg, |data|) then (s.(k := NotePass(cfg, k, |data|)), Passthrough(skip))
    else (CheckTimers(cfg, s.(k := Append(cfg, k, data, 0)), ts), Buffered)
  }

  /** A hole opens now, unless the stream was blocked already. */
  ghost function OpenHole(s: Stream, ts: Time): (r: Stream)
    ensures r.held == s.held && r.arrivals == s.arrivals && r.k.stop == s.k.stop && r.k.track.next == s.k.track.next
    ensures r.k.track.stray == s.k.track.stray && r.k.track.origin == s.k.track.origin
  {
    if s.held != map[] then s else s.(k := s.k.(track := s.k.track.(progress := ts)))
  }

  /** A hole in front of held data was filled. */
  ghost function CountFilled(s: Stream, filled: bool): (r: Stream)
    ensures r.held == s.held && r.arrivals == s.arrivals && r.k.stop == s.k.stop && r.k.track == s.k.track
  {
    if filled then s.(k := s.k.(c := s.k.c.(holesFilled := s.k.c.holesFilled + 1))) else s
  }

  ghost function Marked(cfg: Config, s: Stream): (r: Stream)
    ensures r.held == s.held && r.arrivals == s.arrivals && r.k.stop == s.k.stop && r.k.track == s.k.track
  {
    s.(k := Watermark(cfg, s.k, |s.held|))
  }

  /** The segment becomes held data. */
  ghost function Inserted(cfg: Config, s: Stream, start: nat, data: seq<byte>, ts: Time): (r: Stream)
    requires Calm(s) && !Stopped(s) && start >= s.k.track.next && data != []
    ensures Ahead(r) && NoNewStray(s, r) && r.k.track.origin == s.k.track.origin && r.k.track.next == s.k.track.next
  {
    CountFilled(Absorb(cfg, OpenHole(s, ts), start, data), start == s.k.track.next && s.held != map[])
  }

  /** Out of order, or in order in front of held data. */
  ghost function FeedHole(cfg: Config, s: Stream, start: nat, data: seq<byte>, ts: Time, cap: nat): (r: Stream)
    requires Calm(s) && !Stopped(s) && start >= s.k.track.next && data != []
    ensures Calm(r) && NoNewStray(s, r) && r.k.track.origin == s.k.track.origin
  {
    CheckTimers(cfg, Marked(cfg, CapSkips(cfg, Deliver(cfg, Inserted(cfg, s, start, data, ts), ts), ts, cap)), ts)
  }

  /** A segment at `start`, not too far ahead. */
  ghost function FeedNear(cfg: Config, s: Stream, start: int, payload: seq<byte>, ts: Time, pass: bool, cap: nat): (r: (Stream, Outcome))
    requires Calm(s) && !Stopped(s) && payload != []
    ensures Calm(r.0) && NoNewStray(s, r.0) && r.0.k.track.origin == s.k.track.origin
    ensures s.held == map[] && start <= s.k.track.next ==> r.0.held == map[]
  {
    var next, end := s.k.track.next, start + |payload|;
    if end <= next then (FeedOld(cfg, s, start, end, ts), Buffered)
    else
      var skip := if start < next then next - start else 0;
      var c := s.k.c;
      var s1 := if start < next then s.(k := s.k.(c := c.(retransmits := c.retransmits + 1))) else s;
      var data := payload[skip..];
      if s.held == map[] && start <= next then FeedInOrder(cfg, s1, data, ts, pass, skip)
      else (FeedHole(cfg, s1, Max(start, next), data, ts, cap), Buffered)
  }

  predicate FarAway(cfg: Config, v: TrackView, seq_: u32)
    requires v.origin.Some?
  {
    OffsetOf(v, seq_) - v.next > cfg.maxAhead
  }

  ghost function Anchored(s: Stream, seq_: u32, ts: Time): (r: Stream)
    ensures r.k.track.origin.Some? && r.k.track.next == s.k.track.next && r.k.track.stray == s.k.track.stray
    ensures r.k.stop == s.k.stop && r.held == s.held && r.arrivals == s.arrivals
  {
    s.(k := s.k.(track := Anchor(s.k.track, seq_, ts)))
  }

  /** What `feed` does when no held stray is corroborated. */
  ghost function FeedOnce(cfg: Config, s: Stream, seq_: u32, payload: seq<byte>, ts: Time, pass: bool, cap: nat): (r: (Stream, Outcome))
    requires Calm(s)
    ensures Calm(r.0)
    ensures s.k.track.origin.Some? ==> r.0.k.track.origin == s.k.track.origin
  {
    if Stopped(s) || payload == [] then (s, Buffered)
    else
      var s1 := Anchored(s, seq_, ts);
      var v := s1.k.track;
      if FarAway(cfg, v, seq_) then (s1.(k := s1.k.(track := Hold(v, OffsetOf(v, seq_), payload, ts))), Buffered)
      else FeedNear(cfg, s1, OffsetOf(v, seq_), payload, ts, pass, cap)
  }

  /**
   The window assumption of 32-bit sequence numbers: the stream has not run half
   the sequence space past a candidate it still holds.
   */
  ghost predicate InWindow(s: Stream) {
    s.k.track.stray.Some? ==>
      && s.k.track.next < s.k.track.stray.value.off + TWO_31
      && forall o :: o in s.held ==> o + 1 < s.k.track.stray.value.off + TWO_31
  }

  /** The same of the candidate that this segment would confirm, which lies past the position. */
  ghost predicate FarInWindow(cfg: Config, s: Stream, seq_: u32) {
    s.k.track.origin.Some? && FarAway(cfg, s.k.track, seq_) && Corroborated(s.k.track, OffsetOf(s.k.track, seq_), cfg.maxAhead) ==>
      forall o :: o in s.held ==> o + 1 < s.k.track.stray.value.off + TWO_31
  }

  /** Re-anchor at a corroborated candidate: flush, skip to it, deliver it, skip its cut bytes. */
  ghost function Resync(cfg: Config, s: Stream, c: Candidate, ts: Time): (r: Stream)
    requires Calm(s)
    ensures Calm(r) && r.held == map[] && NoNewStray(s, r) && r.k.track.origin == s.k.track.origin
  {
    var s1 := Flush(cfg, s, ts);
    var s2 := s1.(k := SkipTo(s1.k, c.off, ts));
    var s3 := if Stopped(s2) || c.data == [] then s2 else FeedNear(cfg, s2, c.off, c.data, ts, false, 0).0;
    if Stopped(s3) then s3 else s3.(k := SkipTo(s3.k, c.End(), ts))
  }

  ghost function Taken(s: Stream): Stream { s.(k := s.k.(track := TakeStray(s.k.track))) }

  /** One data segment. */
  ghost function Feed(cfg: Config, s: Stream, seq_: u32, payload: seq<byte>, ts: Time, pass: bool, cap: nat): (r: (Stream, Outcome))
    requires Calm(s)
    ensures Calm(r.0)
  {
    if Stopped(s) || payload == [] then (s, Buffered)
    else
      var s1 := Anchored(s, seq_, ts);
      var v := s1.k.track;
      if FarAway(cfg, v, seq_) && Corroborated(v, OffsetOf(v, seq_), cfg.maxAhead) then
        FeedOnce(cfg, Resync(cfg, Taken(s1), v.stray.value, ts), seq_, payload, ts, false, cap)
      else FeedOnce(cfg, s, seq_, payload, ts, pass, cap)
  }

  // ----- the other entry points

  ghost function SetOrigin(s: Stream, seq_: u32): Stream { Anchored(s, seq_, 0) }

  /** Apply an evidence result: record it, and resync if it corroborated a stray. */
  ghost function WithEvidence(cfg: Config, s: Stream, e: (TrackView, Option<Candidate>), ts: Time): (r: Stream)
    requires Calm(s) && e.0.next == s.k.track.next
    ensures Calm(r)
  {
    var t := s.(k := s.k.(track := e.0));
    if e.1.Some? then Resync(cfg, t, e.1.value, ts) else t
  }

  /** The peer acknowledged everything below `ack` (one byte less until the FIN is known). */
  ghost function PeerAck(cfg: Config, s: Stream, ack: u32, ts: Time): (r: Stream)
    requires Calm(s)
    ensures Calm(r)
  {
    if Stopped(s) then s
    else CheckTimers(cfg, WithEvidence(cfg, s, Evidence(s.k.track, (ack - 1) % TWO_32, ts, cfg.maxAhead), ts), ts)
  }

  ghost function FinSeen(cfg: Config, s: Stream, end: u32, ts: Time): (r: Stream)
    requires Calm(s)
    ensures Calm(r)
  {
    if Stopped(s) then s else WithEvidence(cfg, s, Fin(s.k.track, end, ts, cfg.maxAhead), ts)
  }

  /** Skip to `end`, delivering held stretches that fall inside. */
  ghost function SkipRange(cfg: Config, s: Stream, end: nat, ts: Time): (r: Stream)
    requires Calm(s)
    ensures Calm(r) && NoNewStray(s, r) && r.k.track.origin == s.k.track.origin
    ensures Stopped(r) || r.k.track.next >= end
    ensures r.k.track.next >= s.k.track.next
    decreases end - s.k.track.next
  {
    if Stopped(s) || s.k.track.next >= end then s
    else
      var to := if s.held == map[] then end else Min(Lowest(s.held), end);
      SkipRange(cfg, Deliver(cfg, s.(k := SkipTo(s.k, to, ts)), ts), end, ts)
  }

  /** `missing` when no held stray is corroborated: the stream reached the cut bytes, or not yet. */
  ghost function MissingOnce(cfg: Config, s: Stream, seq_: u32, len: nat, ts: Time): (r: Stream)
    requires Calm(s)
    ensures Calm(r)
  {
    if Stopped(s) || len == 0 then s
    else
      var s1 := Anchored(s, seq_, ts);
      var v := s1.k.track;
      var start := OffsetOf(v, seq_);
      if start + len <= v.next then s1
      else if start - v.next > cfg.maxAhead then MissingFar(cfg, s1, start, len, ts)
      else if start <= v.next then CheckTimers(cfg, Marked(cfg, SkipRange(cfg, s1, start + len, ts)), ts)
      else MissingAhead(cfg, s1, (seq_ + len) % TWO_32, ts)
  }

  /** Cut bytes far ahead: a candidate of their own, or the tail of the one held. */
  ghost function MissingFar(cfg: Config, s: Stream, start: nat, len: nat, ts: Time): (r: Stream)
    requires Calm(s)
    ensures Calm(r)
  {
    var v := s.k.track;
    var w := if Continues(v, start, ts) then v else Hold(v, start, [], ts);
    CheckTimers(cfg, s.(k := s.k.(track := ExtendStray(w, start, len, ts))), ts)
  }

  /** Cut bytes behind a hole prove that the stream reaches `end`. */
  ghost function MissingAhead(cfg: Config, s: Stream, end: u32, ts: Time): (r: Stream)
    requires Calm(s)
    ensures Calm(r)
  {
    CheckTimers(cfg, WithEvidence(cfg, s, Evidence(s.k.track, end, ts, cfg.maxAhead), ts), ts)
  }

  /** The capture lost `len` bytes from `seq` on. */
  ghost function MissingBytes(cfg: Config, s: Stream, seq_: u32, len: nat, ts: Time): (r: Stream)
    requires Calm(s)
    ensures Calm(r)
  {
    if Stopped(s) || len == 0 then s
    else
      var s1 := Anchored(s, seq_, ts);
      var v := s1.k.track;
      var start := OffsetOf(v, seq_);
      if start - v.next > cfg.maxAhead && !Continues(v, start, ts) && Corroborated(v, start, cfg.maxAhead) then
        MissingOnce(cfg, Resync(cfg, Taken(s1), v.stray.value, ts), seq_, len, ts)
      else MissingOnce(cfg, s, seq_, len, ts)
  }

  /** End of flow: skip every hole, then the acknowledged tail, and forget the stray. */
  ghost function FlushPending(cfg: Config, s: Stream): (r: Stream)
    requires Calm(s)
    ensures Calm(r)
  {
    var ts := s.k.track.progress;
    var u := SkipProven(Flush(cfg, s, ts), ts);
    u.(k := u.k.(track := DropStray(u.k.track)))
  }

  /** What evidence vouches for past the position becomes a gap. */
  ghost function SkipProven(s: Stream, ts: Time): (r: Stream)
    ensures r.held == s.held && r.arrivals == s.arrivals && r.k.stop == s.k.stop && r.k.track.next >= s.k.track.next
  {
    if Stopped(s) || Frontier(s.k.track).None? then s
    else var a := CountAckGap(s); a.(k := SkipTo(a.k, Frontier(s.k.track).value, ts))
  }

  ghost function Drain(s: Stream): Stream { s.(k := Drained(s.k)) }

  /** `release`: drop everything and stop. */
  ghost function Release(s: Stream): Stream {
    var k := s.k.(ready := [], track := DropStray(s.k.track), stop := if s.k.stop.Some? then s.k.stop else Some(Memcap));
    Stream(k, map[], 0)
  }

  // ----- the position never runs past what is held

  /** Position and held bytes lie below `b`. */
  ghost predicate Below(s: Stream, b: int) {
    s.k.track.next < b && forall o :: o in s.held ==> o + 1 < b
  }

  lemma SkipFirstBelow(cfg: Config, s: Stream, ts: Time, b: int)
    requires Ahead(s) && Below(s, b)
    ensures Below(SkipFirst(cfg, s, ts), b)
  {
    if s.held != map[] {
      var t := s.(k := SkipTo(s.k, Lowest(s.held), ts));
      var e := StretchEnd(t.held, t.k.track.next);
      assert e > t.k.track.next && e - 1 in t.held;
    }
  }

  lemma {:induction false} FlushBelow(cfg: Config, s: Stream, ts: Time, b: int)
    requires Ahead(s) && Below(s, b)
    ensures Below(Flush(cfg, s, ts), b)
    decreases |s.held|
  {
    if !Stopped(s) && s.held != map[] {
      SkipFirstBelow(cfg, s, ts, b);
      FlushBelow(cfg, SkipFirst(cfg, s, ts), ts, b);
    }
  }

  /** The segment that anchors a stream is not far from it. */
  lemma FirstIsNear(cfg: Config, s: Stream, seq_: u32, ts: Time)
    ensures s.k.track.origin.None? ==> OffsetOf(Anchored(s, seq_, ts).k.track, seq_) == s.k.track.next
    ensures s.k.track.origin.Some? ==> Anchored(s, seq_, ts) == s
  {
    var v := Anchored(s, seq_, ts).k.track;
    ModSame(v.origin.value + v.next, seq_);
  }

  /** The three ways `feed` can go. */
  lemma FeedCases(cfg: Config, s: Stream, seq_: u32, payload: seq<byte>, ts: Time, pass: bool, cap: nat)
    requires Calm(s) && !Stopped(s) && payload != []
    ensures var s1 := Anchored(s, seq_, ts);
            var v := s1.k.track;
            var off := OffsetOf(v, seq_);
            && (!FarAway(cfg, v, seq_) ==>
                  Feed(cfg, s, seq_, payload, ts, pass, cap) == FeedNear(cfg, s1, off, payload, ts, pass, cap))
            && (FarAway(cfg, v, seq_) && !Corroborated(v, off, cfg.maxAhead) ==>
                  Feed(cfg, s, seq_, payload, ts, pass, cap) == (s1.(k := s1.k.(track := Hold(v, off, payload, ts))), Buffered))
            && (FarAway(cfg, v, seq_) && Corroborated(v, off, cfg.maxAhead) ==>
                  Feed(cfg, s, seq_, payload, ts, pass, cap)
                  == Feed(cfg, Resync(cfg, Taken(s1), v.stray.value, ts), seq_, payload, ts, false, cap))
  {
    hide FeedNear, Resync, OffsetOf;
  }

  /** With nothing held and nothing missing before it, the byte budget plays no part. */
  lemma FeedCapFree(cfg: Config, s: Stream, start: int, payload: seq<byte>, ts: Time, pass: bool, cap: nat)
    requires Calm(s) && !Stopped(s) && payload != [] && s.held == map[] && start <= s.k.track.next
    ensures FeedNear(cfg, s, start, payload, ts, pass, cap) == FeedNear(cfg, s, start, payload, ts, pass, 0)
  {
    hide FeedOld, FeedInOrder, FeedHole;
  }

  /** Feeding a candidate back by its sequence number lands at its own offset. */
  lemma FeedCandidate(cfg: Config, s: Stream, c: Candidate, ts: Time, cap: nat)
    requires Calm(s) && s.held == map[] && s.k.track.stray.None? && s.k.track.origin.Some?
    requires c.off <= s.k.track.next < c.off + TWO_31
    ensures Feed(cfg, s, SeqAt(s.k.track.origin.value, c.off), c.data, ts, false, cap).0
         == if Stopped(s) || c.data == [] then s else FeedNear(cfg, s, c.off, c.data, ts, false, 0).0
  {
    OffsetOfUnique(s.k.track, c.off);
    if !Stopped(s) && c.data != [] {
      hide Feed, FeedNear;
      FeedCases(cfg, s, SeqAt(s.k.track.origin.value, c.off), c.data, ts, false, cap);
      FeedCapFree(cfg, s, c.off, c.data, ts, false, cap);
    }
  }

  /** Anchoring first changes nothing. */
  lemma MissingAnchored(cfg: Config, s: Stream, seq_: u32, len: nat, ts: Time)
    requires Calm(s) && !Stopped(s) && len > 0
    ensures MissingBytes(cfg, Anchored(s, seq_, ts), seq_, len, ts) == MissingBytes(cfg, s, seq_, len, ts)
  {
    hide CheckTimers, Resync, SkipRange, Marked, OffsetOf, MissingAhead, MissingFar;
  }

  /** The ways `missing` can go. */
  lemma MissingCases(cfg: Config, s: Stream, seq_: u32, len: nat, ts: Time)
    requires Calm(s) && !Stopped(s) && len > 0
    ensures var s1 := Anchored(s, seq_, ts);
            var v := s1.k.track;
            var start := OffsetOf(v, seq_);
            var r := MissingBytes(cfg, s, seq_, len, ts);
            && (start + len <= v.next ==> r == s1)
            && (start - v.next > cfg.maxAhead ==>
                  var (w, c) := FarMissing(v, start, len, ts, cfg.maxAhead);
                  if c.Some? then
                    w == TakeStray(v) && c == v.stray
                    && r == MissingBytes(cfg, Resync(cfg, Taken(s1), v.stray.value, ts), seq_, len, ts)
                  else r == CheckTimers(cfg, s1.(k := s1.k.(track := w)), ts))
            && (start + len > v.next && start <= v.next ==>
                  r == CheckTimers(cfg, Marked(cfg, SkipRange(cfg, s1, start + len, ts)), ts))
            && (v.next < start <= v.next + cfg.maxAhead ==>
                  r == MissingAhead(cfg, s1, (seq_ + len) % TWO_32, ts))
  {
    hide CheckTimers, Resync, SkipRange, Marked, OffsetOf, MissingAhead;
  }
}

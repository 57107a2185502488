/**
 `BufferedReassembler` (src/reassembler.rs) as functions on values: the same
 output side, and a single slot for an early segment.
 */
module BufferedSpec {
  import opened Types
  import opened Tracking
  import opened SinkSpec

  datatype Line = Line(k: Sink, wait: Option<Candidate>)

  function FreshLine(): Line { Line(FreshSink(), None) }

  ghost predicate Stopped(s: Line) { s.k.stop.Some? }

  /** The waiting segment lies past the position; a stopped side waits for nothing. */
  ghost predicate Calm(s: Line) {
    && (s.wait.Some? ==> s.wait.value.off > s.k.track.next && s.wait.value.data != [])
    && (Stopped(s) ==> s.wait.None?)
  }

  /** `t` has the same anchor as `s` and no new candidates. */
  ghost predicate Tidy(s: Line, t: Line) {
    && t.k.track.origin == s.k.track.origin
    && (t.k.track.stray == s.k.track.stray || t.k.track.stray.None?)
    && (t.wait == s.wait || t.wait.None?)
    && t.k.track.next >= s.k.track.next
    && (Stopped(s) ==> Stopped(t))
  }

  /** Of bytes that begin no later than the position, what lies past it is output. */
  ghost function Place(cfg: Config, s: Line, off: nat, data: seq<byte>, ts: Time): (r: Line)
    requires off <= s.k.track.next && (Stopped(s) ==> s.wait.None?)
    ensures Tidy(s, r) && (Stopped(r) ==> r.wait.None?) && r.k.track.next == Max(s.k.track.next, off + |data|)
    ensures s.wait.Some? && !Stopped(r) ==> r.wait == s.wait
  {
    var next := s.k.track.next;
    if off + |data| <= next then s
    else
      var k := Append(cfg, Advance(s.k, off + |data|, ts), data[next - off..], 0);
      Line(k, if k.stop.Some? then None else s.wait)
  }

  /** The waiting segment comes out, with a gap before it unless the stream is already there. */
  ghost function ReleaseWait(cfg: Config, s: Line, ts: Time): (r: Line)
    requires Calm(s)
    ensures Calm(r) && r.wait.None? && Tidy(s, r)
    ensures s.wait.None? ==> r == s
    ensures s.wait.Some? ==> r.k.track.next > s.wait.value.off
  {
    if s.wait.None? then s
    else
      var c := s.wait.value;
      Place(cfg, Line(SkipTo(s.k, c.off, ts), None), c.off, c.data, ts)
  }

  /** The waiting segment comes out once nothing before it is missing. */
  ghost function TryWait(cfg: Config, s: Line, ts: Time): (r: Line)
    requires Stopped(s) ==> s.wait.None?
    requires s.wait.Some? ==> s.wait.value.data != []
    ensures Calm(r) && Tidy(s, r)
    ensures s.wait.None? ==> r == s
  {
    if s.wait.Some? && s.wait.value.off <= s.k.track.next
    then Place(cfg, s.(wait := None), s.wait.value.off, s.wait.value.data, ts)
    else s
  }

  ghost function Resync(cfg: Config, s: Line, c: Candidate, ts: Time): (r: Line)
    requires Calm(s)
    ensures Calm(r) && r.wait.None? && Tidy(s, r)
  {
    var s1 := ReleaseWait(cfg, s, ts);
    var s2 := Place(cfg, s1.(k := SkipTo(s1.k, c.off, ts)), c.off, c.data, ts);
    if Stopped(s2) then s2 else s2.(k := SkipTo(s2.k, c.End(), ts))
  }

  ghost function CountAckGap(s: Line): (r: Line)
    ensures r.wait == s.wait && r.k.track == s.k.track && r.k.stop == s.k.stop
  {
    s.(k := s.k.(c := s.k.c.(ackGaps := s.k.c.ackGaps + 1)))
  }

  /** Acknowledged bytes that never came, after the grace period. */
  ghost function AckTimer(cfg: Config, s: Line, now: Time): (r: Line)
    requires Calm(s)
    ensures Calm(r) && Tidy(s, r)
  {
    match EvidenceDue(s.k.track, now, cfg.ackGrace)
    case None => s
    case Some(frontier) =>
      if s.wait.None? then var t := CountAckGap(s); t.(k := SkipTo(t.k, frontier, now))
      else if s.wait.value.off <= frontier then ReleaseWait(cfg, CountAckGap(s), now)
      else s
  }

  ghost function CheckTimers(cfg: Config, s: Line, now: Time): (r: Line)
    requires Calm(s)
    ensures Calm(r) && Tidy(s, r)
  {
    if Stopped(s) then s
    else
      var a := AckTimer(cfg, s, now);
      var t := if a.wait.Some? && Since(now, a.wait.value.ts) > cfg.deadline then ReleaseWait(cfg, a, now) else a;
      t.(k := t.k.(track := ExpireStray(t.k.track, now, cfg.deadline * 4)))
  }

  // ----- feed

  ghost function Anchored(s: Line, seq_: u32, ts: Time): (r: Line)
    ensures r.k.track.origin.Some? && r.k.track.next == s.k.track.next && r.k.track.stray == s.k.track.stray
    ensures r.k.stop == s.k.stop && r.wait == s.wait
    ensures s.k.track.origin.Some? ==> r == s
  {
    s.(k := s.k.(track := Anchor(s.k.track, seq_, ts)))
  }

  /** In order: let through, or append and see whether the waiting segment follows. */
  ghost function FeedInOrder(cfg: Config, s: Line, start: int, payload: seq<byte>, ts: Time, pass: bool): (r: (Line, Outcome))
    requires Calm(s) && !Stopped(s) && start <= s.k.track.next < start + |payload|
    ensures Calm(r.0) && Tidy(s, r.0)
  {
    var skip := s.k.track.next - start;
    var k := Advance(s.k, start + |payload|, ts);
    if pass && k.ready == [] && s.wait.None? && Fits(cfg, |payload| - skip)
    then (s.(k := NotePass(cfg, k, |payload| - skip)), Passthrough(skip))
    else
      var a := Append(cfg, k, payload[skip..], 0);
      (CheckTimers(cfg, TryWait(cfg, Line(a, if a.stop.Some? then None else s.wait), ts), ts), Buffered)
  }

  /** Ahead of the stream with nothing waiting: wait for the hole. */
  ghost function FeedAhead(cfg: Config, s: Line, start: nat, payload: seq<byte>, ts: Time): (r: Line)
    requires Calm(s) && !Stopped(s) && s.wait.None? && s.k.track.next < start && payload != []
    ensures Calm(r) && r.k.track.origin == s.k.track.origin
    ensures r.k.track.stray == s.k.track.stray || r.k.track.stray.None?
  {
    CheckTimers(cfg, Line(s.k.(track := s.k.track.(progress := ts)), Some(Candidate(start, payload, ts, 0))), ts)
  }

  ghost function Taken(s: Line): Line { s.(k := s.k.(track := TakeStray(s.k.track))) }

  ghost function Retransmitted(s: Line): (r: Line)
    ensures r.wait == s.wait && r.k.track == s.k.track && r.k.stop == s.k.stop && r.k.ready == s.k.ready && r.k.above == s.k.above
    ensures r.k.c == s.k.c.(retransmits := r.k.c.retransmits)
  {
    s.(k := s.k.(c := s.k.c.(retransmits := s.k.c.retransmits + 1)))
  }

  /** Two bits that only ever go down while one segment is fed again. */
  ghost function Rank(s: Line): nat {
    (if s.k.track.stray.Some? then 2 else 0) + if s.wait.Some? then 1 else 0
  }

  /** One data segment. */
  ghost function Feed(cfg: Config, s: Line, seq_: u32, payload: seq<byte>, ts: Time, pass: bool): (r: (Line, Outcome))
    requires Calm(s)
    ensures Calm(r.0)
    decreases Rank(s)
  {
    if payload == [] || Stopped(s) then (s, Buffered)
    else
      var s1 := Anchored(s, seq_, ts);
      var v := s1.k.track;
      var start := OffsetOf(v, seq_);
      if start - v.next > cfg.maxAhead then
        if Corroborated(v, start, cfg.maxAhead)
        then Feed(cfg, Resync(cfg, Taken(s1), v.stray.value, ts), seq_, payload, ts, false)
        else (s1.(k := s1.k.(track := Hold(v, start, payload, ts))), Buffered)
      else if start + |payload| <= v.next then (CheckTimers(cfg, s1.(k := CountOld(cfg, s1.k, start, start + |payload|)), ts), Buffered)
      else if start > v.next then
        if s1.wait.Some? then Feed(cfg, ReleaseWait(cfg, s1, ts), seq_, payload, ts, false)
        else (FeedAhead(cfg, s1, start, payload, ts), Buffered)
      else FeedInOrder(cfg, if start < v.next then Retransmitted(s1) else s1, start, payload, ts, pass)
  }

  // ----- the other entry points

  ghost function WithEvidence(cfg: Config, s: Line, e: (TrackView, Option<Candidate>), ts: Time): (r: Line)
    requires Calm(s) && e.0.next == s.k.track.next
    ensures Calm(r)
  {
    var t := s.(k := s.k.(track := e.0));
    if e.1.Some? then Resync(cfg, t, e.1.value, ts) else t
  }

  ghost function PeerAck(cfg: Config, s: Line, ack: u32, ts: Time): (r: Line)
    requires Calm(s)
    ensures Calm(r)
  {
    if Stopped(s) then s
    else CheckTimers(cfg, WithEvidence(cfg, s, Evidence(s.k.track, (ack - 1) % TWO_32, ts, cfg.maxAhead), ts), ts)
  }

  ghost function FinSeen(cfg: Config, s: Line, end: u32, ts: Time): (r: Line)
    requires Calm(s)
    ensures Calm(r)
  {
    if Stopped(s) then s else WithEvidence(cfg, s, Fin(s.k.track, end, ts, cfg.maxAhead), ts)
  }

  /** A gap up to `end`, in which a waiting segment keeps its bytes. */
  ghost function SkipRange(cfg: Config, s: Line, end: nat, ts: Time): (r: Line)
    requires Calm(s)
    ensures Calm(r) && Tidy(s, r)
    ensures Stopped(r) || r.k.track.next >= end
    decreases end - s.k.track.next
  {
    if Stopped(s) || s.k.track.next >= end then s
    else
      var to := if s.wait.None? then end else Min(s.wait.value.off, end);
      SkipRange(cfg, TryWait(cfg, s.(k := SkipTo(s.k, to, ts)), ts), end, ts)
  }

  ghost function MissingFar(cfg: Config, s: Line, start: nat, len: nat, ts: Time): (r: Line)
    requires Calm(s)
    ensures Calm(r)
  {
    var v := s.k.track;
    var w := if Continues(v, start, ts) then v else Hold(v, start, [], ts);
    CheckTimers(cfg, s.(k := s.k.(track := ExtendStray(w, start, len, ts))), ts)
  }

  ghost function MissingAhead(cfg: Config, s: Line, end: u32, ts: Time): (r: Line)
    requires Calm(s)
    ensures Calm(r)
  {
    CheckTimers(cfg, WithEvidence(cfg, s, Evidence(s.k.track, end, ts, cfg.maxAhead), ts), ts)
  }

  /** The capture lost `len` bytes from `seq` on. */
  ghost function MissingBytes(cfg: Config, s: Line, seq_: u32, len: nat, ts: Time): (r: Line)
    requires Calm(s)
    ensures Calm(r)
    decreases if s.k.track.stray.Some? then 1 else 0
  {
    if Stopped(s) || len == 0 then s
    else
      var s1 := Anchored(s, seq_, ts);
      var v := s1.k.track;
      var start := OffsetOf(v, seq_);
      if start + len <= v.next then s1
      else if start - v.next > cfg.maxAhead then
        if !Continues(v, start, ts) && Corroborated(v, start, cfg.maxAhead)
        then MissingBytes(cfg, Resync(cfg, Taken(s1), v.stray.value, ts), seq_, len, ts)
        else MissingFar(cfg, s1, start, len, ts)
      else if start <= v.next then CheckTimers(cfg, SkipRange(cfg, s1, start + len, ts), ts)
      else MissingAhead(cfg, s1, (seq_ + len) % TWO_32, ts)
  }

  /** End of flow: deliver the waiting segment, skip the acknowledged tail, forget the stray. */
  ghost function FlushPending(cfg: Config, s: Line): (r: Line)
    requires Calm(s)
    ensures Calm(r)
  {
    if Stopped(s) then s
    else
      var ts := s.k.track.progress;
      var t := ReleaseWait(cfg, s, ts);
      var u := if Frontier(t.k.track).Some?
               then var a := CountAckGap(t); a.(k := SkipTo(a.k, Frontier(t.k.track).value, ts)) else t;
      u.(k := u.k.(track := DropStray(u.k.track)))
  }

  ghost function Drain(s: Line): Line { s.(k := Drained(s.k)) }

  ghost function Release(s: Line): Line {
    Line(s.k.(ready := [], track := DropStray(s.k.track), stop := if s.k.stop.Some? then s.k.stop else Some(Memcap)), None)
  }
}

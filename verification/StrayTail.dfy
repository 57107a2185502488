/**
 A far segment and the part of it the capture cut off, fed one after the other
 to either reassembler: one candidate, one count, no reset.
 */
module StrayTail {
  import opened Types
  import opened Tracking
  import opened Store
  import opened SinkSpec
  import S = SegmentSpec
  import B = BufferedSpec

  /** Same counts of strays and resets, and the same candidate unless the side stopped. */
  predicate Quiet(a: Sink, b: Sink) {
    && b.track.outOfWindow == a.track.outOfWindow && b.track.resets == a.track.resets
    && (b.track.stray == a.track.stray || b.stop.Some?)
    && (a.stop.Some? ==> b.stop.Some?)
  }

  lemma AppendQuiet(cfg: Config, k: Sink, bytes: seq<byte>, extra: nat)
    ensures Quiet(k, Append(cfg, k, bytes, extra))
  {
  }

  lemma SkipQuiet(k: Sink, to: nat, ts: Time)
    ensures Quiet(k, SkipTo(k, to, ts))
  {
  }

  /** A candidate as fresh as `now` does not expire. */
  lemma FreshStays(v: TrackView, now: Time, age: Time)
    requires v.stray.Some? && v.stray.value.ts == now
    ensures ExpireStray(v, now, age) == v
  {
  }

  // ----- the segment reassembler

  lemma DeliverQuiet(cfg: Config, s: S.Stream, ts: Time)
    requires S.Ahead(s)
    ensures Quiet(s.k, S.Deliver(cfg, s, ts).k)
  {
    hide Append;
    if s.k.track.next in s.held {
      var e := StretchEnd(s.held, s.k.track.next);
      AppendQuiet(cfg, Advance(s.k, e, ts), BytesOf(s.held, s.k.track.next, e), |From(s.held, e)|);
    }
  }

  lemma SkipFirstQuiet(cfg: Config, s: S.Stream, ts: Time)
    requires S.Ahead(s)
    ensures Quiet(s.k, S.SkipFirst(cfg, s, ts).k)
  {
    hide S.Deliver, SkipTo;
    if s.held != map[] {
      SkipQuiet(s.k, Lowest(s.held), ts);
      DeliverQuiet(cfg, s.(k := SkipTo(s.k, Lowest(s.held), ts)), ts);
    }
  }

  lemma {:induction false} SkipUpToQuiet(cfg: Config, s: S.Stream, ts: Time, frontier: nat)
    requires S.Calm(s)
    ensures Quiet(s.k, S.SkipUpTo(cfg, s, ts, frontier).k)
    decreases |s.held|
  {
    hide S.SkipFirst;
    if !S.Stopped(s) && s.held != map[] && Lowest(s.held) <= frontier {
      SkipFirstQuiet(cfg, s, ts);
      SkipUpToQuiet(cfg, S.SkipFirst(cfg, s, ts), ts, frontier);
    }
  }

  lemma AckTimerQuiet(cfg: Config, s: S.Stream, now: Time)
    requires S.Calm(s)
    ensures Quiet(s.k, S.AckTimer(cfg, s, now).k)
  {
    hide S.SkipUpTo, SkipTo;
    var due := EvidenceDue(s.k.track, now, cfg.ackGrace);
    if due.Some? {
      SkipQuiet(S.CountAckGap(s).k, due.value, now);
      SkipUpToQuiet(cfg, S.CountAckGap(s), now, due.value);
    }
  }

  lemma TimersQuiet(cfg: Config, s: S.Stream, now: Time)
    requires S.Calm(s) && s.k.track.stray.Some? && s.k.track.stray.value.ts == now
    ensures Quiet(s.k, S.CheckTimers(cfg, s, now).k)
  {
    hide S.AckTimer, S.SkipFirst, S.Stalled, ExpireStray;
    if !S.Stopped(s) {
      AckTimerQuiet(cfg, s, now);
      var a := S.AckTimer(cfg, s, now);
      SkipFirstQuiet(cfg, a, now);
      var t := S.StallTimer(cfg, a, now);
      if t.k.track.stray.Some? { FreshStays(t.k.track, now, cfg.deadline * 4); }
      ExpireCounts(t.k.track, now, cfg.deadline * 4);
    }
  }

  lemma ExpireCounts(v: TrackView, now: Time, age: Time)
    ensures var w := ExpireStray(v, now, age); w.outOfWindow == v.outOfWindow && w.resets == v.resets
  {
  }

  /** The sequence number after the payload is the offset after it, inside the half window. */
  lemma TailOffset(v: TrackView, seq_: u32, n: nat)
    requires v.origin.Some? && OffsetOf(v, seq_) + n < v.next + TWO_31
    ensures OffsetOf(v, (seq_ + n) % TWO_32) == OffsetOf(v, seq_) + n
  {
    hide OffsetOf;
    OffsetOfSound(v, seq_);
    SeqAfter(v.origin.value, OffsetOf(v, seq_), n);
    hide SeqAt;
    OffsetOfUnique(v, OffsetOf(v, seq_) + n);
  }

  lemma SeqAfter(origin: u32, off: int, n: nat)
    ensures SeqAt(origin, off + n) == (SeqAt(origin, off) + n) % TWO_32
  {
    ModSame(origin + off + n, SeqAt(origin, off) + n);
  }

  /** Feeding a far segment and then its cut tail, with no candidate before: the tail joins the segment. */
  lemma SegmentTail(cfg: Config, s: S.Stream, seq_: u32, payload: seq<byte>, len: nat, ts: Time, pass: bool, cap: nat)
    requires S.Calm(s) && !S.Stopped(s) && s.k.track.stray.None? && s.k.track.origin.Some?
    requires payload != [] && len > 0 && S.FarAway(cfg, s.k.track, seq_)
    requires OffsetOf(s.k.track, seq_) + |payload| < s.k.track.next + TWO_31
    ensures var f := S.Feed(cfg, s, seq_, payload, ts, pass, cap).0;
            var g := S.MissingBytes(cfg, f, (seq_ + |payload|) % TWO_32, len, ts);
            && g.k.track.outOfWindow == s.k.track.outOfWindow + 1 && g.k.track.resets == s.k.track.resets
            && (!S.Stopped(g) ==> g.k.track.stray == Some(Candidate(OffsetOf(s.k.track, seq_), payload, ts, len)))
  {
    hide S.Feed, S.FeedNear, S.MissingBytes, S.Resync, S.CheckTimers, S.SkipRange, S.MissingAhead, OffsetOf, S.Calm;
    var v := s.k.track;
    var off := OffsetOf(v, seq_);
    S.FeedCases(cfg, s, seq_, payload, ts, pass, cap);
    var f := s.(k := s.k.(track := Hold(v, off, payload, ts)));
    var tail := (seq_ + |payload|) % TWO_32;
    TailOffset(v, seq_, |payload|);
    SameOffset(v, f.k.track, tail);
    S.MissingCases(cfg, f, tail, len, ts);
    var x := f.(k := f.k.(track := ExtendStray(f.k.track, off + |payload|, len, ts)));
    assert S.Calm(x) by { StillCalm(s, x); }
    TimersQuiet(cfg, x, ts);
  }

  lemma SameOffset(v: TrackView, w: TrackView, seq_: u32)
    requires v.origin.Some? && w.origin == v.origin && w.next == v.next
    ensures OffsetOf(w, seq_) == OffsetOf(v, seq_)
  {
  }

  lemma StillCalm(s: S.Stream, t: S.Stream)
    requires S.Calm(s) && t.held == s.held && t.arrivals == s.arrivals && t.k.track.next == s.k.track.next && t.k.stop == s.k.stop
    ensures S.Calm(t)
  {
  }

  // ----- the one-slot reassembler

  lemma PlaceQuiet(cfg: Config, s: B.Line, off: nat, data: seq<byte>, ts: Time)
    requires off <= s.k.track.next && (B.Stopped(s) ==> s.wait.None?)
    ensures Quiet(s.k, B.Place(cfg, s, off, data, ts).k)
  {
    hide Append;
    if off + |data| > s.k.track.next {
      AppendQuiet(cfg, Advance(s.k, off + |data|, ts), data[s.k.track.next - off..], 0);
    }
  }

  lemma ReleaseQuiet(cfg: Config, s: B.Line, ts: Time)
    requires B.Calm(s)
    ensures Quiet(s.k, B.ReleaseWait(cfg, s, ts).k)
  {
    hide B.Place, SkipTo;
    if s.wait.Some? {
      var c := s.wait.value;
      SkipQuiet(s.k, c.off, ts);
      PlaceQuiet(cfg, B.Line(SkipTo(s.k, c.off, ts), None), c.off, c.data, ts);
    }
  }

  lemma LineAckQuiet(cfg: Config, s: B.Line, now: Time)
    requires B.Calm(s)
    ensures Quiet(s.k, B.AckTimer(cfg, s, now).k)
  {
    hide B.ReleaseWait, SkipTo;
    var due := EvidenceDue(s.k.track, now, cfg.ackGrace);
    if due.Some? {
      SkipQuiet(B.CountAckGap(s).k, due.value, now);
      ReleaseQuiet(cfg, B.CountAckGap(s), now);
    }
  }

  lemma LineTimersQuiet(cfg: Config, s: B.Line, now: Time)
    requires B.Calm(s) && s.k.track.stray.Some? && s.k.track.stray.value.ts == now
    ensures Quiet(s.k, B.CheckTimers(cfg, s, now).k)
  {
    hide B.AckTimer, B.ReleaseWait, ExpireStray;
    if !B.Stopped(s) {
      LineAckQuiet(cfg, s, now);
      var a := B.AckTimer(cfg, s, now);
      ReleaseQuiet(cfg, a, now);
      var t := if a.wait.Some? && Since(now, a.wait.value.ts) > cfg.deadline then B.ReleaseWait(cfg, a, now) else a;
      if t.k.track.stray.Some? { FreshStays(t.k.track, now, cfg.deadline * 4); }
      ExpireCounts(t.k.track, now, cfg.deadline * 4);
    }
  }

  /** The same of the one-slot reassembler. */
  lemma LineTail(cfg: Config, s: B.Line, seq_: u32, payload: seq<byte>, len: nat, ts: Time, pass: bool)
    requires B.Calm(s) && !B.Stopped(s) && s.k.track.stray.None? && s.k.track.origin.Some?
    requires payload != [] && len > 0 && S.FarAway(cfg, s.k.track, seq_)
    requires OffsetOf(s.k.track, seq_) + |payload| < s.k.track.next + TWO_31
    ensures var f := B.Feed(cfg, s, seq_, payload, ts, pass).0;
            var g := B.MissingBytes(cfg, f, (seq_ + |payload|) % TWO_32, len, ts);
            && g.k.track.outOfWindow == s.k.track.outOfWindow + 1 && g.k.track.resets == s.k.track.resets
            && (!B.Stopped(g) ==> g.k.track.stray == Some(Candidate(OffsetOf(s.k.track, seq_), payload, ts, len)))
  {
    hide OffsetOf, B.Feed, B.MissingBytes, B.CheckTimers;
    var v := s.k.track;
    var off := OffsetOf(v, seq_);
    LineHolds(cfg, s, seq_, payload, ts, pass);
    var f := s.(k := s.k.(track := Hold(v, off, payload, ts)));
    var tail := (seq_ + |payload|) % TWO_32;
    TailOffset(v, seq_, |payload|);
    SameOffset(v, f.k.track, tail);
    LineExtends(cfg, f, tail, len, ts);
    var x := f.(k := f.k.(track := ExtendStray(f.k.track, off + |payload|, len, ts)));
    LineTimersQuiet(cfg, x, ts);
  }

  lemma LineHolds(cfg: Config, s: B.Line, seq_: u32, payload: seq<byte>, ts: Time, pass: bool)
    requires B.Calm(s) && !B.Stopped(s) && s.k.track.stray.None? && s.k.track.origin.Some?
    requires payload != [] && S.FarAway(cfg, s.k.track, seq_)
    ensures B.Feed(cfg, s, seq_, payload, ts, pass).0 == s.(k := s.k.(track := Hold(s.k.track, OffsetOf(s.k.track, seq_), payload, ts)))
  {
    hide OffsetOf, B.CheckTimers, B.FeedInOrder, B.FeedAhead, B.ReleaseWait, B.Resync, B.Calm;
  }

  lemma LineExtends(cfg: Config, s: B.Line, seq_: u32, len: nat, ts: Time)
    requires B.Calm(s) && !B.Stopped(s) && s.k.track.origin.Some? && len > 0
    requires S.FarAway(cfg, s.k.track, seq_) && Continues(s.k.track, OffsetOf(s.k.track, seq_), ts)
    ensures B.MissingBytes(cfg, s, seq_, len, ts)
         == B.CheckTimers(cfg, s.(k := s.k.(track := ExtendStray(s.k.track, OffsetOf(s.k.track, seq_), len, ts))), ts)
  {
    hide OffsetOf, B.CheckTimers, B.SkipRange, B.MissingAhead, B.Resync;
  }
}

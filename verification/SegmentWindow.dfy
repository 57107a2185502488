/**
 When the out-of-order reassembler's window condition holds: over any run, what
 is held stays close to the position, so comparing the position with the
 candidate's offset is enough.
 */
module SegmentWindow {
  import opened Types
  import opened Tracking
  import opened OutOfOrder
  import opened Store
  import opened SinkSpec
  import opened Wire
  import opened SegmentSpec
  import opened SegmentRuns

  /** Nothing is held further ahead than a segment of `m` bytes can reach. */
  ghost predicate Near(cfg: Config, m: nat, s: Stream) {
    forall o :: o in s.held ==> o < s.k.track.next + cfg.maxAhead + m
  }

  /** Nothing new is held, and the stream did not move back. */
  ghost predicate Shrunk(s: Stream, t: Stream) { t.held.Keys <= s.held.Keys && t.k.track.next >= s.k.track.next }

  lemma ShrunkNear(cfg: Config, m: nat, s: Stream, t: Stream)
    requires Near(cfg, m, s) && Shrunk(s, t)
    ensures Near(cfg, m, t)
  {
    forall o | o in t.held ensures o < t.k.track.next + cfg.maxAhead + m { assert o in s.held; }
  }

  lemma DeliverShrinks(cfg: Config, s: Stream, ts: Time)
    requires Ahead(s)
    ensures Shrunk(s, Deliver(cfg, s, ts))
  {
    hide Append;
  }

  lemma SkipFirstShrinks(cfg: Config, s: Stream, ts: Time)
    requires Ahead(s)
    ensures Shrunk(s, SkipFirst(cfg, s, ts))
  {
    hide Deliver, SkipTo;
    if s.held != map[] { DeliverShrinks(cfg, s.(k := SkipTo(s.k, Lowest(s.held), ts)), ts); }
  }

  lemma {:induction false} CapSkipsShrink(cfg: Config, s: Stream, ts: Time, n: nat)
    requires Calm(s)
    ensures Shrunk(s, CapSkips(cfg, s, ts, n))
    decreases n
  {
    hide SkipFirst;
    if n > 0 && !Stopped(s) && s.held != map[] {
      SkipFirstShrinks(cfg, s, ts);
      CapSkipsShrink(cfg, SkipFirst(cfg, s, ts), ts, n - 1);
    }
  }

  lemma {:induction false} SkipUpToShrinks(cfg: Config, s: Stream, ts: Time, f: nat)
    requires Calm(s)
    ensures Shrunk(s, SkipUpTo(cfg, s, ts, f))
    decreases |s.held|
  {
    hide SkipFirst;
    if !Stopped(s) && s.held != map[] && Lowest(s.held) <= f {
      SkipFirstShrinks(cfg, s, ts);
      SkipUpToShrinks(cfg, SkipFirst(cfg, s, ts), ts, f);
    }
  }

  lemma {:induction false} SkipRangeShrinks(cfg: Config, s: Stream, end: nat, ts: Time)
    requires Calm(s)
    ensures Shrunk(s, SkipRange(cfg, s, end, ts))
    decreases end - s.k.track.next
  {
    hide Deliver, SkipTo;
    if !Stopped(s) && s.k.track.next < end {
      var to := if s.held == map[] then end else Min(Lowest(s.held), end);
      var t := s.(k := SkipTo(s.k, to, ts));
      DeliverShrinks(cfg, t, ts);
      SkipRangeShrinks(cfg, Deliver(cfg, t, ts), end, ts);
    }
  }

  lemma TimersShrink(cfg: Config, s: Stream, now: Time)
    requires Calm(s)
    ensures Shrunk(s, CheckTimers(cfg, s, now))
  {
    hide SkipUpTo, SkipFirst, SkipTo, Stalled;
    var due := EvidenceDue(s.k.track, now, cfg.ackGrace);
    if due.Some? { SkipUpToShrinks(cfg, CountAckGap(s), now, due.value); }
    SkipFirstShrinks(cfg, AckTimer(cfg, s, now), now);
  }

  // ----- segments

  lemma HoleNear(cfg: Config, m: nat, s: Stream, start: nat, data: seq<byte>, ts: Time, cap: nat)
    requires Calm(s) && !Stopped(s) && start >= s.k.track.next && data != []
    requires Near(cfg, m, s) && start + |data| <= s.k.track.next + cfg.maxAhead + m
    ensures Near(cfg, m, FeedHole(cfg, s, start, data, ts, cap))
  {
    InsertedNear(cfg, m, s, start, data, ts);
    hide Near, Shrunk, Inserted, Deliver, CapSkips, CheckTimers, Watermark;
    var s1 := Inserted(cfg, s, start, data, ts);
    DeliverShrinks(cfg, s1, ts);
    var s2 := Deliver(cfg, s1, ts);
    ShrunkNear(cfg, m, s1, s2);
    CapSkipsShrink(cfg, s2, ts, cap);
    var s3 := CapSkips(cfg, s2, ts, cap);
    ShrunkNear(cfg, m, s2, s3);
    MarkedNear(cfg, m, s3);
    TimersShrink(cfg, Marked(cfg, s3), ts);
    ShrunkNear(cfg, m, Marked(cfg, s3), CheckTimers(cfg, Marked(cfg, s3), ts));
  }

  lemma InsertedNear(cfg: Config, m: nat, s: Stream, start: nat, data: seq<byte>, ts: Time)
    requires Calm(s) && !Stopped(s) && start >= s.k.track.next && data != []
    requires Near(cfg, m, s) && start + |data| <= s.k.track.next + cfg.maxAhead + m
    ensures Near(cfg, m, Inserted(cfg, s, start, data, ts))
  {
    var t := Inserted(cfg, s, start, data, ts);
    forall o | o in t.held ensures o < t.k.track.next + cfg.maxAhead + m {
      assert o in s.held.Keys + Span(start, |data|);
    }
  }

  lemma MarkedNear(cfg: Config, m: nat, s: Stream)
    requires Near(cfg, m, s)
    ensures Near(cfg, m, Marked(cfg, s))
  {
    hide Watermark;
  }

  lemma FeedNearNear(cfg: Config, m: nat, s: Stream, start: int, payload: seq<byte>, ts: Time, pass: bool, cap: nat)
    requires Calm(s) && !Stopped(s) && payload != [] && |payload| <= m && start - s.k.track.next <= cfg.maxAhead && Near(cfg, m, s)
    ensures Near(cfg, m, FeedNear(cfg, s, start, payload, ts, pass, cap).0)
  {
    hide FeedHole, FeedInOrder, CheckTimers, CountOld;
    var next, end := s.k.track.next, start + |payload|;
    if end <= next {
      var t := s.(k := CountOld(cfg, s.k, start, end));
      TimersShrink(cfg, t, ts);
      ShrunkNear(cfg, m, t, CheckTimers(cfg, t, ts));
    } else if s.held != map[] || start > next {
      var s1 := if start < next then s.(k := s.k.(c := s.k.c.(retransmits := s.k.c.retransmits + 1))) else s;
      var skip := if start < next then next - start else 0;
      HoleNear(cfg, m, s1, Max(start, next), payload[skip..], ts, cap);
    }
  }

  lemma FeedOnceNear(cfg: Config, m: nat, s: Stream, seq_: u32, payload: seq<byte>, ts: Time, pass: bool, cap: nat)
    requires Calm(s) && |payload| <= m && Near(cfg, m, s)
    ensures Near(cfg, m, FeedOnce(cfg, s, seq_, payload, ts, pass, cap).0)
  {
    hide FeedNear, OffsetOf, Anchor;
    if !Stopped(s) && payload != [] {
      var s1 := Anchored(s, seq_, ts);
      var off := OffsetOf(s1.k.track, seq_);
      if off - s1.k.track.next <= cfg.maxAhead { FeedNearNear(cfg, m, s1, off, payload, ts, pass, cap); }
    }
  }

  /** One segment of at most `m` bytes, through a resync or not. */
  lemma FeedKeepsNear(cfg: Config, m: nat, s: Stream, seq_: u32, payload: seq<byte>, ts: Time, pass: bool, cap: nat)
    requires Calm(s) && |payload| <= m && Near(cfg, m, s)
    ensures Near(cfg, m, Feed(cfg, s, seq_, payload, ts, pass, cap).0)
  {
    hide FeedOnce, Resync, OffsetOf, Anchor;
    if !Stopped(s) && payload != [] {
      var s1 := Anchored(s, seq_, ts);
      FeedOnceNear(cfg, m, s, seq_, payload, ts, pass, cap);
      if s1.k.track.stray.Some? {
        FeedOnceNear(cfg, m, Resync(cfg, Taken(s1), s1.k.track.stray.value, ts), seq_, payload, ts, false, cap);
      }
    }
  }

  // ----- the other calls

  lemma EvidenceNear(cfg: Config, m: nat, s: Stream, e: (TrackView, Option<Candidate>), ts: Time)
    requires Calm(s) && e.0.next == s.k.track.next && Near(cfg, m, s)
    ensures Near(cfg, m, WithEvidence(cfg, s, e, ts)) && Near(cfg, m, CheckTimers(cfg, WithEvidence(cfg, s, e, ts), ts))
  {
    hide Resync, CheckTimers;
    var t := WithEvidence(cfg, s, e, ts);
    TimersShrink(cfg, t, ts);
    ShrunkNear(cfg, m, t, CheckTimers(cfg, t, ts));
  }

  lemma AnchoredNear(cfg: Config, m: nat, s: Stream, seq_: u32, ts: Time)
    requires Near(cfg, m, s)
    ensures Near(cfg, m, Anchored(s, seq_, ts))
  {
    hide Anchor;
  }

  lemma MissingOnceNear(cfg: Config, m: nat, s: Stream, seq_: u32, len: nat, ts: Time)
    requires Calm(s) && Near(cfg, m, s)
    ensures Near(cfg, m, MissingOnce(cfg, s, seq_, len, ts))
  {
    hide OffsetOf, Anchor, CheckTimers, SkipRange, MissingFar, WithEvidence, Evidence, Marked, Near;
    if !Stopped(s) && len > 0 {
      AnchoredNear(cfg, m, s, seq_, ts);
      var s1 := Anchored(s, seq_, ts);
      var v := s1.k.track;
      var start := OffsetOf(v, seq_);
      if start + len > v.next {
        if start - v.next > cfg.maxAhead {
          MissingFarNear(cfg, m, s1, start, len, ts);
        } else if start <= v.next {
          CutNear(cfg, m, s1, start + len, ts);
        } else {
          EvidenceKeeps(v, (seq_ + len) % TWO_32, ts, cfg.maxAhead);
          EvidenceNear(cfg, m, s1, Evidence(v, (seq_ + len) % TWO_32, ts, cfg.maxAhead), ts);
        }
      }
    }
  }

  lemma MissingFarNear(cfg: Config, m: nat, s: Stream, start: nat, len: nat, ts: Time)
    requires Calm(s) && Near(cfg, m, s)
    ensures Near(cfg, m, MissingFar(cfg, s, start, len, ts))
  {
    hide CheckTimers, Shrunk;
    var w := if Continues(s.k.track, start, ts) then s.k.track else Hold(s.k.track, start, [], ts);
    var t := s.(k := s.k.(track := ExtendStray(w, start, len, ts)));
    TimersShrink(cfg, t, ts);
    ShrunkNear(cfg, m, t, CheckTimers(cfg, t, ts));
  }

  lemma CutNear(cfg: Config, m: nat, s: Stream, end: nat, ts: Time)
    requires Calm(s) && Near(cfg, m, s)
    ensures Near(cfg, m, CheckTimers(cfg, Marked(cfg, SkipRange(cfg, s, end, ts)), ts))
  {
    hide CheckTimers, SkipRange, Watermark, Shrunk, Near;
    SkipRangeShrinks(cfg, s, end, ts);
    var t := SkipRange(cfg, s, end, ts);
    ShrunkNear(cfg, m, s, t);
    MarkedNear(cfg, m, t);
    TimersShrink(cfg, Marked(cfg, t), ts);
    ShrunkNear(cfg, m, Marked(cfg, t), CheckTimers(cfg, Marked(cfg, t), ts));
  }

  lemma MissingNear(cfg: Config, m: nat, s: Stream, seq_: u32, len: nat, ts: Time)
    requires Calm(s) && Near(cfg, m, s)
    ensures Near(cfg, m, MissingBytes(cfg, s, seq_, len, ts))
  {
    hide MissingOnce, Resync, OffsetOf, Anchor;
    MissingOnceNear(cfg, m, s, seq_, len, ts);
    if !Stopped(s) && len > 0 {
      var s1 := Anchored(s, seq_, ts);
      if s1.k.track.stray.Some? {
        MissingOnceNear(cfg, m, Resync(cfg, Taken(s1), s1.k.track.stray.value, ts), seq_, len, ts);
      }
    }
  }

  /** No segment of the run is longer than `m` bytes. */
  ghost predicate Short(m: nat, e: Event) { e.Segment? ==> |e.payload| <= m }

  lemma StepNear(cfg: Config, m: nat, w: World, e: Event)
    requires Calm(w.s) && Near(cfg, m, w.s) && Short(m, e)
    ensures Near(cfg, m, Do(cfg, w, e).s)
  {
    hide Feed, MissingBytes, CheckTimers, WithEvidence, Evidence, Fin, Anchor, Flush, SkipProven;
    var s := w.s;
    match e
    case Segment(seq_, payload, ts, pass, cap) => FeedKeepsNear(cfg, m, s, seq_, payload, ts, pass, cap);
    case Origin(seq_) =>
    case Ack(ack, ts) =>
      EvidenceKeeps(s.k.track, (ack - 1) % TWO_32, ts, cfg.maxAhead);
      EvidenceNear(cfg, m, s, Evidence(s.k.track, (ack - 1) % TWO_32, ts, cfg.maxAhead), ts);
    case FinAt(end, ts) =>
      EvidenceKeeps(s.k.track, end, ts, cfg.maxAhead);
      EvidenceNear(cfg, m, s, Fin(s.k.track, end, ts, cfg.maxAhead), ts);
    case Cut(seq_, len, ts) => MissingNear(cfg, m, s, seq_, len, ts);
    case Sweep(ts) =>
      TimersShrink(cfg, s, ts);
      ShrunkNear(cfg, m, s, CheckTimers(cfg, s, ts));
    case EndOfFlow =>
    case DrainOut =>
    case ReleaseSide =>
  }

  lemma {:induction false} RunNear(cfg: Config, m: nat, w: World, es: seq<Event>)
    requires Calm(w.s) && Near(cfg, m, w.s) && forall e :: e in es ==> Short(m, e)
    ensures Near(cfg, m, Run(cfg, w, es).s)
    decreases |es|
  {
    hide Near, Do, Short;
    if es != [] {
      StepNear(cfg, m, w, es[0]);
      RunNear(cfg, m, Do(cfg, w, es[0]), es[1..]);
    }
  }

  /** A candidate that a far segment confirms lies past the position, so what is held is within reach of it. */
  lemma NearIsFarInWindow(cfg: Config, m: nat, s: Stream, seq_: u32)
    requires Near(cfg, m, s) && cfg.maxAhead + m <= TWO_31
    ensures FarInWindow(cfg, s, seq_)
  {
    hide OffsetOf;
  }

  /** In every state that segments of at most `m` bytes can lead to, any segment may be fed. */
  lemma FeedAlwaysInWindow(cfg: Config, m: nat, es: seq<Event>, seq_: u32)
    requires cfg.maxAhead + m <= TWO_31 && forall e :: e in es ==> Short(m, e)
    ensures FarInWindow(cfg, Run(cfg, Start(), es).s, seq_)
  {
    hide Run, Short, FarInWindow;
    RunNear(cfg, m, Start(), es);
    NearIsFarInWindow(cfg, m, Run(cfg, Start(), es).s, seq_);
  }

  /**
   After any run of segments of at most `m` bytes the window condition of the
   other calls follows from one comparison: the stream is less than half the
   sequence space, short of `maxAhead + m`, past the candidate it holds. It
   never holds further out than half the space.
   */
  lemma RunInWindow(cfg: Config, m: nat, es: seq<Event>)
    requires forall e :: e in es ==> Short(m, e)
    ensures var s := Run(cfg, Start(), es).s;
            && (s.k.track.stray.None? ==> InWindow(s))
            && (s.k.track.stray.Some? && s.k.track.next + cfg.maxAhead + m < s.k.track.stray.value.off + TWO_31 ==> InWindow(s))
            && (s.k.track.stray.Some? && s.k.track.next >= s.k.track.stray.value.off + TWO_31 ==> !InWindow(s))
  {
    RunNear(cfg, m, Start(), es);
    hide Run, Short;
  }
}

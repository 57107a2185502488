/**
 Letting bytes through refines buffering them: `segment_into` answering
 Passthrough and `segment` followed by `drain_into` end in the same state and
 hand over the same bytes, exactly when no timer is due.
 */
module SegmentPass {
  import opened Types
  import opened Cells
  import opened Tracking
  import opened Store
  import opened SinkSpec
  import opened SinkPass
  import opened SegmentSpec
  import opened SegmentRuns
  import opened Wire

  /** An armed watermark with an empty buffer means held data (or a stopped side). */
  ghost predicate Armed(s: Stream) {
    s.k.above && s.k.ready == [] && !Stopped(s) ==> s.held != map[]
  }

  /** As long as the output stays empty, watermark and held bytes stay as they are. */
  ghost predicate Quiet(s: Stream, t: Stream) {
    && (Stopped(s) ==> Stopped(t))
    && (s.k.ready != [] ==> t.k.ready != [])
    && (Stopped(t) || t.k.ready != [] || (t.k.above == s.k.above && t.held == s.held))
  }

  lemma DeliverQuiet(cfg: Config, s: Stream, ts: Time)
    requires Ahead(s)
    ensures Quiet(s, Deliver(cfg, s, ts))
    ensures s.k.track.next in s.held ==> Stopped(Deliver(cfg, s, ts)) || Deliver(cfg, s, ts).k.ready != []
  {
    var next := s.k.track.next;
    if next in s.held {
      var e := StretchEnd(s.held, next);
      AppendShows(cfg, Advance(s.k, e, ts), BytesOf(s.held, next, e), |From(s.held, e)|);
      hide Append;
    }
  }

  lemma SkipFirstQuiet(cfg: Config, s: Stream, ts: Time)
    requires Ahead(s)
    ensures Quiet(s, SkipFirst(cfg, s, ts))
  {
    if s.held != map[] {
      hide Deliver;
      SkipShows(s.k, Lowest(s.held), ts);
      DeliverQuiet(cfg, s.(k := SkipTo(s.k, Lowest(s.held), ts)), ts);
    }
  }

  lemma {:induction false} FlushQuiet(cfg: Config, s: Stream, ts: Time)
    requires Ahead(s)
    ensures Quiet(s, Flush(cfg, s, ts))
    decreases |s.held|
  {
    hide SkipFirst;
    if !Stopped(s) && s.held != map[] {
      SkipFirstQuiet(cfg, s, ts);
      FlushQuiet(cfg, SkipFirst(cfg, s, ts), ts);
    }
  }

  lemma {:induction false} CapSkipsQuiet(cfg: Config, s: Stream, ts: Time, n: nat)
    requires Calm(s)
    ensures Quiet(s, CapSkips(cfg, s, ts, n))
    decreases n
  {
    hide SkipFirst;
    if n > 0 && !Stopped(s) && s.held != map[] {
      SkipFirstQuiet(cfg, s, ts);
      CapSkipsQuiet(cfg, SkipFirst(cfg, s, ts), ts, n - 1);
    }
  }

  lemma {:induction false} SkipUpToQuiet(cfg: Config, s: Stream, ts: Time, f: nat)
    requires Calm(s)
    ensures Quiet(s, SkipUpTo(cfg, s, ts, f))
    decreases |s.held|
  {
    hide SkipFirst;
    if !Stopped(s) && s.held != map[] && Lowest(s.held) <= f {
      SkipFirstQuiet(cfg, s, ts);
      SkipUpToQuiet(cfg, SkipFirst(cfg, s, ts), ts, f);
    }
  }

  lemma {:induction false} SkipRangeQuiet(cfg: Config, s: Stream, end: nat, ts: Time)
    requires Calm(s)
    ensures var r := SkipRange(cfg, s, end, ts);
            Quiet(s, r) && (s.k.track.next < end ==> Stopped(r) || r.k.ready != [])
    decreases end - s.k.track.next
  {
    hide Deliver;
    if !Stopped(s) && s.k.track.next < end {
      var to := if s.held == map[] then end else Min(Lowest(s.held), end);
      var t := s.(k := SkipTo(s.k, to, ts));
      SkipShows(s.k, to, ts);
      DeliverQuiet(cfg, t, ts);
      SkipRangeQuiet(cfg, Deliver(cfg, t, ts), end, ts);
    }
  }

  lemma AckTimerQuiet(cfg: Config, s: Stream, now: Time)
    requires Calm(s)
    ensures Quiet(s, AckTimer(cfg, s, now))
  {
    hide SkipUpTo;
    var due := EvidenceDue(s.k.track, now, cfg.ackGrace);
    if due.Some? {
      SkipShows(CountAckGap(s).k, due.value, now);
      SkipUpToQuiet(cfg, CountAckGap(s), now, due.value);
    }
  }

  lemma CheckTimersQuiet(cfg: Config, s: Stream, now: Time)
    requires Calm(s)
    ensures Quiet(s, CheckTimers(cfg, s, now))
  {
    hide AckTimer, SkipFirst, Stalled;
    AckTimerQuiet(cfg, s, now);
    SkipFirstQuiet(cfg, AckTimer(cfg, s, now), now);
  }

  lemma QuietArmed(s: Stream, t: Stream)
    requires Quiet(s, t) && Armed(s)
    ensures Armed(t)
  {
  }

  // ----- every entry point keeps it

  lemma FeedHoleArmed(cfg: Config, s: Stream, start: nat, data: seq<byte>, ts: Time, cap: nat)
    requires Calm(s) && !Stopped(s) && start >= s.k.track.next && data != []
    ensures Armed(FeedHole(cfg, s, start, data, ts, cap))
  {
    hide Inserted, Deliver, CapSkips, CheckTimers, Watermark;
    var s1 := Inserted(cfg, s, start, data, ts);
    InsertedHolds(cfg, s, start, data, ts);
    DeliverQuiet(cfg, s1, ts);
    var s2 := Deliver(cfg, s1, ts);
    CapSkipsQuiet(cfg, s2, ts, cap);
    CheckTimersQuiet(cfg, Marked(cfg, CapSkips(cfg, s2, ts, cap)), ts);
  }

  lemma InsertedHolds(cfg: Config, s: Stream, start: nat, data: seq<byte>, ts: Time)
    requires Calm(s) && !Stopped(s) && start >= s.k.track.next && data != []
    ensures start in Inserted(cfg, s, start, data, ts).held
  {
  }

  lemma FeedInOrderArmed(cfg: Config, s: Stream, data: seq<byte>, ts: Time, pass: bool, skip: nat)
    requires Calm(s) && s.held == map[] && !Stopped(s) && data != []
    ensures Armed(FeedInOrder(cfg, s, data, ts, pass, skip).0)
  {
    hide CheckTimers, Append;
    var k := Advance(s.k, s.k.track.next + |data|, ts);
    AppendShows(cfg, k, data, 0);
    CheckTimersQuiet(cfg, s.(k := Append(cfg, k, data, 0)), ts);
  }

  lemma FeedNearArmed(cfg: Config, s: Stream, start: int, payload: seq<byte>, ts: Time, pass: bool, cap: nat)
    requires Calm(s) && !Stopped(s) && payload != [] && Armed(s)
    ensures Armed(FeedNear(cfg, s, start, payload, ts, pass, cap).0)
  {
    hide FeedInOrder, FeedHole, CheckTimers, CountOld, Armed;
    var next, end := s.k.track.next, start + |payload|;
    if end <= next {
      var t := s.(k := CountOld(cfg, s.k, start, end));
      CheckTimersQuiet(cfg, t, ts);
      OldArmed(cfg, s, start, end);
      QuietArmed(t, CheckTimers(cfg, t, ts));
    } else {
      var skip := if start < next then next - start else 0;
      var k := s.k;
      var s1 := if start < next then s.(k := k.(c := k.c.(retransmits := k.c.retransmits + 1))) else s;
      if s.held == map[] && start <= next {
        FeedInOrderArmed(cfg, s1, payload[skip..], ts, pass, skip);
      } else {
        FeedHoleArmed(cfg, s1, Max(start, next), payload[skip..], ts, cap);
      }
    }
  }

  lemma OldArmed(cfg: Config, s: Stream, start: int, end: int)
    requires Armed(s)
    ensures Armed(s.(k := CountOld(cfg, s.k, start, end)))
  {
  }

  lemma ResyncArmed(cfg: Config, s: Stream, c: Candidate, ts: Time)
    requires Calm(s) && Armed(s)
    ensures Armed(Resync(cfg, s, c, ts))
  {
    hide Flush, FeedNear;
    FlushQuiet(cfg, s, ts);
    var s1 := Flush(cfg, s, ts);
    SkipShows(s1.k, c.off, ts);
    var s2 := s1.(k := SkipTo(s1.k, c.off, ts));
    var s3 := s2;
    if !Stopped(s2) && c.data != [] {
      FeedNearArmed(cfg, s2, c.off, c.data, ts, false, 0);
      s3 := FeedNear(cfg, s2, c.off, c.data, ts, false, 0).0;
    }
    SkipShows(s3.k, c.End(), ts);
  }

  lemma FeedArmed(cfg: Config, s: Stream, seq_: u32, payload: seq<byte>, ts: Time, pass: bool, cap: nat)
    requires Calm(s) && Armed(s)
    ensures Armed(Feed(cfg, s, seq_, payload, ts, pass, cap).0)
  {
    hide FeedNear, Resync, OffsetOf, Anchor;
    if !Stopped(s) && payload != [] {
      var s1 := Anchored(s, seq_, ts);
      var v := s1.k.track;
      FeedOnceArmed(cfg, s, seq_, payload, ts, pass, cap);
      if v.stray.Some? {
        ResyncArmed(cfg, Taken(s1), v.stray.value, ts);
        FeedOnceArmed(cfg, Resync(cfg, Taken(s1), v.stray.value, ts), seq_, payload, ts, false, cap);
      }
      hide FeedOnce;
    }
  }

  lemma FeedOnceArmed(cfg: Config, s: Stream, seq_: u32, payload: seq<byte>, ts: Time, pass: bool, cap: nat)
    requires Calm(s) && Armed(s)
    ensures Armed(FeedOnce(cfg, s, seq_, payload, ts, pass, cap).0)
  {
    hide FeedNear, OffsetOf, Anchor;
    if !Stopped(s) && payload != [] {
      var s1 := Anchored(s, seq_, ts);
      assert s1.k.above == s.k.above;
      FeedNearArmed(cfg, s1, OffsetOf(s1.k.track, seq_), payload, ts, pass, cap);
    }
  }

  lemma WithEvidenceArmed(cfg: Config, s: Stream, e: (TrackView, Option<Candidate>), ts: Time)
    requires Calm(s) && Armed(s) && e.0.next == s.k.track.next
    ensures Armed(WithEvidence(cfg, s, e, ts))
  {
    hide Resync;
    if e.1.Some? {
      ResyncArmed(cfg, s.(k := s.k.(track := e.0)), e.1.value, ts);
    }
  }

  lemma TimersArmed(cfg: Config, s: Stream, ts: Time)
    requires Calm(s) && Armed(s)
    ensures Armed(CheckTimers(cfg, s, ts))
  {
    CheckTimersQuiet(cfg, s, ts);
    hide CheckTimers;
    QuietArmed(s, CheckTimers(cfg, s, ts));
  }

  lemma AckArmed(cfg: Config, s: Stream, ack: u32, ts: Time)
    requires Calm(s) && Armed(s)
    ensures Armed(PeerAck(cfg, s, ack, ts))
  {
    hide Armed, WithEvidence, CheckTimers, Evidence;
    if !Stopped(s) {
      EvidenceKeeps(s.k.track, (ack - 1) % TWO_32, ts, cfg.maxAhead);
      var e := Evidence(s.k.track, (ack - 1) % TWO_32, ts, cfg.maxAhead);
      WithEvidenceArmed(cfg, s, e, ts);
      TimersArmed(cfg, WithEvidence(cfg, s, e, ts), ts);
    }
  }

  lemma FinArmed(cfg: Config, s: Stream, end: u32, ts: Time)
    requires Calm(s) && Armed(s)
    ensures Armed(FinSeen(cfg, s, end, ts))
  {
    hide Armed, WithEvidence, Fin;
    if !Stopped(s) {
      EvidenceKeeps(s.k.track, end, ts, cfg.maxAhead);
      WithEvidenceArmed(cfg, s, Fin(s.k.track, end, ts, cfg.maxAhead), ts);
    }
  }

  lemma MissingFarArmed(cfg: Config, s: Stream, start: nat, len: nat, ts: Time)
    requires Calm(s) && Armed(s)
    ensures Armed(MissingFar(cfg, s, start, len, ts))
  {
    hide CheckTimers;
    var w := if Continues(s.k.track, start, ts) then s.k.track else Hold(s.k.track, start, [], ts);
    TimersArmed(cfg, s.(k := s.k.(track := ExtendStray(w, start, len, ts))), ts);
  }

  lemma MarkedArmed(cfg: Config, s: Stream)
    requires Stopped(s) || s.k.ready != []
    ensures Armed(Marked(cfg, s))
  {
  }

  lemma MissingOnceArmed(cfg: Config, s: Stream, seq_: u32, len: nat, ts: Time)
    requires Calm(s) && Armed(s)
    ensures Armed(MissingOnce(cfg, s, seq_, len, ts))
  {
    hide OffsetOf, CheckTimers, SkipRange, MissingFar, WithEvidence, Evidence, Anchor, Marked;
    if !Stopped(s) && len > 0 {
      var s1 := Anchored(s, seq_, ts);
      assert Armed(s1);
      var v := s1.k.track;
      var start := OffsetOf(v, seq_);
      hide Anchored, Armed;
      if start + len > v.next {
        if start - v.next > cfg.maxAhead {
          MissingFarArmed(cfg, s1, start, len, ts);
        } else if start <= v.next {
          SkipRangeQuiet(cfg, s1, start + len, ts);
          MarkedArmed(cfg, SkipRange(cfg, s1, start + len, ts));
          TimersArmed(cfg, Marked(cfg, SkipRange(cfg, s1, start + len, ts)), ts);
        } else {
          EvidenceKeeps(v, (seq_ + len) % TWO_32, ts, cfg.maxAhead);
          var e := Evidence(v, (seq_ + len) % TWO_32, ts, cfg.maxAhead);
          WithEvidenceArmed(cfg, s1, e, ts);
          TimersArmed(cfg, WithEvidence(cfg, s1, e, ts), ts);
        }
      }
    }
  }

  lemma MissingArmed(cfg: Config, s: Stream, seq_: u32, len: nat, ts: Time)
    requires Calm(s) && Armed(s)
    ensures Armed(MissingBytes(cfg, s, seq_, len, ts))
  {
    hide MissingOnce, Resync, OffsetOf, Anchor;
    var s1 := Anchored(s, seq_, ts);
    MissingOnceArmed(cfg, s, seq_, len, ts);
    if s1.k.track.stray.Some? {
      ResyncArmed(cfg, Taken(s1), s1.k.track.stray.value, ts);
      MissingOnceArmed(cfg, Resync(cfg, Taken(s1), s1.k.track.stray.value, ts), seq_, len, ts);
    }
  }

  lemma FlushPendingArmed(cfg: Config, s: Stream)
    requires Calm(s) && Armed(s)
    ensures Armed(FlushPending(cfg, s))
  {
    var ts := s.k.track.progress;
    FlushQuiet(cfg, s, ts);
    hide Flush;
    var t := Flush(cfg, s, ts);
    if Frontier(t.k.track).Some? { SkipShows(CountAckGap(t).k, Frontier(t.k.track).value, ts); }
  }

  /** In every reachable state the watermark is armed only with something buffered or held. */
  lemma {:induction false} RunArmed(cfg: Config, w: World, es: seq<Event>)
    requires Calm(w.s) && Armed(w.s)
    ensures Armed(Run(cfg, w, es).s)
    decreases |es|
  {
    if es != [] {
      StepArmed(cfg, w, es[0]);
      hide Do, Armed;
      RunArmed(cfg, Do(cfg, w, es[0]), es[1..]);
    }
  }

  lemma StepArmed(cfg: Config, w: World, e: Event)
    requires Calm(w.s) && Armed(w.s)
    ensures Armed(Do(cfg, w, e).s)
  {
    hide Feed, PeerAck, FinSeen, MissingBytes, CheckTimers, FlushPending;
    match e
    case Segment(seq_, payload, ts, pass, cap) => FeedArmed(cfg, w.s, seq_, payload, ts, pass, cap);
    case Origin(seq_) =>
    case Ack(ack, ts) => AckArmed(cfg, w.s, ack, ts);
    case FinAt(end, ts) => FinArmed(cfg, w.s, end, ts);
    case Cut(seq_, len, ts) => MissingArmed(cfg, w.s, seq_, len, ts);
    case Sweep(ts) => TimersArmed(cfg, w.s, ts);
    case EndOfFlow => FlushPendingArmed(cfg, w.s);
    case DrainOut =>
    case ReleaseSide =>
  }

  // ----- the refinement

  /** When nothing is let through, asking for it made no difference. */
  lemma NotPassed(cfg: Config, s: Stream, seq_: u32, payload: seq<byte>, ts: Time, cap: nat)
    requires Calm(s) && Feed(cfg, s, seq_, payload, ts, true, cap).1 == Buffered
    ensures Feed(cfg, s, seq_, payload, ts, true, cap) == Feed(cfg, s, seq_, payload, ts, false, cap)
  {
    hide CheckTimers, Append, NotePass, FeedHole, FeedOld, Resync, OffsetOf, Anchor;
  }

  /** In order, into an empty buffer, with nothing held. */
  lemma InOrderRefines(cfg: Config, s: Stream, data: seq<byte>, ts: Time, skip: nat)
    requires Calm(s) && s.held == map[] && !Stopped(s) && data != [] && Armed(s)
    requires FeedInOrder(cfg, s, data, ts, true, skip).1.Passthrough?
    ensures var a := FeedInOrder(cfg, s, data, ts, true, skip).0;
            var b := FeedInOrder(cfg, s, data, ts, false, skip).0;
            (Drain(b) == a && b.k.ready == DataCells(data)) <==> NoTimerDue(cfg, s.k.track, s.k.track.next + |data|, ts)
  {
    hide DataCells, DataLen, Append, NotePass, CheckTimers, AdvanceTo, EvidenceDue, StrayExpired;
    var k := Advance(s.k, s.k.track.next + |data|, ts);
    AppendThenDrain(cfg, k, data);
    var t := s.(k := Append(cfg, k, data, 0));
    IdleTimers(cfg, t, ts);
    DrainKeeps(t, CheckTimers(cfg, t, ts));
  }

  /** Draining hides neither a gap count nor a candidate. */
  lemma DrainKeeps(s: Stream, t: Stream)
    ensures Drain(s) == Drain(t) ==> s.k.c.gaps == t.k.c.gaps && s.k.track.stray == t.k.track.stray
  {
  }

  /** With nothing held, the timers do nothing exactly when none is due; otherwise a gap or a lost stray shows. */
  lemma IdleTimers(cfg: Config, s: Stream, now: Time)
    requires Calm(s) && s.held == map[] && !Stopped(s)
    ensures var r := CheckTimers(cfg, s, now);
            var due := EvidenceDue(s.k.track, now, cfg.ackGrace).Some? || StrayExpired(s.k.track, now, cfg.deadline * 4);
            (!due ==> r == s) && (due ==> r.k.c.gaps > s.k.c.gaps || r.k.track.stray != s.k.track.stray)
  {
  }

  /**
   Letting through equals buffering and draining, same final state and same
   bytes, if and only if no timer is due once the stream stands past the segment.
   */
  ghost predicate PassRefines(cfg: Config, s: Stream, seq_: u32, payload: seq<byte>, ts: Time, cap: nat)
    requires Calm(s) && Feed(cfg, s, seq_, payload, ts, true, cap).1.Passthrough?
  {
    var (a, o) := Feed(cfg, s, seq_, payload, ts, true, cap);
    var b := Feed(cfg, s, seq_, payload, ts, false, cap).0;
    var v := Anchored(s, seq_, ts).k.track;
    && o.skip <= |payload| && OffsetOf(v, seq_) + |payload| >= 0
    && ((Drain(b) == a && b.k.ready == DataCells(payload[o.skip..]))
        <==> NoTimerDue(cfg, v, OffsetOf(v, seq_) + |payload|, ts))
  }

  /** `segment_into` letting bytes through is `segment` then `drain_into`. */
  lemma PassthroughRefines(cfg: Config, s: Stream, seq_: u32, payload: seq<byte>, ts: Time, cap: nat)
    requires Calm(s) && Armed(s) && Feed(cfg, s, seq_, payload, ts, true, cap).1.Passthrough?
    ensures PassRefines(cfg, s, seq_, payload, ts, cap)
  {
    hide Feed, FeedInOrder, OffsetOf, Anchor, NoTimerDue, DataCells, Drain, Trim, FarAway;
    PassedInOrder(cfg, s, seq_, payload, ts, cap);
    var s1 := Anchored(s, seq_, ts);
    var start, next := OffsetOf(s1.k.track, seq_), s1.k.track.next;
    var data := payload[next - start..];
    TrimArmed(s1, start);
    FeedIsInOrder(cfg, s, seq_, payload, ts, true, cap);
    FeedIsInOrder(cfg, s, seq_, payload, ts, false, cap);
    InOrderSkip(cfg, Trim(s1, start), data, ts, next - start);
    InOrderRefines(cfg, Trim(s1, start), data, ts, next - start);
  }

  /** A retransmitted head is counted. */
  ghost function Trim(s: Stream, start: int): (r: Stream)
    ensures r.held == s.held && r.arrivals == s.arrivals && r.k.track == s.k.track && r.k.stop == s.k.stop
  {
    if start < s.k.track.next then s.(k := s.k.(c := s.k.c.(retransmits := s.k.c.retransmits + 1))) else s
  }

  lemma TrimArmed(s: Stream, start: int)
    ensures Trim(s, start).k.ready == s.k.ready && Trim(s, start).k.above == s.k.above
  {
  }

  lemma FeedIsInOrder(cfg: Config, s: Stream, seq_: u32, payload: seq<byte>, ts: Time, pass: bool, cap: nat)
    requires Calm(s) && !Stopped(s) && payload != [] && s.held == map[]
    requires var v := Anchored(s, seq_, ts).k.track;
             !FarAway(cfg, v, seq_) && OffsetOf(v, seq_) <= v.next < OffsetOf(v, seq_) + |payload|
    ensures var s1 := Anchored(s, seq_, ts);
            var v := s1.k.track;
            var skip := v.next - OffsetOf(v, seq_);
            Feed(cfg, s, seq_, payload, ts, pass, cap)
            == FeedInOrder(cfg, Trim(s1, OffsetOf(v, seq_)), payload[skip..], ts, pass, skip)
  {
    hide FeedInOrder, FeedHole, FeedOld, Resync, OffsetOf, Anchor, Corroborated;
  }

  /** Only an in-order segment that meets nothing held is ever let through. */
  lemma PassedInOrder(cfg: Config, s: Stream, seq_: u32, payload: seq<byte>, ts: Time, cap: nat)
    requires Calm(s) && Feed(cfg, s, seq_, payload, ts, true, cap).1.Passthrough?
    ensures var v := Anchored(s, seq_, ts).k.track;
            && !Stopped(s) && payload != [] && s.held == map[] && !FarAway(cfg, v, seq_)
            && OffsetOf(v, seq_) <= v.next < OffsetOf(v, seq_) + |payload|
  {
    hide CheckTimers, Append, NotePass, FeedHole, FeedOld, Resync, OffsetOf, Anchor;
  }

  lemma InOrderSkip(cfg: Config, s: Stream, data: seq<byte>, ts: Time, skip: nat)
    requires Calm(s) && s.held == map[] && !Stopped(s) && data != []
    ensures var o := FeedInOrder(cfg, s, data, ts, true, skip).1; o.Passthrough? ==> o.skip == skip
  {
  }

  /** The refinement in every reachable state. */
  lemma PassthroughAfterRun(cfg: Config, es: seq<Event>, seq_: u32, payload: seq<byte>, ts: Time, cap: nat)
    requires Feed(cfg, Run(cfg, Start(), es).s, seq_, payload, ts, true, cap).1.Passthrough?
    ensures PassRefines(cfg, Run(cfg, Start(), es).s, seq_, payload, ts, cap)
  {
    assert Armed(Start().s);
    hide Run, Feed, Armed, PassRefines;
    RunArmed(cfg, Start(), es);
    PassthroughRefines(cfg, Run(cfg, Start(), es).s, seq_, payload, ts, cap);
  }
}

/** The one-slot reassembler never wedges, and letting bytes through refines buffering them. */
module BufferedProgress {
  import opened Types
  import opened Cells
  import opened Tracking
  import opened SinkSpec
  import opened SinkPass
  import opened Wire
  import opened BufferedSpec
  import opened BufferedRuns

  // ----- progress

  /** A sweep one deadline after the waiting segment came delivers it. */
  lemma SweepAdvances(cfg: Config, s: Line, now: Time)
    requires Calm(s) && s.wait.Some? && Since(now, s.wait.value.ts) > cfg.deadline
    ensures var t := CheckTimers(cfg, s, now); t.wait.None? && t.k.track.next > s.wait.value.off > s.k.track.next
  {
    hide ReleaseWait;
  }

  /** The end of a flow leaves nothing waiting, no stray, and the position past all evidence unless stopped. */
  lemma FlushPendingSettles(cfg: Config, s: Line)
    requires Calm(s)
    ensures var r := FlushPending(cfg, s);
            && r.wait.None? && r.k.track.next >= s.k.track.next && r.k.track.evidence == s.k.track.evidence
            && (!Stopped(s) ==> r.k.track.stray.None? && r.k.track.next >= s.k.track.evidence)
  {
    PlaceEvidence(cfg, s);
  }

  lemma PlaceEvidence(cfg: Config, s: Line)
    requires Calm(s)
    ensures ReleaseWait(cfg, s, s.k.track.progress).k.track.evidence == s.k.track.evidence
  {
  }

  // ----- the watermark is armed only with something buffered

  ghost predicate Armed(s: Line) { s.k.above && !Stopped(s) ==> s.k.ready != [] }

  /** Output only grows, or the side stops; otherwise the watermark stays. */
  ghost predicate Quiet(s: Line, t: Line) {
    && (Stopped(s) ==> Stopped(t))
    && (s.k.ready != [] ==> t.k.ready != [])
    && (Stopped(t) || t.k.ready != [] || t.k.above == s.k.above)
  }

  lemma PlaceQuiet(cfg: Config, s: Line, off: nat, data: seq<byte>, ts: Time)
    requires off <= s.k.track.next && (Stopped(s) ==> s.wait.None?)
    ensures Quiet(s, Place(cfg, s, off, data, ts))
  {
    var next := s.k.track.next;
    if off + |data| > next {
      hide Append;
      AppendShows(cfg, Advance(s.k, off + |data|, ts), data[next - off..], 0);
    }
  }

  lemma ReleaseWaitQuiet(cfg: Config, s: Line, ts: Time)
    requires Calm(s)
    ensures Quiet(s, ReleaseWait(cfg, s, ts))
  {
    hide Place;
    if s.wait.Some? {
      var c := s.wait.value;
      SkipShows(s.k, c.off, ts);
      PlaceQuiet(cfg, Line(SkipTo(s.k, c.off, ts), None), c.off, c.data, ts);
    }
  }

  lemma TryWaitQuiet(cfg: Config, s: Line, ts: Time)
    requires (Stopped(s) ==> s.wait.None?) && (s.wait.Some? ==> s.wait.value.data != [])
    ensures Quiet(s, TryWait(cfg, s, ts))
  {
    hide Place;
    if s.wait.Some? && s.wait.value.off <= s.k.track.next {
      PlaceQuiet(cfg, s.(wait := None), s.wait.value.off, s.wait.value.data, ts);
    }
  }

  lemma ResyncQuiet(cfg: Config, s: Line, c: Candidate, ts: Time)
    requires Calm(s)
    ensures Quiet(s, Resync(cfg, s, c, ts))
  {
    hide Place, ReleaseWait;
    ReleaseWaitQuiet(cfg, s, ts);
    var s1 := ReleaseWait(cfg, s, ts);
    SkipShows(s1.k, c.off, ts);
    var s2 := s1.(k := SkipTo(s1.k, c.off, ts));
    PlaceQuiet(cfg, s2, c.off, c.data, ts);
    SkipShows(Place(cfg, s2, c.off, c.data, ts).k, c.End(), ts);
  }

  lemma CheckTimersQuiet(cfg: Config, s: Line, now: Time)
    requires Calm(s)
    ensures Quiet(s, CheckTimers(cfg, s, now))
  {
    hide ReleaseWait, AckTimer;
    AckTimerQuiet(cfg, s, now);
    ReleaseWaitQuiet(cfg, AckTimer(cfg, s, now), now);
  }

  lemma AckTimerQuiet(cfg: Config, s: Line, now: Time)
    requires Calm(s)
    ensures Quiet(s, AckTimer(cfg, s, now))
  {
    hide ReleaseWait;
    ReleaseWaitQuiet(cfg, CountAckGap(s), now);
    var due := EvidenceDue(s.k.track, now, cfg.ackGrace);
    if due.Some? { SkipShows(CountAckGap(s).k, due.value, now); }
  }

  lemma {:induction false} SkipRangeQuiet(cfg: Config, s: Line, end: nat, ts: Time)
    requires Calm(s)
    ensures Quiet(s, SkipRange(cfg, s, end, ts))
    decreases end - s.k.track.next
  {
    hide TryWait;
    if !Stopped(s) && s.k.track.next < end {
      var to := if s.wait.None? then end else Min(s.wait.value.off, end);
      var t := s.(k := SkipTo(s.k, to, ts));
      SkipShows(s.k, to, ts);
      TryWaitQuiet(cfg, t, ts);
      SkipRangeQuiet(cfg, TryWait(cfg, t, ts), end, ts);
    }
  }

  lemma FeedInOrderArmed(cfg: Config, s: Line, start: int, payload: seq<byte>, ts: Time, pass: bool)
    requires Calm(s) && !Stopped(s) && start <= s.k.track.next < start + |payload|
    ensures Armed(FeedInOrder(cfg, s, start, payload, ts, pass).0)
  {
    hide Append, TryWait, CheckTimers;
    var skip := s.k.track.next - start;
    var k := Advance(s.k, start + |payload|, ts);
    var a := Append(cfg, k, payload[skip..], 0);
    AppendShows(cfg, k, payload[skip..], 0);
    var t := Line(a, if a.stop.Some? then None else s.wait);
    TryWaitQuiet(cfg, t, ts);
    CheckTimersQuiet(cfg, TryWait(cfg, t, ts), ts);
  }

  lemma {:induction false} FeedArmed(cfg: Config, s: Line, seq_: u32, payload: seq<byte>, ts: Time, pass: bool)
    requires Calm(s) && Armed(s)
    ensures Armed(Feed(cfg, s, seq_, payload, ts, pass).0)
    decreases Rank(s)
  {
    hide OffsetOf, Anchor, Resync, ReleaseWait, CheckTimers, CountOld, FeedInOrder, FeedAhead;
    if payload != [] && !Stopped(s) {
      var s1 := Anchored(s, seq_, ts);
      var v := s1.k.track;
      var start := OffsetOf(v, seq_);
      if start - v.next > cfg.maxAhead {
        if Corroborated(v, start, cfg.maxAhead) {
          ResyncQuiet(cfg, Taken(s1), v.stray.value, ts);
          FeedArmed(cfg, Resync(cfg, Taken(s1), v.stray.value, ts), seq_, payload, ts, false);
        }
      } else if start + |payload| <= v.next {
        CheckTimersQuiet(cfg, s1.(k := CountOld(cfg, s1.k, start, start + |payload|)), ts);
      } else if start > v.next {
        if s1.wait.Some? {
          ReleaseWaitQuiet(cfg, s1, ts);
          FeedArmed(cfg, ReleaseWait(cfg, s1, ts), seq_, payload, ts, false);
        } else {
          FeedAheadArmed(cfg, s1, start, payload, ts);
        }
      } else {
        FeedInOrderArmed(cfg, if start < v.next then Retransmitted(s1) else s1, start, payload, ts, pass);
      }
    }
  }

  lemma FeedAheadArmed(cfg: Config, s: Line, start: nat, payload: seq<byte>, ts: Time)
    requires Calm(s) && !Stopped(s) && s.wait.None? && s.k.track.next < start && payload != [] && Armed(s)
    ensures Armed(FeedAhead(cfg, s, start, payload, ts))
  {
    hide CheckTimers;
    CheckTimersQuiet(cfg, Line(s.k.(track := s.k.track.(progress := ts)), Some(Candidate(start, payload, ts, 0))), ts);
  }

  lemma WithEvidenceArmed(cfg: Config, s: Line, e: (TrackView, Option<Candidate>), ts: Time)
    requires Calm(s) && e.0.next == s.k.track.next && Armed(s)
    ensures Armed(WithEvidence(cfg, s, e, ts)) && Armed(CheckTimers(cfg, WithEvidence(cfg, s, e, ts), ts))
  {
    hide Resync, CheckTimers;
    if e.1.Some? { ResyncQuiet(cfg, s.(k := s.k.(track := e.0)), e.1.value, ts); }
    CheckTimersQuiet(cfg, WithEvidence(cfg, s, e, ts), ts);
  }

  lemma {:induction false} MissingArmed(cfg: Config, s: Line, seq_: u32, len: nat, ts: Time)
    requires Calm(s) && Armed(s)
    ensures Armed(MissingBytes(cfg, s, seq_, len, ts))
    decreases if s.k.track.stray.Some? then 1 else 0
  {
    hide OffsetOf, Anchor, CheckTimers, SkipRange, Resync, Evidence, WithEvidence;
    if !Stopped(s) && len > 0 {
      var s1 := Anchored(s, seq_, ts);
      var v := s1.k.track;
      var start := OffsetOf(v, seq_);
      if start + len > v.next {
        if start - v.next > cfg.maxAhead {
          if !Continues(v, start, ts) && Corroborated(v, start, cfg.maxAhead) {
            ResyncQuiet(cfg, Taken(s1), v.stray.value, ts);
            MissingArmed(cfg, Resync(cfg, Taken(s1), v.stray.value, ts), seq_, len, ts);
          } else {
            var w := if Continues(v, start, ts) then v else Hold(v, start, [], ts);
            CheckTimersQuiet(cfg, s1.(k := s1.k.(track := ExtendStray(w, start, len, ts))), ts);
          }
        } else if start <= v.next {
          SkipRangeQuiet(cfg, s1, start + len, ts);
          CheckTimersQuiet(cfg, SkipRange(cfg, s1, start + len, ts), ts);
        } else {
          EvidenceKeeps(v, (seq_ + len) % TWO_32, ts, cfg.maxAhead);
          WithEvidenceArmed(cfg, s1, Evidence(v, (seq_ + len) % TWO_32, ts, cfg.maxAhead), ts);
        }
      }
    }
  }

  lemma FlushPendingArmed(cfg: Config, s: Line)
    requires Calm(s) && Armed(s)
    ensures Armed(FlushPending(cfg, s))
  {
    hide ReleaseWait;
    var ts := s.k.track.progress;
    ReleaseWaitQuiet(cfg, s, ts);
    var t := ReleaseWait(cfg, s, ts);
    if Frontier(t.k.track).Some? { SkipShows(CountAckGap(t).k, Frontier(t.k.track).value, ts); }
  }

  lemma StepArmed(cfg: Config, w: World, e: Event)
    requires Calm(w.s) && Armed(w.s)
    ensures Armed(Do(cfg, w, e).s)
  {
    hide Feed, MissingBytes, CheckTimers, FlushPending, WithEvidence, Evidence, Fin;
    match e
    case Segment(seq_, payload, ts, pass, _) => FeedArmed(cfg, w.s, seq_, payload, ts, pass);
    case Origin(seq_) =>
    case Ack(ack, ts) =>
      EvidenceKeeps(w.s.k.track, (ack - 1) % TWO_32, ts, cfg.maxAhead);
      WithEvidenceArmed(cfg, w.s, Evidence(w.s.k.track, (ack - 1) % TWO_32, ts, cfg.maxAhead), ts);
    case FinAt(end, ts) =>
      EvidenceKeeps(w.s.k.track, end, ts, cfg.maxAhead);
      WithEvidenceArmed(cfg, w.s, Fin(w.s.k.track, end, ts, cfg.maxAhead), ts);
    case Cut(seq_, len, ts) => MissingArmed(cfg, w.s, seq_, len, ts);
    case Sweep(ts) => CheckTimersQuiet(cfg, w.s, ts);
    case EndOfFlow => FlushPendingArmed(cfg, w.s);
    case DrainOut =>
    case ReleaseSide =>
  }

  /** In every reachable state. */
  lemma {:induction false} RunArmed(cfg: Config, w: World, es: seq<Event>)
    requires Calm(w.s) && Armed(w.s)
    ensures Armed(Run(cfg, w, es).s)
    decreases |es|
  {
    hide Do, Armed;
    if es != [] {
      StepArmed(cfg, w, es[0]);
      RunArmed(cfg, Do(cfg, w, es[0]), es[1..]);
    }
  }

  // ----- passthrough

  /** A segment fed again is never let through. */
  lemma {:induction false} NeverPassed(cfg: Config, s: Line, seq_: u32, payload: seq<byte>, ts: Time)
    requires Calm(s)
    ensures Feed(cfg, s, seq_, payload, ts, false).1 == Buffered
    decreases Rank(s)
  {
    hide OffsetOf, Anchor, Resync, ReleaseWait, CheckTimers, CountOld, FeedAhead, Append, TryWait;
    if payload != [] && !Stopped(s) {
      var s1 := Anchored(s, seq_, ts);
      if s1.k.track.stray.Some? {
        NeverPassed(cfg, Resync(cfg, Taken(s1), s1.k.track.stray.value, ts), seq_, payload, ts);
      }
      if s1.wait.Some? {
        NeverPassed(cfg, ReleaseWait(cfg, s1, ts), seq_, payload, ts);
      }
    }
  }

  /** In order with nothing waiting, whether or not it may be let through. */
  ghost predicate InOrder(s: Line, seq_: u32, payload: seq<byte>, ts: Time) {
    var v := Anchored(s, seq_, ts).k.track;
    && !Stopped(s) && payload != [] && s.wait.None?
    && OffsetOf(v, seq_) <= v.next < OffsetOf(v, seq_) + |payload|
  }

  lemma PassedInOrder(cfg: Config, s: Line, seq_: u32, payload: seq<byte>, ts: Time)
    requires Calm(s) && Feed(cfg, s, seq_, payload, ts, true).1.Passthrough?
    ensures InOrder(s, seq_, payload, ts)
  {
    hide OffsetOf, Anchor, Resync, ReleaseWait, CheckTimers, CountOld, FeedAhead, Append, TryWait;
    var s1 := Anchored(s, seq_, ts);
    if s1.k.track.stray.Some? {
      NeverPassed(cfg, Resync(cfg, Taken(s1), s1.k.track.stray.value, ts), seq_, payload, ts);
    }
    if s1.wait.Some? {
      NeverPassed(cfg, ReleaseWait(cfg, s1, ts), seq_, payload, ts);
    }
  }

  ghost function Trim(s: Line, start: int): (r: Line)
    ensures r.wait == s.wait && r.k.track == s.k.track && r.k.stop == s.k.stop && r.k.ready == s.k.ready && r.k.above == s.k.above
  {
    if start < s.k.track.next then Retransmitted(s) else s
  }

  lemma FeedIsInOrder(cfg: Config, s: Line, seq_: u32, payload: seq<byte>, ts: Time, pass: bool)
    requires Calm(s) && InOrder(s, seq_, payload, ts)
    ensures var s1 := Anchored(s, seq_, ts);
            var start := OffsetOf(s1.k.track, seq_);
            Feed(cfg, s, seq_, payload, ts, pass) == FeedInOrder(cfg, Trim(s1, start), start, payload, ts, pass)
  {
    hide OffsetOf, Anchor, Resync, ReleaseWait, CheckTimers, CountOld, FeedAhead, FeedInOrder;
  }

  lemma IdleTimers(cfg: Config, s: Line, now: Time)
    requires Calm(s) && s.wait.None? && !Stopped(s)
    ensures var r := CheckTimers(cfg, s, now);
            var due := EvidenceDue(s.k.track, now, cfg.ackGrace).Some? || StrayExpired(s.k.track, now, cfg.deadline * 4);
            (!due ==> r == s) && (due ==> r.k.c.gaps > s.k.c.gaps || r.k.track.stray != s.k.track.stray)
  {
  }

  lemma DrainKeeps(s: Line, t: Line)
    ensures Drain(s) == Drain(t) ==> s.k.c.gaps == t.k.c.gaps && s.k.track.stray == t.k.track.stray
  {
  }

  lemma InOrderRefines(cfg: Config, s: Line, start: int, payload: seq<byte>, ts: Time)
    requires Calm(s) && !Stopped(s) && s.wait.None? && Armed(s) && start <= s.k.track.next < start + |payload|
    requires FeedInOrder(cfg, s, start, payload, ts, true).1.Passthrough?
    ensures var (a, o) := FeedInOrder(cfg, s, start, payload, ts, true);
            var b := FeedInOrder(cfg, s, start, payload, ts, false).0;
            && o.skip == s.k.track.next - start
            && ((Drain(b) == a && b.k.ready == DataCells(payload[o.skip..]))
                <==> NoTimerDue(cfg, s.k.track, start + |payload|, ts))
  {
    hide DataCells, DataLen, Append, NotePass, CheckTimers, AdvanceTo, EvidenceDue, StrayExpired, TryWait;
    var data := payload[s.k.track.next - start..];
    var k := Advance(s.k, start + |payload|, ts);
    AppendThenDrain(cfg, k, data);
    var t := s.(k := Append(cfg, k, data, 0));
    assert TryWait(cfg, t, ts) == t;
    IdleTimers(cfg, t, ts);
    DrainKeeps(t, CheckTimers(cfg, t, ts));
  }

  /**
   Letting through equals buffering and draining, same final state and same
   bytes, if and only if no timer is due once the stream stands past the segment.
   */
  ghost predicate PassRefines(cfg: Config, s: Line, seq_: u32, payload: seq<byte>, ts: Time)
    requires Calm(s) && Feed(cfg, s, seq_, payload, ts, true).1.Passthrough?
  {
    var (a, o) := Feed(cfg, s, seq_, payload, ts, true);
    var b := Feed(cfg, s, seq_, payload, ts, false).0;
    var v := Anchored(s, seq_, ts).k.track;
    && o.skip <= |payload| && OffsetOf(v, seq_) + |payload| >= 0
    && ((Drain(b) == a && b.k.ready == DataCells(payload[o.skip..]))
        <==> NoTimerDue(cfg, v, OffsetOf(v, seq_) + |payload|, ts))
  }

  /** `segment_into` letting bytes through is `segment` then `drain_into`. */
  lemma PassthroughRefines(cfg: Config, s: Line, seq_: u32, payload: seq<byte>, ts: Time)
    requires Calm(s) && Armed(s) && Feed(cfg, s, seq_, payload, ts, true).1.Passthrough?
    ensures PassRefines(cfg, s, seq_, payload, ts)
  {
    hide Feed, FeedInOrder, OffsetOf, Anchor, NoTimerDue, DataCells, Drain, Trim;
    PassedInOrder(cfg, s, seq_, payload, ts);
    var s1 := Anchored(s, seq_, ts);
    assert s1.k.above == s.k.above && s1.k.ready == s.k.ready;
    var start := OffsetOf(s1.k.track, seq_);
    FeedIsInOrder(cfg, s, seq_, payload, ts, true);
    FeedIsInOrder(cfg, s, seq_, payload, ts, false);
    InOrderRefines(cfg, Trim(s1, start), start, payload, ts);
  }

  /** The refinement in every reachable state. */
  lemma PassthroughAfterRun(cfg: Config, es: seq<Event>, seq_: u32, payload: seq<byte>, ts: Time)
    requires Feed(cfg, Run(cfg, Start(), es).s, seq_, payload, ts, true).1.Passthrough?
    ensures PassRefines(cfg, Run(cfg, Start(), es).s, seq_, payload, ts)
  {
    assert Armed(Start().s);
    hide Run, Feed, Armed, PassRefines;
    RunArmed(cfg, Start(), es);
    PassthroughRefines(cfg, Run(cfg, Start(), es).s, seq_, payload, ts);
  }
}

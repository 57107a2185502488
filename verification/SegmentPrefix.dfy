/**
 Longest-prefix delivery: as long as nothing is skipped, no stray is held and
 the side runs, the position is the length of the longest prefix of offsets
 received, and the held bytes are exactly the rest of what was received.
 */
module SegmentPrefix {
  import opened Types
  import opened Tracking
  import opened OutOfOrder
  import opened Store
  import opened SinkSpec
  import opened SegmentSpec
  import opened SegmentRuns
  import opened Wire

  // ----- skipping always shows in the gap counter

  /** Moving the position over a hole counts a gap; without one nothing moved. */
  ghost predicate Tame(s: Stream, t: Stream) {
    && t.k.c.gaps >= s.k.c.gaps
    && (t.k.c.gaps == s.k.c.gaps ==> t.k.track.next == s.k.track.next && t.held == s.held)
  }

  /** And the candidate is still held. */
  ghost predicate Still(s: Stream, t: Stream) {
    Tame(s, t) && (t.k.c.gaps == s.k.c.gaps ==> t.k.track.stray == s.k.track.stray)
  }

  lemma DeliverGaps(cfg: Config, s: Stream, ts: Time)
    requires Ahead(s)
    ensures Deliver(cfg, s, ts).k.c.gaps == s.k.c.gaps
  {
  }

  lemma SkipFirstTame(cfg: Config, s: Stream, ts: Time)
    requires Calm(s)
    ensures Still(s, SkipFirst(cfg, s, ts))
  {
    if s.held != map[] {
      DeliverGaps(cfg, s.(k := SkipTo(s.k, Lowest(s.held), ts)), ts);
      hide Deliver;
    }
  }

  lemma {:induction false} FlushTame(cfg: Config, s: Stream, ts: Time)
    requires Calm(s)
    ensures Still(s, Flush(cfg, s, ts))
    decreases |s.held|
  {
    hide SkipFirst;
    if !Stopped(s) && s.held != map[] {
      SkipFirstTame(cfg, s, ts);
      FlushTame(cfg, SkipFirst(cfg, s, ts), ts);
    }
  }

  lemma {:induction false} CapSkipsTame(cfg: Config, s: Stream, ts: Time, n: nat)
    requires Calm(s)
    ensures Still(s, CapSkips(cfg, s, ts, n))
    decreases n
  {
    hide SkipFirst;
    if n > 0 && !Stopped(s) && s.held != map[] {
      SkipFirstTame(cfg, s, ts);
      CapSkipsTame(cfg, SkipFirst(cfg, s, ts), ts, n - 1);
    }
  }

  lemma {:induction false} SkipUpToTame(cfg: Config, s: Stream, ts: Time, f: nat)
    requires Calm(s)
    ensures Still(s, SkipUpTo(cfg, s, ts, f))
    decreases |s.held|
  {
    hide SkipFirst;
    if !Stopped(s) && s.held != map[] && Lowest(s.held) <= f {
      SkipFirstTame(cfg, s, ts);
      SkipUpToTame(cfg, SkipFirst(cfg, s, ts), ts, f);
    }
  }

  lemma {:induction false} SkipRangeTame(cfg: Config, s: Stream, end: nat, ts: Time)
    requires Calm(s)
    ensures Still(s, SkipRange(cfg, s, end, ts))
    ensures !Stopped(s) && s.k.track.next < end ==> SkipRange(cfg, s, end, ts).k.c.gaps > s.k.c.gaps
    decreases end - s.k.track.next
  {
    if !Stopped(s) && s.k.track.next < end {
      var to := if s.held == map[] then end else Min(Lowest(s.held), end);
      var t := s.(k := SkipTo(s.k, to, ts));
      assert t.k.c.gaps > s.k.c.gaps;
      assert SkipRange(cfg, s, end, ts) == SkipRange(cfg, Deliver(cfg, t, ts), end, ts);
      hide Deliver, SkipTo, SkipRange;
      DeliverGaps(cfg, t, ts);
      SkipRangeTame(cfg, Deliver(cfg, t, ts), end, ts);
    }
  }

  lemma AckTimerTame(cfg: Config, s: Stream, now: Time)
    requires Calm(s)
    ensures Still(s, AckTimer(cfg, s, now))
  {
    var due := EvidenceDue(s.k.track, now, cfg.ackGrace);
    if due.Some? && s.held != map[] && Lowest(s.held) <= due.value {
      SkipUpToTame(cfg, CountAckGap(s), now, due.value);
      hide SkipUpTo;
    }
  }

  lemma CheckTimersTame(cfg: Config, s: Stream, now: Time)
    requires Calm(s)
    ensures Tame(s, CheckTimers(cfg, s, now))
  {
    hide AckTimer, SkipFirst, Stalled;
    AckTimerTame(cfg, s, now);
    SkipFirstTame(cfg, AckTimer(cfg, s, now), now);
  }

  // ----- coverage

  /** The offsets below the position or held are exactly those of `c`. */
  ghost predicate Has(s: Stream, c: iset<nat>) {
    forall o: nat :: (o < s.k.track.next || o in s.held) <==> o in c
  }

  ghost predicate InSpan(at: int, n: nat, o: nat) { at <= o < at + n }

  ghost function SpanFrom(at: int, n: nat): iset<nat> { iset o: nat | InSpan(at, n, o) }

  /** Nothing skipped, no stray held, still running. */
  ghost predicate Untroubled(s: Stream) {
    s.k.c.gaps == 0 && s.k.track.stray.None? && !Stopped(s)
  }

  lemma TameHas(s: Stream, t: Stream, c: iset<nat>)
    requires Tame(s, t) && Has(s, c) && t.k.c.gaps == 0
    ensures Has(t, c)
  {
  }

  /** Delivering moves bytes from held to delivered. */
  lemma DeliverHas(cfg: Config, s: Stream, ts: Time, c: iset<nat>)
    requires Ahead(s) && Has(s, c)
    ensures !Stopped(Deliver(cfg, s, ts)) ==> Has(Deliver(cfg, s, ts), c)
  {
    var next, r := s.k.track.next, Deliver(cfg, s, ts);
    if next in s.held && !Stopped(r) {
      var e := StretchEnd(s.held, next);
      forall o: nat ensures (o < r.k.track.next || o in r.held) <==> (o < next || o in s.held) {
        if next <= o < e { assert o in s.held; }
      }
    }
  }

  /** A segment becoming held data adds its offsets. */
  lemma InsertedHas(cfg: Config, s: Stream, start: nat, data: seq<byte>, ts: Time, c: iset<nat>)
    requires Calm(s) && !Stopped(s) && start >= s.k.track.next && data != [] && Has(s, c)
    ensures Has(Inserted(cfg, s, start, data, ts), c + SpanFrom(start, |data|))
    ensures Inserted(cfg, s, start, data, ts).k.c.gaps == s.k.c.gaps
  {
    var h := AbsorbHeld(cfg.overlap, s.held, start, data);
    forall o: nat ensures o in h <==> (o in s.held || start <= o < start + |data|) { }
  }

  lemma FeedHoleHas(cfg: Config, s: Stream, start: nat, data: seq<byte>, ts: Time, cap: nat, c: iset<nat>)
    requires Calm(s) && !Stopped(s) && start >= s.k.track.next && data != [] && Has(s, c)
    ensures var r := FeedHole(cfg, s, start, data, ts, cap);
            r.k.c.gaps >= s.k.c.gaps && (s.k.c.gaps == 0 && Untroubled(r) ==> Has(r, c + SpanFrom(start, |data|)))
  {
    InsertedHas(cfg, s, start, data, ts, c);
    hide Has, SpanFrom, Inserted, Deliver, CapSkips, CheckTimers;
    var all := c + SpanFrom(start, |data|);
    var s1 := Inserted(cfg, s, start, data, ts);
    DeliverGaps(cfg, s1, ts);
    var s2 := Deliver(cfg, s1, ts);
    CapSkipsTame(cfg, s2, ts, cap);
    var s3 := CapSkips(cfg, s2, ts, cap);
    var s4 := Marked(cfg, s3);
    CheckTimersTame(cfg, s4, ts);
    var r := CheckTimers(cfg, s4, ts);
    if s.k.c.gaps == 0 && Untroubled(r) {
      StoppedStays(cfg, s2, ts, cap);
      DeliverHas(cfg, s1, ts, all);
      TameHas(s2, s3, all);
      SameHas(s3, s4, all);
      TameHas(s4, r, all);
    }
  }

  lemma SameHas(s: Stream, t: Stream, c: iset<nat>)
    requires Has(s, c) && t.held == s.held && t.k.track.next == s.k.track.next
    ensures Has(t, c)
  {
  }

  /** A stopped side does nothing more. */
  lemma StoppedStays(cfg: Config, s: Stream, ts: Time, cap: nat)
    requires Calm(s)
    ensures Stopped(s) ==> Stopped(CheckTimers(cfg, Marked(cfg, CapSkips(cfg, s, ts, cap)), ts))
  {
  }

  lemma FeedInOrderHas(cfg: Config, s: Stream, data: seq<byte>, ts: Time, pass: bool, skip: nat, c: iset<nat>)
    requires Calm(s) && s.held == map[] && !Stopped(s) && data != [] && Has(s, c)
    ensures var r := FeedInOrder(cfg, s, data, ts, pass, skip).0;
            r.k.c.gaps >= s.k.c.gaps && (s.k.c.gaps == 0 && Untroubled(r) ==> Has(r, c + SpanFrom(s.k.track.next, |data|)))
  {
    hide CheckTimers, Append, NotePass;
    var k := Advance(s.k, s.k.track.next + |data|, ts);
    NotePassGaps(cfg, k, |data|);
    var t := s.(k := Append(cfg, k, data, 0));
    CheckTimersTame(cfg, t, ts);
  }

  lemma NotePassGaps(cfg: Config, k: Sink, n: nat)
    ensures NotePass(cfg, k, n).c.gaps == k.c.gaps && NotePass(cfg, k, n).track == k.track
  {
  }

  lemma FeedNearHas(cfg: Config, s: Stream, start: int, payload: seq<byte>, ts: Time, pass: bool, cap: nat, c: iset<nat>)
    requires Calm(s) && !Stopped(s) && payload != [] && Has(s, c)
    ensures var r := FeedNear(cfg, s, start, payload, ts, pass, cap).0;
            r.k.c.gaps >= s.k.c.gaps && (s.k.c.gaps == 0 && Untroubled(r) ==> Has(r, c + SpanFrom(start, |payload|)))
  {
    hide FeedInOrder, FeedHole, FeedOld;
    var next, end := s.k.track.next, start + |payload|;
    var all := c + SpanFrom(start, |payload|);
    if end <= next {
      FeedOldTame(cfg, s, start, end, ts);
      assert all == c;
    } else {
      var skip := if start < next then next - start else 0;
      var k := s.k;
      var s1 := if start < next then s.(k := k.(c := k.c.(retransmits := k.c.retransmits + 1))) else s;
      SameHas(s, s1, c);
      assert c + SpanFrom(Max(start, next), |payload| - skip) == all;
      hide Has;
      if s.held == map[] && start <= next {
        FeedInOrderHas(cfg, s1, payload[skip..], ts, pass, skip, c);
      } else {
        FeedHoleHas(cfg, s1, Max(start, next), payload[skip..], ts, cap, c);
      }
    }
  }

  lemma FeedOldTame(cfg: Config, s: Stream, start: int, end: int, ts: Time)
    requires Calm(s)
    ensures Tame(s, FeedOld(cfg, s, start, end, ts))
  {
    CheckTimersTame(cfg, s.(k := CountOld(cfg, s.k, start, end)), ts);
    hide CheckTimers, CountOld;
  }

  lemma FeedHas(cfg: Config, s: Stream, seq_: u32, payload: seq<byte>, ts: Time, pass: bool, cap: nat, at: int, c: iset<nat>)
    requires Calm(s) && Untroubled(s) && Has(s, c)
    requires payload != [] ==> OffsetOf(Anchored(s, seq_, ts).k.track, seq_) == at
    ensures var r := Feed(cfg, s, seq_, payload, ts, pass, cap).0;
            Untroubled(r) ==> Has(r, c + SpanFrom(at, |payload|))
  {
    if payload == [] {
      assert c + SpanFrom(at, 0) == c;
    } else {
      hide FeedNear, OffsetOf, Has, Anchor;
      var s1 := Anchored(s, seq_, ts);
      SameHas(s, s1, c);
      if !FarAway(cfg, s1.k.track, seq_) {
        FeedNearHas(cfg, s1, at, payload, ts, pass, cap, c);
      }
    }
  }

  /** Everything that is not a data segment leaves the coverage alone. */
  lemma OtherTame(cfg: Config, s: Stream, e: Event)
    requires Calm(s) && Untroubled(s) && !e.Segment?
    ensures var t := Do(cfg, World(s, [], []), e).s; Untroubled(t) ==> Tame(s, t)
  {
    hide PeerAck, FinSeen, MissingBytes, CheckTimers, FlushPending, Feed, Anchor;
    match e
    case Origin(seq_) =>
    case Ack(ack, ts) => AckTame(cfg, s, ack, ts);
    case FinAt(end, ts) => FinTame(cfg, s, end, ts);
    case Cut(seq_, len, ts) => CutTame(cfg, s, seq_, len, ts);
    case Sweep(ts) => CheckTimersTame(cfg, s, ts);
    case EndOfFlow => EndTame(cfg, s);
    case DrainOut =>
    case ReleaseSide =>
  }

  lemma FinTame(cfg: Config, s: Stream, end: u32, ts: Time)
    requires Calm(s) && Untroubled(s)
    ensures Tame(s, FinSeen(cfg, s, end, ts))
  {
    hide OffsetOf, Resync;
  }

  lemma EndTame(cfg: Config, s: Stream)
    requires Calm(s) && Untroubled(s)
    ensures var t := FlushPending(cfg, s); Untroubled(t) ==> Tame(s, t)
  {
    hide Flush, RecordSkip, AdvanceTo;
    FlushTame(cfg, s, s.k.track.progress);
  }

  lemma AckTame(cfg: Config, s: Stream, ack: u32, ts: Time)
    requires Calm(s) && Untroubled(s)
    ensures Tame(s, PeerAck(cfg, s, ack, ts))
  {
    hide OffsetOf, CheckTimers, Resync;
    var e := Evidence(s.k.track, (ack - 1) % TWO_32, ts, cfg.maxAhead);
    CheckTimersTame(cfg, WithEvidence(cfg, s, e, ts), ts);
  }

  lemma CutTame(cfg: Config, s: Stream, seq_: u32, len: nat, ts: Time)
    requires Calm(s) && Untroubled(s)
    ensures var t := MissingBytes(cfg, s, seq_, len, ts); Untroubled(t) ==> Tame(s, t)
  {
    hide OffsetOf, CheckTimers, Resync, SkipRange, MissingFar, MissingAhead, Anchor, Watermark;
    var s1 := Anchored(s, seq_, ts);
    var start := OffsetOf(s1.k.track, seq_);
    if len > 0 && start + len > s1.k.track.next {
      if start - s1.k.track.next > cfg.maxAhead {
        FarIsHeld(cfg, s1, start, len, ts);
      } else if start <= s1.k.track.next {
        SkipRangeTame(cfg, s1, start + len, ts);
        CheckTimersTame(cfg, Marked(cfg, SkipRange(cfg, s1, start + len, ts)), ts);
      } else {
        AheadTame(cfg, s1, (seq_ + len) % TWO_32, ts);
      }
    }
  }

  lemma AheadTame(cfg: Config, s: Stream, end: u32, ts: Time)
    requires Calm(s) && Untroubled(s)
    ensures Tame(s, MissingAhead(cfg, s, end, ts))
  {
    hide OffsetOf, CheckTimers, Resync;
    CheckTimersTame(cfg, WithEvidence(cfg, s, Evidence(s.k.track, end, ts, cfg.maxAhead), ts), ts);
  }

  lemma FarIsHeld(cfg: Config, s: Stream, start: nat, len: nat, ts: Time)
    requires Calm(s) && Untroubled(s)
    ensures !Untroubled(MissingFar(cfg, s, start, len, ts))
  {
    var t := s.(k := s.k.(track := ExtendStray(Hold(s.k.track, start, [], ts), start, len, ts)));
    CheckTimersTame(cfg, t, ts);
    StrayStays(cfg, t, ts);
    hide CheckTimers;
  }

  /** A timer that skips nothing keeps a fresh stray. */
  lemma StrayStays(cfg: Config, s: Stream, now: Time)
    requires Calm(s) && s.k.track.stray.Some? && s.k.track.stray.value.ts == now
    ensures var t := CheckTimers(cfg, s, now); t.k.c.gaps == s.k.c.gaps ==> t.k.track.stray.Some?
  {
    hide AckTimer, SkipFirst, Stalled;
    AckTimerTame(cfg, s, now);
    SkipFirstTame(cfg, AckTimer(cfg, s, now), now);
  }

  // ----- runs

  ghost predicate UntroubledRun(cfg: Config, w: World, es: seq<Event>)
    requires Calm(w.s)
    decreases |es|
  {
    Untroubled(w.s) && (es == [] || UntroubledRun(cfg, Do(cfg, w, es[0]), es[1..]))
  }

  /** `ats[k]` is the offset of segment `es[k]`, within half the sequence space of the position. */
  ghost predicate Labelled(cfg: Config, w: World, es: seq<Event>, ats: seq<int>)
    requires Calm(w.s) && |es| == |ats|
    decreases |es|
  {
    es == [] ||
    (&& (es[0].Segment? ==>
           var v := Anchored(w.s, es[0].seq_, es[0].ts).k.track;
           SeqAt(v.origin.value, ats[0]) == es[0].seq_ && InHalf(v.next, ats[0]))
     && Labelled(cfg, Do(cfg, w, es[0]), es[1..], ats[1..]))
  }

  /** The offsets the segments of a run carry. */
  ghost function Coverage(es: seq<Event>, ats: seq<int>): iset<nat>
    requires |es| == |ats|
  {
    if es == [] then iset{}
    else (if es[0].Segment? then SpanFrom(ats[0], |es[0].payload|) else iset{}) + Coverage(es[1..], ats[1..])
  }

  lemma StepHas(cfg: Config, w: World, e: Event, at: int, c: iset<nat>)
    requires Calm(w.s) && Untroubled(w.s) && Has(w.s, c)
    requires e.Segment? ==>
               var v := Anchored(w.s, e.seq_, e.ts).k.track;
               SeqAt(v.origin.value, at) == e.seq_ && InHalf(v.next, at)
    ensures var t := Do(cfg, w, e).s;
            Untroubled(t) ==> Has(t, c + if e.Segment? then SpanFrom(at, |e.payload|) else iset{})
  {
    if e.Segment? {
      OffsetOfUnique(Anchored(w.s, e.seq_, e.ts).k.track, at);
      hide Feed, Anchor, OffsetOf;
      FeedHas(cfg, w.s, e.seq_, e.payload, e.ts, e.pass, e.cap, at, c);
    } else {
      OtherTame(cfg, w.s, e);
      WorldFree(cfg, w, e);
      hide Do;
      assert c + iset{} == c;
      if Untroubled(Do(cfg, w, e).s) {
        TameHas(w.s, Do(cfg, w, e).s, c);
      }
    }
  }

  /** What is received and sent does not influence the reassembler. */
  lemma WorldFree(cfg: Config, w: World, e: Event)
    requires Calm(w.s)
    ensures Do(cfg, w, e).s == Do(cfg, World(w.s, [], []), e).s
  {
  }

  lemma {:induction false} RunHas(cfg: Config, w: World, es: seq<Event>, ats: seq<int>, c: iset<nat>)
    requires Calm(w.s) && Has(w.s, c) && |es| == |ats|
    requires UntroubledRun(cfg, w, es) && Labelled(cfg, w, es, ats)
    ensures Has(Run(cfg, w, es).s, c + Coverage(es, ats)) && Untroubled(Run(cfg, w, es).s)
    decreases |es|
  {
    hide Has, Do, Untroubled;
    if es == [] {
      assert c + Coverage(es, ats) == c;
    } else {
      var span := if es[0].Segment? then SpanFrom(ats[0], |es[0].payload|) else iset{};
      StepHas(cfg, w, es[0], ats[0], c);
      RunHas(cfg, Do(cfg, w, es[0]), es[1..], ats[1..], c + span);
      assert c + span + Coverage(es[1..], ats[1..]) == c + Coverage(es, ats);
    }
  }

  /**
   The position is the length of the longest prefix of offsets received, and
   what is held is exactly what was received beyond it.
   */
  lemma LongestPrefix(cfg: Config, es: seq<Event>, ats: seq<int>)
    requires |es| == |ats| && UntroubledRun(cfg, Start(), es) && Labelled(cfg, Start(), es, ats)
    ensures var s := Run(cfg, Start(), es).s;
            && (forall o: nat :: o < s.k.track.next ==> o in Coverage(es, ats))
            && s.k.track.next !in Coverage(es, ats)
            && (forall o: nat :: o in s.held <==> o > s.k.track.next && o in Coverage(es, ats))
  {
    assert Has(Start().s, iset{});
    hide Run, Has, Coverage, Calm;
    RunHas(cfg, Start(), es, ats, iset{});
    assert iset{} + Coverage(es, ats) == Coverage(es, ats);
    PrefixOf(Run(cfg, Start(), es).s, Coverage(es, ats));
  }

  lemma PrefixOf(s: Stream, c: iset<nat>)
    requires Calm(s) && Has(s, c)
    ensures forall o: nat :: o < s.k.track.next ==> o in c
    ensures s.k.track.next !in c
    ensures forall o: nat :: o in s.held <==> o > s.k.track.next && o in c
  {
  }

  /** Any arrival order of the same offsets delivers the same prefix and holds the same rest. */
  lemma OrderIrrelevant(cfg: Config, es: seq<Event>, ats: seq<int>, fs: seq<Event>, bts: seq<int>)
    requires |es| == |ats| && UntroubledRun(cfg, Start(), es) && Labelled(cfg, Start(), es, ats)
    requires |fs| == |bts| && UntroubledRun(cfg, Start(), fs) && Labelled(cfg, Start(), fs, bts)
    requires Coverage(es, ats) == Coverage(fs, bts)
    ensures var s, t := Run(cfg, Start(), es).s, Run(cfg, Start(), fs).s;
            s.k.track.next == t.k.track.next && s.held.Keys == t.held.Keys
  {
    LongestPrefix(cfg, es, ats);
    LongestPrefix(cfg, fs, bts);
    hide Run, Coverage;
  }
}

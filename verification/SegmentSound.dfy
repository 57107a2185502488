/**
 Soundness and conservation of the out-of-order reassembler over whole runs:
 every byte it ever hands over was carried by a received segment at the
 sequence number of its place in the output.
 */
module SegmentSound {
  import opened Types
  import opened Cells
  import opened Tracking
  import opened OutOfOrder
  import opened Store
  import opened SinkSpec
  import opened SinkTheorems
  import opened SegmentSpec

  ghost predicate HeldOk(ok: (nat, byte) -> bool, held: Held) { forall o :: o in held ==> ok(o, held[o].b) }

  ghost predicate StreamInv(cfg: Config, ok: (nat, byte) -> bool, sent: seq<Cell>, s: Stream) {
    && SinkInv(cfg, ok, sent, s.k)
    && HeldOk(ok, s.held)
    && StrayOk(ok, s.k.track.stray)
  }

  /** Only output, position, held bytes, candidate and two counters matter. */
  lemma SameOutput(cfg: Config, ok: (nat, byte) -> bool, sent: seq<Cell>, s: Stream, t: Stream)
    requires StreamInv(cfg, ok, sent, s)
    requires t.held == s.held && t.k.ready == s.k.ready && t.k.stop == s.k.stop && t.k.track.next == s.k.track.next
    requires t.k.c.gapBytes == s.k.c.gapBytes && t.k.c.oversize == s.k.c.oversize
    requires StrayOk(ok, t.k.track.stray)
    ensures StreamInv(cfg, ok, sent, t)
  {
  }

  lemma DeliverInv(cfg: Config, ok: (nat, byte) -> bool, sent: seq<Cell>, s: Stream, ts: Time)
    requires Ahead(s) && StreamInv(cfg, ok, sent, s)
    ensures StreamInv(cfg, ok, sent, Deliver(cfg, s, ts))
  {
    hide SinkInv, Append;
    var next := s.k.track.next;
    if next in s.held {
      var e := StretchEnd(s.held, next);
      var bs := BytesOf(s.held, next, e);
      forall j | 0 <= j < |bs| ensures ok(next + j, bs[j]) {
        assert next + j in s.held;
      }
      AppendInv(cfg, ok, sent, s.k, e, ts, bs, |From(s.held, e)|);
    }
  }

  lemma SkipFirstInv(cfg: Config, ok: (nat, byte) -> bool, sent: seq<Cell>, s: Stream, ts: Time)
    requires Ahead(s) && StreamInv(cfg, ok, sent, s)
    ensures StreamInv(cfg, ok, sent, SkipFirst(cfg, s, ts))
  {
    if s.held != map[] {
      hide SinkInv, Deliver;
      SkipInv(cfg, ok, sent, s.k, Lowest(s.held), ts);
      DeliverInv(cfg, ok, sent, s.(k := SkipTo(s.k, Lowest(s.held), ts)), ts);
    }
  }

  lemma {:induction false} FlushInv(cfg: Config, ok: (nat, byte) -> bool, sent: seq<Cell>, s: Stream, ts: Time)
    requires Ahead(s) && StreamInv(cfg, ok, sent, s)
    ensures StreamInv(cfg, ok, sent, Flush(cfg, s, ts))
    decreases |s.held|
  {
    hide SinkInv, SkipFirst, HeldOk, StrayOk;
    if !Stopped(s) && s.held != map[] {
      SkipFirstInv(cfg, ok, sent, s, ts);
      FlushInv(cfg, ok, sent, SkipFirst(cfg, s, ts), ts);
    }
  }

  lemma {:induction false} CapSkipsInv(cfg: Config, ok: (nat, byte) -> bool, sent: seq<Cell>, s: Stream, ts: Time, n: nat)
    requires Calm(s) && StreamInv(cfg, ok, sent, s)
    ensures StreamInv(cfg, ok, sent, CapSkips(cfg, s, ts, n))
    decreases n
  {
    hide SinkInv, SkipFirst, HeldOk, StrayOk;
    if n > 0 && !Stopped(s) && s.held != map[] {
      SkipFirstInv(cfg, ok, sent, s, ts);
      CapSkipsInv(cfg, ok, sent, SkipFirst(cfg, s, ts), ts, n - 1);
    }
  }

  lemma {:induction false} SkipUpToInv(cfg: Config, ok: (nat, byte) -> bool, sent: seq<Cell>, s: Stream, ts: Time, f: nat)
    requires Calm(s) && StreamInv(cfg, ok, sent, s)
    ensures StreamInv(cfg, ok, sent, SkipUpTo(cfg, s, ts, f))
    decreases |s.held|
  {
    hide SinkInv, SkipFirst, HeldOk, StrayOk;
    if !Stopped(s) && s.held != map[] && Lowest(s.held) <= f {
      SkipFirstInv(cfg, ok, sent, s, ts);
      SkipUpToInv(cfg, ok, sent, SkipFirst(cfg, s, ts), ts, f);
    }
  }

  lemma {:induction false} SkipRangeInv(cfg: Config, ok: (nat, byte) -> bool, sent: seq<Cell>, s: Stream, end: nat, ts: Time)
    requires Calm(s) && StreamInv(cfg, ok, sent, s)
    ensures StreamInv(cfg, ok, sent, SkipRange(cfg, s, end, ts))
    decreases end - s.k.track.next
  {
    hide SinkInv, HeldOk, StrayOk, Deliver;
    if !Stopped(s) && s.k.track.next < end {
      var to := if s.held == map[] then end else Min(Lowest(s.held), end);
      var t := s.(k := SkipTo(s.k, to, ts));
      SkipInv(cfg, ok, sent, s.k, to, ts);
      DeliverInv(cfg, ok, sent, t, ts);
      SkipRangeInv(cfg, ok, sent, Deliver(cfg, t, ts), end, ts);
    }
  }

  lemma CheckTimersInv(cfg: Config, ok: (nat, byte) -> bool, sent: seq<Cell>, s: Stream, now: Time)
    requires Calm(s) && StreamInv(cfg, ok, sent, s)
    ensures StreamInv(cfg, ok, sent, CheckTimers(cfg, s, now))
  {
    if !Stopped(s) {
      AckTimerInv(cfg, ok, sent, s, now);
      var t := AckTimer(cfg, s, now);
      if t.held != map[] && Stalled(cfg, t, now) { SkipFirstInv(cfg, ok, sent, t, now); }
      hide AckTimer, Stalled, SkipFirst;
    }
  }

  lemma AckTimerInv(cfg: Config, ok: (nat, byte) -> bool, sent: seq<Cell>, s: Stream, now: Time)
    requires Calm(s) && StreamInv(cfg, ok, sent, s)
    ensures StreamInv(cfg, ok, sent, AckTimer(cfg, s, now))
  {
    var due := EvidenceDue(s.k.track, now, cfg.ackGrace);
    if due.Some? {
      var t := CountAckGap(s);
      assert StreamInv(cfg, ok, sent, t);
      if s.held == map[] {
        SkipInv(cfg, ok, sent, t.k, due.value, now);
      } else if Lowest(s.held) <= due.value {
        SkipUpToInv(cfg, ok, sent, t, now, due.value);
      }
    }
  }

  lemma AbsorbInv(cfg: Config, ok: (nat, byte) -> bool, sent: seq<Cell>, s: Stream, start: nat, data: seq<byte>)
    requires Ahead(s) && !Stopped(s) && start >= s.k.track.next && data != []
    requires StreamInv(cfg, ok, sent, s) && Genuine(ok, start, data)
    ensures StreamInv(cfg, ok, sent, Absorb(cfg, s, start, data))
  {
    var h := AbsorbHeld(cfg.overlap, s.held, start, data);
    forall o | o in h ensures ok(o, h[o].b) {
      assert h[o] == AbsorbCell(cfg.overlap, s.held, start, data, o);
      if o !in s.held || h[o] != s.held[o] { assert ok(start + (o - start), data[o - start]); }
    }
  }

  // ----- feed

  lemma InsertedInv(cfg: Config, ok: (nat, byte) -> bool, sent: seq<Cell>, s: Stream, start: nat, data: seq<byte>, ts: Time)
    requires Calm(s) && !Stopped(s) && start >= s.k.track.next && data != []
    requires StreamInv(cfg, ok, sent, s) && Genuine(ok, start, data)
    ensures StreamInv(cfg, ok, sent, Inserted(cfg, s, start, data, ts))
  {
    hide SinkInv, HeldOk, StrayOk;
    var s1 := OpenHole(s, ts);
    SameOutput(cfg, ok, sent, s, s1);
    AbsorbInv(cfg, ok, sent, s1, start, data);
    hide Absorb;
    SameOutput(cfg, ok, sent, Absorb(cfg, s1, start, data), Inserted(cfg, s, start, data, ts));
  }

  lemma FeedHoleInv(cfg: Config, ok: (nat, byte) -> bool, sent: seq<Cell>, s: Stream, start: nat, data: seq<byte>, ts: Time, cap: nat)
    requires Calm(s) && !Stopped(s) && start >= s.k.track.next && data != []
    requires StreamInv(cfg, ok, sent, s) && Genuine(ok, start, data)
    ensures StreamInv(cfg, ok, sent, FeedHole(cfg, s, start, data, ts, cap))
  {
    InsertedInv(cfg, ok, sent, s, start, data, ts);
    var s2 := Inserted(cfg, s, start, data, ts);
    hide SinkInv, HeldOk, StrayOk, Inserted, Deliver, CapSkips, CheckTimers;
    DeliverInv(cfg, ok, sent, s2, ts);
    var s3 := Deliver(cfg, s2, ts);
    CapSkipsInv(cfg, ok, sent, s3, ts, cap);
    var s4 := CapSkips(cfg, s3, ts, cap);
    MarkedInv(cfg, ok, sent, s4);
    CheckTimersInv(cfg, ok, sent, Marked(cfg, s4), ts);
  }

  lemma MarkedInv(cfg: Config, ok: (nat, byte) -> bool, sent: seq<Cell>, s: Stream)
    requires StreamInv(cfg, ok, sent, s)
    ensures StreamInv(cfg, ok, sent, Marked(cfg, s))
  {
  }

  /** Append `bs` where the stream stands, with nothing held. */
  ghost function Appended(cfg: Config, s: Stream, bs: seq<byte>, ts: Time): Stream {
    s.(k := Append(cfg, Advance(s.k, s.k.track.next + |bs|, ts), bs, 0))
  }

  lemma AppendedInv(cfg: Config, ok: (nat, byte) -> bool, sent: seq<Cell>, s: Stream, bs: seq<byte>, ts: Time)
    requires StreamInv(cfg, ok, sent, s) && !Stopped(s) && bs != [] && Genuine(ok, s.k.track.next, bs)
    ensures StreamInv(cfg, ok, sent, Appended(cfg, s, bs, ts))
  {
    hide SinkInv, HeldOk, Genuine, Append;
    AppendInv(cfg, ok, sent, s.k, s.k.track.next + |bs|, ts, bs, 0);
  }

  lemma PassedInv(cfg: Config, ok: (nat, byte) -> bool, sent: seq<Cell>, s: Stream, bs: seq<byte>, ts: Time)
    requires StreamInv(cfg, ok, sent, s) && !Stopped(s) && s.k.ready == [] && Genuine(ok, s.k.track.next, bs)
    ensures StreamInv(cfg, ok, sent + DataCells(bs), s.(k := NotePass(cfg, Advance(s.k, s.k.track.next + |bs|, ts), |bs|)))
  {
    hide SinkInv, HeldOk, StrayOk, Genuine, DataCells;
    PassInv(cfg, ok, sent, s.k, s.k.track.next + |bs|, ts, bs);
  }

  lemma FeedInOrderInv(cfg: Config, ok: (nat, byte) -> bool, sent: seq<Cell>, s: Stream, payload: seq<byte>, ts: Time, pass: bool, skip: nat)
    requires Calm(s) && s.held == map[] && !Stopped(s) && skip < |payload|
    requires StreamInv(cfg, ok, sent, s) && Genuine(ok, s.k.track.next, payload[skip..])
    ensures var r := FeedInOrder(cfg, s, payload[skip..], ts, pass, skip);
            StreamInv(cfg, ok, sent + Emitted(r.1, payload), r.0)
  {
    hide StreamInv, Genuine, Append, NotePass, CheckTimers, DataCells, AdvanceTo;
    var data := payload[skip..];
    NothingEmitted(sent);
    if pass && s.k.ready == [] && Fits(cfg, |data|) {
      PassedInv(cfg, ok, sent, s, data, ts);
    } else {
      AppendedInv(cfg, ok, sent, s, data, ts);
      AppendedCalm(cfg, s, data, ts);
      CheckTimersInv(cfg, ok, sent, Appended(cfg, s, data, ts), ts);
    }
  }

  lemma AppendedCalm(cfg: Config, s: Stream, bs: seq<byte>, ts: Time)
    requires Calm(s) && s.held == map[]
    ensures Calm(Appended(cfg, s, bs, ts))
  {
    hide Append;
  }

  lemma FeedNearInv(cfg: Config, ok: (nat, byte) -> bool, sent: seq<Cell>, s: Stream, start: int, payload: seq<byte>, ts: Time, pass: bool, cap: nat)
    requires Calm(s) && !Stopped(s) && payload != []
    requires StreamInv(cfg, ok, sent, s) && GenuineFrom(ok, start, payload)
    ensures var r := FeedNear(cfg, s, start, payload, ts, pass, cap);
            StreamInv(cfg, ok, sent + Emitted(r.1, payload), r.0)
  {
    NothingEmitted(sent);
    hide SinkInv, HeldOk, StrayOk, FeedInOrder, FeedHole, FeedOld;
    var next, end := s.k.track.next, start + |payload|;
    if end <= next {
      FeedOldInv(cfg, ok, sent, s, start, end, ts);
    } else {
      var skip := if start < next then next - start else 0;
      var s1 := if start < next then s.(k := s.k.(c := s.k.c.(retransmits := s.k.c.retransmits + 1))) else s;
      SameOutput(cfg, ok, sent, s, s1);
      TailGenuine(ok, start, payload, skip);
      if s.held == map[] && start <= next {
        FeedInOrderInv(cfg, ok, sent, s1, payload, ts, pass, skip);
      } else {
        FeedHoleInv(cfg, ok, sent, s1, Max(start, next), payload[skip..], ts, cap);
      }
    }
  }

  lemma FeedOldInv(cfg: Config, ok: (nat, byte) -> bool, sent: seq<Cell>, s: Stream, start: int, end: int, ts: Time)
    requires Calm(s) && StreamInv(cfg, ok, sent, s)
    ensures StreamInv(cfg, ok, sent, FeedOld(cfg, s, start, end, ts))
  {
    hide SinkInv, HeldOk, StrayOk, CheckTimers, CountOld;
    var t := s.(k := CountOld(cfg, s.k, start, end));
    SameOutput(cfg, ok, sent, s, t);
    CheckTimersInv(cfg, ok, sent, t, ts);
  }

  lemma ResyncInv(cfg: Config, ok: (nat, byte) -> bool, sent: seq<Cell>, s: Stream, c: Candidate, ts: Time)
    requires Calm(s) && StreamInv(cfg, ok, sent, s) && Genuine(ok, c.off, c.data)
    ensures StreamInv(cfg, ok, sent, Resync(cfg, s, c, ts))
  {
    hide SinkInv, HeldOk, StrayOk, Flush, FeedNear;
    FlushInv(cfg, ok, sent, s, ts);
    var s1 := Flush(cfg, s, ts);
    SkipInv(cfg, ok, sent, s1.k, c.off, ts);
    var s2 := s1.(k := SkipTo(s1.k, c.off, ts));
    var s3 := s2;
    if !Stopped(s2) && c.data != [] {
      ResyncFeedInv(cfg, ok, sent, s2, c, ts);
      s3 := FeedNear(cfg, s2, c.off, c.data, ts, false, 0).0;
    }
    SkipInv(cfg, ok, sent, s3.k, c.End(), ts);
  }

  lemma ResyncFeedInv(cfg: Config, ok: (nat, byte) -> bool, sent: seq<Cell>, s: Stream, c: Candidate, ts: Time)
    requires Calm(s) && !Stopped(s) && c.data != []
    requires StreamInv(cfg, ok, sent, s) && Genuine(ok, c.off, c.data)
    ensures StreamInv(cfg, ok, sent, FeedNear(cfg, s, c.off, c.data, ts, false, 0).0)
  {
    FeedNearInv(cfg, ok, sent, s, c.off, c.data, ts, false, 0);
    NothingEmitted(sent);
    hide SinkInv, FeedOld, FeedHole, CheckTimers, Append, HeldOk, StrayOk;
    assert FeedNear(cfg, s, c.off, c.data, ts, false, 0).1 == Buffered;
  }

  /** The offsets at which `feed` would place this segment: before, and after a resync it triggers. */
  ghost predicate Lands(cfg: Config, ok: (nat, byte) -> bool, s: Stream, seq_: u32, payload: seq<byte>, ts: Time)
    requires Calm(s)
  {
    var s1 := Anchored(s, seq_, ts);
    var v := s1.k.track;
    && GenuineFrom(ok, OffsetOf(v, seq_), payload)
    && (FarAway(cfg, v, seq_) && Corroborated(v, OffsetOf(v, seq_), cfg.maxAhead) ==>
          var t := Resync(cfg, Taken(s1), v.stray.value, ts).k.track;
          GenuineFrom(ok, OffsetOf(t, seq_), payload))
  }

  lemma FeedOnceInv(cfg: Config, ok: (nat, byte) -> bool, sent: seq<Cell>, s: Stream, seq_: u32, payload: seq<byte>, ts: Time, pass: bool, cap: nat)
    requires Calm(s) && StreamInv(cfg, ok, sent, s)
    requires GenuineFrom(ok, OffsetOf(Anchored(s, seq_, ts).k.track, seq_), payload)
    ensures var r := FeedOnce(cfg, s, seq_, payload, ts, pass, cap);
            && StreamInv(cfg, ok, sent + Emitted(r.1, payload), r.0)
            && (!Stopped(s) && payload != [] ==> r.0.k.track.origin == Anchored(s, seq_, ts).k.track.origin)
  {
    NothingEmitted(sent);
    if !Stopped(s) && payload != [] {
      var s1 := Anchored(s, seq_, ts);
      assert StreamInv(cfg, ok, sent, s1);
      hide SinkInv, HeldOk, FeedNear, OffsetOf;
      var off := OffsetOf(s1.k.track, seq_);
      if FarAway(cfg, s1.k.track, seq_) {
        assert Genuine(ok, off, payload);
      } else {
        FeedNearInv(cfg, ok, sent, s1, off, payload, ts, pass, cap);
      }
    }
  }

  /** One segment, resync included. */
  lemma FeedInv(cfg: Config, ok: (nat, byte) -> bool, sent: seq<Cell>, s: Stream, seq_: u32, payload: seq<byte>, ts: Time, pass: bool, cap: nat)
    requires Calm(s) && StreamInv(cfg, ok, sent, s) && Lands(cfg, ok, s, seq_, payload, ts)
    ensures var r := Feed(cfg, s, seq_, payload, ts, pass, cap);
            && StreamInv(cfg, ok, sent + Emitted(r.1, payload), r.0)
            && (!Stopped(s) && payload != [] ==> r.0.k.track.origin == Anchored(s, seq_, ts).k.track.origin)
  {
    NothingEmitted(sent);
    var s1 := Anchored(s, seq_, ts);
    var v := s1.k.track;
    assert StreamInv(cfg, ok, sent, Taken(s1));
    hide SinkInv, HeldOk, FeedOnce, Resync, OffsetOf;
    if !Stopped(s) && payload != [] {
      if FarAway(cfg, v, seq_) && Corroborated(v, OffsetOf(v, seq_), cfg.maxAhead) {
        ResyncInv(cfg, ok, sent, Taken(s1), v.stray.value, ts);
        FeedOnceInv(cfg, ok, sent, Resync(cfg, Taken(s1), v.stray.value, ts), seq_, payload, ts, false, cap);
      } else {
        FeedOnceInv(cfg, ok, sent, s, seq_, payload, ts, pass, cap);
      }
    }
  }

  // ----- the other entry points

  lemma WithEvidenceInv(cfg: Config, ok: (nat, byte) -> bool, sent: seq<Cell>, s: Stream, e: (TrackView, Option<Candidate>), ts: Time)
    requires Calm(s) && StreamInv(cfg, ok, sent, s)
    requires e.0.next == s.k.track.next && e.0.origin == s.k.track.origin
    requires e.0.stray == s.k.track.stray || e.0.stray == None
    requires e.1.Some? ==> e.1 == s.k.track.stray
    ensures var r := WithEvidence(cfg, s, e, ts);
            StreamInv(cfg, ok, sent, r) && r.k.track.origin == s.k.track.origin
  {
    var t := s.(k := s.k.(track := e.0));
    assert StreamInv(cfg, ok, sent, t);
    hide SinkInv, HeldOk, Resync;
    if e.1.Some? { ResyncInv(cfg, ok, sent, t, e.1.value, ts); }
  }

  lemma PeerAckInv(cfg: Config, ok: (nat, byte) -> bool, sent: seq<Cell>, s: Stream, ack: u32, ts: Time)
    requires Calm(s) && StreamInv(cfg, ok, sent, s)
    ensures var r := PeerAck(cfg, s, ack, ts);
            StreamInv(cfg, ok, sent, r) && r.k.track.origin == s.k.track.origin
  {
    hide SinkInv, HeldOk, StrayOk, WithEvidence, CheckTimers, Evidence;
    if !Stopped(s) {
      var e := Evidence(s.k.track, (ack - 1) % TWO_32, ts, cfg.maxAhead);
      EvidenceKeeps(s.k.track, (ack - 1) % TWO_32, ts, cfg.maxAhead);
      WithEvidenceInv(cfg, ok, sent, s, e, ts);
      CheckTimersInv(cfg, ok, sent, WithEvidence(cfg, s, e, ts), ts);
    }
  }

  lemma FinSeenInv(cfg: Config, ok: (nat, byte) -> bool, sent: seq<Cell>, s: Stream, end: u32, ts: Time)
    requires Calm(s) && StreamInv(cfg, ok, sent, s)
    ensures var r := FinSeen(cfg, s, end, ts);
            StreamInv(cfg, ok, sent, r) && r.k.track.origin == s.k.track.origin
  {
    hide SinkInv, HeldOk, StrayOk, WithEvidence, Fin;
    if !Stopped(s) {
      EvidenceKeeps(s.k.track, end, ts, cfg.maxAhead);
      WithEvidenceInv(cfg, ok, sent, s, Fin(s.k.track, end, ts, cfg.maxAhead), ts);
    }
  }

  lemma AnchoredInv(cfg: Config, ok: (nat, byte) -> bool, sent: seq<Cell>, s: Stream, seq_: u32, ts: Time)
    requires StreamInv(cfg, ok, sent, s)
    ensures StreamInv(cfg, ok, sent, Anchored(s, seq_, ts))
  {
    hide SinkInv, HeldOk, StrayOk;
    SameOutput(cfg, ok, sent, s, Anchored(s, seq_, ts));
  }

  lemma MissingFarInv(cfg: Config, ok: (nat, byte) -> bool, sent: seq<Cell>, s: Stream, start: nat, len: nat, ts: Time)
    requires Calm(s) && StreamInv(cfg, ok, sent, s)
    ensures var r := MissingFar(cfg, s, start, len, ts);
            StreamInv(cfg, ok, sent, r) && r.k.track.origin == s.k.track.origin
  {
    hide SinkInv, HeldOk, CheckTimers;
    var v := s.k.track;
    var w := if Continues(v, start, ts) then v else Hold(v, start, [], ts);
    var t := s.(k := s.k.(track := ExtendStray(w, start, len, ts)));
    SameOutput(cfg, ok, sent, s, t);
    CheckTimersInv(cfg, ok, sent, t, ts);
  }

  lemma MissingAheadInv(cfg: Config, ok: (nat, byte) -> bool, sent: seq<Cell>, s: Stream, end: u32, ts: Time)
    requires Calm(s) && StreamInv(cfg, ok, sent, s)
    ensures var r := MissingAhead(cfg, s, end, ts);
            StreamInv(cfg, ok, sent, r) && r.k.track.origin == s.k.track.origin
  {
    hide SinkInv, HeldOk, StrayOk, CheckTimers, WithEvidence, Evidence;
    var e := Evidence(s.k.track, end, ts, cfg.maxAhead);
    EvidenceKeeps(s.k.track, end, ts, cfg.maxAhead);
    WithEvidenceInv(cfg, ok, sent, s, e, ts);
    CheckTimersInv(cfg, ok, sent, WithEvidence(cfg, s, e, ts), ts);
  }

  lemma MissingOnceInv(cfg: Config, ok: (nat, byte) -> bool, sent: seq<Cell>, s: Stream, seq_: u32, len: nat, ts: Time)
    requires Calm(s) && StreamInv(cfg, ok, sent, s)
    ensures var r := MissingOnce(cfg, s, seq_, len, ts);
            && StreamInv(cfg, ok, sent, r)
            && (!Stopped(s) && len > 0 ==> r.k.track.origin == Anchored(s, seq_, ts).k.track.origin)
  {
    hide SinkInv, HeldOk, StrayOk, OffsetOf, CheckTimers, SkipRange, MissingFar, MissingAhead, Marked, Anchor, Signed32, SeqAt;
    if !Stopped(s) && len > 0 {
      var s1 := Anchored(s, seq_, ts);
      var v := s1.k.track;
      var start := OffsetOf(v, seq_);
      AnchoredInv(cfg, ok, sent, s, seq_, ts);
      hide Anchored;
      if start + len > v.next {
        if start - v.next > cfg.maxAhead {
          MissingFarInv(cfg, ok, sent, s1, start, len, ts);
        } else if start <= v.next {
          SkipRangeInv(cfg, ok, sent, s1, start + len, ts);
          var t := SkipRange(cfg, s1, start + len, ts);
          MarkedInv(cfg, ok, sent, t);
          CheckTimersInv(cfg, ok, sent, Marked(cfg, t), ts);
        } else {
          MissingAheadInv(cfg, ok, sent, s1, (seq_ + len) % TWO_32, ts);
        }
      }
    }
  }

  lemma MissingInv(cfg: Config, ok: (nat, byte) -> bool, sent: seq<Cell>, s: Stream, seq_: u32, len: nat, ts: Time)
    requires Calm(s) && StreamInv(cfg, ok, sent, s)
    ensures var r := MissingBytes(cfg, s, seq_, len, ts);
            && StreamInv(cfg, ok, sent, r)
            && (!Stopped(s) && len > 0 ==> r.k.track.origin == Anchored(s, seq_, ts).k.track.origin)
  {
    var s1 := Anchored(s, seq_, ts);
    var v := s1.k.track;
    assert StreamInv(cfg, ok, sent, Taken(s1));
    hide SinkInv, HeldOk, MissingOnce, Resync, OffsetOf;
    MissingOnceInv(cfg, ok, sent, s, seq_, len, ts);
    if v.stray.Some? {
      var t := Resync(cfg, Taken(s1), v.stray.value, ts);
      ResyncInv(cfg, ok, sent, Taken(s1), v.stray.value, ts);
      MissingOnceInv(cfg, ok, sent, t, seq_, len, ts);
    }
  }

  lemma FlushPendingInv(cfg: Config, ok: (nat, byte) -> bool, sent: seq<Cell>, s: Stream)
    requires Calm(s) && StreamInv(cfg, ok, sent, s)
    ensures var r := FlushPending(cfg, s);
            StreamInv(cfg, ok, sent, r) && r.k.track.origin == s.k.track.origin
  {
    hide Flush, SinkInv, HeldOk;
    var ts := s.k.track.progress;
    FlushInv(cfg, ok, sent, s, ts);
    var t := Flush(cfg, s, ts);
    CountInv(cfg, ok, sent, t.k);
    if !Stopped(t) && Frontier(t.k.track).Some? {
      SkipInv(cfg, ok, sent, CountAckGap(t).k, Frontier(t.k.track).value, ts);
    }
    CountInv(cfg, ok, sent, SkipProven(t, ts).k);
  }

  /** Neither the acknowledged-gap counter nor the candidate is part of the output. */
  lemma CountInv(cfg: Config, ok: (nat, byte) -> bool, sent: seq<Cell>, k: Sink)
    requires SinkInv(cfg, ok, sent, k)
    ensures SinkInv(cfg, ok, sent, k.(c := k.c.(ackGaps := k.c.ackGaps + 1)))
    ensures SinkInv(cfg, ok, sent, k.(track := DropStray(k.track)))
  {
  }

  lemma ReleaseInv(cfg: Config, ok: (nat, byte) -> bool, sent: seq<Cell>, s: Stream)
    requires StreamInv(cfg, ok, sent, s)
    ensures StreamInv(cfg, ok, sent, Release(s))
  {
    assert sent + [] == sent;
    forall i | 0 <= i < |sent| && sent[i].Data? ensures ok(i, sent[i].b) {
      assert (sent + s.k.ready)[i] == sent[i];
    }
  }
}

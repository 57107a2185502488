/** Whole runs of the one-slot reassembler: soundness, conservation, progress and passthrough. */
module BufferedRuns {
  import opened Types
  import opened Cells
  import opened Tracking
  import opened SinkSpec
  import opened SinkTheorems
  import opened Wire
  import opened BufferedSpec

  ghost predicate LineInv(cfg: Config, ok: (nat, byte) -> bool, sent: seq<Cell>, s: Line) {
    SinkInv(cfg, ok, sent, s.k) && StrayOk(ok, s.wait) && StrayOk(ok, s.k.track.stray)
  }

  lemma SameOutput(cfg: Config, ok: (nat, byte) -> bool, sent: seq<Cell>, s: Line, t: Line)
    requires LineInv(cfg, ok, sent, s)
    requires t.k.ready == s.k.ready && t.k.stop == s.k.stop && t.k.track.next == s.k.track.next
    requires t.k.c.gapBytes == s.k.c.gapBytes && t.k.c.oversize == s.k.c.oversize
    requires StrayOk(ok, t.wait) && StrayOk(ok, t.k.track.stray)
    ensures LineInv(cfg, ok, sent, t)
  {
  }

  lemma SkipLineInv(cfg: Config, ok: (nat, byte) -> bool, sent: seq<Cell>, s: Line, to: nat, ts: Time)
    requires LineInv(cfg, ok, sent, s)
    ensures LineInv(cfg, ok, sent, s.(k := SkipTo(s.k, to, ts)))
  {
    SkipInv(cfg, ok, sent, s.k, to, ts);
    hide SinkInv, StrayOk;
  }

  /** Append `bs` where the stream stands; a stop forgets the waiting segment. */
  ghost function Appended(cfg: Config, s: Line, bs: seq<byte>, ts: Time): Line {
    var k := Append(cfg, Advance(s.k, s.k.track.next + |bs|, ts), bs, 0);
    Line(k, if k.stop.Some? then None else s.wait)
  }

  lemma AppendedInv(cfg: Config, ok: (nat, byte) -> bool, sent: seq<Cell>, s: Line, bs: seq<byte>, ts: Time)
    requires LineInv(cfg, ok, sent, s) && !Stopped(s) && bs != [] && Genuine(ok, s.k.track.next, bs)
    ensures LineInv(cfg, ok, sent, Appended(cfg, s, bs, ts))
  {
    hide SinkInv, Genuine, Append;
    AppendInv(cfg, ok, sent, s.k, s.k.track.next + |bs|, ts, bs, 0);
  }

  /** After a stop the position no longer matters. */
  lemma StoppedAdvance(cfg: Config, ok: (nat, byte) -> bool, sent: seq<Cell>, s: Line, off: nat, ts: Time)
    requires LineInv(cfg, ok, sent, s) && Stopped(s)
    ensures LineInv(cfg, ok, sent, s.(k := Advance(s.k, off, ts)))
  {
  }

  lemma PlaceInv(cfg: Config, ok: (nat, byte) -> bool, sent: seq<Cell>, s: Line, off: nat, data: seq<byte>, ts: Time)
    requires off <= s.k.track.next && (Stopped(s) ==> s.wait.None?)
    requires LineInv(cfg, ok, sent, s) && Genuine(ok, off, data)
    ensures LineInv(cfg, ok, sent, Place(cfg, s, off, data, ts))
  {
    hide LineInv, Append, AdvanceTo;
    var next := s.k.track.next;
    if off + |data| > next {
      assert GenuineFrom(ok, off, data);
      TailGenuine(ok, off, data, next - off);
      hide Genuine, GenuineFrom;
      if Stopped(s) {
        StoppedAdvance(cfg, ok, sent, s, off + |data|, ts);
      } else {
        AppendedInv(cfg, ok, sent, s, data[next - off..], ts);
      }
    }
  }

  lemma ReleaseWaitInv(cfg: Config, ok: (nat, byte) -> bool, sent: seq<Cell>, s: Line, ts: Time)
    requires Calm(s) && LineInv(cfg, ok, sent, s)
    ensures LineInv(cfg, ok, sent, ReleaseWait(cfg, s, ts))
  {
    hide SinkInv, Place;
    if s.wait.Some? {
      var c := s.wait.value;
      SkipLineInv(cfg, ok, sent, s, c.off, ts);
      PlaceInv(cfg, ok, sent, Line(SkipTo(s.k, c.off, ts), None), c.off, c.data, ts);
    }
  }

  lemma TryWaitInv(cfg: Config, ok: (nat, byte) -> bool, sent: seq<Cell>, s: Line, ts: Time)
    requires (Stopped(s) ==> s.wait.None?) && (s.wait.Some? ==> s.wait.value.data != [])
    requires LineInv(cfg, ok, sent, s)
    ensures LineInv(cfg, ok, sent, TryWait(cfg, s, ts))
  {
    hide SinkInv, Place;
    if s.wait.Some? && s.wait.value.off <= s.k.track.next {
      PlaceInv(cfg, ok, sent, s.(wait := None), s.wait.value.off, s.wait.value.data, ts);
    }
  }

  lemma ResyncInv(cfg: Config, ok: (nat, byte) -> bool, sent: seq<Cell>, s: Line, c: Candidate, ts: Time)
    requires Calm(s) && LineInv(cfg, ok, sent, s) && Genuine(ok, c.off, c.data)
    ensures LineInv(cfg, ok, sent, Resync(cfg, s, c, ts))
  {
    hide LineInv, Place, ReleaseWait, SkipTo;
    ReleaseWaitInv(cfg, ok, sent, s, ts);
    var s1 := ReleaseWait(cfg, s, ts);
    SkipLineInv(cfg, ok, sent, s1, c.off, ts);
    var s2 := s1.(k := SkipTo(s1.k, c.off, ts));
    PlaceInv(cfg, ok, sent, s2, c.off, c.data, ts);
    SkipLineInv(cfg, ok, sent, Place(cfg, s2, c.off, c.data, ts), c.End(), ts);
  }

  lemma CheckTimersInv(cfg: Config, ok: (nat, byte) -> bool, sent: seq<Cell>, s: Line, now: Time)
    requires Calm(s) && LineInv(cfg, ok, sent, s)
    ensures LineInv(cfg, ok, sent, CheckTimers(cfg, s, now))
  {
    if !Stopped(s) {
      AckTimerInv(cfg, ok, sent, s, now);
      hide AckTimer, ReleaseWait, SinkInv;
      var a := AckTimer(cfg, s, now);
      ReleaseWaitInv(cfg, ok, sent, a, now);
      var t := if a.wait.Some? && Since(now, a.wait.value.ts) > cfg.deadline then ReleaseWait(cfg, a, now) else a;
      SameOutput(cfg, ok, sent, t, CheckTimers(cfg, s, now));
    }
  }

  lemma AckTimerInv(cfg: Config, ok: (nat, byte) -> bool, sent: seq<Cell>, s: Line, now: Time)
    requires Calm(s) && LineInv(cfg, ok, sent, s)
    ensures LineInv(cfg, ok, sent, AckTimer(cfg, s, now))
  {
    hide SinkInv, StrayOk, ReleaseWait, SkipTo;
    var due := EvidenceDue(s.k.track, now, cfg.ackGrace);
    SameOutput(cfg, ok, sent, s, CountAckGap(s));
    if due.Some? {
      SkipLineInv(cfg, ok, sent, CountAckGap(s), due.value, now);
      ReleaseWaitInv(cfg, ok, sent, CountAckGap(s), now);
    }
  }

  // ----- feed

  lemma PassedInv(cfg: Config, ok: (nat, byte) -> bool, sent: seq<Cell>, s: Line, bs: seq<byte>, ts: Time)
    requires LineInv(cfg, ok, sent, s) && !Stopped(s) && s.k.ready == [] && Genuine(ok, s.k.track.next, bs)
    ensures LineInv(cfg, ok, sent + DataCells(bs), s.(k := NotePass(cfg, Advance(s.k, s.k.track.next + |bs|, ts), |bs|)))
  {
    hide SinkInv, StrayOk, Genuine, DataCells;
    PassInv(cfg, ok, sent, s.k, s.k.track.next + |bs|, ts, bs);
  }

  lemma FeedInOrderInv(cfg: Config, ok: (nat, byte) -> bool, sent: seq<Cell>, s: Line, start: int, payload: seq<byte>, ts: Time, pass: bool)
    requires Calm(s) && !Stopped(s) && start <= s.k.track.next < start + |payload|
    requires LineInv(cfg, ok, sent, s) && GenuineFrom(ok, start, payload)
    ensures var r := FeedInOrder(cfg, s, start, payload, ts, pass);
            LineInv(cfg, ok, sent + Emitted(r.1, payload), r.0)
  {
    hide LineInv, Genuine, GenuineFrom, Append, NotePass, TryWait, CheckTimers, DataCells, AdvanceTo;
    var skip := s.k.track.next - start;
    var data := payload[skip..];
    NothingEmitted(sent);
    TailGenuine(ok, start, payload, skip);
    if pass && s.k.ready == [] && s.wait.None? && Fits(cfg, |payload| - skip) {
      PassedInv(cfg, ok, sent, s, data, ts);
    } else {
      AppendedInv(cfg, ok, sent, s, data, ts);
      var t := Appended(cfg, s, data, ts);
      TryWaitInv(cfg, ok, sent, t, ts);
      CheckTimersInv(cfg, ok, sent, TryWait(cfg, t, ts), ts);
    }
  }

  lemma FeedAheadInv(cfg: Config, ok: (nat, byte) -> bool, sent: seq<Cell>, s: Line, start: nat, payload: seq<byte>, ts: Time)
    requires Calm(s) && !Stopped(s) && s.wait.None? && s.k.track.next < start && payload != []
    requires LineInv(cfg, ok, sent, s) && GenuineFrom(ok, start, payload)
    ensures LineInv(cfg, ok, sent, FeedAhead(cfg, s, start, payload, ts))
  {
    hide SinkInv, CheckTimers;
    TailGenuine(ok, start, payload, 0);
    assert payload[0..] == payload;
    var t := Line(s.k.(track := s.k.track.(progress := ts)), Some(Candidate(start, payload, ts, 0)));
    SameOutput(cfg, ok, sent, s, t);
    CheckTimersInv(cfg, ok, sent, t, ts);
  }

  lemma FeedOldInv(cfg: Config, ok: (nat, byte) -> bool, sent: seq<Cell>, s: Line, start: int, end: int, ts: Time)
    requires Calm(s) && LineInv(cfg, ok, sent, s)
    ensures LineInv(cfg, ok, sent, CheckTimers(cfg, s.(k := CountOld(cfg, s.k, start, end)), ts))
  {
    hide SinkInv, StrayOk, CheckTimers, CountOld;
    var t := s.(k := CountOld(cfg, s.k, start, end));
    SameOutput(cfg, ok, sent, s, t);
    CheckTimersInv(cfg, ok, sent, t, ts);
  }

  /** `good` holds of every state the segment meets: on arrival, after a resync, after the waiting segment made way. */
  ghost predicate WheneverFed(cfg: Config, good: Line -> bool, s: Line, seq_: u32, payload: seq<byte>, ts: Time)
    requires Calm(s)
    decreases Rank(s)
  {
    payload == [] || Stopped(s) ||
    var s1 := Anchored(s, seq_, ts);
    var v := s1.k.track;
    var start := OffsetOf(v, seq_);
    && good(s1)
    && (start - v.next > cfg.maxAhead && Corroborated(v, start, cfg.maxAhead) ==>
          WheneverFed(cfg, good, Resync(cfg, Taken(s1), v.stray.value, ts), seq_, payload, ts))
    && (v.next < start <= v.next + cfg.maxAhead && s1.wait.Some? ==>
          WheneverFed(cfg, good, ReleaseWait(cfg, s1, ts), seq_, payload, ts))
  }

  /** Feeding again keeps the anchor, so a fact about one anchor carries over. */
  lemma {:induction false} WheneverMore(cfg: Config, p: Line -> bool, q: Line -> bool, s: Line, seq_: u32, payload: seq<byte>, ts: Time, origin: u32)
    requires Calm(s) && s.k.track.origin == Some(origin) && WheneverFed(cfg, p, s, seq_, payload, ts)
    requires forall x: Line :: x.k.track.origin == Some(origin) && p(x) ==> q(x)
    ensures WheneverFed(cfg, q, s, seq_, payload, ts)
    decreases Rank(s)
  {
    hide OffsetOf, Resync, ReleaseWait;
    if payload != [] && !Stopped(s) {
      var v := s.k.track;
      var start := OffsetOf(v, seq_);
      if start - v.next > cfg.maxAhead && Corroborated(v, start, cfg.maxAhead) {
        WheneverMore(cfg, p, q, Resync(cfg, Taken(s), v.stray.value, ts), seq_, payload, ts, origin);
      }
      if v.next < start <= v.next + cfg.maxAhead && s.wait.Some? {
        WheneverMore(cfg, p, q, ReleaseWait(cfg, s, ts), seq_, payload, ts, origin);
      }
    }
  }

  lemma {:induction false} WheneverAny(cfg: Config, q: Line -> bool, s: Line, seq_: u32, payload: seq<byte>, ts: Time, origin: u32)
    requires Calm(s) && s.k.track.origin == Some(origin)
    requires forall x: Line :: x.k.track.origin == Some(origin) ==> q(x)
    ensures WheneverFed(cfg, q, s, seq_, payload, ts)
    decreases Rank(s)
  {
    hide OffsetOf, Resync, ReleaseWait;
    if payload != [] && !Stopped(s) {
      var v := s.k.track;
      var start := OffsetOf(v, seq_);
      if start - v.next > cfg.maxAhead && Corroborated(v, start, cfg.maxAhead) {
        WheneverAny(cfg, q, Resync(cfg, Taken(s), v.stray.value, ts), seq_, payload, ts, origin);
      }
      if v.next < start <= v.next + cfg.maxAhead && s.wait.Some? {
        WheneverAny(cfg, q, ReleaseWait(cfg, s, ts), seq_, payload, ts, origin);
      }
    }
  }

  /** The payload is genuine where the sequence number puts it. */
  ghost function Landing(ok: (nat, byte) -> bool, seq_: u32, payload: seq<byte>): Line -> bool {
    (x: Line) => x.k.track.origin.Some? && GenuineFrom(ok, OffsetOf(x.k.track, seq_), payload)
  }

  /** One segment, however often it is fed again. */
  lemma {:induction false} FeedInv(cfg: Config, ok: (nat, byte) -> bool, sent: seq<Cell>, s: Line, payload: seq<byte>, seq_: u32, ts: Time, pass: bool)
    requires Calm(s) && s.k.track.origin.Some?
    requires LineInv(cfg, ok, sent, s) && WheneverFed(cfg, Landing(ok, seq_, payload), s, seq_, payload, ts)
    ensures var r := Feed(cfg, s, seq_, payload, ts, pass);
            && LineInv(cfg, ok, sent + Emitted(r.1, payload), r.0)
            && r.0.k.track.origin == s.k.track.origin
    decreases Rank(s)
  {
    hide SinkInv, OffsetOf, Anchor, Resync, ReleaseWait, CheckTimers, CountOld, FeedInOrder, FeedAhead;
    NothingEmitted(sent);
    if payload != [] && !Stopped(s) {
      var v := s.k.track;
      var start := OffsetOf(v, seq_);
      assert GenuineFrom(ok, start, payload);
      assert Anchored(s, seq_, ts) == s;
      if start - v.next > cfg.maxAhead {
        if Corroborated(v, start, cfg.maxAhead) {
          SameOutput(cfg, ok, sent, s, Taken(s));
          ResyncInv(cfg, ok, sent, Taken(s), v.stray.value, ts);
          FeedInv(cfg, ok, sent, Resync(cfg, Taken(s), v.stray.value, ts), payload, seq_, ts, false);
        } else {
          HoldInv(cfg, ok, sent, s, start, payload, ts);
        }
      } else if start + |payload| <= v.next {
        FeedOldInv(cfg, ok, sent, s, start, start + |payload|, ts);
      } else if start > v.next {
        if s.wait.Some? {
          ReleaseWaitInv(cfg, ok, sent, s, ts);
          FeedInv(cfg, ok, sent, ReleaseWait(cfg, s, ts), payload, seq_, ts, false);
        } else {
          FeedAheadInv(cfg, ok, sent, s, start, payload, ts);
        }
      } else {
        var t := if start < v.next then Retransmitted(s) else s;
        SameOutput(cfg, ok, sent, s, t);
        FeedInOrderInv(cfg, ok, sent, t, start, payload, ts, pass);
      }
    }
  }

  lemma HoldInv(cfg: Config, ok: (nat, byte) -> bool, sent: seq<Cell>, s: Line, start: nat, payload: seq<byte>, ts: Time)
    requires LineInv(cfg, ok, sent, s) && GenuineFrom(ok, start, payload)
    ensures LineInv(cfg, ok, sent, s.(k := s.k.(track := Hold(s.k.track, start, payload, ts))))
  {
    hide SinkInv;
    SameOutput(cfg, ok, sent, s, s.(k := s.k.(track := Hold(s.k.track, start, payload, ts))));
  }

  // ----- the other entry points

  lemma WithEvidenceInv(cfg: Config, ok: (nat, byte) -> bool, sent: seq<Cell>, s: Line, e: (TrackView, Option<Candidate>), ts: Time)
    requires Calm(s) && LineInv(cfg, ok, sent, s)
    requires e.0.next == s.k.track.next && e.0.origin == s.k.track.origin
    requires e.0.stray == s.k.track.stray || e.0.stray == None
    requires e.1.Some? ==> e.1 == s.k.track.stray
    ensures var r := WithEvidence(cfg, s, e, ts);
            LineInv(cfg, ok, sent, r) && r.k.track.origin == s.k.track.origin
  {
    hide SinkInv, Resync;
    var t := s.(k := s.k.(track := e.0));
    SameOutput(cfg, ok, sent, s, t);
    if e.1.Some? { ResyncInv(cfg, ok, sent, t, e.1.value, ts); }
  }

  lemma PeerAckInv(cfg: Config, ok: (nat, byte) -> bool, sent: seq<Cell>, s: Line, ack: u32, ts: Time)
    requires Calm(s) && LineInv(cfg, ok, sent, s)
    ensures var r := PeerAck(cfg, s, ack, ts);
            LineInv(cfg, ok, sent, r) && r.k.track.origin == s.k.track.origin
  {
    hide LineInv, WithEvidence, CheckTimers, Evidence;
    if !Stopped(s) {
      var e := Evidence(s.k.track, (ack - 1) % TWO_32, ts, cfg.maxAhead);
      EvidenceKeeps(s.k.track, (ack - 1) % TWO_32, ts, cfg.maxAhead);
      WithEvidenceInv(cfg, ok, sent, s, e, ts);
      CheckTimersInv(cfg, ok, sent, WithEvidence(cfg, s, e, ts), ts);
    }
  }

  lemma FinSeenInv(cfg: Config, ok: (nat, byte) -> bool, sent: seq<Cell>, s: Line, end: u32, ts: Time)
    requires Calm(s) && LineInv(cfg, ok, sent, s)
    ensures var r := FinSeen(cfg, s, end, ts);
            LineInv(cfg, ok, sent, r) && r.k.track.origin == s.k.track.origin
  {
    hide LineInv, WithEvidence, Fin;
    if !Stopped(s) {
      EvidenceKeeps(s.k.track, end, ts, cfg.maxAhead);
      WithEvidenceInv(cfg, ok, sent, s, Fin(s.k.track, end, ts, cfg.maxAhead), ts);
    }
  }

  lemma {:induction false} SkipRangeInv(cfg: Config, ok: (nat, byte) -> bool, sent: seq<Cell>, s: Line, end: nat, ts: Time)
    requires Calm(s) && LineInv(cfg, ok, sent, s)
    ensures LineInv(cfg, ok, sent, SkipRange(cfg, s, end, ts))
    decreases end - s.k.track.next
  {
    hide LineInv, TryWait;
    if !Stopped(s) && s.k.track.next < end {
      var to := if s.wait.None? then end else Min(s.wait.value.off, end);
      var t := s.(k := SkipTo(s.k, to, ts));
      SkipLineInv(cfg, ok, sent, s, to, ts);
      TryWaitInv(cfg, ok, sent, t, ts);
      SkipRangeInv(cfg, ok, sent, TryWait(cfg, t, ts), end, ts);
    }
  }

  lemma MissingFarInv(cfg: Config, ok: (nat, byte) -> bool, sent: seq<Cell>, s: Line, start: nat, len: nat, ts: Time)
    requires Calm(s) && LineInv(cfg, ok, sent, s)
    ensures var r := MissingFar(cfg, s, start, len, ts);
            LineInv(cfg, ok, sent, r) && r.k.track.origin == s.k.track.origin
  {
    hide SinkInv, CheckTimers;
    var v := s.k.track;
    var w := if Continues(v, start, ts) then v else Hold(v, start, [], ts);
    var t := s.(k := s.k.(track := ExtendStray(w, start, len, ts)));
    SameOutput(cfg, ok, sent, s, t);
    CheckTimersInv(cfg, ok, sent, t, ts);
  }

  lemma MissingAheadInv(cfg: Config, ok: (nat, byte) -> bool, sent: seq<Cell>, s: Line, end: u32, ts: Time)
    requires Calm(s) && LineInv(cfg, ok, sent, s)
    ensures var r := MissingAhead(cfg, s, end, ts);
            LineInv(cfg, ok, sent, r) && r.k.track.origin == s.k.track.origin
  {
    hide LineInv, CheckTimers, WithEvidence, Evidence;
    var e := Evidence(s.k.track, end, ts, cfg.maxAhead);
    EvidenceKeeps(s.k.track, end, ts, cfg.maxAhead);
    WithEvidenceInv(cfg, ok, sent, s, e, ts);
    CheckTimersInv(cfg, ok, sent, WithEvidence(cfg, s, e, ts), ts);
  }

  lemma {:induction false} MissingInv(cfg: Config, ok: (nat, byte) -> bool, sent: seq<Cell>, s: Line, seq_: u32, len: nat, ts: Time)
    requires Calm(s) && LineInv(cfg, ok, sent, s)
    ensures var r := MissingBytes(cfg, s, seq_, len, ts);
            && LineInv(cfg, ok, sent, r)
            && (s.k.track.origin.Some? ==> r.k.track.origin == s.k.track.origin)
    decreases if s.k.track.stray.Some? then 1 else 0
  {
    hide SinkInv, OffsetOf, Anchor, CheckTimers, SkipRange, MissingFar, MissingAhead, Resync;
    if !Stopped(s) && len > 0 {
      var s1 := Anchored(s, seq_, ts);
      var v := s1.k.track;
      var start := OffsetOf(v, seq_);
      AnchoredInv(cfg, ok, sent, s, seq_, ts);
      if start + len > v.next {
        if start - v.next > cfg.maxAhead {
          if !Continues(v, start, ts) && Corroborated(v, start, cfg.maxAhead) {
            SameOutput(cfg, ok, sent, s1, Taken(s1));
            ResyncInv(cfg, ok, sent, Taken(s1), v.stray.value, ts);
            MissingInv(cfg, ok, sent, Resync(cfg, Taken(s1), v.stray.value, ts), seq_, len, ts);
          } else {
            MissingFarInv(cfg, ok, sent, s1, start, len, ts);
          }
        } else if start <= v.next {
          SkipRangeInv(cfg, ok, sent, s1, start + len, ts);
          CheckTimersInv(cfg, ok, sent, SkipRange(cfg, s1, start + len, ts), ts);
        } else {
          MissingAheadInv(cfg, ok, sent, s1, (seq_ + len) % TWO_32, ts);
        }
      }
    }
  }

  lemma AnchoredInv(cfg: Config, ok: (nat, byte) -> bool, sent: seq<Cell>, s: Line, seq_: u32, ts: Time)
    requires LineInv(cfg, ok, sent, s)
    ensures LineInv(cfg, ok, sent, Anchored(s, seq_, ts))
  {
    hide SinkInv, StrayOk;
    SameOutput(cfg, ok, sent, s, Anchored(s, seq_, ts));
  }

  lemma FlushPendingInv(cfg: Config, ok: (nat, byte) -> bool, sent: seq<Cell>, s: Line)
    requires Calm(s) && LineInv(cfg, ok, sent, s)
    ensures var r := FlushPending(cfg, s);
            LineInv(cfg, ok, sent, r) && r.k.track.origin == s.k.track.origin
  {
    hide SinkInv, ReleaseWait;
    if !Stopped(s) {
      var ts := s.k.track.progress;
      ReleaseWaitInv(cfg, ok, sent, s, ts);
      var t := ReleaseWait(cfg, s, ts);
      var u := t;
      if Frontier(t.k.track).Some? {
        SameOutput(cfg, ok, sent, t, CountAckGap(t));
        SkipLineInv(cfg, ok, sent, CountAckGap(t), Frontier(t.k.track).value, ts);
        u := CountAckGap(t).(k := SkipTo(CountAckGap(t).k, Frontier(t.k.track).value, ts));
      }
      SameOutput(cfg, ok, sent, u, FlushPending(cfg, s));
    }
  }

  lemma ReleaseInv(cfg: Config, ok: (nat, byte) -> bool, sent: seq<Cell>, s: Line)
    requires LineInv(cfg, ok, sent, s)
    ensures LineInv(cfg, ok, sent, Release(s))
  {
    assert sent + [] == sent;
    forall i | 0 <= i < |sent| && sent[i].Data? ensures ok(i, sent[i].b) {
      assert (sent + s.k.ready)[i] == sent[i];
    }
  }

  // ----- runs

  datatype World = World(s: Line, received: seq<Packet>, sent: seq<Cell>)

  ghost function Start(): World { World(FreshLine(), [], []) }

  ghost function Do(cfg: Config, w: World, e: Event): (r: World)
    requires Calm(w.s)
    ensures Calm(r.s)
  {
    var s := w.s;
    match e
    case Segment(seq_, payload, ts, pass, _) =>
      var (t, out) := Feed(cfg, s, seq_, payload, ts, pass);
      World(t, w.received + [Packet(seq_, payload)], w.sent + Emitted(out, payload))
    case Origin(seq_) => w.(s := Anchored(s, seq_, 0))
    case Ack(ack, ts) => w.(s := PeerAck(cfg, s, ack, ts))
    case FinAt(end, ts) => w.(s := FinSeen(cfg, s, end, ts))
    case Cut(seq_, len, ts) => w.(s := MissingBytes(cfg, s, seq_, len, ts))
    case Sweep(ts) => w.(s := CheckTimers(cfg, s, ts))
    case EndOfFlow => w.(s := FlushPending(cfg, s))
    case DrainOut => World(Drain(s), w.received, w.sent + s.k.ready)
    case ReleaseSide => w.(s := Release(s))
  }

  ghost function Run(cfg: Config, w: World, es: seq<Event>): (r: World)
    requires Calm(w.s)
    ensures Calm(r.s)
    decreases |es|
  {
    if es == [] then w else Run(cfg, Do(cfg, w, es[0]), es[1..])
  }

  ghost predicate WorldInv(cfg: Config, w: World) {
    LineInv(cfg, Allowed(w.received, w.s.k.track.origin), w.sent, w.s)
  }

  lemma Weaken(cfg: Config, ok: (nat, byte) -> bool, ok2: (nat, byte) -> bool, sent: seq<Cell>, s: Line)
    requires LineInv(cfg, ok, sent, s) && forall o, b :: ok(o, b) ==> ok2(o, b)
    ensures LineInv(cfg, ok2, sent, s)
  {
  }

  lemma SegmentStep(cfg: Config, w: World, seq_: u32, payload: seq<byte>, ts: Time, pass: bool, cap: nat)
    requires Calm(w.s) && WorldInv(cfg, w)
    ensures WorldInv(cfg, Do(cfg, w, Segment(seq_, payload, ts, pass, cap)))
  {
    hide LineInv, Anchor, Allowed;
    var s, p := w.s, [Packet(seq_, payload)];
    var received := w.received + p;
    if Stopped(s) || payload == [] {
      NothingEmitted(w.sent);
      AllowedGrows(w.received, p, s.k.track.origin, s.k.track.origin);
      Weaken(cfg, Allowed(w.received, s.k.track.origin), Allowed(received, s.k.track.origin), w.sent, s);
    } else {
      var s1 := Anchored(s, seq_, ts);
      AllowedGrows(w.received, p, s.k.track.origin, s1.k.track.origin);
      Weaken(cfg, Allowed(w.received, s.k.track.origin), Allowed(received, s1.k.track.origin), w.sent, s);
      AnchoredInv(cfg, Allowed(received, s1.k.track.origin), w.sent, s, seq_, ts);
      FeedAnchored(cfg, s, seq_, payload, ts, pass);
      hide Feed;
      AllLand(cfg, received, s1, seq_, payload, ts);
      FeedInv(cfg, Allowed(received, s1.k.track.origin), w.sent, s1, payload, seq_, ts, pass);
    }
  }

  /** Wherever a received segment lands, it is allowed there. */
  lemma AllLand(cfg: Config, received: seq<Packet>, s: Line, seq_: u32, payload: seq<byte>, ts: Time)
    requires Calm(s) && s.k.track.origin.Some?
    requires received != [] && received[|received| - 1] == Packet(seq_, payload)
    ensures WheneverFed(cfg, Landing(Allowed(received, s.k.track.origin), seq_, payload), s, seq_, payload, ts)
  {
    hide WheneverFed, Allowed, OffsetOf;
    var q := Landing(Allowed(received, s.k.track.origin), seq_, payload);
    forall x: Line | x.k.track.origin == s.k.track.origin ensures q(x) { LandsAllowed(received, seq_, payload, x.k.track); }
    WheneverAny(cfg, q, s, seq_, payload, ts, s.k.track.origin.value);
  }

  /** Anchoring twice is anchoring once. */
  lemma FeedAnchored(cfg: Config, s: Line, seq_: u32, payload: seq<byte>, ts: Time, pass: bool)
    requires Calm(s) && !Stopped(s) && payload != []
    ensures Feed(cfg, s, seq_, payload, ts, pass) == Feed(cfg, Anchored(s, seq_, ts), seq_, payload, ts, pass)
  {
    hide OffsetOf, Resync, ReleaseWait, CheckTimers, CountOld, FeedInOrder, FeedAhead, Anchor;
  }

  lemma OtherInv(cfg: Config, ok: (nat, byte) -> bool, w: World, e: Event)
    requires Calm(w.s) && LineInv(cfg, ok, w.sent, w.s) && !e.Segment?
    ensures var r := Do(cfg, w, e);
            && LineInv(cfg, ok, r.sent, r.s) && r.received == w.received
            && (w.s.k.track.origin.Some? ==> r.s.k.track.origin == w.s.k.track.origin)
  {
    var s := w.s;
    match e
    case Origin(seq_) => hide LineInv; AnchoredInv(cfg, ok, w.sent, s, seq_, 0);
    case Ack(ack, ts) => hide LineInv; PeerAckInv(cfg, ok, w.sent, s, ack, ts);
    case FinAt(end, ts) => hide LineInv; FinSeenInv(cfg, ok, w.sent, s, end, ts);
    case Cut(seq_, len, ts) => hide LineInv; MissingInv(cfg, ok, w.sent, s, seq_, len, ts);
    case Sweep(ts) => hide LineInv; CheckTimersInv(cfg, ok, w.sent, s, ts);
    case EndOfFlow => hide LineInv; FlushPendingInv(cfg, ok, w.sent, s);
    case DrainOut => DrainInv(cfg, ok, w.sent, s.k);
    case ReleaseSide => ReleaseInv(cfg, ok, w.sent, s);
  }

  lemma OtherStep(cfg: Config, w: World, e: Event)
    requires Calm(w.s) && WorldInv(cfg, w) && !e.Segment?
    ensures WorldInv(cfg, Do(cfg, w, e))
  {
    hide LineInv, Do, Allowed;
    var before, after := w.s.k.track.origin, Do(cfg, w, e).s.k.track.origin;
    OtherInv(cfg, Allowed(w.received, before), w, e);
    AllowedGrows(w.received, [], before, after);
    assert w.received + [] == w.received;
    Weaken(cfg, Allowed(w.received, before), Allowed(w.received, after), w.sent, w.s);
    OtherInv(cfg, Allowed(w.received, after), w, e);
  }

  lemma {:induction false} RunInv(cfg: Config, w: World, es: seq<Event>)
    requires Calm(w.s) && WorldInv(cfg, w)
    ensures WorldInv(cfg, Run(cfg, w, es))
    decreases |es|
  {
    hide WorldInv, Do;
    if es != [] {
      if es[0].Segment? {
        SegmentStep(cfg, w, es[0].seq_, es[0].payload, es[0].ts, es[0].pass, es[0].cap);
      } else {
        OtherStep(cfg, w, es[0]);
      }
      RunInv(cfg, Do(cfg, w, es[0]), es[1..]);
    }
  }

  /** Soundness and conservation after any run, as for the out-of-order reassembler. */
  lemma RunSound(cfg: Config, es: seq<Event>)
    ensures var w := Run(cfg, Start(), es);
            var out := w.sent + w.s.k.ready;
            && (forall i :: 0 <= i < |out| && out[i].Data? ==>
                  w.s.k.track.origin.Some? && Carried(w.received, w.s.k.track.origin.value, i, out[i].b))
            && (!Stopped(w.s) ==>
                  && w.s.k.track.next == |out| == DataLen(out) + MissLen(out)
                  && MissLen(out) == w.s.k.c.gapBytes + w.s.k.c.oversize)
            && Fits(cfg, DataLen(w.s.k.ready))
  {
    assert [] + Start().s.k.ready == [];
    assert WorldInv(cfg, Start());
    RunInv(cfg, Start(), es);
    hide Run;
    var w := Run(cfg, Start(), es);
    var out := w.sent + w.s.k.ready;
    assert SinkInv(cfg, Allowed(w.received, w.s.k.track.origin), w.sent, w.s.k);
    forall i | 0 <= i < |out| && out[i].Data?
      ensures w.s.k.track.origin.Some? && Carried(w.received, w.s.k.track.origin.value, i, out[i].b)
    {
      assert Allowed(w.received, w.s.k.track.origin)(i, out[i].b);
    }
  }

  // ----- agreement with one stream

  /** A segment of stream `t` at offset `at`, within half the sequence space of every position it meets. */
  ghost predicate Follows(cfg: Config, t: nat -> byte, w: World, e: Event, at: int)
    requires Calm(w.s)
  {
    e.Segment? ==>
      && SeqAt(Anchored(w.s, e.seq_, e.ts).k.track.origin.value, at) == e.seq_
      && CutFrom(t, at, e.payload)
      && WheneverFed(cfg, (x: Line) => InHalf(x.k.track.next, at), w.s, e.seq_, e.payload, e.ts)
  }

  ghost predicate AllFollow(cfg: Config, t: nat -> byte, w: World, es: seq<Event>, ats: seq<int>)
    requires Calm(w.s) && |es| == |ats|
    decreases |es|
  {
    es == [] || (Follows(cfg, t, w, es[0], ats[0]) && AllFollow(cfg, t, Do(cfg, w, es[0]), es[1..], ats[1..]))
  }

  lemma StreamLands(cfg: Config, t: nat -> byte, s: Line, seq_: u32, payload: seq<byte>, ts: Time, at: int)
    requires Calm(s) && s.k.track.origin.Some? && SeqAt(s.k.track.origin.value, at) == seq_ && CutFrom(t, at, payload)
    requires WheneverFed(cfg, (x: Line) => InHalf(x.k.track.next, at), s, seq_, payload, ts)
    ensures WheneverFed(cfg, Landing(BytesOfStream(t), seq_, payload), s, seq_, payload, ts)
  {
    hide WheneverFed, OffsetOf, GenuineFrom;
    var p, q := (x: Line) => InHalf(x.k.track.next, at), Landing(BytesOfStream(t), seq_, payload);
    forall x: Line | x.k.track.origin == s.k.track.origin && p(x) ensures q(x) { LandsInStream(t, x.k.track, seq_, at, payload); }
    WheneverMore(cfg, p, q, s, seq_, payload, ts, s.k.track.origin.value);
  }

  lemma AgreeingSegment(cfg: Config, t: nat -> byte, w: World, e: Event, at: int)
    requires Calm(w.s) && LineInv(cfg, BytesOfStream(t), w.sent, w.s) && e.Segment? && Follows(cfg, t, w, e, at)
    ensures var r := Do(cfg, w, e); LineInv(cfg, BytesOfStream(t), r.sent, r.s)
  {
    hide LineInv, Anchor, OffsetOf, Resync, ReleaseWait;
    var s := w.s;
    NothingEmitted(w.sent);
    if !Stopped(s) && e.payload != [] {
      var s1 := Anchored(s, e.seq_, e.ts);
      FedAnchored(cfg, (x: Line) => InHalf(x.k.track.next, at), s, e.seq_, e.payload, e.ts);
      hide WheneverFed;
      AnchoredInv(cfg, BytesOfStream(t), w.sent, s, e.seq_, e.ts);
      FeedAnchored(cfg, s, e.seq_, e.payload, e.ts, e.pass);
      hide Feed;
      StreamLands(cfg, t, s1, e.seq_, e.payload, e.ts, at);
      FeedInv(cfg, BytesOfStream(t), w.sent, s1, e.payload, e.seq_, e.ts, e.pass);
    }
  }

  lemma FedAnchored(cfg: Config, good: Line -> bool, s: Line, seq_: u32, payload: seq<byte>, ts: Time)
    requires Calm(s) && WheneverFed(cfg, good, s, seq_, payload, ts)
    ensures WheneverFed(cfg, good, Anchored(s, seq_, ts), seq_, payload, ts)
  {
    hide OffsetOf, Resync, ReleaseWait, Anchor;
  }

  lemma {:induction false} RunAgreesFrom(cfg: Config, t: nat -> byte, w: World, es: seq<Event>, ats: seq<int>)
    requires Calm(w.s) && LineInv(cfg, BytesOfStream(t), w.sent, w.s)
    requires |es| == |ats| && AllFollow(cfg, t, w, es, ats)
    ensures var r := Run(cfg, w, es); LineInv(cfg, BytesOfStream(t), r.sent, r.s)
    decreases |es|
  {
    hide LineInv, Do, Follows;
    if es != [] {
      if es[0].Segment? {
        AgreeingSegment(cfg, t, w, es[0], ats[0]);
      } else {
        OtherInv(cfg, BytesOfStream(t), w, es[0]);
      }
      RunAgreesFrom(cfg, t, Do(cfg, w, es[0]), es[1..], ats[1..]);
    }
  }

  /** If every segment agrees with one byte stream, so does every byte produced, stop or no stop. */
  lemma RunAgrees(cfg: Config, t: nat -> byte, es: seq<Event>, ats: seq<int>)
    requires |es| == |ats| && AllFollow(cfg, t, Start(), es, ats)
    ensures var w := Run(cfg, Start(), es);
            var out := w.sent + w.s.k.ready;
            forall i :: 0 <= i < |out| && out[i].Data? ==> out[i].b == t(i)
  {
    assert [] + Start().s.k.ready == [];
    RunAgreesFrom(cfg, t, Start(), es, ats);
    hide Run;
    var w := Run(cfg, Start(), es);
    var out := w.sent + w.s.k.ready;
    assert SinkInv(cfg, BytesOfStream(t), w.sent, w.s.k);
    forall i | 0 <= i < |out| && out[i].Data? ensures out[i].b == t(i) {
      assert BytesOfStream(t)(i, out[i].b);
    }
  }
}

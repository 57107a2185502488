/**
 Whole runs of the out-of-order reassembler: any interleaving of segments,
 acknowledgements, FINs, cut ranges, sweeps, drains and releases.
 */
module SegmentRuns {
  import opened Types
  import opened Cells
  import opened Tracking
  import opened SinkSpec
  import opened SinkTheorems
  import opened Wire
  import opened SegmentSpec
  import opened SegmentSound

  /** The reassembler, the segments it was given and the output it handed over. */
  datatype World = World(s: Stream, received: seq<Packet>, sent: seq<Cell>)

  ghost function Start(): World { World(Fresh(), [], []) }

  ghost function Do(cfg: Config, w: World, e: Event): (r: World)
    requires Calm(w.s)
    ensures Calm(r.s)
  {
    var s := w.s;
    match e
    case Segment(seq_, payload, ts, pass, cap) =>
      var (t, out) := Feed(cfg, s, seq_, payload, ts, pass, cap);
      World(t, w.received + [Packet(seq_, payload)], w.sent + Emitted(out, payload))
    case Origin(seq_) => w.(s := SetOrigin(s, seq_))
    case Ack(ack, ts) => w.(s := PeerAck(cfg, s, ack, ts))
    case FinAt(end, ts) => w.(s := FinSeen(cfg, s, end, ts))
    case Cut(seq_, len, ts) => w.(s := MissingBytes(cfg, s, seq_, len, ts))
    case Sweep(ts) => w.(s := CheckTimers(cfg, s, ts))
    case EndOfFlow => w.(s := FlushPending(cfg, s))
    case DrainOut => World(Drain(s), w.received, w.sent + s.k.ready)
    case ReleaseSide => w.(s := Release(s))
  }

  ghost function Run(cfg: Config, w: World, es: seq<Event>): (r: World)
    requires Calm(w.s)
    ensures Calm(r.s)
    decreases |es|
  {
    if es == [] then w else Run(cfg, Do(cfg, w, es[0]), es[1..])
  }

  /** Everything the reassembler has produced, offset by offset. */
  ghost function Output(w: World): seq<Cell> { w.sent + w.s.k.ready }

  ghost predicate WorldInv(cfg: Config, w: World) {
    StreamInv(cfg, Allowed(w.received, w.s.k.track.origin), w.sent, w.s)
  }

  /** Allowing more keeps the invariant. */
  lemma Weaken(cfg: Config, ok: (nat, byte) -> bool, ok2: (nat, byte) -> bool, sent: seq<Cell>, s: Stream)
    requires StreamInv(cfg, ok, sent, s)
    requires forall o, b :: ok(o, b) ==> ok2(o, b)
    ensures StreamInv(cfg, ok2, sent, s)
  {
  }

  lemma SegmentStep(cfg: Config, w: World, seq_: u32, payload: seq<byte>, ts: Time, pass: bool, cap: nat)
    requires Calm(w.s) && WorldInv(cfg, w)
    ensures WorldInv(cfg, Do(cfg, w, Segment(seq_, payload, ts, pass, cap)))
  {
    hide StreamInv, Feed, Resync, OffsetOf, Anchor, Allowed;
    var s, p := w.s, [Packet(seq_, payload)];
    var received := w.received + p;
    var s1 := Anchored(s, seq_, ts);
    AnchoredKeeps(s, seq_, ts);
    if Stopped(s) || payload == [] {
      NothingEmitted(w.sent);
      AllowedGrows(w.received, p, s.k.track.origin, s.k.track.origin);
      Weaken(cfg, Allowed(w.received, s.k.track.origin), Allowed(received, s.k.track.origin), w.sent, s);
      FeedNothing(cfg, s, seq_, payload, ts, pass, cap);
    } else {
      var ok := Allowed(received, s1.k.track.origin);
      AllowedGrows(w.received, p, s.k.track.origin, s1.k.track.origin);
      Weaken(cfg, Allowed(w.received, s.k.track.origin), ok, w.sent, s);
      LandsAllowed(received, seq_, payload, s1.k.track);
      if s1.k.track.stray.Some? {
        var t := Resync(cfg, Taken(s1), s1.k.track.stray.value, ts);
        LandsAllowed(received, seq_, payload, t.k.track);
      }
      FeedInv(cfg, ok, w.sent, s, seq_, payload, ts, pass, cap);
    }
  }

  lemma AnchoredKeeps(s: Stream, seq_: u32, ts: Time)
    ensures s.k.track.origin.Some? ==> Anchored(s, seq_, ts).k.track.origin == s.k.track.origin
  {
  }

  lemma FeedNothing(cfg: Config, s: Stream, seq_: u32, payload: seq<byte>, ts: Time, pass: bool, cap: nat)
    requires Calm(s) && (Stopped(s) || payload == [])
    ensures Feed(cfg, s, seq_, payload, ts, pass, cap) == (s, Buffered)
  {
  }

  /** Every other event keeps whatever the segments allowed, and keeps an anchor. */
  lemma OtherInv(cfg: Config, ok: (nat, byte) -> bool, w: World, e: Event)
    requires Calm(w.s) && StreamInv(cfg, ok, w.sent, w.s) && !e.Segment?
    ensures var r := Do(cfg, w, e);
            && StreamInv(cfg, ok, r.sent, r.s) && r.received == w.received
            && (w.s.k.track.origin.Some? ==> r.s.k.track.origin == w.s.k.track.origin)
  {
    var s := w.s;
    match e
    case Origin(seq_) => hide StreamInv; AnchoredInv(cfg, ok, w.sent, s, seq_, 0);
    case Ack(ack, ts) => hide StreamInv; PeerAckInv(cfg, ok, w.sent, s, ack, ts);
    case FinAt(end, ts) => hide StreamInv; FinSeenInv(cfg, ok, w.sent, s, end, ts);
    case Cut(seq_, len, ts) => hide StreamInv; MissingInv(cfg, ok, w.sent, s, seq_, len, ts);
    case Sweep(ts) => hide StreamInv; CheckTimersInv(cfg, ok, w.sent, s, ts);
    case EndOfFlow => hide StreamInv; FlushPendingInv(cfg, ok, w.sent, s);
    case DrainOut => DrainInv(cfg, ok, w.sent, s.k);
    case ReleaseSide => ReleaseInv(cfg, ok, w.sent, s);
  }

  lemma OtherStep(cfg: Config, w: World, e: Event)
    requires Calm(w.s) && WorldInv(cfg, w) && !e.Segment?
    ensures WorldInv(cfg, Do(cfg, w, e))
  {
    hide StreamInv, Do, Allowed;
    var before, after := w.s.k.track.origin, Do(cfg, w, e).s.k.track.origin;
    OtherInv(cfg, Allowed(w.received, before), w, e);
    AllowedGrows(w.received, [], before, after);
    assert w.received + [] == w.received;
    Weaken(cfg, Allowed(w.received, before), Allowed(w.received, after), w.sent, w.s);
    OtherInv(cfg, Allowed(w.received, after), w, e);
  }

  lemma {:induction false} RunInv(cfg: Config, w: World, es: seq<Event>)
    requires Calm(w.s) && WorldInv(cfg, w)
    ensures WorldInv(cfg, Run(cfg, w, es))
    decreases |es|
  {
    hide WorldInv, Do;
    if es != [] {
      if es[0].Segment? {
        SegmentStep(cfg, w, es[0].seq_, es[0].payload, es[0].ts, es[0].pass, es[0].cap);
      } else {
        OtherStep(cfg, w, es[0]);
      }
      RunInv(cfg, Do(cfg, w, es[0]), es[1..]);
    }
  }

  /**
   After any run from a fresh reassembler: every byte produced was received at
   its offset's sequence number; until a stop, the stream position is the number
   of bytes and missing bytes produced, the missing ones being exactly those
   counted as gaps or as dropped for space; the ready buffer fits its cap.
   */
  lemma RunSound(cfg: Config, es: seq<Event>)
    ensures var w := Run(cfg, Start(), es);
            var out := Output(w);
            && (forall i :: 0 <= i < |out| && out[i].Data? ==>
                  w.s.k.track.origin.Some? && Carried(w.received, w.s.k.track.origin.value, i, out[i].b))
            && (!Stopped(w.s) ==>
                  && w.s.k.track.next == |out| == DataLen(out) + MissLen(out)
                  && MissLen(out) == w.s.k.c.gapBytes + w.s.k.c.oversize)
            && Fits(cfg, DataLen(w.s.k.ready))
  {
    assert [] + Start().s.k.ready == [];
    assert WorldInv(cfg, Start());
    RunInv(cfg, Start(), es);
    hide Run;
    var w := Run(cfg, Start(), es);
    var out := Output(w);
    assert SinkInv(cfg, Allowed(w.received, w.s.k.track.origin), w.sent, w.s.k);
    forall i | 0 <= i < |out| && out[i].Data?
      ensures w.s.k.track.origin.Some? && Carried(w.received, w.s.k.track.origin.value, i, out[i].b)
    {
      assert Allowed(w.received, w.s.k.track.origin)(i, out[i].b);
    }
  }

  // ----- agreement with one stream

  /**
   A segment of stream `t` at offset `at`, which is within half the sequence
   space of the position when the segment arrives (and after a resync it causes).
   */
  ghost predicate Follows(cfg: Config, t: nat -> byte, w: World, e: Event, at: int)
    requires Calm(w.s)
  {
    e.Segment? ==>
      var s1 := Anchored(w.s, e.seq_, e.ts);
      var v := s1.k.track;
      && SeqAt(v.origin.value, at) == e.seq_
      && CutFrom(t, at, e.payload)
      && InHalf(v.next, at)
      && (FarAway(cfg, v, e.seq_) && Corroborated(v, at, cfg.maxAhead) ==>
            InHalf(Resync(cfg, Taken(s1), v.stray.value, e.ts).k.track.next, at))
  }

  ghost predicate AllFollow(cfg: Config, t: nat -> byte, w: World, es: seq<Event>, ats: seq<int>)
    requires Calm(w.s) && |es| == |ats|
    decreases |es|
  {
    es == [] || (Follows(cfg, t, w, es[0], ats[0]) && AllFollow(cfg, t, Do(cfg, w, es[0]), es[1..], ats[1..]))
  }

  lemma AgreeingSegment(cfg: Config, t: nat -> byte, w: World, e: Event, at: int)
    requires Calm(w.s) && StreamInv(cfg, BytesOfStream(t), w.sent, w.s) && e.Segment? && Follows(cfg, t, w, e, at)
    ensures var r := Do(cfg, w, e); StreamInv(cfg, BytesOfStream(t), r.sent, r.s)
  {
    hide StreamInv, Feed, Resync, Anchor, OffsetOf;
    var s1 := Anchored(w.s, e.seq_, e.ts);
    var ok := BytesOfStream(t);
    LandsInStream(t, s1.k.track, e.seq_, at, e.payload);
    if s1.k.track.stray.Some? {
      var u := Resync(cfg, Taken(s1), s1.k.track.stray.value, e.ts);
      if InHalf(u.k.track.next, at) { LandsInStream(t, u.k.track, e.seq_, at, e.payload); }
    }
    FeedInv(cfg, ok, w.sent, w.s, e.seq_, e.payload, e.ts, e.pass, e.cap);
  }

  lemma {:induction false} RunAgreesFrom(cfg: Config, t: nat -> byte, w: World, es: seq<Event>, ats: seq<int>)
    requires Calm(w.s) && StreamInv(cfg, BytesOfStream(t), w.sent, w.s)
    requires |es| == |ats| && AllFollow(cfg, t, w, es, ats)
    ensures var r := Run(cfg, w, es); StreamInv(cfg, BytesOfStream(t), r.sent, r.s)
    decreases |es|
  {
    hide StreamInv, Do, Follows;
    if es != [] {
      if es[0].Segment? {
        AgreeingSegment(cfg, t, w, es[0], ats[0]);
      } else {
        OtherInv(cfg, BytesOfStream(t), w, es[0]);
      }
      RunAgreesFrom(cfg, t, Do(cfg, w, es[0]), es[1..], ats[1..]);
    }
  }

  /** If every segment agrees with one byte stream, so does every byte produced, stop or no stop. */
  lemma RunAgrees(cfg: Config, t: nat -> byte, es: seq<Event>, ats: seq<int>)
    requires |es| == |ats| && AllFollow(cfg, t, Start(), es, ats)
    ensures var out := Output(Run(cfg, Start(), es));
            forall i :: 0 <= i < |out| && out[i].Data? ==> out[i].b == t(i)
  {
    assert [] + Start().s.k.ready == [];
    RunAgreesFrom(cfg, t, Start(), es, ats);
    hide Run;
    var w := Run(cfg, Start(), es);
    var out := Output(w);
    assert SinkInv(cfg, BytesOfStream(t), w.sent, w.s.k);
    forall i | 0 <= i < |out| && out[i].Data? ensures out[i].b == t(i) {
      assert BytesOfStream(t)(i, out[i].b);
    }
  }
}

/**
 The one-slot reassembler under the driver: its byte count grows only with
 data, so the driver's memory cap is a real bound with it.
 */
module BufferedKit {
  import opened Types
  import opened Cells
  import opened Tracking
  import opened SinkSpec
  import opened Weights
  import B = BufferedSpec
  import ST = StreamTable
  import FT = FlowTable
  import FD = FlowDriving
  import DR = DriverRuns

  /** `current_bytes`, with `size` for a held segment's own record. */
  ghost function Weight(size: nat, s: B.Line): nat {
    DataLen(s.k.ready) + Kept(size, s.wait) + Kept(size, s.k.track.stray)
  }

  /** What each driver call does (a state the reassembler cannot be in stays as it is). */
  ghost function Act(cfg: Config, s: B.Line, c: ST.Call): (r: B.Line)
    ensures B.Calm(s) ==> B.Calm(r)
  {
    if !B.Calm(s) then s
    else match c
    case SegmentCall(seq_, payload, ts) => B.Feed(cfg, s, seq_, payload, ts, false).0
    case SegmentIntoCall(seq_, payload, ts) => B.Feed(cfg, s, seq_, payload, ts, true).0
    case MissingCall(seq_, len, ts) => B.MissingBytes(cfg, s, seq_, len, ts)
    case AckCall(ack, ts) => B.PeerAck(cfg, s, ack, ts)
    case FinCall(end, ts) => B.FinSeen(cfg, s, end, ts)
    case OriginCall(seq_) => B.Anchored(s, seq_, 0)
    case TickCall(now) => B.CheckTimers(cfg, s, now)
    case FlushCall => B.FlushPending(cfg, s)
    case DrainCall => B.Drain(s)
  }

  ghost function Passes(cfg: Config, s: B.Line, seq_: u32, payload: seq<byte>, ts: Time): Option<nat> {
    if !B.Calm(s) then None
    else
      var o := B.Feed(cfg, s, seq_, payload, ts, true).1;
      if o.Passthrough? then Some(o.skip) else None
  }

  /** The reassembler as the driver sees it. */
  ghost function KitOf<K>(cfg: Config, size: nat): ST.Kit<K, B.Line> {
    ST.Kit((k: K, side: FT.Side) => B.FreshLine(),
           (s: B.Line, c: ST.Call) => Act(cfg, s, c),
           (s: B.Line) => Weight(size, s),
           (s: B.Line, seq_: u32, payload: seq<byte>, ts: Time) => Passes(cfg, s, seq_, payload, ts),
           (s: B.Line) => s.k.ready,
           (s: B.Line) => s.k.stop)
  }

  lemma LineSkip(size: nat, s: B.Line, to: nat, ts: Time)
    ensures Weight(size, s.(k := SkipTo(s.k, to, ts))) == Weight(size, s)
  {
    hide DataLen, SkipTo;
    SkipWeight(s.k, to, ts);
  }

  lemma PlaceWeight(cfg: Config, size: nat, s: B.Line, off: nat, data: seq<byte>, ts: Time)
    requires off <= s.k.track.next && (B.Stopped(s) ==> s.wait.None?)
    ensures Weight(size, B.Place(cfg, s, off, data, ts)) <= Weight(size, s) + |data|
  {
    hide DataLen, Append;
    var next := s.k.track.next;
    if off + |data| > next {
      AppendWeight(cfg, Advance(s.k, off + |data|, ts), data[next - off..], 0);
    }
  }

  lemma ReleaseWeight(cfg: Config, size: nat, s: B.Line, ts: Time)
    requires B.Calm(s)
    ensures Weight(size, B.ReleaseWait(cfg, s, ts)) <= Weight(size, s)
  {
    hide DataLen, B.Place, SkipTo;
    if s.wait.Some? {
      var c := s.wait.value;
      LineSkip(size, s.(wait := None), c.off, ts);
      PlaceWeight(cfg, size, B.Line(SkipTo(s.k, c.off, ts), None), c.off, c.data, ts);
    }
  }

  lemma LineResync(cfg: Config, size: nat, s: B.Line, c: Candidate, ts: Time)
    requires B.Calm(s)
    ensures Weight(size, B.Resync(cfg, s, c, ts)) <= Weight(size, s) + |c.data|
  {
    hide Weight, B.Place, B.ReleaseWait, SkipTo;
    ReleaseWeight(cfg, size, s, ts);
    var s1 := B.ReleaseWait(cfg, s, ts);
    LineSkip(size, s1, c.off, ts);
    var s2 := s1.(k := SkipTo(s1.k, c.off, ts));
    PlaceWeight(cfg, size, s2, c.off, c.data, ts);
    LineSkip(size, B.Place(cfg, s2, c.off, c.data, ts), c.End(), ts);
  }

  lemma AckTimerWeight(cfg: Config, size: nat, s: B.Line, now: Time)
    requires B.Calm(s)
    ensures Weight(size, B.AckTimer(cfg, s, now)) <= Weight(size, s)
  {
    var t := B.CountAckGap(s);
    assert Weight(size, t) == Weight(size, s);
    hide Weight, B.ReleaseWait, SkipTo;
    ReleaseWeight(cfg, size, t, now);
    var due := EvidenceDue(s.k.track, now, cfg.ackGrace);
    if due.Some? { LineSkip(size, t, due.value, now); }
  }

  lemma LineTimers(cfg: Config, size: nat, s: B.Line, now: Time)
    requires B.Calm(s)
    ensures Weight(size, B.CheckTimers(cfg, s, now)) <= Weight(size, s)
  {
    hide B.AckTimer, B.ReleaseWait, DataLen;
    AckTimerWeight(cfg, size, s, now);
    ReleaseWeight(cfg, size, B.AckTimer(cfg, s, now), now);
  }

  /** Evidence that takes the candidate frees what delivering it needs. */
  lemma WithEvidenceWeight(cfg: Config, size: nat, s: B.Line, e: (TrackView, Option<Candidate>), ts: Time)
    requires B.Calm(s) && e.0.next == s.k.track.next
    requires e.1.Some? ==> e.1 == s.k.track.stray && e.0.stray.None?
    requires e.1.None? ==> e.0.stray == s.k.track.stray
    ensures Weight(size, B.WithEvidence(cfg, s, e, ts)) <= Weight(size, s)
  {
    hide B.Resync, DataLen;
    if e.1.Some? { LineResync(cfg, size, s.(k := s.k.(track := e.0)), e.1.value, ts); }
  }

  lemma AckWeight(cfg: Config, size: nat, s: B.Line, ack: u32, ts: Time)
    requires B.Calm(s)
    ensures Weight(size, B.PeerAck(cfg, s, ack, ts)) <= Weight(size, s)
  {
    hide Weight, Evidence, B.WithEvidence, B.CheckTimers;
    if !B.Stopped(s) {
      EvidenceKeeps(s.k.track, (ack - 1) % TWO_32, ts, cfg.maxAhead);
      var e := Evidence(s.k.track, (ack - 1) % TWO_32, ts, cfg.maxAhead);
      WithEvidenceWeight(cfg, size, s, e, ts);
      LineTimers(cfg, size, B.WithEvidence(cfg, s, e, ts), ts);
    }
  }

  lemma FinWeight(cfg: Config, size: nat, s: B.Line, end: u32, ts: Time)
    requires B.Calm(s)
    ensures Weight(size, B.FinSeen(cfg, s, end, ts)) <= Weight(size, s)
  {
    hide Weight, Fin, B.WithEvidence;
    if !B.Stopped(s) {
      EvidenceKeeps(s.k.track, end, ts, cfg.maxAhead);
      WithEvidenceWeight(cfg, size, s, Fin(s.k.track, end, ts, cfg.maxAhead), ts);
    }
  }

  lemma FlushWeight(cfg: Config, size: nat, s: B.Line)
    requires B.Calm(s)
    ensures Weight(size, B.FlushPending(cfg, s)) <= Weight(size, s)
  {
    hide B.ReleaseWait, SkipTo, DataLen;
    if !B.Stopped(s) {
      var ts := s.k.track.progress;
      ReleaseWeight(cfg, size, s, ts);
      var t := B.ReleaseWait(cfg, s, ts);
      if Frontier(t.k.track).Some? { LineSkip(size, B.CountAckGap(t), Frontier(t.k.track).value, ts); }
    }
  }

  lemma DrainWeight(size: nat, s: B.Line)
    ensures Weight(size, B.Drain(s)) <= Weight(size, s)
  {
  }

  lemma AnchorWeight(size: nat, s: B.Line, seq_: u32)
    ensures Weight(size, B.Anchored(s, seq_, 0)) == Weight(size, s)
  {
  }

  /** Nothing but a segment or cut bytes makes the reassembler grow. */
  lemma OnlyDataGrows(cfg: Config, size: nat, s: B.Line, c: ST.Call)
    requires !c.SegmentCall? && !c.SegmentIntoCall? && !c.MissingCall?
    ensures Weight(size, Act(cfg, s, c)) <= Weight(size, s)
  {
    hide Weight, B.PeerAck, B.FinSeen, B.Anchored, B.CheckTimers, B.FlushPending, B.Drain;
    if B.Calm(s) {
      match c
      case AckCall(ack, ts) => AckWeight(cfg, size, s, ack, ts);
      case FinCall(end, ts) => FinWeight(cfg, size, s, end, ts);
      case OriginCall(seq_) => AnchorWeight(size, s, seq_);
      case TickCall(now) => LineTimers(cfg, size, s, now);
      case FlushCall => FlushWeight(cfg, size, s);
      case DrainCall => DrainWeight(size, s);
    }
  }

  lemma KitIsModest<K>(cfg: Config, size: nat)
    ensures ST.Modest(KitOf<K>(cfg, size))
  {
    hide Weight, Act;
    forall s: B.Line, c: ST.Call | !c.SegmentCall? && !c.SegmentIntoCall? && !c.MissingCall?
      ensures Weight(size, Act(cfg, s, c)) <= Weight(size, s)
    {
      OnlyDataGrows(cfg, size, s, c);
    }
  }

  /** With this reassembler, a driver under a hard memory cap never ends a call above it. */
  lemma CapIsHard<K>(cfg: Config, size: nat, limits: ST.Limits, rules: FT.Rules<K>, ops: seq<DR.Op<K>>)
    requires FD.Hard(limits)
    ensures var s := DR.State(FT.EmptyTable<K>(), map[]);
            !ST.Over(limits, ST.Pool(DR.Run(KitOf<K>(cfg, size), limits, rules, s, ops).m))
  {
    KitIsModest<K>(cfg, size);
    hide KitOf, ST.Modest, DR.Run;
    var s: DR.State<K, B.Line> := DR.State(FT.EmptyTable<K>(), map[]);
    assert ST.Pool(s.m) == 0;
    DR.RunSafe(KitOf<K>(cfg, size), limits, rules, s, ops);
  }
}

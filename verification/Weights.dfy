/** How many bytes each step may add to what a reassembler holds. */
module Weights {
  import opened Types
  import opened Cells
  import opened Tracking
  import opened Store
  import opened SinkSpec
  import S = SegmentSpec

  /** Bytes of a held segment: `size` for its record, and its data. */
  function Kept(size: nat, c: Option<Candidate>): nat { if c.Some? then size + |c.value.data| else 0 }

  lemma AppendWeight(cfg: Config, k: Sink, bs: seq<byte>, extra: nat)
    ensures DataLen(Append(cfg, k, bs, extra).ready) <= DataLen(k.ready) + |bs|
  {
    DataLenConcat(k.ready, DataCells(bs));
    DataLenOfBytes(bs);
    var n := DataLen(k.ready) + |bs|;
    hide DataLen, DataCells, MaskFirst;
    if !Fits(cfg, n) { MaskCounts(k.ready + DataCells(bs), n - cfg.maxBuffer.value); }
  }

  /** A gap holds no bytes. */
  lemma SkipWeight(k: Sink, to: nat, ts: Time)
    ensures DataLen(SkipTo(k, to, ts).ready) == DataLen(k.ready)
  {
    hide DataLen, Gap;
    if to > k.track.next {
      DataLenConcat(k.ready, Gap(to - k.track.next));
      DataLenOfGap(to - k.track.next);
    }
  }

  /** A delivery adds at most the bytes of the stretch. */
  lemma DeliverWeight(cfg: Config, s: S.Stream, ts: Time)
    requires S.Ahead(s) && s.k.track.next in s.held
    ensures DataLen(S.Deliver(cfg, s, ts).k.ready) <= DataLen(s.k.ready) + StretchEnd(s.held, s.k.track.next) - s.k.track.next
  {
    hide DataLen, Append;
    var next, e := s.k.track.next, StretchEnd(s.held, s.k.track.next);
    AppendWeight(cfg, Advance(s.k, e, ts), BytesOf(s.held, next, e), |From(s.held, e)|);
  }

  /** With nothing held the timers only skip. */
  lemma TimersWeight(cfg: Config, s: S.Stream, now: Time)
    requires S.Calm(s) && s.held == map[]
    ensures DataLen(S.CheckTimers(cfg, s, now).k.ready) == DataLen(s.k.ready)
  {
    hide DataLen, SkipTo;
    var due := EvidenceDue(s.k.track, now, cfg.ackGrace);
    if due.Some? { SkipWeight(S.CountAckGap(s).k, due.value, now); }
  }

  lemma InOrderWeight(cfg: Config, s: S.Stream, data: seq<byte>, ts: Time)
    requires S.Calm(s) && s.held == map[] && !S.Stopped(s) && data != []
    ensures DataLen(S.FeedInOrder(cfg, s, data, ts, false, 0).0.k.ready) <= DataLen(s.k.ready) + |data|
  {
    hide DataLen, Append, S.CheckTimers;
    var k := Advance(s.k, s.k.track.next + |data|, ts);
    AppendWeight(cfg, k, data, 0);
    TimersWeight(cfg, s.(k := Append(cfg, k, data, 0)), ts);
  }

  lemma NearWeight(cfg: Config, s: S.Stream, start: int, payload: seq<byte>, ts: Time)
    requires S.Calm(s) && !S.Stopped(s) && payload != [] && s.held == map[] && start <= s.k.track.next
    ensures DataLen(S.FeedNear(cfg, s, start, payload, ts, false, 0).0.k.ready) <= DataLen(s.k.ready) + |payload|
  {
    hide DataLen, S.CheckTimers, S.FeedInOrder, S.FeedHole, CountOld;
    var next, end := s.k.track.next, start + |payload|;
    if end <= next {
      TimersWeight(cfg, s.(k := CountOld(cfg, s.k, start, end)), ts);
    } else {
      var s1 := if start < next then s.(k := s.k.(c := s.k.c.(retransmits := s.k.c.retransmits + 1))) else s;
      InOrderWeight(cfg, s1, payload[next - start..], ts);
      SkipUnused(cfg, s1, payload[next - start..], ts, next - start);
    }
  }

  /** What is skipped of the payload matters only when bytes are let through. */
  lemma SkipUnused(cfg: Config, s: S.Stream, data: seq<byte>, ts: Time, skip: nat)
    requires S.Calm(s) && s.held == map[] && !S.Stopped(s) && data != []
    ensures S.FeedInOrder(cfg, s, data, ts, false, skip) == S.FeedInOrder(cfg, s, data, ts, false, 0)
  {
    hide S.CheckTimers, Append;
  }

  /** A resync adds at most the candidate's bytes to what a flush leaves. */
  lemma ResyncWeight(cfg: Config, s: S.Stream, c: Candidate, ts: Time)
    requires S.Calm(s)
    ensures DataLen(S.Resync(cfg, s, c, ts).k.ready) <= DataLen(S.Flush(cfg, s, ts).k.ready) + |c.data|
  {
    hide DataLen, S.Flush, S.FeedNear, SkipTo;
    var s1 := S.Flush(cfg, s, ts);
    SkipWeight(s1.k, c.off, ts);
    var s2 := s1.(k := SkipTo(s1.k, c.off, ts));
    if !S.Stopped(s2) && c.data != [] { NearWeight(cfg, s2, c.off, c.data, ts); }
    var s3 := if S.Stopped(s2) || c.data == [] then s2 else S.FeedNear(cfg, s2, c.off, c.data, ts, false, 0).0;
    SkipWeight(s3.k, c.End(), ts);
  }
}

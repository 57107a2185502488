/** The out-of-order reassembler never wedges: deadlines advance it and the end of a flow settles it. */
module SegmentProgress {
  import opened Types
  import opened Tracking
  import opened Store
  import opened SinkSpec
  import opened SegmentSpec

  /** `t` was reached from `s` by skipping and delivering at time `now`: evidence stays, time is now at the latest. */
  ghost predicate Moved(s: Stream, t: Stream, now: Time) {
    && t.k.track.evidence == s.k.track.evidence
    && t.k.track.progress <= Max(s.k.track.progress, now)
    && t.k.track.next >= s.k.track.next
    && |t.held| <= |s.held|
  }

  lemma SkipFirstMoved(cfg: Config, s: Stream, ts: Time)
    requires Ahead(s)
    ensures Moved(s, SkipFirst(cfg, s, ts), ts)
  {
  }

  lemma {:induction false} FlushMoved(cfg: Config, s: Stream, ts: Time)
    requires Ahead(s)
    ensures Moved(s, Flush(cfg, s, ts), ts)
    decreases |s.held|
  {
    hide SkipFirst;
    if !Stopped(s) && s.held != map[] {
      SkipFirstMoved(cfg, s, ts);
      FlushMoved(cfg, SkipFirst(cfg, s, ts), ts);
    }
  }

  lemma {:induction false} SkipUpToMoved(cfg: Config, s: Stream, ts: Time, f: nat)
    requires Calm(s)
    ensures Moved(s, SkipUpTo(cfg, s, ts, f), ts)
    ensures s.held != map[] && !Stopped(s) && Lowest(s.held) <= f ==> |SkipUpTo(cfg, s, ts, f).held| < |s.held|
    decreases |s.held|
  {
    hide SkipFirst;
    if !Stopped(s) && s.held != map[] && Lowest(s.held) <= f {
      SkipFirstMoved(cfg, s, ts);
      SkipUpToMoved(cfg, SkipFirst(cfg, s, ts), ts, f);
    }
  }

  /** With data held, the acknowledgement timer does nothing or moves the stream. */
  lemma AckTimerMoved(cfg: Config, s: Stream, now: Time)
    requires Calm(s)
    ensures var t := AckTimer(cfg, s, now);
            Moved(s, t, now) && (s.held != map[] ==> t == s || (t.k.track.next > s.k.track.next && |t.held| < |s.held|))
  {
    var due := EvidenceDue(s.k.track, now, cfg.ackGrace);
    if due.Some? && s.held != map[] && Lowest(s.held) <= due.value {
      SkipUpToMoved(cfg, CountAckGap(s), now, due.value);
      hide SkipUpTo;
    }
  }

  /** A sweep more than four deadlines after the last progress, with data held, advances the stream. */
  lemma SweepAdvances(cfg: Config, s: Stream, now: Time)
    requires Calm(s) && s.held != map[] && Since(now, s.k.track.progress) > cfg.deadline * 4
    ensures var t := CheckTimers(cfg, s, now);
            t.k.track.next > s.k.track.next && |t.held| < |s.held| && t.k.track.progress <= Max(s.k.track.progress, now)
  {
    hide AckTimer, SkipFirst;
    AckTimerMoved(cfg, s, now);
    SkipFirstMoved(cfg, AckTimer(cfg, s, now), now);
  }

  /** One deadline is enough once two arrivals, two stretches or an acknowledgement prove the loss. */
  lemma CorroboratedSweepAdvances(cfg: Config, s: Stream, now: Time)
    requires Calm(s) && s.held != map[] && Since(now, s.k.track.progress) > cfg.deadline
    requires s.arrivals >= 2 || Split(s.held) || s.k.track.evidence >= Lowest(s.held)
    ensures CheckTimers(cfg, s, now).k.track.next > s.k.track.next
  {
    hide AckTimer, SkipFirst;
    AckTimerMoved(cfg, s, now);
    SkipFirstMoved(cfg, AckTimer(cfg, s, now), now);
  }

  ghost function Sweeps(cfg: Config, s: Stream, times: seq<Time>): (r: Stream)
    requires Calm(s)
    ensures Calm(r)
    decreases |times|
  {
    if times == [] then s else Sweeps(cfg, CheckTimers(cfg, s, times[0]), times[1..])
  }

  /** Each sweep comes more than four deadlines after the one before (the first: after `since`). */
  ghost predicate Spaced(cfg: Config, since: Time, times: seq<Time>)
    decreases |times|
  {
    times == [] || (times[0] > since + cfg.deadline * 4 && Spaced(cfg, times[0], times[1..]))
  }

  /** Sweeps alone empty the out-of-order store: no hole blocks the stream forever. */
  lemma {:induction false} NeverWedges(cfg: Config, s: Stream, times: seq<Time>, since: Time)
    requires Calm(s) && s.k.track.progress <= since && Spaced(cfg, since, times) && |times| >= |s.held|
    ensures Sweeps(cfg, s, times).held == map[]
    decreases |times|
  {
    hide CheckTimers;
    if times != [] {
      if s.held == map[] {
        IdleSweep(cfg, s, times[0]);
      } else {
        SweepAdvances(cfg, s, times[0]);
      }
      NeverWedges(cfg, CheckTimers(cfg, s, times[0]), times[1..], times[0]);
    }
  }

  lemma IdleSweep(cfg: Config, s: Stream, now: Time)
    requires Calm(s) && s.held == map[]
    ensures CheckTimers(cfg, s, now).k.track.progress <= Max(s.k.track.progress, now)
  {
    hide AckTimer;
    AckTimerMoved(cfg, s, now);
  }

  /** The end of a flow leaves nothing held, no stray, and the position past all evidence unless stopped. */
  lemma FlushPendingSettles(cfg: Config, s: Stream)
    requires Calm(s)
    ensures var r := FlushPending(cfg, s);
            && r.held == map[] && r.k.track.stray.None?
            && r.k.track.next >= s.k.track.next
            && r.k.track.evidence == s.k.track.evidence
            && (!Stopped(r) ==> r.k.track.next >= s.k.track.evidence)
  {
    FlushMoved(cfg, s, s.k.track.progress);
    hide Flush;
  }
}

/** Letting bytes through against buffering and draining them, on the output side. */
module SinkPass {
  import opened Types
  import opened Cells
  import opened Tracking
  import opened SinkSpec

  /** Appended bytes show in the buffer, or the side has stopped. */
  lemma AppendShows(cfg: Config, k: Sink, bytes: seq<byte>, extra: nat)
    requires bytes != []
    ensures var r := Append(cfg, k, bytes, extra);
            (k.stop.Some? ==> r.stop.Some?) && (r.stop.Some? || r.ready != []) && (k.ready != [] ==> r.ready != [])
  {
    DataLenOfBytes(bytes);
    DataLenConcat(k.ready, DataCells(bytes));
    var n := DataLen(k.ready) + |bytes|;
    if !Fits(cfg, n) {
      MaskCounts(k.ready + DataCells(bytes), n - cfg.maxBuffer.value);
    }
  }

  lemma SkipShows(k: Sink, to: nat, ts: Time)
    ensures var r := SkipTo(k, to, ts);
            (k.ready != [] ==> r.ready != []) && (to > k.track.next ==> r.ready != []) && r.above == k.above
  {
    if to > k.track.next {
      assert |k.ready + Gap(to - k.track.next)| > 0;
    }
  }

  /** No timer is due once the stream stands at `off`. */
  predicate NoTimerDue(cfg: Config, v: TrackView, off: nat, ts: Time) {
    var u := AdvanceTo(v, off, ts);
    EvidenceDue(u, ts, cfg.ackGrace).None? && !StrayExpired(u, ts, cfg.deadline * 4)
  }

  /** Append into an empty buffer, then drain: what letting through notes. */
  lemma AppendThenDrain(cfg: Config, k: Sink, data: seq<byte>)
    requires k.ready == [] && !k.above && k.stop.None? && data != [] && Fits(cfg, |data|)
    ensures var b := Append(cfg, k, data, 0);
            b.ready == DataCells(data) && Drained(b) == NotePass(cfg, k, |data|) && b.track == k.track && b.stop.None?
  {
    DataLenOfBytes(data);
    assert [] + DataCells(data) == DataCells(data);
  }
}

/**
 What every output operation keeps: bytes stay at the offset they were carried
 at, and the stream position accounts for every byte and every marker.
 */
module SinkTheorems {
  import opened Types
  import opened Cells
  import opened Tracking
  import opened SinkSpec

  /** Bytes `bs`, placed from offset `n` on, are all allowed by `ok`. */
  ghost predicate Genuine(ok: (nat, byte) -> bool, n: nat, bs: seq<byte>) {
    forall j :: 0 <= j < |bs| ==> ok(n + j, bs[j])
  }

  /** Every byte of the output sits at an offset that allows it. */
  ghost predicate Placed(ok: (nat, byte) -> bool, out: seq<Cell>) {
    forall i :: 0 <= i < |out| && out[i].Data? ==> ok(i, out[i].b)
  }

  ghost predicate StrayOk(ok: (nat, byte) -> bool, c: Option<Candidate>) { c.Some? ==> Genuine(ok, c.value.off, c.value.data) }

  /** Bytes at signed offsets: those before offset 0 do not matter. */
  ghost predicate GenuineFrom(ok: (nat, byte) -> bool, start: int, bs: seq<byte>) {
    forall j :: 0 <= j < |bs| && start + j >= 0 ==> ok(start + j, bs[j])
  }

  /** What a `feed` hands straight to the caller. */
  ghost function Emitted(r: Outcome, payload: seq<byte>): seq<Cell> {
    if r.Passthrough? && r.skip <= |payload| then DataCells(payload[r.skip..]) else []
  }

  lemma NothingEmitted(sent: seq<Cell>)
    ensures sent + [] == sent
  {
  }

  lemma TailGenuine(ok: (nat, byte) -> bool, start: int, payload: seq<byte>, skip: nat)
    requires GenuineFrom(ok, start, payload) && skip <= |payload| && start + skip >= 0
    ensures Genuine(ok, start + skip, payload[skip..])
  {
    forall j | 0 <= j < |payload[skip..]| ensures ok(start + skip + j, payload[skip..][j]) {
      assert ok(start + (skip + j), payload[skip + j]);
    }
  }

  /**
   The invariant of the output side, `sent` being everything handed over so far:
   bytes are where they belong; until a stop, the position is the length of the
   output and the missing cells are those counted as gaps or as dropped; the
   ready buffer fits its cap.
   */
  ghost predicate SinkInv(cfg: Config, ok: (nat, byte) -> bool, sent: seq<Cell>, k: Sink) {
    && Placed(ok, sent + k.ready)
    && (k.stop.None? ==> |sent + k.ready| == k.track.next)
    && (k.stop.None? ==> MissLen(sent + k.ready) == k.c.gapBytes + k.c.oversize)
    && Fits(cfg, DataLen(k.ready))
  }

  /** Conservation: position = bytes delivered or ready + bytes reported missing. */
  lemma PositionConserved(cfg: Config, ok: (nat, byte) -> bool, sent: seq<Cell>, k: Sink)
    requires SinkInv(cfg, ok, sent, k) && k.stop.None?
    ensures k.track.next == DataLen(sent) + DataLen(k.ready) + MissLen(sent) + MissLen(k.ready)
    ensures MissLen(sent) + MissLen(k.ready) == k.c.gapBytes + k.c.oversize
  {
    DataLenConcat(sent, k.ready);
  }

  lemma PlacedConcat(ok: (nat, byte) -> bool, out: seq<Cell>, bs: seq<byte>)
    requires Placed(ok, out) && Genuine(ok, |out|, bs)
    ensures Placed(ok, out + DataCells(bs))
  {
    forall i | 0 <= i < |out + DataCells(bs)| && (out + DataCells(bs))[i].Data?
      ensures ok(i, (out + DataCells(bs))[i].b)
    {
      if i >= |out| {
        DataCellsAt(bs, i - |out|);
        assert ok(|out| + (i - |out|), bs[i - |out|]);
      }
    }
  }

  lemma PlacedGap(ok: (nat, byte) -> bool, out: seq<Cell>, n: nat)
    requires Placed(ok, out)
    ensures Placed(ok, out + Gap(n))
  {
    forall i | |out| <= i < |out| + n ensures (out + Gap(n))[i] == Missing {
      GapAt(n, i - |out|);
    }
  }

  /** Masking the tail of an output only removes bytes. */
  lemma PlacedMask(ok: (nat, byte) -> bool, sent: seq<Cell>, ready: seq<Cell>, n: nat)
    requires Placed(ok, sent + ready)
    ensures Placed(ok, sent + MaskFirst(ready, n))
  {
    MaskCounts(ready, n);
    var a, b := sent + ready, sent + MaskFirst(ready, n);
    forall i | 0 <= i < |b| && b[i].Data? ensures ok(i, b[i].b) {
      if i < |sent| {
        assert b[i] == a[i];
      } else {
        assert b[i] == MaskFirst(ready, n)[i - |sent|] && a[i] == ready[i - |sent|];
        assert b[i] == a[i];
      }
    }
  }

  lemma Regroup(sent: seq<Cell>, ready: seq<Cell>, more: seq<Cell>)
    ensures sent + (ready + more) == sent + ready + more
  {
  }

  /** Bytes appended where the stream stands keep the invariant. */
  lemma AppendInv(cfg: Config, ok: (nat, byte) -> bool, sent: seq<Cell>, k: Sink, off: nat, ts: Time, bs: seq<byte>, extra: nat)
    requires SinkInv(cfg, ok, sent, k) && k.stop.None?
    requires Genuine(ok, k.track.next, bs) && off == k.track.next + |bs| && bs != []
    ensures SinkInv(cfg, ok, sent, Append(cfg, Advance(k, off, ts), bs, extra))
  {
    hide DataLen, DataCells, MaskFirst, MissLen;
    var out := sent + k.ready;
    var cells := k.ready + DataCells(bs);
    Regroup(sent, k.ready, DataCells(bs));
    PlacedConcat(ok, out, bs);
    CellSums(sent, k.ready, bs);
    var n := DataLen(k.ready) + |bs|;
    if !Fits(cfg, n) && cfg.overflow.SlidingWindow? {
      var over := n - cfg.maxBuffer.value;
      PlacedMask(ok, sent, cells, over);
      MaskSums(sent, cells, over);
    }
  }

  lemma CellSums(sent: seq<Cell>, ready: seq<Cell>, bs: seq<byte>)
    ensures DataLen(ready + DataCells(bs)) == DataLen(ready) + |bs|
    ensures MissLen(sent + (ready + DataCells(bs))) == MissLen(sent + ready)
    ensures MissLen(sent + ready) == MissLen(sent) + MissLen(ready)
    ensures |sent + (ready + DataCells(bs))| == |sent + ready| + |bs|
  {
    DataLenConcat(sent, ready);
    DataLenConcat(ready, DataCells(bs));
    DataLenConcat(sent, ready + DataCells(bs));
    DataLenOfBytes(bs);
  }

  lemma MaskSums(sent: seq<Cell>, cells: seq<Cell>, n: nat)
    requires n <= DataLen(cells)
    ensures DataLen(MaskFirst(cells, n)) == DataLen(cells) - n
    ensures MissLen(sent + MaskFirst(cells, n)) == MissLen(sent + cells) + n
    ensures |sent + MaskFirst(cells, n)| == |sent + cells|
  {
    MaskCounts(cells, n);
    DataLenConcat(sent, cells);
    DataLenConcat(sent, MaskFirst(cells, n));
  }

  /** Reporting a gap keeps the invariant, stopped or not. */
  lemma SkipInv(cfg: Config, ok: (nat, byte) -> bool, sent: seq<Cell>, k: Sink, to: nat, ts: Time)
    requires SinkInv(cfg, ok, sent, k)
    ensures SinkInv(cfg, ok, sent, SkipTo(k, to, ts))
  {
    if to > k.track.next {
      hide DataLen, MissLen;
      var n := to - k.track.next;
      Regroup(sent, k.ready, Gap(n));
      PlacedGap(ok, sent + k.ready, n);
      GapSums(sent + k.ready, n);
      GapSums(k.ready, n);
    }
  }

  lemma GapSums(cells: seq<Cell>, n: nat)
    ensures DataLen(cells + Gap(n)) == DataLen(cells)
    ensures MissLen(cells + Gap(n)) == MissLen(cells) + n
  {
    DataLenConcat(cells, Gap(n));
    DataLenOfGap(n);
  }

  /** Letting bytes through instead of buffering them keeps the invariant. */
  lemma PassInv(cfg: Config, ok: (nat, byte) -> bool, sent: seq<Cell>, k: Sink, off: nat, ts: Time, bs: seq<byte>)
    requires SinkInv(cfg, ok, sent, k) && k.stop.None? && k.ready == []
    requires Genuine(ok, k.track.next, bs) && off == k.track.next + |bs|
    ensures SinkInv(cfg, ok, sent + DataCells(bs), NotePass(cfg, Advance(k, off, ts), |bs|))
  {
    hide DataLen, MissLen;
    assert sent + k.ready == sent;
    assert sent + DataCells(bs) + [] == sent + DataCells(bs);
    PlacedConcat(ok, sent, bs);
    CellSums(sent, [], bs);
    assert [] + DataCells(bs) == DataCells(bs);
    assert sent + [] == sent;
  }

  /** Draining moves the ready cells to what was sent. */
  lemma DrainInv(cfg: Config, ok: (nat, byte) -> bool, sent: seq<Cell>, k: Sink)
    requires SinkInv(cfg, ok, sent, k)
    ensures SinkInv(cfg, ok, sent + k.ready, Drained(k))
  {
    assert sent + k.ready + [] == sent + k.ready;
  }

  // ----- evidence never invents a candidate
}

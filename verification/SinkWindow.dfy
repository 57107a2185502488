/** Cell identities behind the sliding window of both reassemblers. */
module SinkWindow {
  import opened Types
  import opened Cells

  /** A segment longer than the cap: everything ready is dropped, then its own head. */
  lemma TrimLong(ready: seq<Cell>, bytes: seq<byte>, cap: nat)
    requires |bytes| > cap
    ensures MaskFirst(ready, DataLen(ready)) + Gap(|bytes| - cap) + DataCells(bytes[|bytes| - cap..])
         == MaskFirst(ready + DataCells(bytes), DataLen(ready) + |bytes| - cap)
  {
    var n := DataLen(ready);
    MaskAll(ready, n);
    MaskConcat(ready, DataCells(bytes), n + |bytes| - cap);
    MaskBytes(bytes, |bytes| - cap);
    assert Gap(|ready|) + (Gap(|bytes| - cap) + DataCells(bytes[|bytes| - cap..]))
        == Gap(|ready|) + Gap(|bytes| - cap) + DataCells(bytes[|bytes| - cap..]);
  }

  /** A segment exactly as long as the cap replaces everything ready. */
  lemma TrimExact(ready: seq<Cell>, bytes: seq<byte>)
    ensures MaskFirst(ready, DataLen(ready)) + Gap(0) + DataCells(bytes[0..])
         == MaskFirst(ready + DataCells(bytes), DataLen(ready))
  {
    assert bytes[0..] == bytes;
    assert MaskFirst(ready, DataLen(ready)) + [] == MaskFirst(ready, DataLen(ready));
    MaskConcat(ready, DataCells(bytes), DataLen(ready));
  }
}

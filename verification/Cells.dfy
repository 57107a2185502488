/**
 The meaning of reassembled output: one cell per stream offset, holding the
 byte delivered there or marking it missing.
 */
module Cells {
  import opened Types

  datatype Cell = Data(b: byte) | Missing

  function DataCells(bs: seq<byte>): (r: seq<Cell>)
    ensures |r| == |bs|
  {
    if bs == [] then [] else [Data(bs[0])] + DataCells(bs[1..])
  }

  function Gap(n: nat): (r: seq<Cell>)
    ensures |r| == n
  {
    if n == 0 then [] else [Missing] + Gap(n - 1)
  }

  lemma {:induction false} DataCellsAt(bs: seq<byte>, i: nat)
    requires i < |bs|
    ensures DataCells(bs)[i] == Data(bs[i])
  {
    if i > 0 { DataCellsAt(bs[1..], i - 1); }
  }

  lemma {:induction false} GapAt(n: nat, i: nat)
    requires i < n
    ensures Gap(n)[i] == Missing
  {
    if i > 0 { GapAt(n - 1, i - 1); }
  }

  /** How many cells hold a byte. */
  function DataLen(cs: seq<Cell>): (n: nat)
    ensures n <= |cs|
  {
    if cs == [] then 0 else (if cs[0].Data? then 1 else 0) + DataLen(cs[1..])
  }

  /** How many cells are missing. */
  function MissLen(cs: seq<Cell>): nat { |cs| - DataLen(cs) }

  /** Turn the first `n` byte cells into missing ones. */
  function MaskFirst(cs: seq<Cell>, n: nat): (r: seq<Cell>)
    ensures |r| == |cs|
  {
    if cs == [] then []
    else if cs[0].Missing? then [Missing] + MaskFirst(cs[1..], n)
    else if n == 0 then cs
    else [Missing] + MaskFirst(cs[1..], n - 1)
  }

  lemma {:induction false} DataLenConcat(a: seq<Cell>, b: seq<Cell>)
    ensures DataLen(a + b) == DataLen(a) + DataLen(b)
    ensures MissLen(a + b) == MissLen(a) + MissLen(b)
  {
    if a == [] {
      assert a + b == b;
    } else {
      assert (a + b)[1..] == a[1..] + b;
      DataLenConcat(a[1..], b);
    }
  }

  lemma {:induction false} DataLenOfBytes(bs: seq<byte>)
    ensures DataLen(DataCells(bs)) == |bs|
    ensures MissLen(DataCells(bs)) == 0
  {
    if bs != [] {
      DataLenOfBytes(bs[1..]);
    }
  }

  lemma {:induction false} DataLenOfGap(n: nat)
    ensures DataLen(Gap(n)) == 0
    ensures MissLen(Gap(n)) == n
  {
    if n > 0 {
      DataLenOfGap(n - 1);
    }
  }

  lemma {:induction false} DataCellsConcat(a: seq<byte>, b: seq<byte>)
    ensures DataCells(a + b) == DataCells(a) + DataCells(b)
  {
    if a == [] {
      assert a + b == b;
    } else {
      assert (a + b)[1..] == a[1..] + b;
      DataCellsConcat(a[1..], b);
    }
  }

  lemma {:induction false} GapConcat(m: nat, n: nat)
    ensures Gap(m + n) == Gap(m) + Gap(n)
  {
    if m > 0 { GapConcat(m - 1, n); }
  }

  /** Masking nothing is the identity. */
  lemma {:induction false} MaskNone(cs: seq<Cell>)
    ensures MaskFirst(cs, 0) == cs
  {
    if cs != [] && cs[0].Missing? {
      MaskNone(cs[1..]);
      assert cs == [cs[0]] + cs[1..];
    }
  }

  /**
   Masking converts exactly `min(n, DataLen)` byte cells, in place: a cell
   either keeps its content or becomes missing, and the total length stays.
   */
  lemma {:induction false} MaskCounts(cs: seq<Cell>, n: nat)
    ensures DataLen(MaskFirst(cs, n)) == Max(0, DataLen(cs) - n)
    ensures MissLen(MaskFirst(cs, n)) == MissLen(cs) + Min(n, DataLen(cs))
    ensures forall i :: 0 <= i < |cs| ==> MaskFirst(cs, n)[i] == cs[i] || MaskFirst(cs, n)[i] == Missing
  {
    if cs == [] {
    } else if cs[0].Missing? {
      MaskCounts(cs[1..], n);
      assert MaskFirst(cs, n)[1..] == MaskFirst(cs[1..], n);
    } else if n > 0 {
      MaskCounts(cs[1..], n - 1);
      assert MaskFirst(cs, n)[1..] == MaskFirst(cs[1..], n - 1);
    }
  }

  /** Masking at least every byte leaves a gap of the same length. */
  lemma {:induction false} MaskAll(cs: seq<Cell>, n: nat)
    requires n >= DataLen(cs)
    ensures MaskFirst(cs, n) == Gap(|cs|)
  {
    MaskCounts(cs, n);
    if cs != [] {
      MaskAll(cs[1..], if cs[0].Data? then n - 1 else n);
    }
  }

  /** Masking a concatenation: the front part first, then what is left over. */
  lemma {:induction false} MaskConcat(a: seq<Cell>, b: seq<Cell>, n: nat)
    ensures n <= DataLen(a) ==> MaskFirst(a + b, n) == MaskFirst(a, n) + b
    ensures n >= DataLen(a) ==> MaskFirst(a + b, n) == Gap(|a|) + MaskFirst(b, n - DataLen(a))
  {
    if a == [] {
      assert a + b == b;
      MaskNone(b);
    } else {
      assert (a + b)[1..] == a[1..] + b;
      if a[0].Missing? {
        MaskConcat(a[1..], b, n);
      } else if n > 0 {
        MaskConcat(a[1..], b, n - 1);
      }
    }
  }

  /** Masking the front of a plain byte string leaves a gap and the rest. */
  lemma MaskBytes(bs: seq<byte>, n: nat)
    requires n <= |bs|
    ensures MaskFirst(DataCells(bs), n) == Gap(n) + DataCells(bs[n..])
  {
    hide DataCells, MaskFirst, Gap, DataLen;
    var h, t := bs[..n], bs[n..];
    assert bs == h + t;
    DataCellsConcat(h, t);
    MaskHead(h, DataCells(t));
  }

  /** Masking exactly the bytes in front of `cs`. */
  lemma MaskHead(h: seq<byte>, cs: seq<Cell>)
    ensures MaskFirst(DataCells(h) + cs, |h|) == Gap(|h|) + cs
  {
    hide DataCells, MaskFirst, Gap, DataLen;
    DataLenOfBytes(h);
    MaskConcat(DataCells(h), cs, |h|);
    MaskAll(DataCells(h), |h|);
    MaskNone(cs);
  }

  /** Asking for more than there is masks everything. */
  lemma MaskCap(cs: seq<Cell>, n: nat)
    ensures MaskFirst(cs, n) == MaskFirst(cs, Min(n, DataLen(cs)))
  {
    if n > DataLen(cs) {
      MaskAll(cs, n);
      MaskAll(cs, DataLen(cs));
    }
  }
}

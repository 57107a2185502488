/** `StreamChunks::iter` (src/reassembler.rs): walking bytes and gaps in stream order. */
module Walk {
  import opened Types
  import opened Chunks
  import opened Seqs

  /** What pushing a list of chunks into an empty value builds. */
  function Replay(cs: seq<Chunk>): (seq<byte>, seq<GapMark>) {
    if cs == [] then ([], [])
    else
      var (bytes, gaps) := Replay(cs[..|cs| - 1]);
      match cs[|cs| - 1]
      case Bytes(d) => (bytes + d, gaps)
      case Hole(n) => (bytes, if n == 0 then gaps else AddMark(gaps, |bytes|, n))
  }

  /** Data and gaps alternate and no chunk is empty. */
  ghost predicate Alternating(cs: seq<Chunk>) {
    && (forall i :: 0 <= i < |cs| ==> if cs[i].Bytes? then cs[i].data != [] else cs[i].len > 0)
    && (forall i :: 0 < i < |cs| ==> cs[i - 1].Bytes? != cs[i].Bytes?)
  }

  lemma ReplaySnoc(cs: seq<Chunk>, c: Chunk)
    ensures Replay(cs + [c]) ==
            var (bytes, gaps) := Replay(cs);
            match c
            case Bytes(d) => (bytes + d, gaps)
            case Hole(n) => (bytes, if n == 0 then gaps else AddMark(gaps, |bytes|, n))
  {
    assert (cs + [c])[..|cs|] == cs;
  }

  /** The iterator: a position in the bytes and in the markers. */
  class ChunkIter {
    const chunks: StreamChunks
    var pos: nat
    var gapIdx: nat

    constructor (c: StreamChunks)
      requires c.Valid()
      ensures chunks == c && Valid() && pos == 0 && gapIdx == 0
    {
      chunks := c;
      pos, gapIdx := 0, 0;
      OrderedBound(|c.bytes|, c.gaps);
    }

    ghost predicate Valid()
      reads this, chunks
    {
      && chunks.Valid()
      && pos <= |chunks.bytes| && gapIdx <= |chunks.gaps|
      && (forall j :: 0 <= j < gapIdx ==> chunks.gaps[j].at <= pos)
      && (forall j :: gapIdx <= j < |chunks.gaps| ==> pos <= chunks.gaps[j].at <= |chunks.bytes|)
    }

    /** Yield the marker at the position, else the bytes up to the next marker. */
    method Next() returns (r: Option<Chunk>)
      requires Valid()
      modifies this
      ensures Valid()
      ensures r == None ==> pos == |chunks.bytes| && gapIdx == |chunks.gaps| && pos == old(pos) && gapIdx == old(gapIdx)
      ensures r.Some? && r.value.Hole? ==>
                pos == old(pos) && old(gapIdx) < |chunks.gaps| && gapIdx == old(gapIdx) + 1
                && chunks.gaps[old(gapIdx)] == GapMark(pos, r.value.len)
      ensures r.Some? && r.value.Bytes? ==>
                old(pos) < pos && gapIdx == old(gapIdx) && r.value.data == chunks.bytes[old(pos)..pos]
                && (gapIdx < |chunks.gaps| ==> chunks.gaps[gapIdx].at == pos)
                && (gapIdx == |chunks.gaps| ==> pos == |chunks.bytes|)
    {
      var gaps, bytes := chunks.gaps, chunks.bytes;
      if gapIdx < |gaps| && gaps[gapIdx].at == pos {
        r := Some(Hole(gaps[gapIdx].len));
        gapIdx := gapIdx + 1;
        return;
      }
      if pos >= |bytes| {
        return None;
      }
      var end := if gapIdx < |gaps| then Min(gaps[gapIdx].at, |bytes|) else |bytes|;
      r := Some(Bytes(bytes[pos..end]));
      pos := end;
    }
  }

  /** `r` is the walk up to byte `pos` and marker `i`. */
  ghost predicate Walked(r: seq<Chunk>, bytes: seq<byte>, gaps: seq<GapMark>, pos: nat, i: nat) {
    && pos <= |bytes| && i <= |gaps|
    && Alternating(r) && Replay(r) == (bytes[..pos], gaps[..i])
    && (|r| == 0 ==> pos == 0 && i == 0)
    && (|r| > 0 && r[|r| - 1].Hole? ==> i > 0 && gaps[i - 1].at == pos)
    && (|r| > 0 && r[|r| - 1].Bytes? ==>
          (i > 0 ==> gaps[i - 1].at < pos) && (if i < |gaps| then gaps[i].at == pos else pos == |bytes|))
  }

  lemma WalkedHole(r: seq<Chunk>, bytes: seq<byte>, gaps: seq<GapMark>, pos: nat, i: nat)
    requires Walked(r, bytes, gaps, pos, i) && Strict(gaps) && i < |gaps| && gaps[i].at == pos
    ensures Walked(r + [Hole(gaps[i].len)], bytes, gaps, pos, i + 1)
  {
    var c := Hole(gaps[i].len);
    assert gaps[i].len > 0 && (i > 0 ==> gaps[i - 1].at < pos);
    hide Strict;
    assert |r| > 0 ==> r[|r| - 1].Bytes?;
    assert Alternating(r + [c]) by { hide Replay, AddMark; }
    hide Alternating, Replay;
    ReplaySnoc(r, c);
    NewMark(gaps, i);
    hide AddMark;
  }

  /** A marker past the last one is simply added. */
  lemma NewMark(gaps: seq<GapMark>, i: nat)
    requires i < |gaps| && (i > 0 ==> gaps[i - 1].at < gaps[i].at)
    ensures AddMark(gaps[..i], gaps[i].at, gaps[i].len) == gaps[..i + 1]
  {
    assert gaps[..i + 1] == gaps[..i] + [gaps[i]];
  }

  lemma WalkedBytes(r: seq<Chunk>, bytes: seq<byte>, gaps: seq<GapMark>, pos: nat, i: nat, end: nat)
    requires Walked(r, bytes, gaps, pos, i) && pos < end <= |bytes|
    requires if i < |gaps| then gaps[i].at == end else end == |bytes|
    requires forall j :: 0 <= j < i ==> gaps[j].at <= pos
    ensures Walked(r + [Bytes(bytes[pos..end])], bytes, gaps, end, i)
  {
    var c := Bytes(bytes[pos..end]);
    ReplaySnoc(r, c);
    Slices(bytes, pos, end);
    assert Replay(r + [c]) == (bytes[..end], gaps[..i]);
    assert |r| > 0 ==> r[|r| - 1].Hole?;
    assert Alternating(r + [c]);
  }

  lemma WalkedNone(bytes: seq<byte>, gaps: seq<GapMark>)
    ensures Walked([], bytes, gaps, 0, 0)
  {
  }

  /** A walk that reached the end says everything. */
  lemma WalkedAll(r: seq<Chunk>, bytes: seq<byte>, gaps: seq<GapMark>)
    requires Walked(r, bytes, gaps, |bytes|, |gaps|)
    ensures Alternating(r) && Replay(r) == (bytes, gaps)
  {
    assert bytes[..|bytes|] == bytes && gaps[..|gaps|] == gaps;
  }

  /**
   Walking to the end terminates, alternates data and gaps, and re-pushing what
   was yielded rebuilds exactly the same bytes and markers.
   */
  method Collect(c: StreamChunks) returns (r: seq<Chunk>)
    requires c.Valid()
    ensures Alternating(r)
    ensures Replay(r) == (c.bytes, c.gaps)
  {
    hide Walked, Alternating, Replay, Strict, Ordered, Meaning;
    r := [];
    WalkedNone(c.bytes, c.gaps);
    var it := new ChunkIter(c);
    ghost var bytes, gaps := c.bytes, c.gaps;
    var done := false;
    while !done
      invariant fresh(it) && it.Valid() && it.chunks == c && c.bytes == bytes && c.gaps == gaps
      invariant done ==> it.pos == |bytes| && it.gapIdx == |gaps|
      invariant Walked(r, bytes, gaps, it.pos, it.gapIdx)
      decreases |bytes| - it.pos, |gaps| - it.gapIdx, if done then 0 else 1
    {
      ghost var pos, i := it.pos, it.gapIdx;
      var x := it.Next();
      match x
      case None => done := true;
      case Some(ch) =>
        if ch.Hole? {
          WalkedHole(r, bytes, gaps, pos, i);
        } else {
          WalkedBytes(r, bytes, gaps, pos, i, it.pos);
        }
        r := r + [ch];
    }
    WalkedAll(r, bytes, gaps);
  }
}

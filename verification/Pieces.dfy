/**
 The out-of-order pieces (src/segment_reassembler.rs): disjoint, non-adjacent
 byte strings keyed by stream offset. A `BTreeMap` keyed by start is its list of
 entries in key order; a piece's capacity is any value at least its length.
 */
module Pieces {
  import opened Types
  import opened Seqs

  datatype Piece = Piece(start: nat, data: seq<byte>, cap: nat) {
    function End(): nat { start + |data| }
  }

  /** Non-empty, disjoint and non-adjacent, in order. */
  ghost predicate Apart(ps: seq<Piece>)
    decreases |ps|
  {
    ps == [] ||
    (var init, last := ps[..|ps| - 1], ps[|ps| - 1];
     Apart(init) && last.data != [] && last.cap >= |last.data| && (init == [] || init[|init| - 1].End() < last.start))
  }

  /** The byte held for offset `o`. */
  function ByteAt(ps: seq<Piece>, o: nat): Option<byte> {
    if ps == [] then None
    else
      var p := ps[|ps| - 1];
      if p.start <= o < p.End() then Some(p.data[o - p.start]) else ByteAt(ps[..|ps| - 1], o)
  }

  function SumLen(ps: seq<Piece>): nat {
    if ps == [] then 0 else SumLen(ps[..|ps| - 1]) + |ps[|ps| - 1].data|
  }

  function SumCap(ps: seq<Piece>): nat {
    if ps == [] then 0 else SumCap(ps[..|ps| - 1]) + ps[|ps| - 1].cap
  }

  // ----- order

  lemma {:induction false} ApartOrder(ps: seq<Piece>, i: nat, j: nat)
    requires Apart(ps) && i <= j < |ps|
    ensures |ps[i].data| > 0 && |ps[j].data| > 0
    ensures ps[i].cap >= |ps[i].data|
    ensures i < j ==> ps[i].End() < ps[j].start
    decreases |ps|
  {
    var n := |ps| - 1;
    if j < n {
      ApartOrder(ps[..n], i, j);
    } else if i < n {
      ApartOrder(ps[..n], i, n - 1);
    }
  }

  lemma {:induction false} ApartTake(ps: seq<Piece>, n: nat)
    requires Apart(ps) && n <= |ps|
    ensures Apart(ps[..n])
    decreases |ps| - n
  {
    if n == |ps| {
      assert ps[..n] == ps;
    } else {
      ApartTake(ps, n + 1);
      assert ps[..n + 1][..n] == ps[..n];
    }
  }

  lemma {:induction false} ApartDrop(ps: seq<Piece>, n: nat)
    requires Apart(ps) && n <= |ps|
    ensures Apart(ps[n..])
    decreases |ps|
  {
    if n < |ps| {
      ApartDrop(ps[..|ps| - 1], n);
      assert ps[n..][..|ps| - n - 1] == ps[..|ps| - 1][n..];
    }
  }

  lemma ApartGrow(a: seq<Piece>, init: seq<Piece>, last: Piece)
    requires Apart(a + init) && last.data != [] && last.cap >= |last.data|
    requires if init != [] then init[|init| - 1].End() < last.start else a != [] ==> a[|a| - 1].End() < last.start
    ensures Apart(a + (init + [last]))
  {
    hide Apart;
    ApartSnoc(a + init, last);
    Assoc(a, init, [last]);
  }

  lemma ApartLast(b: seq<Piece>)
    requires Apart(b) && b != []
    ensures var n := |b| - 1;
            && Apart(b[..n]) && b[n].data != [] && b[n].cap >= |b[n].data|
            && (n > 0 ==> b[n - 1].End() < b[n].start && b[..n][0] == b[0])
  {
  }

  lemma {:induction false} ApartConcat(a: seq<Piece>, b: seq<Piece>)
    requires Apart(a) && Apart(b)
    requires a != [] && b != [] ==> a[|a| - 1].End() < b[0].start
    ensures Apart(a + b)
    decreases |b|
  {
    if b == [] {
      assert a + b == a;
    } else {
      hide Apart;
      ApartLast(b);
      ApartConcat(a, b[..|b| - 1]);
      ApartGrow(a, b[..|b| - 1], b[|b| - 1]);
      SplitLast(b);
    }
  }

  // ----- lookup

  lemma {:induction false} ByteAtConcat(a: seq<Piece>, b: seq<Piece>, o: nat)
    ensures ByteAt(a + b, o) == if ByteAt(b, o).Some? then ByteAt(b, o) else ByteAt(a, o)
    decreases |b|
  {
    if b == [] {
      assert a + b == a;
    } else {
      assert (a + b)[..|a + b| - 1] == a + b[..|b| - 1];
      ByteAtConcat(a, b[..|b| - 1], o);
    }
  }

  lemma {:induction false} ByteAtIndex(ps: seq<Piece>, i: nat, o: nat)
    requires Apart(ps) && i < |ps| && ps[i].start <= o < ps[i].End()
    ensures ByteAt(ps, o) == Some(ps[i].data[o - ps[i].start])
    decreases |ps|
  {
    if i < |ps| - 1 {
      ApartOrder(ps, i, |ps| - 1);
      ByteAtIndex(ps[..|ps| - 1], i, o);
    }
  }

  lemma {:induction false} ByteAtBelow(ps: seq<Piece>, o: nat)
    requires Apart(ps) && (ps == [] || o < ps[0].start)
    ensures ByteAt(ps, o) == None
    decreases |ps|
  {
    if ps != [] {
      ApartOrder(ps, 0, |ps| - 1);
      ByteAtBelow(ps[..|ps| - 1], o);
    }
  }

  lemma {:induction false} ByteAtAbove(ps: seq<Piece>, o: nat)
    requires Apart(ps) && (ps == [] || ps[|ps| - 1].End() <= o)
    ensures ByteAt(ps, o) == None
    decreases |ps|
  {
    if ps != [] {
      ByteAtAbove(ps[..|ps| - 1], o);
    }
  }

  /** What is held from the end of piece `i - 1` to the end of piece `i`. */
  lemma PieceBytes(ps: seq<Piece>, i: nat, o: nat)
    requires Apart(ps) && i < |ps| && (i > 0 ==> ps[i - 1].End() <= o) && o < ps[i].End()
    ensures ByteAt(ps, o) == if o < ps[i].start then None else Some(ps[i].data[o - ps[i].start])
  {
    if o < ps[i].start {
      GapBytes(ps, i, o);
    } else {
      ByteAtIndex(ps, i, o);
    }
  }

  /** Nothing is held between two pieces, or outside them. */
  lemma GapBytes(ps: seq<Piece>, i: nat, o: nat)
    requires Apart(ps) && i <= |ps| && (i > 0 ==> ps[i - 1].End() <= o) && (i < |ps| ==> o < ps[i].start)
    ensures ByteAt(ps, o) == None
  {
    ApartTake(ps, i);
    ApartDrop(ps, i);
    ByteAtAbove(ps[..i], o);
    ByteAtBelow(ps[i..], o);
    ByteAtConcat(ps[..i], ps[i..], o);
    assert ps == ps[..i] + ps[i..];
  }

  // ----- totals

  lemma {:induction false} SumConcat(a: seq<Piece>, b: seq<Piece>)
    ensures SumLen(a + b) == SumLen(a) + SumLen(b)
    ensures SumCap(a + b) == SumCap(a) + SumCap(b)
    decreases |b|
  {
    if b == [] {
      assert a + b == a;
    } else {
      assert (a + b)[..|a + b| - 1] == a + b[..|b| - 1];
      SumConcat(a, b[..|b| - 1]);
    }
  }

  lemma SumOne(p: Piece)
    ensures SumLen([p]) == |p.data| && SumCap([p]) == p.cap
  {
    assert [p][..0] == [];
  }

  lemma SpliceSums(ps: seq<Piece>, i: nat, j: nat, p: Piece)
    requires i <= j <= |ps|
    ensures SumLen(ps[..i] + [p] + ps[j..]) == SumLen(ps) - SumLen(ps[i..j]) + |p.data|
    ensures SumCap(ps[..i] + [p] + ps[j..]) == SumCap(ps) - SumCap(ps[i..j]) + p.cap
  {
    ThreeSlices(ps, i, j);
    SumConcat(ps[..i] + ps[i..j], ps[j..]);
    SumConcat(ps[..i], ps[i..j]);
    SumConcat(ps[..i] + [p], ps[j..]);
    SumConcat(ps[..i], [p]);
    SumOne(p);
  }

  /** Replacing pieces `[i, j)` by one that keeps its distance. */
  lemma SpliceApart(ps: seq<Piece>, i: nat, j: nat, p: Piece)
    requires Apart(ps) && i <= j <= |ps| && p.data != [] && p.cap >= |p.data|
    requires i > 0 ==> ps[i - 1].End() < p.start
    requires j < |ps| ==> p.End() < ps[j].start
    ensures Apart(ps[..i] + [p] + ps[j..])
  {
    hide Apart;
    ApartTake(ps, i);
    ApartDrop(ps, j);
    var l, r := ps[..i], ps[j..];
    assert l != [] ==> l[|l| - 1] == ps[i - 1];
    assert r != [] ==> r[0] == ps[j];
    ApartThree(l, p, r);
  }

  lemma ApartThree(l: seq<Piece>, p: Piece, r: seq<Piece>)
    requires Apart(l) && Apart(r) && p.data != [] && p.cap >= |p.data|
    requires (l != [] ==> l[|l| - 1].End() < p.start) && (r != [] ==> p.End() < r[0].start)
    ensures Apart(l + [p] + r)
  {
    ApartSnoc(l, p);
    hide Apart;
    ApartConcat(l + [p], r);
  }

  lemma ApartSnoc(l: seq<Piece>, p: Piece)
    requires Apart(l) && p.data != [] && p.cap >= |p.data| && (l != [] ==> l[|l| - 1].End() < p.start)
    ensures Apart(l + [p])
  {
    assert (l + [p])[..|l|] == l;
  }
}

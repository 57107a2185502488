/**
 IP fragment reassembly (src/ip_fragment.rs; section 3.2 of RFC 791, overlaps
 dropped as in section 4 of RFC 5722) as functions on values: the stored
 fragments of one datagram, in offset order, stand for a map from offset to byte.
 */
module Fragments {
  import opened Types

  datatype Frag = Frag(off: nat, data: seq<byte>) {
    function End(): nat { off + |data| }
  }

  /** Store a fragment under its offset, replacing what was stored there. */
  function Put(fs: seq<Frag>, f: Frag): seq<Frag> {
    if fs == [] then [f]
    else if f.off < fs[0].off then [f] + fs
    else if f.off == fs[0].off then [f] + fs[1..]
    else [fs[0]] + Put(fs[1..], f)
  }

  /** Some stored fragment meets `[off, end)`. */
  predicate Hit(fs: seq<Frag>, off: nat, end: nat) {
    fs != [] && ((off < fs[0].End() && fs[0].off < end) || Hit(fs[1..], off, end))
  }

  /** The fragments follow one another from `at` to `total`. */
  predicate Contiguous(fs: seq<Frag>, at: nat, total: nat) {
    if fs == [] then at == total else fs[0].off == at && Contiguous(fs[1..], fs[0].End(), total)
  }

  function Joined(fs: seq<Frag>): seq<byte> { if fs == [] then [] else fs[0].data + Joined(fs[1..]) }

  /** The byte stored for an offset, if any. */
  function ByteAt(fs: seq<Frag>, o: nat): Option<byte> {
    if fs == [] then None
    else if fs[0].off <= o < fs[0].End() then Some(fs[0].data[o - fs[0].off])
    else ByteAt(fs[1..], o)
  }

  function SumLen(fs: seq<Frag>): nat { if fs == [] then 0 else |fs[0].data| + SumLen(fs[1..]) }

  /** Non-empty fragments, in order and apart, all at or after `from`. */
  predicate Tidy(fs: seq<Frag>, from: nat) {
    fs == [] || (fs[0].off >= from && fs[0].data != [] && Tidy(fs[1..], fs[0].End()))
  }

  lemma {:induction false} NothingBefore(fs: seq<Frag>, from: nat, o: nat)
    requires Tidy(fs, from) && o < from
    ensures ByteAt(fs, o).None?
  {
    if fs != [] { NothingBefore(fs[1..], fs[0].End(), o); }
  }

  /** Meeting a stored fragment is meeting a stored byte. */
  lemma {:induction false} HitByte(fs: seq<Frag>, from: nat, off: nat, end: nat) returns (o: nat)
    requires Tidy(fs, from) && off < end && Hit(fs, off, end)
    ensures off <= o < end && ByteAt(fs, o).Some?
  {
    if off < fs[0].End() && fs[0].off < end {
      o := Max(off, fs[0].off);
    } else {
      o := HitByte(fs[1..], fs[0].End(), off, end);
    }
  }

  lemma {:induction false} NoHitByte(fs: seq<Frag>, off: nat, end: nat, o: nat)
    requires !Hit(fs, off, end) && off <= o < end
    ensures ByteAt(fs, o).None?
  {
    if fs != [] { NoHitByte(fs[1..], off, end, o); }
  }

  /** Storing a non-empty fragment that meets nothing keeps order and counts. */
  lemma {:induction false} PutTidy(fs: seq<Frag>, from: nat, f: Frag)
    requires Tidy(fs, from) && f.off >= from && f.data != [] && !Hit(fs, f.off, f.End())
    ensures Tidy(Put(fs, f), from) && SumLen(Put(fs, f)) == SumLen(fs) + |f.data|
  {
    if fs != [] {
      if f.off < fs[0].off {
        assert ([f] + fs)[1..] == fs;
      } else {
        PutTidy(fs[1..], fs[0].End(), f);
        assert ([fs[0]] + Put(fs[1..], f))[1..] == Put(fs[1..], f);
      }
    }
  }

  /** It adds exactly its bytes. */
  lemma {:induction false} PutAt(fs: seq<Frag>, from: nat, f: Frag, o: nat)
    requires Tidy(fs, from) && f.off >= from && f.data != [] && !Hit(fs, f.off, f.End())
    ensures ByteAt(Put(fs, f), o) == if f.off <= o < f.End() then Some(f.data[o - f.off]) else ByteAt(fs, o)
  {
    if fs != [] {
      if f.off < fs[0].off {
        assert ([f] + fs)[1..] == fs;
      } else {
        PutAt(fs[1..], fs[0].End(), f, o);
        assert ([fs[0]] + Put(fs[1..], f))[1..] == Put(fs[1..], f);
      }
    }
  }

  lemma {:induction false} ContiguousAt(fs: seq<Frag>, at: nat, total: nat, o: nat)
    requires Tidy(fs, at) && Contiguous(fs, at, total)
    ensures at <= total && (ByteAt(fs, o).Some? <==> at <= o < total)
  {
    if fs != [] { ContiguousAt(fs[1..], fs[0].End(), total, o); }
  }

  /** Exactly the bytes of `[at, total)` are stored. */
  ghost predicate Spans(fs: seq<Frag>, at: nat, total: nat) {
    at <= total && forall o: nat :: ByteAt(fs, o).Some? <==> at <= o < total
  }

  lemma {:induction false} SpansContiguous(fs: seq<Frag>, at: nat, total: nat)
    requires Tidy(fs, at) && Spans(fs, at, total)
    ensures Contiguous(fs, at, total)
  {
    if fs == [] {
      assert at < total ==> ByteAt(fs, at).Some?;
    } else {
      var f := fs[0];
      assert ByteAt(fs, f.off).Some? && ByteAt(fs, f.End() - 1).Some?;
      if f.off > at {
        NothingBefore(fs, f.off, at);
      }
      forall o: nat ensures ByteAt(fs[1..], o).Some? <==> f.End() <= o < total {
        assert ByteAt(fs, o).Some? <==> at <= o < total;
        if o < f.End() { NothingBefore(fs[1..], f.End(), o); }
      }
      SpansContiguous(fs[1..], f.End(), total);
    }
  }

  lemma {:induction false} JoinedAt(fs: seq<Frag>, at: nat, total: nat, i: nat)
    requires Tidy(fs, at) && Contiguous(fs, at, total)
    ensures at + |Joined(fs)| == total
    ensures i < |Joined(fs)| ==> ByteAt(fs, at + i) == Some(Joined(fs)[i])
  {
    if fs != [] {
      var n := |fs[0].data|;
      JoinedAt(fs[1..], fs[0].End(), total, if i >= n then i - n else 0);
    }
  }

  // ----- one datagram

  /** Fragments stored, the length once the last one came, and the bytes counted. */
  datatype Pending = Pending(frags: seq<Frag>, total: Option<nat>, buffered: nat, firstSeen: Time, poisoned: bool)

  function NewPending(now: Time): Pending { Pending([], None, 0, now, false) }

  datatype Verdict = Waiting(p: Pending) | Complete(datagram: seq<byte>) | Overlap | Oversize

  /** What one fragment does to its datagram. */
  function Offer(cap: nat, p: Pending, off: nat, more: bool, payload: seq<byte>): Verdict {
    var end := off + |payload|;
    if p.poisoned then Waiting(p)
    else if Hit(p.frags, off, end) then Overlap
    else if p.buffered + |payload| > cap || end > cap then Oversize
    else
      var frags := Put(p.frags, Frag(off, payload));
      var total := if more then p.total else Some(end);
      if total.Some? && Contiguous(frags, 0, total.value) then Complete(Joined(frags))
      else Waiting(p.(frags := frags, total := total, buffered := p.buffered + |payload|))
  }

  /** A datagram of non-empty fragments: apart, all counted, within the cap. */
  ghost predicate PendingOk(cap: nat, p: Pending) {
    Tidy(p.frags, 0) && p.buffered == SumLen(p.frags) <= cap && !p.poisoned
  }

  /** The byte an offset would have after adding a fragment. */
  function With(fs: seq<Frag>, f: Frag, o: nat): Option<byte> {
    if f.off <= o < f.End() then Some(f.data[o - f.off]) else ByteAt(fs, o)
  }

  /** Some byte of `[off, end)` is stored. */
  ghost predicate Meets(fs: seq<Frag>, off: nat, end: nat) { exists o: nat :: off <= o < end && ByteAt(fs, o).Some? }

  /** With `f` added, exactly the bytes below `total` are there. */
  ghost predicate Fills(fs: seq<Frag>, f: Frag, total: Option<nat>) {
    total.Some? && forall o: nat :: With(fs, f, o).Some? <==> o < total.value
  }

  /**
   One non-empty fragment refines the offset-to-byte map: an overlap is reported
   exactly when a byte is already there; otherwise its bytes are added, and the
   datagram completes exactly when the map is `[0, total)`, giving its bytes.
   */
  lemma OfferRefines(cap: nat, p: Pending, off: nat, more: bool, payload: seq<byte>)
    requires PendingOk(cap, p) && payload != []
    ensures var v := Offer(cap, p, off, more, payload);
            var f := Frag(off, payload);
            var total := if more then p.total else Some(f.End());
            var hit := Meets(p.frags, off, f.End());
            var over := p.buffered + |payload| > cap || f.End() > cap;
            && (v.Overlap? <==> hit)
            && (v.Oversize? <==> !hit && over)
            && (v.Complete? <==> !hit && !over && Fills(p.frags, f, total))
            && (v.Complete? ==> |v.datagram| == total.value
                                && forall i :: 0 <= i < |v.datagram| ==> With(p.frags, f, i) == Some(v.datagram[i]))
            && (v.Waiting? ==> PendingOk(cap, v.p) && v.p.total == total && v.p.firstSeen == p.firstSeen
                               && forall o: nat :: ByteAt(v.p.frags, o) == With(p.frags, f, o))
  {
    var f := Frag(off, payload);
    if Hit(p.frags, off, f.End()) {
      var o := HitByte(p.frags, 0, off, f.End());
    } else {
      assert !Meets(p.frags, off, f.End()) by {
        forall o: nat | off <= o < f.End() ensures ByteAt(p.frags, o).None? { NoHitByte(p.frags, off, f.End(), o); }
      }
      PutTidy(p.frags, 0, f);
      var frags := Put(p.frags, f);
      forall o: nat ensures ByteAt(frags, o) == With(p.frags, f, o) { PutAt(p.frags, 0, f, o); }
      var total := if more then p.total else Some(f.End());
      if total.Some? { FullIff(frags, p.frags, f, total.value); }
      hide Hit, Put, Contiguous, Joined, ByteAt, Tidy, SumLen, With, Meets, Fills;
    }
  }

  lemma FullIff(frags: seq<Frag>, before: seq<Frag>, f: Frag, total: nat)
    requires Tidy(frags, 0) && forall o: nat :: ByteAt(frags, o) == With(before, f, o)
    ensures Contiguous(frags, 0, total) <==> Fills(before, f, Some(total))
    ensures Contiguous(frags, 0, total) ==>
              |Joined(frags)| == total && forall i :: 0 <= i < total ==> With(before, f, i) == Some(Joined(frags)[i])
  {
    hide ByteAt, With, Tidy, Joined, Contiguous;
    if Contiguous(frags, 0, total) {
      forall o: nat ensures With(before, f, o).Some? <==> o < total {
        ContiguousAt(frags, 0, total, o);
        assert ByteAt(frags, o) == With(before, f, o);
      }
      JoinedAt(frags, 0, total, 0);
      forall i | 0 <= i < total ensures With(before, f, i) == Some(Joined(frags)[i]) {
        JoinedAt(frags, 0, total, i);
        assert ByteAt(frags, i) == With(before, f, i);
      }
    }
    if Fills(before, f, Some(total)) {
      assert Spans(frags, 0, total);
      SpansContiguous(frags, 0, total);
    }
  }

  // ----- any arrival order

  datatype Piece = Piece(off: nat, more: bool, data: seq<byte>)

  predicate InPiece(p: Piece, o: nat) { p.off <= o < p.off + |p.data| }

  ghost predicate InSome(ps: seq<Piece>, o: nat) { exists i :: 0 <= i < |ps| && InPiece(ps[i], o) }

  predicate Apart(a: Piece, b: Piece) { a.off + |a.data| <= b.off || b.off + |b.data| <= a.off }

  /** A non-empty part of `d`, with MF clear exactly at its end. */
  predicate PartOf(p: Piece, d: seq<byte>) {
    && p.data != [] && p.off + |p.data| <= |d| && p.data == d[p.off..p.off + |p.data|]
    && (p.more <==> p.off + |p.data| < |d|)
  }

  /** `ps` cut datagram `d` into parts, apart and covering it. */
  ghost predicate Cuts(ps: seq<Piece>, d: seq<byte>) {
    && (forall i :: 0 <= i < |ps| ==> PartOf(ps[i], d))
    && (forall i, j :: 0 <= i < j < |ps| ==> Apart(ps[i], ps[j]))
    && (forall o: nat :: o < |d| ==> InSome(ps, o))
  }

  /** Offering pieces one after the other, until one does not leave the datagram waiting. */
  function OfferAll(cap: nat, p: Pending, ps: seq<Piece>): Verdict
    decreases |ps|
  {
    if ps == [] then Waiting(p)
    else
      var v := OfferAll(cap, p, ps[..|ps| - 1]);
      var x := ps[|ps| - 1];
      if v.Waiting? then Offer(cap, v.p, x.off, x.more, x.data) else v
  }

  /** What is stored after the pieces `ps`. */
  ghost predicate Progress(cap: nat, ps: seq<Piece>, d: seq<byte>, p: Pending) {
    && PendingOk(cap, p)
    && (forall o: nat :: ByteAt(p.frags, o).Some? ==> InSome(ps, o) && o < |d| && ByteAt(p.frags, o) == Some(d[o]))
    && (forall o: nat :: InSome(ps, o) ==> ByteAt(p.frags, o).Some?)
    && (p.total.Some? ==> p.total.value == |d|)
    && (forall i :: 0 <= i < |ps| && !ps[i].more ==> p.total.Some?)
  }

  lemma InSomeMore(ps: seq<Piece>, x: Piece, o: nat)
    ensures InSome(ps + [x], o) <==> InSome(ps, o) || InPiece(x, o)
  {
    if InSome(ps, o) {
      var i :| 0 <= i < |ps| && InPiece(ps[i], o);
      assert (ps + [x])[i] == ps[i];
    }
    if InPiece(x, o) { assert (ps + [x])[|ps|] == x; }
  }

  /** Pieces apart from all of `ps` share no offset with them. */
  lemma NotBefore(ps: seq<Piece>, x: Piece, o: nat)
    requires (forall i :: 0 <= i < |ps| ==> Apart(ps[i], x)) && InPiece(x, o)
    ensures !InSome(ps, o)
  {
  }

  /** Fragments below `limit` hold at most that many bytes. */
  lemma {:induction false} SumBelow(fs: seq<Frag>, from: nat, limit: nat)
    requires Tidy(fs, from) && from <= limit && forall o: nat :: ByteAt(fs, o).Some? ==> o < limit
    ensures SumLen(fs) <= limit - from
  {
    if fs != [] {
      var f := fs[0];
      assert ByteAt(fs, f.End() - 1).Some?;
      forall o: nat | ByteAt(fs[1..], o).Some? ensures o < limit {
        if o < f.End() { NothingBefore(fs[1..], f.End(), o); }
        assert ByteAt(fs, o).Some?;
      }
      SumBelow(fs[1..], f.End(), limit);
    }
  }

  /** The next piece meets no stored byte and stays within the cap. */
  lemma NoMeeting(cap: nat, ps: seq<Piece>, d: seq<byte>, p: Pending, x: Piece)
    requires Progress(cap, ps, d, p) && |d| <= cap && PartOf(x, d) && forall i :: 0 <= i < |ps| ==> Apart(ps[i], x)
    ensures !Meets(p.frags, x.off, x.off + |x.data|) && p.buffered + |x.data| <= cap
  {
    var f := Frag(x.off, x.data);
    forall o: nat | f.off <= o < f.End() ensures ByteAt(p.frags, o).None? {
      NotBefore(ps, x, o);
    }
    assert !Hit(p.frags, f.off, f.End()) by {
      if Hit(p.frags, f.off, f.End()) { var o := HitByte(p.frags, 0, f.off, f.End()); }
    }
    PutTidy(p.frags, 0, f);
    forall o: nat | ByteAt(Put(p.frags, f), o).Some? ensures o < |d| { PutAt(p.frags, 0, f, o); }
    SumBelow(Put(p.frags, f), 0, |d|);
  }

  /** One more piece: the datagram completes exactly when the pieces cover it. */
  lemma NextPiece(cap: nat, ps: seq<Piece>, d: seq<byte>, p: Pending, x: Piece)
    requires Progress(cap, ps, d, p) && |d| <= cap && PartOf(x, d) && forall i :: 0 <= i < |ps| ==> Apart(ps[i], x)
    ensures var v := Offer(cap, p, x.off, x.more, x.data);
            && (v.Waiting? ==> Progress(cap, ps + [x], d, v.p))
            && (v.Waiting? || v == Complete(d))
            && (v.Complete? ==> forall o: nat :: o < |d| ==> InSome(ps + [x], o))
            && ((forall o: nat :: o < |d| ==> InSome(ps + [x], o)) && (p.total.Some? || !x.more) ==> v == Complete(d))
  {
    var f := Frag(x.off, x.data);
    var total := if x.more then p.total else Some(f.End());
    var v := Offer(cap, p, x.off, x.more, x.data);
    OfferRefines(cap, p, x.off, x.more, x.data);
    NoMeeting(cap, ps, d, p, x);
    WithPiece(cap, ps, d, p, x);
    hide Offer, Meets, With, ByteAt, PendingOk, InPiece;
    if v.Complete? {
      assert v.datagram == d;
      forall o: nat | o < |d| ensures InSome(ps + [x], o) { assert With(p.frags, f, o).Some?; }
    }
    if (forall o: nat :: o < |d| ==> InSome(ps + [x], o)) && total.Some? {
      assert Fills(p.frags, f, total);
    }
  }

  /** The bytes with the next piece added are those of the pieces with it, taken from `d`. */
  lemma WithPiece(cap: nat, ps: seq<Piece>, d: seq<byte>, p: Pending, x: Piece)
    requires Progress(cap, ps, d, p) && PartOf(x, d)
    ensures var f := Frag(x.off, x.data);
            && (forall o: nat :: With(p.frags, f, o).Some? <==> InSome(ps + [x], o))
            && (forall o: nat :: With(p.frags, f, o).Some? ==> o < |d| && With(p.frags, f, o) == Some(d[o]))
  {
    hide PendingOk, ByteAt;
    var f := Frag(x.off, x.data);
    forall o: nat
      ensures With(p.frags, f, o).Some? <==> InSome(ps + [x], o)
      ensures With(p.frags, f, o).Some? ==> o < |d| && With(p.frags, f, o) == Some(d[o])
    {
      InSomeMore(ps, x, o);
    }
  }

  /** Before the last piece an offset of a later piece is missing. */
  lemma Unfilled(ps: seq<Piece>, d: seq<byte>, k: nat)
    requires Cuts(ps, d) && k < |ps|
    ensures ps[k].off < |d| && !InSome(ps[..k], ps[k].off)
  {
    assert PartOf(ps[k], d);
    NotBefore(ps[..k], ps[k], ps[k].off);
  }

  /** Some piece ends the datagram. */
  lemma LastIn(ps: seq<Piece>, d: seq<byte>) returns (i: nat)
    requires Cuts(ps, d) && ps != []
    ensures i < |ps| && !ps[i].more
  {
    assert PartOf(ps[0], d);
    assert InSome(ps, |d| - 1);
    var j :| 0 <= j < |ps| && InPiece(ps[j], |d| - 1);
    assert PartOf(ps[j], d);
    i := j;
  }

  lemma {:induction false} SomePieces(cap: nat, ps: seq<Piece>, d: seq<byte>, k: nat, now: Time)
    requires Cuts(ps, d) && |d| <= cap && k < |ps|
    ensures var v := OfferAll(cap, NewPending(now), ps[..k]); v.Waiting? && Progress(cap, ps[..k], d, v.p)
    decreases k
  {
    if k == 0 {
      assert ps[..0] == [];
    } else {
      SomePieces(cap, ps, d, k - 1, now);
      var v := OfferAll(cap, NewPending(now), ps[..k - 1]);
      OfferAllStep(cap, NewPending(now), ps, k);
      assert PartOf(ps[k - 1], d);
      NextPiece(cap, ps[..k - 1], d, v.p, ps[k - 1]);
      assert ps[..k - 1] + [ps[k - 1]] == ps[..k];
      Unfilled(ps, d, k);
      hide OfferAll, Offer, Progress;
    }
  }

  lemma OfferAllStep(cap: nat, p: Pending, ps: seq<Piece>, k: nat)
    requires 0 < k <= |ps|
    ensures OfferAll(cap, p, ps[..k])
         == var v := OfferAll(cap, p, ps[..k - 1]);
            if v.Waiting? then Offer(cap, v.p, ps[k - 1].off, ps[k - 1].more, ps[k - 1].data) else v
  {
    hide Offer;
    assert ps[..k][..k - 1] == ps[..k - 1];
  }

  /** The last piece completes the datagram. */
  lemma LastPiece(cap: nat, ps: seq<Piece>, d: seq<byte>, n: nat, p: Pending)
    requires Cuts(ps, d) && |d| <= cap && |ps| == n + 1 && Progress(cap, ps[..n], d, p)
    ensures Offer(cap, p, ps[n].off, ps[n].more, ps[n].data) == Complete(d)
  {
    hide Offer, PendingOk, ByteAt, InSome;
    assert ps[..n] + [ps[n]] == ps;
    assert PartOf(ps[n], d);
    var i := LastIn(ps, d);
    assert i < n ==> ps[..n][i] == ps[i];
    hide PartOf;
    NextPiece(cap, ps[..n], d, p, ps[n]);
  }

  /** In any arrival order: nothing before the last piece, then the whole datagram. */
  lemma AnyOrder(cap: nat, ps: seq<Piece>, d: seq<byte>, now: Time, k: nat)
    requires Cuts(ps, d) && |d| <= cap && k < |ps|
    ensures OfferAll(cap, NewPending(now), ps[..k]).Waiting?
    ensures OfferAll(cap, NewPending(now), ps) == Complete(d)
  {
    hide OfferAll, Offer, Cuts, Progress;
    SomePieces(cap, ps, d, k, now);
    var n := |ps| - 1;
    SomePieces(cap, ps, d, n, now);
    OfferAllStep(cap, NewPending(now), ps, n + 1);
    assert ps[..n + 1] == ps;
    LastPiece(cap, ps, d, n, OfferAll(cap, NewPending(now), ps[..n]).p);
  }

  /** A datagram in two or more pieces has no piece that looks unfragmented. */
  lemma NeverUnfragmented(ps: seq<Piece>, d: seq<byte>, i: nat)
    requires Cuts(ps, d) && |ps| >= 2 && i < |ps|
    ensures ps[i].off != 0 || ps[i].more
  {
    var j := if i == 0 then 1 else 0;
    assert PartOf(ps[i], d) && PartOf(ps[j], d);
    assert Apart(ps[if i < j then i else j], ps[if i < j then j else i]);
  }
}

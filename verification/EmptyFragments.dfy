/**
 What an empty fragment does to a datagram (src/ip_fragment.rs): the storage key
 of an empty fragment may fall on, inside or between the others, and only some
 offsets leave the datagram as it was.
 */
module EmptyFragments {
  import opened Types
  import opened Fragments
  import opened FragmentTable

  /** The fragment stored under an offset. */
  function Stored(fs: seq<Frag>, off: nat): Option<Frag> {
    if fs == [] then None else if fs[0].off == off then Some(fs[0]) else Stored(fs[1..], off)
  }

  /** The offset lies strictly inside a stored fragment. */
  predicate Inside(fs: seq<Frag>, off: nat) {
    fs != [] && (fs[0].off < off < fs[0].End() || Inside(fs[1..], off))
  }

  lemma {:induction false} HitNothing(fs: seq<Frag>, off: nat)
    ensures Hit(fs, off, off) <==> Inside(fs, off)
  {
    if fs != [] { HitNothing(fs[1..], off); }
  }

  // ----- facts about any list of fragments

  lemma {:induction false} ContiguousCovers(fs: seq<Frag>, at: nat, total: nat, o: nat)
    requires Contiguous(fs, at, total) && at <= o < total
    ensures ByteAt(fs, o).Some?
  {
    if fs != [] && o >= fs[0].End() { ContiguousCovers(fs[1..], fs[0].End(), total, o); }
  }

  lemma {:induction false} ContiguousStored(fs: seq<Frag>, at: nat, total: nat, o: nat)
    requires Contiguous(fs, at, total)
    ensures at <= total && (Stored(fs, o).Some? ==> o <= total)
  {
    if fs != [] { ContiguousStored(fs[1..], fs[0].End(), total, o); }
  }

  lemma {:induction false} PutNone(fs: seq<Frag>, f: Frag, o: nat)
    requires ByteAt(fs, o).None? && !(f.off <= o < f.End())
    ensures ByteAt(Put(fs, f), o).None?
  {
    if fs != [] {
      if f.off < fs[0].off {
        assert ([f] + fs)[1..] == fs;
      } else if f.off == fs[0].off {
        assert ([f] + fs[1..])[1..] == fs[1..];
      } else {
        PutNone(fs[1..], f, o);
        assert ([fs[0]] + Put(fs[1..], f))[1..] == Put(fs[1..], f);
      }
    }
  }

  lemma {:induction false} PutStored(fs: seq<Frag>, f: Frag, o: nat)
    ensures o != f.off ==> Stored(Put(fs, f), o) == Stored(fs, o)
    ensures Stored(Put(fs, f), f.off) == Some(f)
  {
    if fs != [] {
      if f.off < fs[0].off {
        assert ([f] + fs)[1..] == fs;
      } else if f.off == fs[0].off {
        assert ([f] + fs[1..])[1..] == fs[1..];
      } else {
        PutStored(fs[1..], f, o);
        assert ([fs[0]] + Put(fs[1..], f))[1..] == Put(fs[1..], f);
      }
    }
  }

  lemma {:induction false} StoredHit(fs: seq<Frag>, off: nat, a: nat, b: nat)
    requires Stored(fs, off) == Some(Frag(off, [])) && a < off < b
    ensures Hit(fs, a, b)
  {
    if fs[0].off != off { StoredHit(fs[1..], off, a, b); }
  }

  lemma {:induction false} PutPut(fs: seq<Frag>, e: Frag, f: Frag)
    requires e.off == f.off
    ensures Put(Put(fs, e), f) == Put(fs, f)
  {
    if fs != [] {
      if e.off < fs[0].off {
        assert ([e] + fs)[1..] == fs;
      } else if e.off == fs[0].off {
        assert ([e] + fs[1..])[1..] == fs[1..];
      } else {
        PutPut(fs[1..], e, f);
        assert ([fs[0]] + Put(fs[1..], e))[1..] == Put(fs[1..], e);
      }
    }
  }

  // ----- an empty entry in a list of non-empty fragments

  lemma {:induction false} StoredAfter(fs: seq<Frag>, from: nat, off: nat)
    requires Tidy(fs, from)
    ensures Stored(fs, off).Some? ==> off >= from && Stored(fs, off).value.off == off && Stored(fs, off).value.data != []
    ensures Stored(fs, off).Some? || Inside(fs, off) <==> ByteAt(fs, off).Some?
  {
    if fs != [] {
      StoredAfter(fs[1..], fs[0].End(), off);
      if off < fs[0].End() { NothingBefore(fs[1..], fs[0].End(), off); }
    }
  }

  /** It erases the fragment stored at its offset and changes nothing else. */
  lemma {:induction false} EmptyPut(fs: seq<Frag>, from: nat, off: nat, o: nat)
    requires Tidy(fs, from)
    ensures ByteAt(Put(fs, Frag(off, [])), o)
         == if Stored(fs, off).Some? && off <= o < Stored(fs, off).value.End() then None else ByteAt(fs, o)
  {
    if fs != [] {
      StoredAfter(fs[1..], fs[0].End(), off);
      if off < fs[0].off {
        assert ([Frag(off, [])] + fs)[1..] == fs;
      } else if off == fs[0].off {
        assert ([Frag(off, [])] + fs[1..])[1..] == fs[1..];
        if o < fs[0].End() { NothingBefore(fs[1..], fs[0].End(), o); }
      } else {
        EmptyPut(fs[1..], fs[0].End(), off, o);
        assert ([fs[0]] + Put(fs[1..], Frag(off, [])))[1..] == Put(fs[1..], Frag(off, []));
      }
    }
  }

  /** The fragments run on to the empty one exactly when it comes last. */
  lemma {:induction false} EmptyContiguous(fs: seq<Frag>, at: nat, off: nat, total: nat)
    requires Tidy(fs, at) && at <= off && !Inside(fs, off)
    ensures Contiguous(Put(fs, Frag(off, [])), at, total) ==> off == total
    ensures Stored(fs, off).None? ==>
              (Contiguous(Put(fs, Frag(off, [])), at, total) <==> Contiguous(fs, at, total) && off == total)
  {
    var e := Frag(off, []);
    if fs == [] {
      assert Contiguous([e], at, total) <==> at == off && Contiguous([e][1..], off, total);
    } else if off < fs[0].off {
      assert ([e] + fs)[1..] == fs;
      assert !Contiguous(fs, off, total) && !Contiguous(fs, at, total);
    } else if off == fs[0].off {
      assert ([e] + fs[1..])[1..] == fs[1..];
      assert Contiguous([e] + fs[1..], at, total) <==> at == off && Contiguous(fs[1..], off, total);
      assert fs[1..] == [] || fs[1..][0].off > off;
    } else {
      EmptyContiguous(fs[1..], fs[0].End(), off, total);
      assert ([fs[0]] + Put(fs[1..], e))[1..] == Put(fs[1..], e);
    }
  }

  lemma {:induction false} EmptyJoined(fs: seq<Frag>, off: nat)
    requires Stored(fs, off).None?
    ensures Joined(Put(fs, Frag(off, []))) == Joined(fs)
  {
    if fs != [] {
      var e := Frag(off, []);
      if off < fs[0].off {
        assert ([e] + fs)[1..] == fs;
      } else {
        EmptyJoined(fs[1..], off);
        assert ([fs[0]] + Put(fs[1..], e))[1..] == Put(fs[1..], e);
      }
    }
  }

  lemma {:induction false} EmptyHit(fs: seq<Frag>, off: nat, a: nat, b: nat)
    requires Stored(fs, off).None?
    ensures Hit(Put(fs, Frag(off, [])), a, b) <==> Hit(fs, a, b) || a < off < b
  {
    var e := Frag(off, []);
    if fs == [] {
      assert [e][1..] == [];
    } else if off < fs[0].off {
      assert ([e] + fs)[1..] == fs;
    } else {
      EmptyHit(fs[1..], off, a, b);
      assert ([fs[0]] + Put(fs[1..], e))[1..] == Put(fs[1..], e);
    }
  }

  /** Storing two fragments under different offsets commutes. */
  lemma {:induction false} PutSwap(fs: seq<Frag>, from: nat, e: Frag, f: Frag)
    requires Tidy(fs, from) && e.off != f.off
    ensures Put(Put(fs, e), f) == Put(Put(fs, f), e)
  {
    if fs == [] {
      assert [e][1..] == [] && [f][1..] == [];
    } else {
      assert ([e] + fs)[1..] == fs && ([f] + fs)[1..] == fs;
      assert ([e] + fs[1..])[1..] == fs[1..] && ([f] + fs[1..])[1..] == fs[1..];
      var pe, pf := Put(fs[1..], e), Put(fs[1..], f);
      assert ([fs[0]] + pe)[1..] == pe && ([fs[0]] + pf)[1..] == pf;
      if e.off > fs[0].off && f.off > fs[0].off {
        PutSwap(fs[1..], fs[0].End(), e, f);
      }
    }
  }

  // ----- one empty fragment

  /** The byte an offset keeps once an empty fragment is stored at `off`. */
  function Left(fs: seq<Frag>, off: nat, o: nat): Option<byte> {
    if Stored(fs, off).Some? && off <= o < Stored(fs, off).value.End() then None else ByteAt(fs, o)
  }

  /**
   An empty fragment is an overlap, and drops the datagram, exactly when it lies
   strictly inside a stored fragment; it is oversize exactly when it lies past
   the cap; otherwise it erases the fragment stored at its own offset, and
   completes the datagram exactly when what is left ends at that offset.
   */
  lemma EmptyOffer(cap: nat, p: Pending, off: nat, more: bool)
    requires PendingOk(cap, p)
    ensures var v := Offer(cap, p, off, more, []);
            var total := if more then p.total else Some(off);
            var full := total == Some(off) && forall o: nat :: Left(p.frags, off, o).Some? <==> o < off;
            && (v.Overlap? <==> Inside(p.frags, off))
            && (v.Oversize? <==> !Inside(p.frags, off) && off > cap)
            && (v.Complete? <==> !Inside(p.frags, off) && off <= cap && full)
            && (v.Waiting? ==> && v.p == p.(frags := Put(p.frags, Frag(off, [])), total := total)
                               && forall o: nat :: ByteAt(v.p.frags, o) == Left(p.frags, off, o))
  {
    HitNothing(p.frags, off);
    var e := Frag(off, []);
    var gs := Put(p.frags, e);
    forall o: nat ensures ByteAt(gs, o) == Left(p.frags, off, o) { EmptyPut(p.frags, 0, off, o); }
    var total := if more then p.total else Some(off);
    if !Inside(p.frags, off) && total.Some? {
      EmptyContiguous(p.frags, 0, off, total.value);
      if Contiguous(gs, 0, total.value) {
        EmptyFull(p.frags, off);
      } else if total == Some(off) && forall o: nat :: Left(p.frags, off, o).Some? <==> o < off {
        FullEmpty(p.frags, off);
      }
    }
    hide Hit, Put, Contiguous, Joined, Tidy, Inside, Left, SumLen;
  }

  lemma EmptyFull(fs: seq<Frag>, off: nat)
    requires Tidy(fs, 0) && !Inside(fs, off) && Contiguous(Put(fs, Frag(off, [])), 0, off)
    ensures forall o: nat :: Left(fs, off, o).Some? <==> o < off
  {
    var gs := Put(fs, Frag(off, []));
    forall o: nat ensures Left(fs, off, o).Some? <==> o < off {
      EmptyPut(fs, 0, off, o);
      if o < off { ContiguousCovers(gs, 0, off, o); } else { NothingPast(gs, 0, off, o); }
    }
  }

  lemma {:induction false} NothingPast(fs: seq<Frag>, at: nat, total: nat, o: nat)
    requires Contiguous(fs, at, total) && o >= total
    ensures at <= total && ByteAt(fs, o).None?
  {
    if fs != [] { NothingPast(fs[1..], fs[0].End(), total, o); }
  }

  lemma FullEmpty(fs: seq<Frag>, off: nat)
    requires Tidy(fs, 0) && !Inside(fs, off) && forall o: nat :: Left(fs, off, o).Some? <==> o < off
    ensures Contiguous(Put(fs, Frag(off, [])), 0, off)
  {
    var hs := Without(fs, off);
    WithoutIs(fs, 0, off);
    forall o: nat ensures ByteAt(hs, o).Some? <==> 0 <= o < off {
      WithoutAt(fs, 0, off, o);
      assert Left(fs, off, o).Some? <==> o < off;
    }
    SpansContiguous(hs, 0, off);
    EmptyContiguous(hs, 0, off, off);
  }

  /** The list without the fragment stored at `off`. */
  function Without(fs: seq<Frag>, off: nat): seq<Frag> {
    if fs == [] then [] else if fs[0].off == off then fs[1..] else [fs[0]] + Without(fs[1..], off)
  }

  lemma {:induction false} WithoutIs(fs: seq<Frag>, from: nat, off: nat)
    requires Tidy(fs, from) && !Inside(fs, off)
    ensures Tidy(Without(fs, off), from) && !Inside(Without(fs, off), off) && Stored(Without(fs, off), off).None?
    ensures Put(Without(fs, off), Frag(off, [])) == Put(fs, Frag(off, []))
  {
    if fs != [] {
      if fs[0].off == off {
        StoredAfter(fs[1..], fs[0].End(), off);
        TidyLower(fs[1..], fs[0].End(), from);
        if fs[1..] != [] { assert fs[1..][0].off > off; }
      } else {
        WithoutIs(fs[1..], fs[0].End(), off);
        var w := Without(fs[1..], off);
        assert ([fs[0]] + w)[1..] == w;
        if off < fs[0].off {
          StoredAfter(fs[1..], fs[0].End(), off);
          WithoutAbsent(fs[1..], off);
        }
      }
    }
  }

  lemma TidyLower(fs: seq<Frag>, a: nat, b: nat)
    requires Tidy(fs, a) && b <= a
    ensures Tidy(fs, b)
  {
  }

  lemma {:induction false} WithoutAbsent(fs: seq<Frag>, off: nat)
    requires Stored(fs, off).None?
    ensures Without(fs, off) == fs
  {
    if fs != [] { WithoutAbsent(fs[1..], off); }
  }

  lemma {:induction false} WithoutAt(fs: seq<Frag>, from: nat, off: nat, o: nat)
    requires Tidy(fs, from)
    ensures ByteAt(Without(fs, off), o) == Left(fs, off, o)
  {
    if fs != [] {
      StoredAfter(fs[1..], fs[0].End(), off);
      if fs[0].off == off {
        if o < fs[0].End() { NothingBefore(fs[1..], fs[0].End(), o); }
      } else {
        WithoutAt(fs[1..], fs[0].End(), off, o);
        var w := Without(fs[1..], off);
        assert ([fs[0]] + w)[1..] == w;
      }
    }
  }

  // ----- and then the rest of the datagram

  /** Offering more pieces while the datagram waits. */
  function OfferRest(cap: nat, v: Verdict, ps: seq<Piece>): Verdict
    decreases |ps|
  {
    if ps == [] || !v.Waiting? then v else OfferRest(cap, Offer(cap, v.p, ps[0].off, ps[0].more, ps[0].data), ps[1..])
  }

  /** An empty entry where no piece to come starts: it never becomes part of a datagram of `n` bytes. */
  predicate Stuck(fs: seq<Frag>, off: nat, n: nat) {
    Stored(fs, off) == Some(Frag(off, [])) && off != n && (off < n ==> ByteAt(fs, off).None?)
  }

  lemma StuckNever(fs: seq<Frag>, off: nat, n: nat)
    requires Stuck(fs, off, n)
    ensures !Contiguous(fs, 0, n)
  {
    if Contiguous(fs, 0, n) {
      ContiguousStored(fs, 0, n, off);
      if off < n { ContiguousCovers(fs, 0, n, off); }
    }
  }

  lemma StuckStep(cap: nat, p: Pending, off: nat, d: seq<byte>, x: Piece)
    requires Stuck(p.frags, off, |d|) && !p.poisoned && (p.total.Some? ==> p.total.value == |d|) && PartOf(x, d) && x.off != off
    ensures var v := Offer(cap, p, x.off, x.more, x.data);
            && !v.Complete?
            && (v.Waiting? ==> Stuck(v.p.frags, off, |d|) && !v.p.poisoned && (v.p.total.Some? ==> v.p.total.value == |d|))
  {
    var f := Frag(x.off, x.data);
    if x.off < off < f.End() {
      StoredHit(p.frags, off, x.off, f.End());
    } else {
      PutStored(p.frags, f, off);
      if off < |d| { PutNone(p.frags, f, off); }
      StuckNever(Put(p.frags, f), off, |d|);
    }
  }

  lemma {:induction false} StuckRest(cap: nat, p: Pending, off: nat, d: seq<byte>, ps: seq<Piece>)
    requires Stuck(p.frags, off, |d|) && !p.poisoned && (p.total.Some? ==> p.total.value == |d|)
    requires forall i :: 0 <= i < |ps| ==> PartOf(ps[i], d) && ps[i].off != off
    ensures !OfferRest(cap, Waiting(p), ps).Complete?
    decreases |ps|
  {
    hide Offer, Stuck, PartOf;
    if ps != [] {
      StuckStep(cap, p, off, d, ps[0]);
      var v := Offer(cap, p, ps[0].off, ps[0].more, ps[0].data);
      if v.Waiting? { StuckRest(cap, v.p, off, d, ps[1..]); }
    }
  }

  /** A pending datagram with an empty entry added. */
  function Marked(p: Pending, off: nat): Pending { p.(frags := Put(p.frags, Frag(off, []))) }

  /** A piece that starts at the empty entry replaces it. */
  lemma MarkReplaced(cap: nat, p: Pending, off: nat, x: Piece)
    requires Stored(p.frags, off).None? && x.off == off
    ensures Offer(cap, Marked(p, off), x.off, x.more, x.data) == Offer(cap, p, x.off, x.more, x.data)
            || (p.poisoned && Offer(cap, Marked(p, off), x.off, x.more, x.data) == Waiting(Marked(p, off)))
  {
    EmptyHit(p.frags, off, x.off, x.off + |x.data|);
    PutPut(p.frags, Frag(off, []), Frag(x.off, x.data));
  }

  /** A piece elsewhere leaves the empty entry alone, and completes only a datagram that ends there. */
  lemma MarkStays(cap: nat, p: Pending, off: nat, x: Piece)
    requires PendingOk(cap, p) && x.data != [] && ByteAt(p.frags, off).None? && !(x.off <= off < x.off + |x.data|)
    ensures var v := Offer(cap, p, x.off, x.more, x.data);
            var w := Offer(cap, Marked(p, off), x.off, x.more, x.data);
            && (v.Waiting? ==> w == Waiting(Marked(v.p, off)))
            && (v.Complete? && off == |v.datagram| ==> w == v)
  {
    hide Hit, Put, Contiguous, Joined, Tidy, ByteAt, SumLen, Stored, Inside;
    var fs, f := p.frags, Frag(x.off, x.data);
    StoredAfter(fs, 0, off);
    EmptyHit(fs, off, x.off, f.End());
    if !Hit(fs, x.off, f.End()) {
      var gs := Put(fs, f);
      PutTidy(fs, 0, f);
      PutAt(fs, 0, f, off);
      StoredAfter(gs, 0, off);
      PutSwap(fs, 0, Frag(off, []), f);
      EmptyJoined(gs, off);
      var total := if x.more then p.total else Some(f.End());
      if total.Some? {
        EmptyContiguous(gs, 0, off, total.value);
        if Contiguous(gs, 0, total.value) { JoinedAt(gs, 0, total.value, 0); }
      }
    }
  }

  /** The offsets at which an empty fragment does no harm: the end, or where a piece still to come starts. */
  ghost predicate Harmless(ps: seq<Piece>, d: seq<byte>, off: nat) {
    off == |d| || exists j :: 0 <= j < |ps| && ps[j].off == off
  }

  /** From a state reached with some pieces of `d`, the others complete it. */
  lemma {:induction false} CleanRest(cap: nat, ps: seq<Piece>, d: seq<byte>, k: nat, p: Pending)
    requires Cuts(ps, d) && |d| <= cap && k < |ps| && Progress(cap, ps[..k], d, p)
    ensures OfferRest(cap, Waiting(p), ps[k..]) == Complete(d)
    decreases |ps| - k
  {
    hide Offer, Cuts, Progress;
    StepTo(cap, ps, d, k, p);
    assert ps[k..][0] == ps[k] && ps[k..][1..] == ps[k + 1..];
    if k + 1 < |ps| {
      CleanRest(cap, ps, d, k + 1, Offer(cap, p, ps[k].off, ps[k].more, ps[k].data).p);
    }
  }

  /** One more piece of the cut: still waiting, or complete if it is the last. */
  lemma StepTo(cap: nat, ps: seq<Piece>, d: seq<byte>, k: nat, p: Pending)
    requires Cuts(ps, d) && |d| <= cap && k < |ps| && Progress(cap, ps[..k], d, p)
    ensures var v := Offer(cap, p, ps[k].off, ps[k].more, ps[k].data);
            && (k + 1 < |ps| ==> v.Waiting? && Progress(cap, ps[..k + 1], d, v.p))
            && (k + 1 == |ps| ==> v == Complete(d))
  {
    hide Offer, Progress, InSome;
    assert PartOf(ps[k], d);
    assert ps[..k] + [ps[k]] == ps[..k + 1];
    NextPiece(cap, ps[..k], d, p, ps[k]);
    if k + 1 < |ps| {
      Unfilled(ps, d, k + 1);
    } else {
      LastPiece(cap, ps, d, k, p);
    }
  }

  lemma {:induction false} HarmlessRest(cap: nat, ps: seq<Piece>, d: seq<byte>, k: nat, p: Pending, off: nat)
    requires Cuts(ps, d) && |d| <= cap && k < |ps| && Progress(cap, ps[..k], d, p) && Harmless(ps[k..], d, off)
    ensures OfferRest(cap, Waiting(Marked(p, off)), ps[k..]) == Complete(d)
    decreases |ps| - k
  {
    NotYet(cap, ps, d, k, p, off);
    assert p.poisoned == false && PendingOk(cap, p) && PartOf(ps[k], d);
    StoredAfter(p.frags, 0, off);
    hide Offer, Cuts, Progress, PendingOk, PartOf, Stored, Put;
    var x := ps[k];
    StepTo(cap, ps, d, k, p);
    assert ps[k..][0] == x && ps[k..][1..] == ps[k + 1..];
    var v := Offer(cap, p, x.off, x.more, x.data);
    if x.off == off {
      MarkReplaced(cap, p, off, x);
      if k + 1 < |ps| { CleanRest(cap, ps, d, k + 1, v.p); }
    } else {
      Elsewhere(ps, d, k, off);
      MarkStays(cap, p, off, x);
      if k + 1 < |ps| { HarmlessRest(cap, ps, d, k + 1, v.p, off); }
    }
  }

  /** A harmless offset is not stored yet. */
  lemma NotYet(cap: nat, ps: seq<Piece>, d: seq<byte>, k: nat, p: Pending, off: nat)
    requires Cuts(ps, d) && k < |ps| && Progress(cap, ps[..k], d, p) && Harmless(ps[k..], d, off)
    ensures ByteAt(p.frags, off).None?
  {
    if off != |d| {
      var j :| 0 <= j < |ps[k..]| && ps[k..][j].off == off;
      assert ps[k + j].off == off;
      Unfilled(ps, d, k + j);
      MoreCovers(ps, k, k + j, off);
    }
  }

  lemma MoreCovers(ps: seq<Piece>, k: nat, m: nat, o: nat)
    requires k <= m <= |ps|
    ensures InSome(ps[..k], o) ==> InSome(ps[..m], o)
  {
    if InSome(ps[..k], o) {
      var i :| 0 <= i < k && InPiece(ps[..k][i], o);
      assert ps[..m][i] == ps[..k][i];
    }
  }

  /** A piece that does not start at a harmless offset does not cover it, which stays harmless. */
  lemma Elsewhere(ps: seq<Piece>, d: seq<byte>, k: nat, off: nat)
    requires Cuts(ps, d) && k < |ps| && Harmless(ps[k..], d, off) && ps[k].off != off
    ensures !InPiece(ps[k], off) && Harmless(ps[k + 1..], d, off)
    ensures k + 1 == |ps| ==> off == |d|
  {
    assert PartOf(ps[k], d);
    if off != |d| {
      var j :| 0 <= j < |ps[k..]| && ps[k..][j].off == off;
      assert j > 0 && ps[k + 1..][j - 1] == ps[k + j];
      assert Apart(ps[k], ps[k + j]) && PartOf(ps[k + j], d);
    }
  }

  /**
   After some pieces of a datagram, an empty fragment at `off` (with MF set, or
   clear at the very end), then the other pieces in any order: the datagram is
   delivered if and only if `off` is its end or the start of a piece to come.
   */
  lemma EmptyThenRest(cap: nat, ps: seq<Piece>, d: seq<byte>, k: nat, off: nat, more: bool, now: Time)
    requires Cuts(ps, d) && |d| <= cap && k < |ps| && (more || off == |d|)
    ensures OfferAll(cap, NewPending(now), ps[..k]).Waiting?
    ensures var p := OfferAll(cap, NewPending(now), ps[..k]).p;
            OfferRest(cap, Offer(cap, p, off, more, []), ps[k..]) == Complete(d) <==> Harmless(ps[k..], d, off)
  {
    SomePieces(cap, ps, d, k, now);
    var p := OfferAll(cap, NewPending(now), ps[..k]).p;
    EmptyOffer(cap, p, off, more);
    hide OfferAll, Offer;
    var v := Offer(cap, p, off, more, []);
    if Harmless(ps[k..], d, off) {
      HarmlessThen(cap, ps, d, k, p, off, more);
    } else if v.Waiting? {
      HarmfulThen(cap, ps, d, k, p, off);
    }
  }

  lemma HarmlessThen(cap: nat, ps: seq<Piece>, d: seq<byte>, k: nat, p: Pending, off: nat, more: bool)
    requires Cuts(ps, d) && |d| <= cap && k < |ps| && (more || off == |d|)
    requires Progress(cap, ps[..k], d, p) && Harmless(ps[k..], d, off)
    ensures OfferRest(cap, Offer(cap, p, off, more, []), ps[k..]) == Complete(d)
  {
    var total := if more then p.total else Some(off);
    var q := p.(total := total);
    assert Progress(cap, ps[..k], d, q);
    NotYet(cap, ps, d, k, p, off);
    StoredAfter(p.frags, 0, off);
    assert off <= |d| by {
      if off != |d| {
        var j :| 0 <= j < |ps[k..]| && ps[k..][j].off == off;
        assert PartOf(ps[k + j], d);
      }
    }
    EmptyOffer(cap, p, off, more);
    assert !Offer(cap, p, off, more, []).Complete? by {
      Unfilled(ps, d, k);
      assert ByteAt(p.frags, ps[k].off).None?;
      if off == |d| { assert Left(p.frags, off, ps[k].off).None?; }
    }
    HarmlessRest(cap, ps, d, k, q, off);
    hide Offer, OfferRest;
  }

  lemma HarmfulThen(cap: nat, ps: seq<Piece>, d: seq<byte>, k: nat, p: Pending, off: nat)
    requires Cuts(ps, d) && k < |ps| && Progress(cap, ps[..k], d, p) && !Harmless(ps[k..], d, off)
    requires Offer(cap, p, off, true, []).Waiting?
    ensures !OfferRest(cap, Offer(cap, p, off, true, []), ps[k..]).Complete?
  {
    EmptyOffer(cap, p, off, true);
    var q := Offer(cap, p, off, true, []).p;
    PutStored(p.frags, Frag(off, []), off);
    StoredAfter(p.frags, 0, off);
    forall i | 0 <= i < |ps[k..]| ensures PartOf(ps[k..][i], d) && ps[k..][i].off != off {
      assert PartOf(ps[k + i], d);
    }
    assert Left(p.frags, off, off).None?;
    hide Offer;
    StuckRest(cap, q, off, d, ps[k..]);
  }

  // ----- what goes wrong, push by push

  /** A fragment of datagram `key` at time 0. */
  function At<K>(key: K, off: nat, more: bool, data: seq<byte>): FragmentTable.Arrival<K> {
    FragmentTable.Arrival(key, off, more, data, 0, key)
  }

  lemma Pushed<K>(limits: FragmentTable.Limits, t: FragmentTable.Table<K>, key: K, off: nat, more: bool, data: seq<byte>)
    requires (off != 0 || more) && (key in t.pending ==> t.pending[key].firstSeen == 0)
    ensures var (u, out) := Push(limits, t, At(key, off, more, data));
            var v := Offer(limits.maxBytes, EntryOf(t, key, 0), off, more, data);
            && Held(u, key) == (if v.Waiting? then Some(v.p) else None) && (key in u.pending ==> u.pending[key].firstSeen == 0)
            && out == (if v.Complete? then Some(v.datagram) else None)
  {
    var a := At(key, off, more, data);
    assert Spares(limits, t, a, key);
    PushHeld(limits, t, a, key);
    KeepsFirst(limits.maxBytes, EntryOf(t, key, 0), off, more, data);
    hide Push, Offer;
  }

  lemma KeepsFirst(cap: nat, p: Pending, off: nat, more: bool, payload: seq<byte>)
    ensures var v := Offer(cap, p, off, more, payload); v.Waiting? ==> v.p.firstSeen == p.firstSeen
  {
  }

  /** A datagram of which `[a, b]` came first. */
  function Begun(a: byte, b: byte): Pending { Pending([Frag(0, [a, b])], None, 2, 0, false) }

  lemma Offers(cap: nat, a: byte, b: byte, c: byte)
    requires cap >= 5
    ensures Offer(cap, NewPending(0), 0, true, [a, b]) == Waiting(Begun(a, b))
    ensures Offer(cap, Begun(a, b), 2, false, [c]) == Complete([a, b, c])
    ensures Offer(cap, Begun(a, b), 1, true, []) == Overlap
    ensures !Offer(cap, NewPending(0), 2, false, [c]).Complete?
  {
    var fs := [Frag(0, [a, b])];
    assert fs[1..] == [];
    var both := [Frag(0, [a, b]), Frag(2, [c])];
    assert both[1..] == [Frag(2, [c])] && both[1..][1..] == [];
    assert Put([], Frag(2, [c])) == [Frag(2, [c])] && Put(fs, Frag(2, [c])) == both;
    assert Joined(both[1..]) == [c] + Joined([]) == [c];
    assert Joined(both) == [a, b] + [c] == [a, b, c];
    assert Contiguous(both[1..][1..], 3, 3);
    assert Contiguous(both[1..], 2, 3);
    assert Contiguous(both, 0, 3) && !Hit(fs, 2, 3);
    assert [Frag(2, [c])][1..] == [];
  }

  /** Where an empty fragment leaves nothing to complete: at the stored start, and past the end. */
  lemma OffersAfterEmpty(cap: nat, a: byte, b: byte, c: byte, off: nat)
    requires cap >= 5 && (off == 0 || off == 5)
    ensures var v := Offer(cap, Begun(a, b), off, true, []);
            v.Waiting? && !Offer(cap, v.p, 2, false, [c]).Complete?
  {
    var fs := [Frag(0, [a, b])];
    assert fs[1..] == [];
    assert SumLen(fs) == |[a, b]| + SumLen(fs[1..]) == 2;
    assert PendingOk(cap, Begun(a, b));
    EmptyOffer(cap, Begun(a, b), off, true);
    var p := Offer(cap, Begun(a, b), off, true, []).p;
    PutStored(fs, Frag(off, []), off);
    assert Left(fs, 0, 0).None?;
    StuckStep(cap, p, off, [a, b, c], Piece(2, false, [c]));
  }

  /**
   Two pushes deliver a datagram. With an empty fragment pushed between them at
   the start of the first, or past the end, the same last push delivers nothing;
   with one strictly inside the first, what was stored is dropped.
   */
  lemma EmptyLoses<K>(limits: FragmentTable.Limits, key: K, a: byte, b: byte, c: byte)
    requires limits.maxBytes >= 5
    ensures var t := Push(limits, EmptyTable<K>(), At(key, 0, true, [a, b])).0;
            var last := At(key, 2, false, [c]);
            && Push(limits, t, last).1 == Some([a, b, c])
            && Push(limits, Push(limits, t, At(key, 0, true, [])).0, last).1 == None
            && Push(limits, Push(limits, t, At(key, 5, true, [])).0, last).1 == None
            && key !in Push(limits, t, At(key, 1, true, [])).0.pending
            && Push(limits, Push(limits, t, At(key, 1, true, [])).0, last).1 == None
  {
    hide Push, Offer, At;
    Offers(limits.maxBytes, a, b, c);
    OffersAfterEmpty(limits.maxBytes, a, b, c, 0);
    OffersAfterEmpty(limits.maxBytes, a, b, c, 5);
    Pushed(limits, EmptyTable<K>(), key, 0, true, [a, b]);
    var t := Push(limits, EmptyTable<K>(), At(key, 0, true, [a, b])).0;
    Pushed(limits, t, key, 2, false, [c]);
    Pushed(limits, t, key, 0, true, []);
    Pushed(limits, t, key, 5, true, []);
    Pushed(limits, t, key, 1, true, []);
    Pushed(limits, Push(limits, t, At(key, 0, true, [])).0, key, 2, false, [c]);
    Pushed(limits, Push(limits, t, At(key, 5, true, [])).0, key, 2, false, [c]);
    Pushed(limits, Push(limits, t, At(key, 1, true, [])).0, key, 2, false, [c]);
  }
}

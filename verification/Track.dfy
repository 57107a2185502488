/**
 `Track` (src/reassembler.rs): the stream position, the mapping between 32-bit
 sequence numbers and stream offsets, acknowledgement and FIN evidence, the
 held out-of-window candidate and the recently skipped holes.
 */
module Tracking {
  import opened Types

  const SKIPPED_HISTORY: nat := 8

  /** A segment held back, with the cut bytes that follow it. */
  datatype Candidate = Candidate(off: nat, data: seq<byte>, ts: Time, missing: nat) {
    function End(): nat { off + |data| + missing }
  }

  /**
   The state of a stream position as a value: the sequence number of offset 0
   instead of the moving `next_seq`, and the list of the last eight skips
   instead of a ring.
   */
  datatype TrackView = TrackView(
    origin: Option<u32>,
    next: nat,
    evidence: nat,
    since: Option<Time>,
    fin: Option<nat>,
    stray: Option<Candidate>,
    skips: seq<(nat, nat)>,
    progress: Time,
    outOfWindow: nat,
    resets: nat)

  // ----- sequence numbers and offsets (section 3.3 of RFC 793)

  /** From offsets back to sequence numbers. */
  function SeqAt(origin: u32, off: int): u32 { (origin + off) % TWO_32 }

  /** The signed 32-bit reading of a difference of sequence numbers. */
  function Signed32(d: int): (r: int)
    ensures -TWO_31 <= r < TWO_31
    ensures (r - d) % TWO_32 == 0
  {
    var u := d % TWO_32;
    if u < TWO_31 then u else u - TWO_32
  }

  /** The offset that carries sequence number `seq`, nearest to the position. */
  function OffsetOf(v: TrackView, seq_: u32): int
    requires v.origin.Some?
  {
    v.next + Signed32(seq_ - SeqAt(v.origin.value, v.next))
  }

  lemma ModSame(a: int, b: int)
    ensures (a - b) % TWO_32 == 0 <==> a % TWO_32 == b % TWO_32
  {
  }

  /** The offset found really has the sequence number asked for, within half the space. */
  lemma OffsetOfSound(v: TrackView, seq_: u32)
    requires v.origin.Some?
    ensures SeqAt(v.origin.value, OffsetOf(v, seq_)) == seq_
    ensures v.next - TWO_31 <= OffsetOf(v, seq_) < v.next + TWO_31
  {
    var o := v.origin.value;
    SeqBack(o, v.next, seq_, Signed32(seq_ - SeqAt(o, v.next)));
    hide Signed32, SeqAt;
  }

  /** A distance congruent to the difference of two sequence numbers leads from one to the other. */
  lemma SeqBack(o: u32, n: nat, seq_: u32, r: int)
    requires (r - (seq_ - SeqAt(o, n))) % TWO_32 == 0
    ensures SeqAt(o, n + r) == seq_
  {
    var a, b := (o + n) / TWO_32, (r - (seq_ - SeqAt(o, n))) / TWO_32;
    assert o + n + r == (a + b) * TWO_32 + seq_;
    Residue(o + n + r, a + b, seq_);
  }

  lemma Residue(x: int, q: int, s: int)
    requires x == q * TWO_32 + s && 0 <= s < TWO_32
    ensures x % TWO_32 == s
  {
  }

  /** It is the only offset of that half window with the sequence number. */
  lemma OffsetOfUnique(v: TrackView, off: int)
    requires v.origin.Some?
    requires v.next - TWO_31 <= off < v.next + TWO_31
    ensures OffsetOf(v, SeqAt(v.origin.value, off)) == off
  {
    OffsetOfSound(v, SeqAt(v.origin.value, off));
    ModSame(off + v.origin.value, OffsetOf(v, SeqAt(v.origin.value, off)) + v.origin.value);
  }

  /** A sequence number keeps its offset while the stream advances inside the half window. */
  lemma OffsetOfStable(v: TrackView, w: TrackView, seq_: u32)
    requires v.origin.Some? && v.origin == w.origin
    requires w.next - TWO_31 <= OffsetOf(v, seq_) < w.next + TWO_31
    ensures OffsetOf(w, seq_) == OffsetOf(v, seq_)
  {
    OffsetOfSound(v, seq_);
    OffsetOfUnique(w, OffsetOf(v, seq_));
  }

  // ----- what each operation does to the value

  function Anchor(v: TrackView, seq_: u32, ts: Time): TrackView {
    if v.origin.Some? then v else v.(origin := Some((seq_ - v.next) % TWO_32), progress := ts)
  }

  function AdvanceTo(v: TrackView, off: nat, ts: Time): TrackView {
    if off <= v.next then v
    else v.(next := off, progress := Max(v.progress, ts), since := if v.evidence <= off then None else v.since)
  }

  function LastSkips(s: seq<(nat, nat)>): seq<(nat, nat)> {
    if |s| <= SKIPPED_HISTORY then s else s[|s| - SKIPPED_HISTORY..]
  }

  function RecordSkip(v: TrackView, from: nat, to: nat): TrackView {
    v.(skips := LastSkips(v.skips + [(from, to)]))
  }

  /** `[start, end)` meets one of the remembered holes. */
  predicate InSkipped(v: TrackView, start: int, end: int) {
    exists i :: 0 <= i < |v.skips| && start < v.skips[i].1 && v.skips[i].0 < end
  }

  predicate Near(a: int, b: int, d: nat) { a - b <= d && b - a <= d }

  /** Use the held candidate after all. */
  function TakeStray(v: TrackView): TrackView {
    v.(stray := None, outOfWindow := if v.outOfWindow == 0 then 0 else v.outOfWindow - 1, resets := v.resets + 1)
  }

  function Hold(v: TrackView, off: nat, data: seq<byte>, ts: Time): TrackView {
    v.(stray := Some(Candidate(off, data, ts, 0)), outOfWindow := v.outOfWindow + 1)
  }

  predicate Corroborated(v: TrackView, off: int, maxAhead: nat) {
    v.stray.Some? && Near(off, v.stray.value.off, maxAhead)
  }

  function FarAhead(v: TrackView, off: nat, data: seq<byte>, ts: Time, maxAhead: nat): (TrackView, Option<Candidate>) {
    if Corroborated(v, off, maxAhead) then (TakeStray(v), v.stray) else (Hold(v, off, data, ts), None)
  }

  predicate Continues(v: TrackView, start: nat, ts: Time) {
    v.stray.Some? && v.stray.value.ts == ts && v.stray.value.End() == start
  }

  function ExtendStray(v: TrackView, start: nat, len: nat, ts: Time): TrackView {
    if Continues(v, start, ts) then v.(stray := Some(v.stray.value.(missing := v.stray.value.missing + len))) else v
  }

  function FarMissing(v: TrackView, start: nat, len: nat, ts: Time, maxAhead: nat): (TrackView, Option<Candidate>) {
    if Continues(v, start, ts) then (ExtendStray(v, start, len, ts), None)
    else
      var (w, c) := FarAhead(v, start, [], ts, maxAhead);
      if c.Some? then (w, c) else (ExtendStray(w, start, len, ts), None)
  }

  /** The peer or the capture vouched for bytes up to `off`. */
  function Prove(v: TrackView, off: nat, ts: Time, maxAhead: nat): (TrackView, Option<Candidate>) {
    if off <= v.next then (v, None)
    else if off - v.next > maxAhead then
      if v.stray.Some? && off >= v.stray.value.off then (TakeStray(v), v.stray) else (v, None)
    else
      var e := Max(v.evidence, off);
      (v.(evidence := e, since := if v.since.Some? then v.since else Some(ts)), None)
  }

  function Evidence(v: TrackView, seq_: u32, ts: Time, maxAhead: nat): (TrackView, Option<Candidate>) {
    if v.origin.None? then (v, None)
    else
      var off := OffsetOf(v, seq_);
      if off <= v.next then (v, None)
      else Prove(v, if v.fin.Some? then Min(off, v.fin.value) else off, ts, maxAhead)
  }

  function Fin(v: TrackView, seq_: u32, ts: Time, maxAhead: nat): (TrackView, Option<Candidate>) {
    if v.origin.None? then (v, None)
    else
      var off := OffsetOf(v, seq_);
      if off < v.next then (v, None)
      else Evidence(v.(fin := Some(off), evidence := Min(v.evidence, off)), seq_, ts, maxAhead)
  }

  /** Evidence moves neither position nor anchor, and keeps the candidate or hands it over. */
  lemma EvidenceKeeps(v: TrackView, seq_: u32, ts: Time, maxAhead: nat)
    ensures Handed(v, Evidence(v, seq_, ts, maxAhead)) && Handed(v, Fin(v, seq_, ts, maxAhead))
  {
    hide OffsetOf;
  }

  predicate Handed(v: TrackView, e: (TrackView, Option<Candidate>)) {
    && e.0.next == v.next && e.0.origin == v.origin
    && (if e.1.Some? then e.1 == v.stray && e.0.stray.None? && v.origin.Some? else e.0.stray == v.stray)
  }

  function EvidenceDue(v: TrackView, now: Time, grace: Time): Option<nat> {
    if v.since.Some? && v.evidence > v.next && Since(now, v.since.value) >= grace then Some(v.evidence) else None
  }

  function Frontier(v: TrackView): Option<nat> {
    if v.evidence > v.next then Some(v.evidence) else None
  }

  function DropStray(v: TrackView): TrackView { v.(stray := None) }

  predicate StrayExpired(v: TrackView, now: Time, maxAge: Time) {
    v.stray.Some? && Since(now, v.stray.value.ts) > maxAge
  }

  function ExpireStray(v: TrackView, now: Time, maxAge: Time): TrackView {
    if StrayExpired(v, now, maxAge) then DropStray(v) else v
  }

  /** A held candidate was counted, so un-counting it never underflows. */
  predicate Counted(v: TrackView) { v.stray.Some? ==> v.outOfWindow >= 1 }

  // ----- stray discipline

  /**
   With nothing held, a far segment followed by the cut tail of its own packet
   is one candidate and one count; the tail is no evidence for it.
   */
  lemma OwnTailIsNoEvidence(v: TrackView, off: nat, data: seq<byte>, len: nat, ts: Time, maxAhead: nat)
    requires v.stray.None?
    ensures var (w, c) := FarAhead(v, off, data, ts, maxAhead);
            var (x, d) := FarMissing(w, off + |data|, len, ts, maxAhead);
            c.None? && d.None? && x.outOfWindow == v.outOfWindow + 1 && x.resets == v.resets
            && x.stray == Some(Candidate(off, data, ts, len))
  {
  }

  /** Every operation keeps the count above the held candidate, and never moves the position back. */
  lemma StrayAccounting(v: TrackView, seq_: u32, off: nat, data: seq<byte>, len: nat, ts: Time, maxAhead: nat)
    requires Counted(v)
    ensures Counted(FarAhead(v, off, data, ts, maxAhead).0)
    ensures Counted(FarMissing(v, off, len, ts, maxAhead).0)
    ensures Counted(Evidence(v, seq_, ts, maxAhead).0)
    ensures Counted(Fin(v, seq_, ts, maxAhead).0)
    ensures Corroborated(v, off, maxAhead) ==> TakeStray(v).outOfWindow + 1 == v.outOfWindow
  {
  }

  // ----- the class

  class Track {
    var anchored: bool
    var nextSeq: u32
    var nextOff: nat
    var evidence: nat
    var evidenceSince: Option<Time>
    var finOff: Option<nat>
    var oow: Option<Candidate>
    var skipped: seq<(nat, nat)>
    var skippedLen: nat
    var skippedHead: nat
    var lastProgress: Time
    var outOfWindow: nat
    var originResets: nat
    /** The sequence number of offset 0, once anchored. */
    ghost var origin: u32

    ghost predicate Valid()
      reads this
    {
      && |skipped| == SKIPPED_HISTORY
      && skippedLen <= SKIPPED_HISTORY && skippedHead < SKIPPED_HISTORY
      && (skippedLen < SKIPPED_HISTORY ==> skippedHead == 0)
      && (anchored ==> nextSeq == SeqAt(origin, nextOff))
      && (oow.Some? ==> outOfWindow >= 1)
    }

    ghost function View(): TrackView
      requires Valid()
      reads this
    {
      TrackView(if anchored then Some(origin) else None, nextOff, evidence, evidenceSince, finOff, oow,
                Ring(skipped, skippedHead, skippedLen), lastProgress, outOfWindow, originResets)
    }

    constructor ()
      ensures Valid()
      ensures View() == TrackView(None, 0, 0, None, None, None, [], 0, 0, 0)
    {
      anchored, nextSeq, nextOff, evidence, evidenceSince, finOff := false, 0, 0, 0, None, None;
      oow, skipped, skippedLen, skippedHead := None, seq(SKIPPED_HISTORY, _ => (0, 0)), 0, 0;
      lastProgress, outOfWindow, originResets, origin := 0, 0, 0, 0;
    }

    /** Offset 0 is fixed once and never moves. */
    method DoAnchor(seq_: u32, ts: Time)
      requires Valid()
      modifies this
      ensures Valid() && View() == Anchor(old(View()), seq_, ts) && anchored
    {
      if !anchored {
        anchored := true;
        nextSeq := seq_;
        lastProgress := ts;
        origin := (seq_ - nextOff) % TWO_32;
        ModSame(origin + nextOff, seq_);
      }
    }

    /** Inverse of `OffOf` on the stream's half window. */
    function SeqOf(off: nat): (r: u32)
      requires Valid() && anchored
      reads this
      ensures r == SeqAt(origin, off)
    {
      ModSame(nextSeq + (off - nextOff), origin + off);
      (nextSeq + (off - nextOff)) % TWO_32
    }

    /** The offset congruent to `seq_` nearest the position. */
    function OffOf(seq_: u32): (r: int)
      requires Valid() && anchored
      reads this
      ensures r == OffsetOf(View(), seq_)
    {
      nextOff + Signed32((seq_ - nextSeq) % TWO_32)
    }

    method DoAdvanceTo(off: nat, ts: Time)
      requires Valid()
      modifies this
      ensures Valid() && View() == AdvanceTo(old(View()), off, ts)
    {
      if off <= nextOff {
        return;
      }
      var delta := off - nextOff;
      ModSame(nextSeq + delta, origin + off);
      nextOff := off;
      nextSeq := (nextSeq + delta) % TWO_32;
      lastProgress := Max(lastProgress, ts);
      if evidence <= nextOff {
        evidenceSince := None;
      }
    }

    method DoRecordSkip(from: nat, to: nat)
      requires Valid()
      modifies this
      ensures Valid() && View() == RecordSkip(old(View()), from, to)
    {
      var i := (skippedHead + skippedLen) % SKIPPED_HISTORY;
      var h := (skippedHead + 1) % SKIPPED_HISTORY;
      RingPush(skipped, skippedHead, skippedLen, (from, to), i, h);
      skipped := skipped[i := (from, to)];
      if skippedLen < SKIPPED_HISTORY {
        skippedLen := skippedLen + 1;
      } else {
        skippedHead := h;
      }
    }

    /** Whether a remembered skip meets `[start, end)`. */
    method IsInSkipped(start: nat, end: nat) returns (r: bool)
      requires Valid()
      ensures r == InSkipped(View(), start, end)
    {
      ghost var v := View();
      for i := 0 to skippedLen
        invariant forall j :: 0 <= j < i ==> !(start < v.skips[j].1 && v.skips[j].0 < end)
      {
        var (f, t) := skipped[(skippedHead + i) % SKIPPED_HISTORY];
        SlotIsMod(skippedHead + i);
        assert v.skips[i] == (f, t);
        if start < t && f < end {
          return true;
        }
      }
      return false;
    }

    /** A second far segment near the candidate confirms it; otherwise the newest is the candidate. */
    method DoFarAhead(off: nat, data: seq<byte>, ts: Time, maxAhead: nat) returns (c: Option<Candidate>)
      requires Valid()
      modifies this
      ensures Valid() && (View(), c) == FarAhead(old(View()), off, data, ts, maxAhead)
    {
      if oow.Some? && (if off >= oow.value.off then off - oow.value.off else oow.value.off - off) <= maxAhead {
        outOfWindow := outOfWindow - 1;
        originResets := originResets + 1;
        c := oow;
        oow := None;
        return;
      }
      outOfWindow := outOfWindow + 1;
      oow := Some(Candidate(off, data, ts, 0));
      c := None;
    }

    method DoExtendStray(start: nat, len: nat, ts: Time) returns (r: bool)
      requires Valid()
      modifies this
      ensures Valid() && View() == ExtendStray(old(View()), start, len, ts)
      ensures r == Continues(old(View()), start, ts)
    {
      if oow.Some? && oow.value.ts == ts && oow.value.End() == start {
        oow := Some(oow.value.(missing := oow.value.missing + len));
        return true;
      }
      return false;
    }

    /** Cut bytes more than `maxAhead` past the stream position. */
    method DoFarMissing(start: nat, len: nat, ts: Time, maxAhead: nat) returns (c: Option<Candidate>)
      requires Valid()
      modifies this
      ensures Valid() && (View(), c) == FarMissing(old(View()), start, len, ts, maxAhead)
    {
      var extended := DoExtendStray(start, len, ts);
      if extended {
        return None;
      }
      c := DoFarAhead(start, [], ts, maxAhead);
      if c.None? {
        var _ := DoExtendStray(start, len, ts);
      }
    }

    /** Evidence moves the frontier, or confirms the candidate. */
    method DoEvidence(seq_: u32, ts: Time, maxAhead: nat) returns (c: Option<Candidate>)
      requires Valid()
      modifies this
      ensures Valid() && (View(), c) == Evidence(old(View()), seq_, ts, maxAhead)
    {
      hide OffsetOf, SeqAt, Ring, Signed32;
      c := None;
      if !anchored {
        return;
      }
      var signed := OffOf(seq_);
      if signed <= nextOff {
        return;
      }
      var off := signed;
      if finOff.Some? {
        off := Min(off, finOff.value);
      }
      if off <= nextOff {
        return;
      }
      if off - nextOff > maxAhead {
        if oow.Some? && off >= oow.value.off {
          outOfWindow := outOfWindow - 1;
          originResets := originResets + 1;
          c := oow;
          oow := None;
        }
        return;
      }
      if off > evidence {
        evidence := off;
      }
      if evidence > nextOff && evidenceSince.None? {
        evidenceSince := Some(ts);
      }
    }

    /** A FIN fixes the end and is evidence up to it. */
    method DoFin(seq_: u32, ts: Time, maxAhead: nat) returns (c: Option<Candidate>)
      requires Valid()
      modifies this
      ensures Valid() && (View(), c) == Fin(old(View()), seq_, ts, maxAhead)
    {
      if !anchored {
        return None;
      }
      var off := OffOf(seq_);
      if off < nextOff {
        return None;
      }
      finOff := Some(off);
      if evidence > off {
        evidence := off;
      }
      c := DoEvidence(seq_, ts, maxAhead);
    }

    method DoExpireStray(now: Time, maxAge: Time)
      requires Valid()
      modifies this
      ensures Valid() && View() == ExpireStray(old(View()), now, maxAge)
    {
      if oow.Some? && Since(now, oow.value.ts) > maxAge {
        oow := None;
      }
    }
  }

  // ----- the ring

  /** Ring index arithmetic without division. */
  function Slot(k: nat): nat
    requires k < 2 * SKIPPED_HISTORY
  {
    if k < SKIPPED_HISTORY then k else k - SKIPPED_HISTORY
  }

  lemma SlotIsMod(k: nat)
    requires k < 2 * SKIPPED_HISTORY
    ensures Slot(k) == k % SKIPPED_HISTORY
  {
  }

  /** The ring's content, oldest first. */
  function Ring(buf: seq<(nat, nat)>, head: nat, len: nat): (r: seq<(nat, nat)>)
    requires |buf| == SKIPPED_HISTORY && head < SKIPPED_HISTORY && len <= SKIPPED_HISTORY
    ensures |r| == len && forall i :: 0 <= i < len ==> r[i] == buf[Slot(head + i)]
  {
    seq(len, i requires 0 <= i < len => buf[Slot(head + i)])
  }

  /** Writing at the tail (and dropping the head when full) is remembering the last eight. */
  lemma RingPush(buf: seq<(nat, nat)>, head: nat, len: nat, x: (nat, nat), tail: nat, second: nat)
    requires |buf| == SKIPPED_HISTORY && len <= SKIPPED_HISTORY && head < SKIPPED_HISTORY
    requires len < SKIPPED_HISTORY ==> head == 0
    requires tail == (head + len) % SKIPPED_HISTORY && second == (head + 1) % SKIPPED_HISTORY
    ensures len < SKIPPED_HISTORY ==>
              LastSkips(Ring(buf, head, len) + [x]) == Ring(buf[tail := x], head, len + 1)
    ensures len == SKIPPED_HISTORY ==>
              LastSkips(Ring(buf, head, len) + [x]) == Ring(buf[tail := x], second, len)
  {
    SlotIsMod(head + len);
    SlotIsMod(head + 1);
    RingPushAt(buf, head, len, x, tail, second);
  }

  lemma RingPushAt(buf: seq<(nat, nat)>, head: nat, len: nat, x: (nat, nat), tail: nat, second: nat)
    requires |buf| == SKIPPED_HISTORY && len <= SKIPPED_HISTORY && head < SKIPPED_HISTORY
    requires len < SKIPPED_HISTORY ==> head == 0
    requires tail == Slot(head + len) && second == Slot(head + 1)
    ensures len < SKIPPED_HISTORY ==>
              LastSkips(Ring(buf, head, len) + [x]) == Ring(buf[tail := x], head, len + 1)
    ensures len == SKIPPED_HISTORY ==>
              LastSkips(Ring(buf, head, len) + [x]) == Ring(buf[tail := x], second, len)
  {
    var a := LastSkips(Ring(buf, head, len) + [x]);
    if len < SKIPPED_HISTORY {
      var b := Ring(buf[tail := x], head, len + 1);
      assert forall j :: 0 <= j < |a| ==> a[j] == b[j];
    } else {
      var b := Ring(buf[tail := x], second, len);
      assert forall j :: 0 <= j < |a| ==> a[j] == b[j];
    }
  }
}

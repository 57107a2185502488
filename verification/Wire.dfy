/** What a reassembler is given, and which bytes the received segments justify at which offset. */
module Wire {
  import opened Types
  import opened Tracking
  import opened SinkTheorems

  datatype Event =
    | Segment(seq_: u32, payload: seq<byte>, ts: Time, pass: bool, cap: nat)
    | Origin(seq_: u32)
    | Ack(ack: u32, ts: Time)
    | FinAt(end: u32, ts: Time)
    | Cut(seq_: u32, len: nat, ts: Time)
    | Sweep(ts: Time)
    | EndOfFlow
    | DrainOut
    | ReleaseSide

  datatype Packet = Packet(seq_: u32, payload: seq<byte>)

  /** Some received segment carried byte `b` at the sequence number of offset `o`. */
  ghost predicate Carried(received: seq<Packet>, origin: u32, o: nat, b: byte) {
    exists k, j :: 0 <= k < |received| && 0 <= j < |received[k].payload| && received[k].payload[j] == b
                   && SeqAt(received[k].seq_, j) == SeqAt(origin, o)
  }

  ghost function Allowed(received: seq<Packet>, origin: Option<u32>): (nat, byte) -> bool {
    (o: nat, b: byte) => origin.Some? && Carried(received, origin.value, o, b)
  }

  /** More received segments, or a first anchor, only allow more. */
  lemma AllowedGrows(a: seq<Packet>, p: seq<Packet>, o1: Option<u32>, o2: Option<u32>)
    requires o1.Some? ==> o2 == o1
    ensures forall o, b :: Allowed(a, o1)(o, b) ==> Allowed(a + p, o2)(o, b)
  {
    forall o: nat, b | Allowed(a, o1)(o, b) ensures Allowed(a + p, o2)(o, b) {
      var k, j :| 0 <= k < |a| && 0 <= j < |a[k].payload| && a[k].payload[j] == b
                  && SeqAt(a[k].seq_, j) == SeqAt(o1.value, o);
      assert (a + p)[k] == a[k];
      assert Carried(a + p, o2.value, o, b);
    }
  }

  lemma SeqAtStep(origin: u32, seq_: u32, start: int, j: int)
    requires SeqAt(origin, start) == seq_
    ensures SeqAt(origin, start + j) == SeqAt(seq_, j)
  {
    ModSame(origin + start + j, seq_ + j);
    ModSame(origin + start, seq_);
  }

  /** The last received segment lands on offsets with its own sequence numbers. */
  lemma LandsAllowed(received: seq<Packet>, seq_: u32, payload: seq<byte>, v: TrackView)
    requires v.origin.Some? && received != [] && received[|received| - 1] == Packet(seq_, payload)
    ensures GenuineFrom(Allowed(received, v.origin), OffsetOf(v, seq_), payload)
  {
    OffsetOfSound(v, seq_);
    var start := OffsetOf(v, seq_);
    hide OffsetOf, SeqAt;
    forall j | 0 <= j < |payload| && start + j >= 0 ensures Allowed(received, v.origin)(start + j, payload[j]) {
      SeqAtStep(v.origin.value, seq_, start, j);
      assert received[|received| - 1].payload[j] == payload[j];
      assert Carried(received, v.origin.value, start + j, payload[j]);
    }
  }

  // ----- one stream

  ghost function BytesOfStream(t: nat -> byte): (nat, byte) -> bool { (o: nat, b: byte) => t(o) == b }

  ghost predicate InHalf(next: nat, at: int) { next - TWO_31 <= at < next + TWO_31 }

  /** The payload is what stream `t` has from offset `at` on. */
  ghost predicate CutFrom(t: nat -> byte, at: int, payload: seq<byte>) {
    forall j :: 0 <= j < |payload| && at + j >= 0 ==> payload[j] == t(at + j)
  }

  /** Within half the sequence space a segment of the stream lands where it was cut. */
  lemma LandsInStream(t: nat -> byte, v: TrackView, seq_: u32, at: int, payload: seq<byte>)
    requires v.origin.Some? && SeqAt(v.origin.value, at) == seq_ && InHalf(v.next, at) && CutFrom(t, at, payload)
    ensures OffsetOf(v, seq_) == at && GenuineFrom(BytesOfStream(t), at, payload)
  {
    hide OffsetOf;
    OffsetOfUnique(v, at);
  }
}

/**
 The out-of-order reassembler under the driver. Its byte count depends on
 allocator capacities, so it is a number beside the stream, bounded by what the
 class promises of each call.
 */
module SegmentKit {
  import opened Types
  import opened Chunks
  import opened SinkSpec
  import opened SegmentReassembler
  import S = SegmentSpec
  import ST = StreamTable
  import FT = FlowTable
  import FD = FlowDriving
  import DR = DriverRuns

  /** A reassembler and its `current_bytes`. */
  datatype Weighed = Weighed(s: S.Stream, bytes: nat)

  predicate Data(c: ST.Call) { c.SegmentCall? || c.SegmentIntoCall? || c.MissingCall? }

  /** What each driver call does to the stream; `cap` is how many holes the byte budget forced open. */
  ghost function After(cfg: Config, s: S.Stream, c: ST.Call, cap: nat): (r: S.Stream)
    requires S.Calm(s)
  {
    match c
    case SegmentCall(seq_, payload, ts) => S.Feed(cfg, s, seq_, payload, ts, false, cap).0
    case SegmentIntoCall(seq_, payload, ts) => S.Feed(cfg, s, seq_, payload, ts, true, cap).0
    case MissingCall(seq_, len, ts) => S.MissingBytes(cfg, s, seq_, len, ts)
    case AckCall(ack, ts) => S.PeerAck(cfg, s, ack, ts)
    case FinCall(end, ts) => S.FinSeen(cfg, s, end, ts)
    case OriginCall(seq_) => S.SetOrigin(s, seq_)
    case TickCall(now) => S.CheckTimers(cfg, s, now)
    case FlushCall => S.FlushPending(cfg, s)
    case DrainCall => S.Drain(s)
  }

  /** The window condition of the call. */
  ghost predicate Windowed(cfg: Config, s: S.Stream, c: ST.Call) {
    match c
    case SegmentCall(seq_, _, _) => S.FarInWindow(cfg, s, seq_)
    case SegmentIntoCall(seq_, _, _) => S.FarInWindow(cfg, s, seq_)
    case MissingCall(_, _, _) => S.InWindow(s)
    case AckCall(_, _) => S.InWindow(s)
    case FinCall(_, _) => S.InWindow(s)
    case OriginCall(_) => true
    case TickCall(_) => true
    case FlushCall => true
    case DrainCall => true
  }

  /** One call: the stream moves as specified, and only data raises the byte count. */
  ghost predicate Does(cfg: Config, r: Weighed, c: ST.Call, q: Weighed)
    requires S.Calm(r.s)
  {
    && (exists cap: nat :: q.s == After(cfg, r.s, c, cap))
    && (!Data(c) ==> q.bytes <= r.bytes)
  }

  lemma DoesBy(cfg: Config, r: Weighed, c: ST.Call, q: Weighed, cap: nat)
    requires S.Calm(r.s) && q.s == After(cfg, r.s, c, cap) && (!Data(c) ==> q.bytes <= r.bytes)
    ensures Does(cfg, r, c, q)
  {
  }

  /** Data calls on the class are data calls on the value. */
  method ServeData(r: SegmentBufferReassembler, c: ST.Call, ghost size: nat)
    requires r.Valid() && Data(c) && Windowed(r.cfg, r.Abs(), c) && (c.MissingCall? ==> c.len < TWO_32)
    modifies r, r.ready, r.track, r.ooo
    ensures r.Valid() && Does(r.cfg, old(Weighed(r.Abs(), r.CurrentBytes(size))), c, Weighed(r.Abs(), r.CurrentBytes(size)))
  {
    hide Does, SegmentBufferReassembler.CurrentBytes, S.Calm, S.Feed, S.MissingBytes, S.InWindow, S.FarInWindow;
    ghost var before := Weighed(r.Abs(), r.CurrentBytes(size));
    ghost var cap := 0;
    match c {
      case SegmentCall(seq_, payload, ts) =>
        var outcome;
        outcome, cap := r.Feed(seq_, payload, ts, false);
      case SegmentIntoCall(seq_, payload, ts) =>
        var outcome;
        outcome, cap := r.Feed(seq_, payload, ts, true);
      case MissingCall(seq_, len, ts) =>
        r.Missing(seq_, len, ts);
    }
    DoesBy(r.cfg, before, c, Weighed(r.Abs(), r.CurrentBytes(size)), cap);
  }

  /** So is every other call, and it does not raise the byte count. */
  method ServeOther(r: SegmentBufferReassembler, c: ST.Call, out: StreamChunks, ghost size: nat)
    requires r.Valid() && !Data(c) && Windowed(r.cfg, r.Abs(), c) && out.Valid() && out != r.ready
    modifies r, r.ready, r.track, r.ooo, out
    ensures r.Valid() && Does(r.cfg, old(Weighed(r.Abs(), r.CurrentBytes(size))), c, Weighed(r.Abs(), r.CurrentBytes(size)))
  {
    hide Does, SegmentBufferReassembler.CurrentBytes, S.Calm, S.PeerAck, S.FinSeen, S.CheckTimers, S.FlushPending, S.InWindow;
    ghost var before := Weighed(r.Abs(), r.CurrentBytes(size));
    match c {
      case AckCall(ack, ts) => r.PeerAck(ack, ts);
      case FinCall(end, ts) => r.FinSeen(end, ts);
      case OriginCall(seq_) => r.SetOrigin(seq_);
      case TickCall(now) => r.AdvanceTime(now);
      case FlushCall => r.FlushPending();
      case DrainCall => r.DrainInto(out);
    }
    DoesBy(r.cfg, before, c, Weighed(r.Abs(), r.CurrentBytes(size)), 0);
  }

  /** The kit's reassemblers do what the class does; outside the window only their byte count is constrained. */
  ghost predicate Faithful<K(!new)>(cfg: Config, kit: ST.Kit<K, Weighed>) {
    && (forall r: Weighed :: kit.bytes(r) == r.bytes)
    && (forall r: Weighed, c: ST.Call ::
          if S.Calm(r.s) && Windowed(cfg, r.s, c) then Does(cfg, r, c, kit.act(r, c))
          else !Data(c) ==> kit.act(r, c).bytes <= r.bytes)
  }

  /** For any allocator: `cost` is the byte count it leads to and `caps` the holes it forces open. */
  ghost function KitOf<K>(cfg: Config, cost: (S.Stream, ST.Call) -> nat, caps: (S.Stream, ST.Call) -> nat): ST.Kit<K, Weighed> {
    ST.Kit((k: K, side: FT.Side) => Weighed(S.Fresh(), 0),
           (r: Weighed, c: ST.Call) => Act(cfg, cost, caps, r, c),
           (r: Weighed) => r.bytes,
           (r: Weighed, seq_: u32, payload: seq<byte>, ts: Time) => Passes(cfg, caps, r, seq_, payload, ts),
           (r: Weighed) => r.s.k.ready,
           (r: Weighed) => r.s.k.stop)
  }

  ghost function Act(cfg: Config, cost: (S.Stream, ST.Call) -> nat, caps: (S.Stream, ST.Call) -> nat, r: Weighed, c: ST.Call): Weighed {
    if !S.Calm(r.s) then r
    else
      Weighed(After(cfg, r.s, c, caps(r.s, c)), if Data(c) then cost(r.s, c) else Min(cost(r.s, c), r.bytes))
  }

  ghost function Passes(cfg: Config, caps: (S.Stream, ST.Call) -> nat, r: Weighed, seq_: u32, payload: seq<byte>, ts: Time): Option<nat> {
    if !S.Calm(r.s) then None
    else
      var o := S.Feed(cfg, r.s, seq_, payload, ts, true, caps(r.s, ST.SegmentIntoCall(seq_, payload, ts))).1;
      if o.Passthrough? then Some(o.skip) else None
  }

  lemma KitIsFaithful<K(!new)>(cfg: Config, cost: (S.Stream, ST.Call) -> nat, caps: (S.Stream, ST.Call) -> nat)
    ensures Faithful(cfg, KitOf<K>(cfg, cost, caps))
  {
    hide After, Windowed, S.Calm, Passes;
    forall r: Weighed, c: ST.Call | S.Calm(r.s) ensures Does(cfg, r, c, Act(cfg, cost, caps, r, c)) {
      DoesBy(cfg, r, c, Act(cfg, cost, caps, r, c), caps(r.s, c));
    }
  }

  lemma FaithfulIsModest<K(!new)>(cfg: Config, kit: ST.Kit<K, Weighed>)
    requires Faithful(cfg, kit)
    ensures ST.Modest(kit)
  {
    hide After, Windowed, S.Calm;
    forall r: Weighed, c: ST.Call | !Data(c) ensures kit.bytes(kit.act(r, c)) <= kit.bytes(r) {
      if S.Calm(r.s) && Windowed(cfg, r.s, c) { assert Does(cfg, r, c, kit.act(r, c)); }
    }
  }

  /** With this reassembler too, a driver under a hard memory cap never ends a call above it. */
  lemma CapIsHard<K(!new)>(cfg: Config, kit: ST.Kit<K, Weighed>, limits: ST.Limits, rules: FT.Rules<K>, ops: seq<DR.Op<K>>)
    requires Faithful(cfg, kit) && FD.Hard(limits)
    ensures !ST.Over(limits, ST.Pool(DR.Run(kit, limits, rules, DR.Start<K, Weighed>(), ops).m))
  {
    FaithfulIsModest(cfg, kit);
    hide Faithful, ST.Modest, DR.Run;
    assert ST.Pool(DR.Start<K, Weighed>().m) == 0;
    DR.RunSafe(kit, limits, rules, DR.Start<K, Weighed>(), ops);
  }
}

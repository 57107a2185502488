/**
 Stream state per flow side and its share of the memory pool (src/flow_driver.rs),
 as functions on values. A reassembler is any value with a byte count and a
 reaction to each call the driver makes.
 */
module StreamTable {
  import opened Types
  import opened Cells
  import opened FlowTable

  datatype Call =
    | SegmentCall(seq_: u32, payload: seq<byte>, ts: Time)
    | SegmentIntoCall(seq_: u32, payload: seq<byte>, ts: Time)
    | MissingCall(seq_: u32, len: nat, ts: Time)
    | AckCall(ack: u32, ts: Time)
    | FinCall(end: u32, ts: Time)
    | OriginCall(seq_: u32)
    | TickCall(now: Time)
    | FlushCall
    | DrainCall

  /** A reassembler factory and what its reassemblers do. */
  datatype Kit<!K, !R> = Kit(
    make: (K, Side) -> R,
    act: (R, Call) -> R,
    bytes: R -> nat,
    passes: (R, u32, seq<byte>, Time) -> Option<nat>,
    ready: R -> seq<Cell>,
    stop: R -> Option<Stop>)

  /** Only data makes a reassembler grow. */
  ghost predicate Modest<K, R(!new)>(kit: Kit<K, R>) {
    forall r: R, c: Call :: !c.SegmentCall? && !c.SegmentIntoCall? && !c.MissingCall? ==> kit.bytes(kit.act(r, c)) <= kit.bytes(r)
  }

  datatype Slot<R> = Empty | Live(r: R, accounted: nat) | Done(stop: Option<Stop>, reported: bool)

  function Other(side: Side): Side { if side.Initiator? then Responder else Initiator }

  datatype Flow<R> = Flow(ini: Slot<R>, res: Slot<R>, originI: Option<u32>, originR: Option<u32>) {
    function At(side: Side): Slot<R> { if side.Initiator? then ini else res }

    function Put(side: Side, slot: Slot<R>): Flow<R> { if side.Initiator? then this.(ini := slot) else this.(res := slot) }

    function Origin(side: Side): Option<u32> { if side.Initiator? then originI else originR }

    function SetOrigin(side: Side, seq_: u32): Flow<R> {
      if side.Initiator? then this.(originI := Some(seq_)) else this.(originR := Some(seq_))
    }
  }

  function NewFlow<R>(): Flow<R> { Flow(Empty, Empty, None, None) }

  datatype MemcapPolicy = Ignore | DropPacket | PassThrough | DropFlow

  datatype Limits = Limits(passthrough: bool, cap: Option<nat>, policy: MemcapPolicy)

  datatype Segment = Segment(flags: Flags, seq_: u32, ack: u32, captured: seq<byte>, wirePayload: nat, ts: Time) {
    /** The SYN flag occupies a sequence number before the data. */
    function DataSeq(): u32 { if flags.syn then (seq_ + 1) % TWO_32 else seq_ }

    /** What an RST carries is not part of the stream. */
    function Payload(): seq<byte> { if flags.rst then [] else captured }

    function Wire(): nat { if flags.rst then 0 else Max(wirePayload, |captured|) }

    function FinEnd(): u32 { (DataSeq() + Wire() % TWO_32) % TWO_32 }
  }

  // ----- accounting

  function Acc<R>(slot: Slot<R>): nat { if slot.Live? then slot.accounted else 0 }

  function FlowAcc<R>(f: Flow<R>): nat { Acc(f.ini) + Acc(f.res) }

  /** Bytes accounted over all flows. */
  ghost function Pool<K, R>(m: map<K, Flow<R>>): nat
    decreases |m|
  {
    if m == map[] then 0
    else
      var k :| k in m;
      assert (m - {k}).Keys == m.Keys - {k};
      FlowAcc(m[k]) + Pool(m - {k})
  }

  lemma Smaller<K, R>(m: map<K, Flow<R>>, k: K)
    requires k in m
    ensures |m - {k}| == |m| - 1
  {
    assert (m - {k}).Keys == m.Keys - {k};
  }

  /** The sum does not depend on the order of summation. */
  lemma {:induction false} PoolWithout<K, R>(m: map<K, Flow<R>>, k: K)
    requires k in m
    ensures Pool(m) == FlowAcc(m[k]) + Pool(m - {k})
    decreases |m|
  {
    var j :| j in m && Pool(m) == FlowAcc(m[j]) + Pool(m - {j});
    if j != k {
      Smaller(m, j);
      Smaller(m, k);
      PoolWithout(m - {j}, k);
      PoolWithout(m - {k}, j);
      assert m - {j} - {k} == m - {k} - {j};
    }
  }

  lemma PoolPut<K, R>(m: map<K, Flow<R>>, k: K, f: Flow<R>)
    ensures Pool(m[k := f]) == FlowAcc(f) + Pool(m - {k})
  {
    PoolWithout(m[k := f], k);
    assert m[k := f] - {k} == m - {k};
  }

  lemma PoolAbsent<K, R>(m: map<K, Flow<R>>, k: K)
    requires k !in m
    ensures m - {k} == m
  {
  }

  ghost predicate NoLive<K, R>(m: map<K, Flow<R>>) { forall k :: k in m ==> !m[k].ini.Live? && !m[k].res.Live? }

  /** Without a live side the pool is empty. */
  lemma {:induction false} NoneLive<K, R>(m: map<K, Flow<R>>)
    requires NoLive(m)
    ensures Pool(m) == 0
    decreases |m|
  {
    if m != map[] {
      var k :| k in m;
      PoolWithout(m, k);
      Smaller(m, k);
      NoneLive(m - {k});
    }
  }

  // ----- one packet

  function Synced<K, R>(kit: Kit<K, R>, r: R): Slot<R> { Live(r, kit.bytes(r)) }

  /** A side that is over, with the stop it keeps. */
  function Tomb<K, R>(kit: Kit<K, R>, slot: Slot<R>, stop: Option<Stop>): Slot<R> {
    match slot
    case Live(r, _) =>
      var why := if stop.Some? then stop else kit.stop(r);
      Done(why, why.None?)
    case Empty => Done(stop, stop.None?)
    case Done(_, _) => slot
  }

  /** The peer's acknowledgement reaches the other direction. */
  function Acked<K, R>(kit: Kit<K, R>, flow: Flow<R>, side: Side, p: Segment): Flow<R> {
    var f := if p.flags.syn then flow.SetOrigin(side, p.DataSeq()) else flow;
    var peer := f.At(Other(side));
    if p.flags.ack && peer.Live? then f.Put(Other(side), Synced(kit, kit.act(peer.r, AckCall(p.ack, p.ts)))) else f
  }

  /** The calls one data segment makes on its own side. */
  function DataCalls(pass: bool, p: Segment): seq<Call> {
    var payload := p.Payload();
    var truncated := p.Wire() > |payload|;
    (if pass && !truncated then [SegmentIntoCall(p.DataSeq(), payload, p.ts)]
     else
       (if payload != [] then [SegmentCall(p.DataSeq(), payload, p.ts)] else [])
       + (if truncated
          then [MissingCall((p.DataSeq() + |payload|) % TWO_32, Min(p.Wire() - |payload|, TWO_32 - 1), p.ts)]
          else []))
    + (if p.flags.fin then [FinCall(p.FinEnd(), p.ts)] else [])
  }

  function Apply<K, R>(kit: Kit<K, R>, r: R, calls: seq<Call>): R
    decreases |calls|
  {
    if calls == [] then r else Apply(kit, kit.act(r, calls[0]), calls[1..])
  }

  function Opened<K, R>(kit: Kit<K, R>, key: K, flow: Flow<R>, side: Side): Flow<R> {
    if !flow.At(side).Empty? then flow
    else
      var r := kit.make(key, side);
      flow.Put(side, Live(if flow.Origin(side).Some? then kit.act(r, OriginCall(flow.Origin(side).value)) else r, 0))
  }

  predicate Over(limits: Limits, n: nat) { limits.cap.Some? && n > limits.cap.value }

  /** What the memory cap does after a segment, `rest` being accounted elsewhere. */
  function Capped<K, R>(kit: Kit<K, R>, limits: Limits, rest: nat, flow: Flow<R>, side: Side): Flow<R> {
    if !Over(limits, rest + FlowAcc(flow)) || limits.policy.Ignore? || limits.policy.DropPacket? then flow
    else
      var f := flow.Put(side, Tomb(kit, flow.At(side), Some(Memcap)));
      if limits.policy.DropFlow? then f.Put(Other(side), Tomb(kit, f.At(Other(side)), Some(Memcap))) else f
  }

  /** Data on a live side; `rest` is what other flows account for. */
  function FeedLive<K, R>(kit: Kit<K, R>, limits: Limits, rest: nat, flow: Flow<R>, side: Side, p: Segment): (Flow<R>, Option<nat>)
    requires flow.At(side).Live?
  {
    var r := flow.At(side).r;
    var synced := flow.Put(side, Synced(kit, r));
    if limits.policy.DropPacket? && Over(limits, rest + FlowAcc(synced) + |p.Payload()|) then (synced, None)
    else
      var fed := flow.Put(side, Synced(kit, Apply(kit, r, DataCalls(limits.passthrough, p))));
      (Capped(kit, limits, rest, fed, side),
       if limits.passthrough && p.Wire() <= |p.Payload()| then kit.passes(r, p.DataSeq(), p.Payload(), p.ts) else None)
  }

  /** One TCP packet on a flow with stream state. */
  function FeedFlow<K, R>(kit: Kit<K, R>, limits: Limits, rest: nat, key: K, flow: Flow<R>, side: Side, p: Segment): (Flow<R>, Option<nat>) {
    var f := Acked(kit, flow, side, p);
    if p.Wire() == 0 then
      if p.flags.fin && f.At(side).Live?
      then (f.Put(side, Synced(kit, kit.act(f.At(side).r, FinCall(p.FinEnd(), p.ts)))), None)
      else (f, None)
    else
      var g := Opened(kit, key, f, side);
      if g.At(side).Live? then FeedLive(kit, limits, rest, g, side, p) else (g, None)
  }

  // ----- the life of a side

  /** Empty, then live, then done; a stop once kept stays, and its report is never taken back. */
  predicate Onward<R>(a: Slot<R>, b: Slot<R>) {
    match a
    case Empty => true
    case Live(_, _) => !b.Empty?
    case Done(stop, reported) => b.Done? && b.stop == stop && (reported ==> b.reported)
  }

  predicate FlowOnward<R>(f: Flow<R>, g: Flow<R>) { Onward(f.ini, g.ini) && Onward(f.res, g.res) }

  lemma FeedOnward<K, R>(kit: Kit<K, R>, limits: Limits, rest: nat, key: K, flow: Flow<R>, side: Side, p: Segment)
    ensures FlowOnward(flow, FeedFlow(kit, limits, rest, key, flow, side, p).0)
  {
    hide Acked, Opened, FeedLive, Onward;
    AckedOnward(kit, flow, side, p);
    var f := Acked(kit, flow, side, p);
    FinOnward(kit, f, side, p);
    OpenedOnward(kit, key, f, side);
    var g := Opened(kit, key, f, side);
    if g.At(side).Live? { LiveOnward(kit, limits, rest, g, side, p); }
    OnwardTrans(flow, f, g);
    OnwardTrans(flow, f, FeedFlow(kit, limits, rest, key, flow, side, p).0);
    OnwardTrans(flow, g, FeedFlow(kit, limits, rest, key, flow, side, p).0);
  }

  lemma OnwardTrans<R>(f: Flow<R>, g: Flow<R>, h: Flow<R>)
    ensures FlowOnward(f, g) && FlowOnward(g, h) ==> FlowOnward(f, h)
  {
  }

  lemma AckedOnward<K, R>(kit: Kit<K, R>, flow: Flow<R>, side: Side, p: Segment)
    ensures FlowOnward(flow, Acked(kit, flow, side, p))
  {
  }

  lemma FinOnward<K, R>(kit: Kit<K, R>, f: Flow<R>, side: Side, p: Segment)
    ensures FlowOnward(f, f)
    ensures f.At(side).Live? ==> FlowOnward(f, f.Put(side, Synced(kit, kit.act(f.At(side).r, FinCall(p.FinEnd(), p.ts)))))
  {
  }

  lemma OpenedOnward<K, R>(kit: Kit<K, R>, key: K, flow: Flow<R>, side: Side)
    ensures FlowOnward(flow, Opened(kit, key, flow, side))
  {
  }

  lemma LiveOnward<K, R>(kit: Kit<K, R>, limits: Limits, rest: nat, flow: Flow<R>, side: Side, p: Segment)
    requires flow.At(side).Live?
    ensures FlowOnward(flow, FeedLive(kit, limits, rest, flow, side, p).0)
  {
    hide DataCalls, Apply, Over;
  }

  // ----- the memory cap

  /** No live side holds more than it accounts for. */
  predicate Covered<K, R>(kit: Kit<K, R>, slot: Slot<R>) { slot.Live? ==> kit.bytes(slot.r) <= slot.accounted }

  predicate FlowCovered<K, R>(kit: Kit<K, R>, f: Flow<R>) { Covered(kit, f.ini) && Covered(kit, f.res) }

  lemma AckedModest<K, R(!new)>(kit: Kit<K, R>, flow: Flow<R>, side: Side, p: Segment)
    requires Modest(kit) && FlowCovered(kit, flow)
    ensures var f := Acked(kit, flow, side, p);
            FlowCovered(kit, f) && Acc(f.ini) <= Acc(flow.ini) && Acc(f.res) <= Acc(flow.res)
            && (f.At(side).Live? <==> flow.At(side).Live?)
  {
    var peer := flow.At(Other(side));
    if peer.Live? {
      assert kit.bytes(kit.act(peer.r, AckCall(p.ack, p.ts))) <= kit.bytes(peer.r);
    }
  }

  /** Under PassThrough and DropFlow the pool never ends a packet above the cap. */
  lemma CapHolds<K, R(!new)>(kit: Kit<K, R>, limits: Limits, rest: nat, key: K, flow: Flow<R>, side: Side, p: Segment)
    requires Modest(kit) && FlowCovered(kit, flow)
    ensures var f := FeedFlow(kit, limits, rest, key, flow, side, p).0;
            && FlowCovered(kit, f)
            && ((limits.policy.PassThrough? || limits.policy.DropFlow?) && !Over(limits, rest + FlowAcc(flow))
                ==> !Over(limits, rest + FlowAcc(f)))
  {
    AckedModest(kit, flow, side, p);
    var f := Acked(kit, flow, side, p);
    hide Acked, DataCalls, Apply;
    if p.Wire() == 0 {
      if p.flags.fin && f.At(side).Live? {
        assert kit.bytes(kit.act(f.At(side).r, FinCall(p.FinEnd(), p.ts))) <= kit.bytes(f.At(side).r);
      }
    } else {
      var g := Opened(kit, key, f, side);
      assert Acc(g.ini) <= Acc(f.ini) && Acc(g.res) <= Acc(f.res) && Covered(kit, g.At(Other(side)));
      hide Opened;
      if g.At(side).Live? {
        LiveCap(kit, limits, rest, g, side, p);
      }
    }
  }

  lemma LiveCap<K, R>(kit: Kit<K, R>, limits: Limits, rest: nat, flow: Flow<R>, side: Side, p: Segment)
    requires flow.At(side).Live? && Covered(kit, flow.At(Other(side)))
    ensures var f := FeedLive(kit, limits, rest, flow, side, p).0;
            && FlowCovered(kit, f)
            && ((limits.policy.PassThrough? || limits.policy.DropFlow?) && !Over(limits, rest + Acc(flow.At(Other(side))))
                ==> !Over(limits, rest + FlowAcc(f)))
  {
    hide DataCalls, Apply;
  }
}

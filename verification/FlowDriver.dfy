/**
 `FlowDriver` (src/flow_driver.rs): the table of stream states beside the flow
 tracker, and the running total of the memory pool, updated in place.
 */
module FlowDriving {
  import opened Types
  import opened Cells
  import opened FlowTable
  import opened FlowTracking
  import opened StreamTable

  /** Subtraction that stops at zero. */
  function SatSub(a: nat, b: nat): nat { if a < b then 0 else a - b }

  /** The keys of the flows that ended. */
  function EndedKeys<K(==)>(evs: seq<FlowEvent<K>>): set<K> { set e | e in evs && e.Ended? :: e.key }

  function EndCount<K>(evs: seq<FlowEvent<K>>): nat {
    if evs == [] then 0 else (if evs[0].Ended? then 1 else 0) + EndCount(evs[1..])
  }

  // ----- what the tracker tells the driver

  lemma {:induction false} EndCountConcat<K>(a: seq<FlowEvent<K>>, b: seq<FlowEvent<K>>)
    ensures EndCount(a + b) == EndCount(a) + EndCount(b)
    decreases |a|
  {
    if a == [] {
      assert a + b == b;
    } else {
      assert (a + b)[1..] == a[1..] + b;
      EndCountConcat(a[1..], b);
    }
  }

  lemma {:induction false} EndCountShown<K>(gate: Gate, evs: seq<FlowEvent<K>>)
    requires gate.driverOwned
    ensures EndCount(Shown(gate, evs)) == EndCount(evs)
    decreases |evs|
  {
    if evs != [] {
      EndCountShown(gate, evs[1..]);
      var head := if gate.Emits(KindOf(evs[0])) then [evs[0]] else [];
      EndCountConcat(head, Shown(gate, evs[1..]));
    }
  }

  lemma EndedShown<K>(gate: Gate, evs: seq<FlowEvent<K>>)
    requires gate.driverOwned
    ensures EndedKeys(Shown(gate, evs)) == EndedKeys(evs)
  {
    EndsShown(gate, evs);
    forall k | k in EndedKeys(evs) ensures k in EndedKeys(Shown(gate, evs)) {
      var e :| e in evs && e.Ended? && e.key == k;
      assert e in Shown(gate, evs);
    }
  }

  /** Every flow that leaves the table is reported ended, and counted. */
  ghost predicate Accounted<K>(before: Table<K>, extra: set<K>, after: Table<K>, evs: seq<FlowEvent<K>>) {
    && before.entries.Keys + extra <= after.entries.Keys + EndedKeys(evs)
    && after.ended == before.ended + EndCount(evs) && after.forgotten == before.forgotten
  }

  lemma EndAccounted<K>(t: Table<K>, key: K, reason: EndReason)
    ensures Accounted(t, {}, End(t, key, reason).0, End(t, key, reason).1)
  {
    hide Drop;
    if key in t.entries {
      var ev := Ended(key, reason, t.entries[key].st);
      assert ev in [ev] && key in EndedKeys([ev]);
      assert EndCount([ev]) == 1 + EndCount([ev][1..]) && EndCount([ev][1..]) == 0;
      assert t.entries.Keys <= Remove(t, key).entries.Keys + {key};
    }
  }

  lemma AccountedConcat<K>(a: Table<K>, x: set<K>, b: Table<K>, y: set<K>, c: Table<K>, ev: seq<FlowEvent<K>>, ev2: seq<FlowEvent<K>>)
    requires Accounted(a, x, b, ev) && Accounted(b, y, c, ev2)
    ensures Accounted(a, x, c, ev + ev2)
  {
    EndCountConcat(ev, ev2);
    assert EndedKeys(ev + ev2) == EndedKeys(ev) + EndedKeys(ev2);
  }

  lemma {:induction false} EndAllAccounted<K>(t: Table<K>, keys: seq<K>, reason: EndReason)
    ensures Accounted(t, {}, EndAll(t, keys, reason).0, EndAll(t, keys, reason).1)
    decreases |keys|
  {
    if keys != [] {
      EndAccounted(t, keys[0], reason);
      hide End, EndCount;
      var u := End(t, keys[0], reason);
      EndAllAccounted(u.0, keys[1..], reason);
      var w := EndAll(u.0, keys[1..], reason);
      AccountedConcat(t, {}, u.0, {}, w.0, u.1, w.1);
    }
  }

  lemma EvictAccounted<K>(rules: Rules<K>, t: Table<K>)
    ensures Accounted(t, {}, Evict(rules, t).0, Evict(rules, t).1)
  {
    hide Drop;
    if t.order != [] { EndAccounted(t, t.order[0], Evicted); }
  }

  lemma AdmitAccounted<K>(rules: Rules<K>, t: Table<K>, p: Seen<K>)
    ensures var (u, ev) := Admit(rules, t, p); Accounted(t, {p.key}, u, ev)
  {
    if p.key !in t.entries {
      var (u, ev) := Evict(rules, t);
      EvictAccounted(rules, t);
      hide Evict, Accounted, FreshEntry;
      var e := FreshEntry(rules, p);
      AddAccounted(t, u, ev, p.key, e, Started(p.key, SideOf(e, p.forward), p.ts));
    }
  }

  lemma AddAccounted<K>(t: Table<K>, u: Table<K>, ev: seq<FlowEvent<K>>, key: K, e: Entry, start: FlowEvent<K>)
    requires Accounted(t, {}, u, ev) && start.Started?
    ensures Accounted(t, {key}, u.(entries := u.entries[key := e], order := u.order + [key], created := u.created + 1), ev + [start])
  {
    EndCountConcat(ev, [start]);
    assert EndCount([start]) == EndCount([start][1..]) == 0;
    EndedPush(ev, start);
    hide EndCount, EndedKeys;
  }

  lemma TouchAccounted<K>(t: Table<K>, p: Seen<K>)
    requires p.key in t.entries
    ensures var (u, ev) := Touch(t, p); Accounted(t, {}, u, ev)
  {
    hide Drop, Count;
    var side := SideOf(t.entries[p.key], p.forward);
    var (e, ev) := Step(Count(t.entries[p.key], p), p);
    assert EndCount(ev) == 0;
    var packet := [Packet(p.key, side, p.Len(), p.ts)];
    EndCountConcat(ev, packet);
    var end := [Ended(p.key, EndOf(e.state), e.st)];
    EndCountConcat(ev + packet, end);
    assert end[0] in ev + packet + end;
  }

  lemma TrackAccounted<K>(rules: Rules<K>, t: Table<K>, p: Seen<K>)
    ensures var (u, ev) := Track(rules, t, p); Accounted(t, {p.key}, u, ev)
  {
    hide Accounted, Admit, Touch;
    AdmitAccounted(rules, t, p);
    var (u, ev) := Admit(rules, t, p);
    TouchAccounted(u, p);
    AccountedConcat(t, {p.key}, u, {}, Touch(u, p).0, ev, Touch(u, p).1);
  }

  // ----- the stream table as a value

  /** The table after one TCP packet. */
  ghost function FeedStreams<K, R>(kit: Kit<K, R>, limits: Limits, m: map<K, Flow<R>>, key: K, side: Side, p: Segment, want: bool): map<K, Flow<R>> {
    if key !in m && !((p.flags.syn || p.Wire() > 0) && want) then m
    else
      var flow := if key in m then m[key] else NewFlow();
      m[key := FeedFlow(kit, limits, Pool(m - {key}), key, flow, side, p).0]
  }

  /** How much of the payload's head to skip when the packet was let through. */
  ghost function FeedPass<K, R>(kit: Kit<K, R>, limits: Limits, m: map<K, Flow<R>>, key: K, side: Side, p: Segment, want: bool): Option<nat> {
    if key !in m && !((p.flags.syn || p.Wire() > 0) && want) then None
    else FeedFlow(kit, limits, Pool(m - {key}), key, if key in m then m[key] else NewFlow(), side, p).1
  }

  /** What the driver passes on of the tracker's events: an end only when it is not masked. */
  function Visible<K>(evs: seq<FlowEvent<K>>, show: bool): seq<FlowEvent<K>> {
    if evs == [] then []
    else
      var e := evs[|evs| - 1];
      Visible(evs[..|evs| - 1], show) + if e.Ended? && !show then [] else [e]
  }

  lemma VisibleSnoc<K>(evs: seq<FlowEvent<K>>, i: nat, show: bool)
    requires i < |evs|
    ensures Visible(evs[..i + 1], show) == Visible(evs[..i], show) + if evs[i].Ended? && !show then [] else [evs[i]]
  {
    assert evs[..i + 1][..i] == evs[..i];
  }

  ghost predicate AllCovered<K, R>(kit: Kit<K, R>, m: map<K, Flow<R>>) { forall k :: k in m ==> FlowCovered(kit, m[k]) }

  /** Tracked flows kept in the table only move onward. */
  ghost predicate TableOnward<K, R>(tracked: set<K>, m: map<K, Flow<R>>, n: map<K, Flow<R>>) {
    forall k :: k in tracked && k in m && k in n ==> FlowOnward(m[k], n[k])
  }

  predicate Dead<R>(f: Flow<R>) { !f.ini.Live? && !f.res.Live? }

  /** Every live side belongs to a tracked flow. */
  ghost predicate Settled<K, R>(tracked: set<K>, m: map<K, Flow<R>>) { forall k :: k in m && k !in tracked ==> Dead(m[k]) }

  function Flushed<K, R>(kit: Kit<K, R>, slot: Slot<R>): Slot<R> {
    if slot.Live? then slot.(r := kit.act(slot.r, FlushCall)) else slot
  }

  function FlushedFlow<K, R>(kit: Kit<K, R>, f: Flow<R>): Flow<R> { f.(ini := Flushed(kit, f.ini), res := Flushed(kit, f.res)) }

  function FlushedTimes<K, R>(kit: Kit<K, R>, f: Flow<R>, n: nat): Flow<R> {
    if n == 0 then f else FlushedFlow(kit, FlushedTimes(kit, f, n - 1))
  }

  /** How often the flow ended. */
  function EndsOf<K(==)>(key: K, evs: seq<FlowEvent<K>>): nat {
    if evs == [] then 0
    else
      var e := evs[|evs| - 1];
      EndsOf(key, evs[..|evs| - 1]) + if e.Ended? && e.key == key then 1 else 0
  }

  /** Ended flows are flushed; when ends are masked their stream state goes at once. */
  ghost function ClosedOut<K, R>(kit: Kit<K, R>, m: map<K, Flow<R>>, evs: seq<FlowEvent<K>>, show: bool): map<K, Flow<R>> {
    if show then map k | k in m :: FlushedTimes(kit, m[k], EndsOf(k, evs)) else m - EndedKeys(evs)
  }

  lemma EndsOfSnoc<K>(key: K, evs: seq<FlowEvent<K>>, i: nat)
    requires i < |evs|
    ensures EndsOf(key, evs[..i + 1]) == EndsOf(key, evs[..i]) + if evs[i].Ended? && evs[i].key == key then 1 else 0
  {
    assert evs[..i + 1][..i] == evs[..i];
  }

  /** One more event closes one more flow. */
  lemma ClosedOutSnoc<K, R>(kit: Kit<K, R>, m: map<K, Flow<R>>, evs: seq<FlowEvent<K>>, i: nat, show: bool)
    requires i < |evs|
    ensures var (a, b) := (ClosedOut(kit, m, evs[..i], show), ClosedOut(kit, m, evs[..i + 1], show));
            if !evs[i].Ended? then b == a
            else if !show then b == a - {evs[i].key}
            else if evs[i].key in a then b == a[evs[i].key := FlushedFlow(kit, a[evs[i].key])]
            else b == a
  {
    hide FlushedFlow, EndedKeys;
    forall k | k in m
      ensures EndsOf(k, evs[..i + 1]) == EndsOf(k, evs[..i]) + if evs[i].Ended? && evs[i].key == k then 1 else 0
    {
      EndsOfSnoc(k, evs, i);
    }
    EndedSnoc(evs, i);
    hide EndsOf;
  }

  lemma {:induction false} EndsOfIn<K>(key: K, evs: seq<FlowEvent<K>>)
    ensures EndsOf(key, evs) > 0 <==> key in EndedKeys(evs)
    decreases |evs|
  {
    if evs != [] {
      EndsOfIn(key, evs[..|evs| - 1]);
      assert evs[..|evs|] == evs;
      EndedSnoc(evs, |evs| - 1);
      hide EndedKeys;
    }
  }

  /** After the close, what is not ended is as it was. */
  lemma ClosedOutRest<K, R>(kit: Kit<K, R>, m: map<K, Flow<R>>, evs: seq<FlowEvent<K>>, show: bool)
    ensures ClosedOut(kit, m, evs, show) - EndedKeys(evs) == m - EndedKeys(evs)
  {
    hide EndsOf, EndedKeys;
    forall k | k in m && k !in EndedKeys(evs) ensures FlushedTimes(kit, m[k], EndsOf(k, evs)) == m[k] { EndsOfIn(k, evs); }
  }

  /** `advance_time`, then perhaps a drain and a re-sync. */
  function Ticked<K, R>(kit: Kit<K, R>, slot: Slot<R>, now: Time, drain: bool): Slot<R> {
    if !slot.Live? then slot
    else
      var r := kit.act(slot.r, TickCall(now));
      if drain then Synced(kit, kit.act(r, DrainCall)) else slot.(r := r)
  }

  ghost function AllTicked<K, R>(kit: Kit<K, R>, m: map<K, Flow<R>>, now: Time, drain: bool): map<K, Flow<R>> {
    map k | k in m :: FlowTicked(kit, m[k], now, drain)
  }

  /** The flows whose timeout is longer than the time left until the end of time. */
  ghost function Lasting<K>(rules: Rules<K>, t: Table<K>): set<K> {
    set k | k in t.entries && !Idle(rules, k, t.entries[k], END_OF_TIME)
  }

  lemma DeadTicked<K, R>(kit: Kit<K, R>, f: Flow<R>, now: Time, drain: bool)
    requires Dead(f)
    ensures FlowTicked(kit, f, now, drain) == f
  {
  }

  function FlowTicked<K, R>(kit: Kit<K, R>, f: Flow<R>, now: Time, drain: bool): Flow<R> {
    f.(ini := Ticked(kit, f.ini, now, drain), res := Ticked(kit, f.res, now, drain))
  }

  /** The stop a side that nobody needs any more keeps for the statistics. */
  function KeptStop<K, R>(kit: Kit<K, R>, slot: Slot<R>): Option<Stop> {
    match slot
    case Empty => None
    case Live(r, _) => kit.stop(r)
    case Done(stop, _) => stop
  }

  /** What a caller of `drain_stream` gets. */
  datatype Drained = Nothing | Output(cells: seq<Cell>, stop: Option<Stop>) | StopReport(stop: Option<Stop>)

  /** A packet: what the extractor made of it, its TCP segment, and whether a consumer wants the flow. */
  datatype Arrival<K> = Arrival(seen: Seen<K>, seg: Option<Segment>, want: bool) {
    predicate Consistent() { seen.tcp == (if seg.Some? then Some(seg.value.flags) else None) }
  }

  lemma PoolShrinks<K, R>(m: map<K, Flow<R>>, k: K)
    ensures Pool(m - {k}) <= Pool(m)
  {
    if k in m { PoolWithout(m, k); } else { PoolAbsent(m, k); }
  }

  /** The memory cap and the byte counts over the whole table. */
  lemma FeedCap<K, R(!new)>(kit: Kit<K, R>, limits: Limits, m: map<K, Flow<R>>, key: K, side: Side, p: Segment, want: bool)
    requires Modest(kit) && AllCovered(kit, m)
    ensures var n := FeedStreams(kit, limits, m, key, side, p, want);
            && AllCovered(kit, n)
            && ((limits.policy.PassThrough? || limits.policy.DropFlow?) && !Over(limits, Pool(m)) ==> !Over(limits, Pool(n)))
  {
    hide FeedFlow;
    var flow := if key in m then m[key] else NewFlow();
    CapHolds(kit, limits, Pool(m - {key}), key, flow, side, p);
    if key in m { PoolWithout(m, key); } else { PoolAbsent(m, key); }
    PoolPut(m, key, FeedFlow(kit, limits, Pool(m - {key}), key, flow, side, p).0);
  }

  lemma FeedTableOnward<K, R>(kit: Kit<K, R>, limits: Limits, m: map<K, Flow<R>>, key: K, side: Side, p: Segment, want: bool)
    ensures TableOnward(m.Keys, m, FeedStreams(kit, limits, m, key, side, p, want))
  {
    hide FeedFlow;
    forall k | k in m ensures Onward(m[k].ini, m[k].ini) && Onward(m[k].res, m[k].res) { }
    if key in m { FeedOnward(kit, limits, Pool(m - {key}), key, m[key], side, p); }
  }

  class FlowDriver<K(==), R(!new)> {
    const kit: Kit<K, R>
    const limits: Limits
    const tracker: FlowTracker<K>
    var streams: map<K, Flow<R>>
    var global: nat
    var seenGone: nat

    constructor (kit: Kit<K, R>, limits: Limits, rules: Rules<K>)
      requires rules.maxFlows > 0
      ensures AtRest() && streams == map[] && tracker.View() == EmptyTable() && this.kit == kit && this.limits == limits && fresh(tracker)
    {
      this.kit, this.limits := kit, limits;
      tracker := new FlowTracker(rules, true);
      streams, global, seenGone := map[], 0, 0;
    }

    /** The pool total is the sum over live sides. */
    ghost predicate Valid()
      reads this, tracker
    {
      tracker.Valid() && tracker.driverOwned && global == Pool(streams)
    }

    /** Between calls, live sides belong to tracked flows and every gone flow was seen to go. */
    ghost predicate AtRest()
      reads this, tracker
    {
      Valid() && Settled(tracker.entries.Keys, streams) && seenGone == tracker.ended + tracker.forgotten
    }

    ghost function Tracked(): set<K>
      reads tracker
    {
      tracker.entries.Keys
    }

    /** Every key with stream state is a tracked flow. */
    ghost predicate Owned()
      reads this, tracker
    {
      streams.Keys <= Tracked()
    }

    /** Give one side's reassembler a call and re-sync its share of the pool. */
    method CallAndResync(slot: Slot<R>, call: Call) returns (next: Slot<R>)
      requires slot.Live?
      modifies this`global
      ensures next == Synced(kit, kit.act(slot.r, call))
      ensures old(global) >= slot.accounted ==> global == old(global) - slot.accounted + next.accounted
    {
      var r := kit.act(slot.r, call);
      var current := kit.bytes(r);
      global := SatSub(global, slot.accounted) + current;
      next := Live(r, current);
    }

    /** The side is over: its share of the pool returns and only its stop is kept. */
    method Tombstone(slot: Slot<R>, stop: Option<Stop>) returns (done: Slot<R>)
      modifies this`global
      ensures done == Tomb(kit, slot, stop)
      ensures old(global) >= Acc(slot) ==> global == old(global) - Acc(slot)
    {
      match slot
      case Live(r, accounted) =>
        var why := if stop.Some? then stop else kit.stop(r);
        done := Done(why, why.None?);
        global := SatSub(global, accounted);
      case Empty =>
        done := Done(stop, stop.None?);
      case Done(_, _) =>
        done := slot;
    }

    /** Hand the segment to its own side, then apply the memory cap. */
    method FeedSide(flow0: Flow<R>, side: Side, p: Segment, ghost rest: nat) returns (flow: Flow<R>, pass: Option<nat>)
      requires flow0.At(side).Live? && global == rest + FlowAcc(flow0)
      modifies this`global
      ensures (flow, pass) == FeedLive(kit, limits, rest, flow0, side, p) && global == rest + FlowAcc(flow)
    {
      flow, pass := flow0, None;
      var own := flow.At(side);
      var payload := p.Payload();
      // Output taken since the last segment is no longer accounted for.
      var current := kit.bytes(own.r);
      global := SatSub(global, own.accounted) + current;
      flow := flow.Put(side, Live(own.r, current));
      if limits.policy.DropPacket? && limits.cap.Some? && global + |payload| > limits.cap.value {
        return;
      }
      var r;
      r, pass := GiveData(own.r, p);
      hide DataCalls, Apply, Capped;
      var after := kit.bytes(r);
      global := SatSub(global, current) + after;
      flow := flow.Put(side, Live(r, after));
      flow := ApplyCap(flow, side, rest);
    }

    /** The calls a data segment makes: its bytes, bytes the capture cut off, its FIN. */
    method GiveData(r0: R, p: Segment) returns (r: R, pass: Option<nat>)
      ensures r == Apply(kit, r0, DataCalls(limits.passthrough, p))
      ensures pass == if limits.passthrough && p.Wire() <= |p.Payload()| then kit.passes(r0, p.DataSeq(), p.Payload(), p.ts) else None
    {
      r, pass := r0, None;
      var payload := p.Payload();
      var truncated := p.Wire() > |payload|;
      if limits.passthrough && !truncated {
        pass := kit.passes(r, p.DataSeq(), payload, p.ts);
        r := kit.act(r, SegmentIntoCall(p.DataSeq(), payload, p.ts));
      } else {
        if payload != [] {
          r := kit.act(r, SegmentCall(p.DataSeq(), payload, p.ts));
        }
        if truncated {
          var cut := Min(p.Wire() - |payload|, TWO_32 - 1);
          r := kit.act(r, MissingCall((p.DataSeq() + |payload|) % TWO_32, cut, p.ts));
        }
      }
      if p.flags.fin {
        r := kit.act(r, FinCall(p.FinEnd(), p.ts));
      }
      CallsAre(kit, r0, limits.passthrough, p);
    }

    /** Over the cap, the side (or the whole flow) is dropped and reports the stop. */
    method ApplyCap(flow0: Flow<R>, side: Side, ghost rest: nat) returns (flow: Flow<R>)
      requires global == rest + FlowAcc(flow0)
      modifies this`global
      ensures flow == Capped(kit, limits, rest, flow0, side) && global == rest + FlowAcc(flow)
    {
      flow := flow0;
      if limits.cap.Some? && global > limits.cap.value {
        if limits.policy.PassThrough? || limits.policy.DropFlow? {
          var mine := Tombstone(flow.At(side), Some(Memcap));
          flow := flow.Put(side, mine);
          if limits.policy.DropFlow? {
            var theirs := Tombstone(flow.At(Other(side)), Some(Memcap));
            flow := flow.Put(Other(side), theirs);
          }
        }
      }
    }

    /** One TCP packet: origin, peer acknowledgement, data and FIN reach the flow's two sides. */
    method FeedTcp(key: K, side: Side, p: Segment, want: bool) returns (pass: Option<nat>)
      requires global == Pool(streams)
      modifies this`streams, this`global
      ensures global == Pool(streams) && streams == FeedStreams(kit, limits, old(streams), key, side, p, want)
      ensures pass == FeedPass(kit, limits, old(streams), key, side, p, want)
    {
      hide FeedLive, Pool, Acked, Opened;
      pass := None;
      if key !in streams {
        if !(p.flags.syn || p.Wire() > 0) || !want {
          return;
        }
        PoolAbsent(streams, key);
      } else {
        PoolWithout(streams, key);
      }
      ghost var rest := Pool(streams - {key});
      var flow := if key in streams then streams[key] else NewFlow();
      ghost var flow0 := flow;
      flow := AckPeer(flow, side, p, rest);
      if p.Wire() == 0 {
        if p.flags.fin && flow.At(side).Live? {
          var mine := CallAndResync(flow.At(side), FinCall(p.FinEnd(), p.ts));
          flow := flow.Put(side, mine);
        }
      } else {
        flow := OpenSide(key, flow, side);
        if flow.At(side).Live? {
          flow, pass := FeedSide(flow, side, p, rest);
        }
      }
      assert (flow, pass) == FeedFlow(kit, limits, rest, key, flow0, side, p);
      PoolPut(streams, key, flow);
      streams := streams[key := flow];
    }

    /** Create the side's reassembler at its first data. */
    method OpenSide(key: K, flow0: Flow<R>, side: Side) returns (flow: Flow<R>)
      ensures flow == Opened(kit, key, flow0, side) && FlowAcc(flow) == FlowAcc(flow0)
    {
      flow := flow0;
      if flow.At(side).Empty? {
        var r := kit.make(key, side);
        if flow.Origin(side).Some? {
          r := kit.act(r, OriginCall(flow.Origin(side).value));
        }
        flow := flow.Put(side, Live(r, 0));
      }
    }

    /** A SYN sets its side's origin; an ACK is evidence for the opposite side. */
    method AckPeer(flow0: Flow<R>, side: Side, p: Segment, ghost rest: nat) returns (flow: Flow<R>)
      requires global == rest + FlowAcc(flow0)
      modifies this`global
      ensures flow == Acked(kit, flow0, side, p) && global == rest + FlowAcc(flow)
    {
      flow := flow0;
      if p.flags.syn {
        flow := flow.SetOrigin(side, p.DataSeq());
      }
      if p.flags.ack && flow.At(Other(side)).Live? {
        var theirs := CallAndResync(flow.At(Other(side)), AckCall(p.ack, p.ts));
        flow := flow.Put(Other(side), theirs);
      }
    }

    /** The key leaves the stream table and the pool with it. */
    method FinalizeFlow(key: K)
      requires global == Pool(streams)
      modifies this`streams, this`global
      ensures global == Pool(streams) && streams == old(streams) - {key}
    {
      if key in streams {
        PoolWithout(streams, key);
        var flow := streams[key];
        streams := streams - {key};
        if flow.ini.Live? {
          global := SatSub(global, flow.ini.accounted);
        }
        if flow.res.Live? {
          global := SatSub(global, flow.res.accounted);
        }
      } else {
        PoolAbsent(streams, key);
      }
    }

    /** Both sides of one flow are flushed; every other flow and the pool stay. */
    method CloseFlow(key: K)
      requires global == Pool(streams)
      modifies this`streams
      ensures global == Pool(streams) && streams.Keys == old(streams).Keys
      ensures forall k :: k in streams && k != key ==> streams[k] == old(streams)[k]
      ensures key in streams ==> streams[key] == FlushedFlow(kit, old(streams)[key])
    {
      if key in streams {
        var flow := streams[key];
        PoolWithout(streams, key);
        flow := flow.(ini := Flushed(kit, flow.ini), res := Flushed(kit, flow.res));
        PoolPut(streams, key, flow);
        streams := streams[key := flow];
      }
    }

    /** Whether ends of flows reach the caller. */
    predicate Showing()
      reads tracker
    {
      !tracker.paused && EndedKind !in tracker.suppressed
    }

    /** Flush every flow that ended; one whose end is masked also loses its stream state here. */
    method CloseAll(events: seq<FlowEvent<K>>) returns (out: seq<FlowEvent<K>>)
      requires global == Pool(streams)
      modifies this`streams, this`global
      ensures global == Pool(streams)
      ensures streams == ClosedOut(kit, old(streams), events, Showing()) && out == Visible(events, Showing())
    {
      hide Pool, FlushedFlow;
      out := [];
      var show := Showing();
      assert ClosedOut(kit, streams, events[..0], show) == streams;
      for i := 0 to |events|
        invariant global == Pool(streams) && streams == ClosedOut(kit, old(streams), events[..i], show)
        invariant out == Visible(events[..i], show)
      {
        VisibleSnoc(events, i, show);
        ClosedOutSnoc(kit, old(streams), events, i, show);
        hide ClosedOut, Visible;
        if events[i].Ended? {
          CloseFlow(events[i].key);
          if show {
            out := out + [events[i]];
          } else {
            FinalizeFlow(events[i].key);
          }
        } else {
          out := out + [events[i]];
        }
      }
      assert events[..|events|] == events;
    }

    /** The keys that `events` report ended leave the stream table. */
    method Finalize(events: seq<FlowEvent<K>>)
      requires global == Pool(streams)
      modifies this`streams, this`global
      ensures global == Pool(streams) && streams == old(streams) - EndedKeys(events)
    {
      assert streams == streams - EndedKeys(events[..0]);
      for i := 0 to |events|
        invariant global == Pool(streams) && streams == old(streams) - EndedKeys(events[..i])
      {
        EndedSnoc(events, i);
        if events[i].Ended? {
          FinalizeFlow(events[i].key);
          assert old(streams) - EndedKeys(events[..i]) - {events[i].key} == old(streams) - EndedKeys(events[..i + 1]);
        }
      }
      assert events[..|events|] == events;
    }

    /** Flush, mask and finalize: afterwards exactly the ended flows have lost their stream state. */
    method CloseAndFinalize(events: seq<FlowEvent<K>>) returns (out: seq<FlowEvent<K>>)
      requires global == Pool(streams)
      modifies this`streams, this`global
      ensures global == Pool(streams) && streams == old(streams) - EndedKeys(events)
      ensures out == Visible(events, Showing())
    {
      ghost var show := Showing();
      out := CloseAll(events);
      VisibleEnds(events, show);
      ClosedOutRest(kit, old(streams), events, show);
      assert !show ==> streams - {} == streams && streams - EndedKeys(events) == streams;
      hide ClosedOut, Visible, EndedKeys, Pool;
      Finalize(out);
    }

    /** One packet (`None`: it maps to no flow): tracker, stream state, and the end of whatever ended. */
    method TrackOne(arrival: Option<Arrival<K>>) returns (events: seq<FlowEvent<K>>, pass: Option<nat>)
      requires AtRest() && (arrival.Some? ==> arrival.value.Consistent())
      modifies this, tracker
      ensures AtRest()
      ensures arrival.None? ==> tracker.View() == old(tracker.View()) && streams == old(streams) && events == [] && pass == None
      ensures arrival.Some? ==>
                var (t, ev) := Track(tracker.rules, old(tracker.View()), arrival.value.seen);
                && tracker.View() == t
                && streams == Fed(kit, limits, tracker.rules, old(streams), old(tracker.View()), arrival.value) - EndedKeys(ev)
                && events == Visible(Shown(tracker.Gates(), ev), Showing())
                && pass == FedPass(kit, limits, tracker.rules, old(streams), old(tracker.View()), arrival.value)
      ensures tracker.lastSweep == old(tracker.lastSweep) && tracker.Gates() == old(tracker.Gates())
      ensures Kept(kit, limits, old(Tracked()), old(streams), streams)
      ensures old(Tracked()) * streams.Keys <= Tracked() && (old(Owned()) ==> Owned())
    {
      hide TableInv, Pool, Kept, EndedKeys, EndCount, Fed, FedPass, Track, Visible, Shown, Settled, Sweep;
      pass := None;
      if arrival.None? {
        var isNew;
        events, isNew := tracker.TrackWith(None);
        KeptSame(kit, limits, Tracked(), streams);
        return;
      }
      var a := arrival.value;
      ghost var t0, m0 := tracker.View(), streams;
      pass := FeedArrival(a);
      ghost var m1 := streams;
      FedKept(kit, limits, tracker.rules, m0, t0, a);
      FedSettled(kit, limits, tracker.rules, m0, t0, a);
      TrackAccounted(tracker.rules, t0, a.seen);
      ghost var ev := Track(tracker.rules, t0, a.seen).1;
      var isNew;
      events, isNew := tracker.TrackWith(Some(a.seen));
      events := AfterTracker(events, ev);
      EndedKept(kit, limits, t0.entries.Keys, m0, m1, EndedKeys(ev));
    }

    /** Stream state is updated first, the tracker's events come after. */
    method FeedArrival(a: Arrival<K>) returns (pass: Option<nat>)
      requires global == Pool(streams)
      modifies this`streams, this`global
      ensures global == Pool(streams) && streams == Fed(kit, limits, tracker.rules, old(streams), tracker.View(), a)
      ensures pass == FedPass(kit, limits, tracker.rules, old(streams), tracker.View(), a)
    {
      hide Pool, FeedStreams, FeedPass;
      pass := None;
      var key := a.seen.key;
      var entry := if key in tracker.entries then tracker.entries[key] else FreshEntry(tracker.rules, a.seen);
      if key !in tracker.entries {
        // A new flow: nothing kept under its key applies to it.
        FinalizeFlow(key);
      }
      if a.seg.Some? {
        pass := FeedTcp(key, SideOf(entry, a.seen.forward), a.seg.value, a.want);
      }
    }

    /** Count the ended flows, then flush and finalize them. */
    method AfterTracker(events: seq<FlowEvent<K>>, ghost ev: seq<FlowEvent<K>>) returns (out: seq<FlowEvent<K>>)
      requires global == Pool(streams) && tracker.driverOwned && events == Shown(tracker.Gates(), ev)
      modifies this`streams, this`global, this`seenGone
      ensures global == Pool(streams) && streams == old(streams) - EndedKeys(ev)
      ensures seenGone == old(seenGone) + EndCount(ev) && out == Visible(events, Showing())
    {
      EndedShown(tracker.Gates(), ev);
      EndCountShown(tracker.Gates(), ev);
      seenGone := seenGone + EndCount(events);
      out := CloseAndFinalize(events);
    }

    /** `track`: one packet, then the automatic sweep when it is due. */
    method TrackPacket(arrival: Option<Arrival<K>>) returns (events: seq<FlowEvent<K>>, pass: Option<nat>)
      requires AtRest() && (arrival.Some? ==> arrival.value.Consistent())
      modifies this, tracker
      ensures AtRest() && Kept(kit, limits, old(Tracked()), old(streams), streams) && (old(Owned()) ==> Owned())
      ensures arrival.None? ==> tracker.View() == old(tracker.View()) && streams == old(streams) && events == [] && pass == None
      ensures arrival.Some? ==>
                var p, rules := arrival.value.seen, tracker.rules;
                var (t, ev) := Track(rules, old(tracker.View()), p);
                var fed := Fed(kit, limits, rules, old(streams), old(tracker.View()), arrival.value) - EndedKeys(ev);
                var seen := Visible(Shown(tracker.Gates(), ev), Showing());
                && pass == FedPass(kit, limits, rules, old(streams), old(tracker.View()), arrival.value)
                && if !tracker.SweepDue(old(tracker.lastSweep), p.ts)
                   then tracker.View() == t && streams == fed && events == seen
                   else
                     var (u, ended) := Sweep(rules, t, p.ts);
                     && tracker.View() == u
                     && streams == AllTicked(kit, fed, p.ts, false) - EndedKeys(ended)
                     && events == seen + Visible(Shown(tracker.Gates(), ended), Showing())
    {
      hide Kept, Fed, FedPass, Track, Sweep, Visible, Shown, TableInv, Pool, EndedKeys, FlowTicked, Settled;
      ghost var m0, t0 := streams, Tracked();
      events, pass := TrackOne(arrival);
      ghost var m1, t1 := streams, Tracked();
      if arrival.Some? && tracker.SweepDue(tracker.lastSweep, arrival.value.seen.ts) {
        var swept := SweepNow(arrival.value.seen.ts, false);
        KeptTrans(kit, limits, t0, t1, m0, m1, streams);
        events := events + swept;
      }
    }

    /** When the tracker lost flows the driver did not see go, their keys leave the stream table. */
    method Reconcile()
      requires Valid()
      modifies this
      ensures Valid() && seenGone == tracker.ended + tracker.forgotten
      ensures streams == if old(seenGone) == seenGone then old(streams)
                         else map k | k in old(streams) && k in tracker.entries :: old(streams)[k]
    {
      hide TableInv, Pool;
      var gone := tracker.ended + tracker.forgotten;
      if gone == seenGone {
        return;
      }
      seenGone := gone;
      var todo := streams.Keys;
      while todo != {}
        invariant Valid() && seenGone == gone == tracker.ended + tracker.forgotten
        invariant todo <= streams.Keys <= old(streams).Keys
        invariant forall k :: k in old(streams) ==> (k in streams <==> k in todo || k in tracker.entries)
        invariant forall k :: k in streams ==> streams[k] == old(streams)[k]
        decreases |todo|
      {
        var key :| key in todo;
        todo := todo - {key};
        if key !in tracker.entries {
          FinalizeFlow(key);
        }
      }
    }

    /** Give every live reassembler the time; with `drain`, take its output too. */
    method AdvanceStreams(now: Time, drain: bool)
      requires AtRest()
      modifies this
      ensures AtRest() && streams == AllTicked(kit, old(streams), now, drain)
    {
      hide TableInv, Pool, FlowTicked;
      Reconcile();
      var todo := streams.Keys;
      while todo != {}
        invariant AtRest() && streams.Keys == old(streams).Keys && todo <= streams.Keys
        invariant forall k :: k in streams ==>
                    streams[k] == if k in todo then old(streams)[k] else FlowTicked(kit, old(streams)[k], now, drain)
        decreases |todo|
      {
        var key :| key in todo;
        todo := todo - {key};
        if key in tracker.entries {
          AdvanceFlow(key, now, drain);
        } else {
          DeadTicked(kit, streams[key], now, drain);
        }
      }
    }

    method AdvanceFlow(key: K, now: Time, drain: bool)
      requires key in streams && global == Pool(streams)
      modifies this`streams, this`global
      ensures global == Pool(streams) && streams == old(streams)[key := FlowTicked(kit, old(streams)[key], now, drain)]
    {
      PoolWithout(streams, key);
      hide Pool, Ticked;
      var flow := streams[key];
      var ini := Advance(flow.ini, now, drain);
      var res := Advance(flow.res, now, drain);
      flow := flow.(ini := ini, res := res);
      PoolPut(streams, key, flow);
      streams := streams[key := flow];
    }

    method Advance(slot: Slot<R>, now: Time, drain: bool) returns (next: Slot<R>)
      requires global >= Acc(slot)
      modifies this`global
      ensures next == Ticked(kit, slot, now, drain) && global == old(global) - Acc(slot) + Acc(next)
    {
      if !slot.Live? {
        return slot;
      }
      var r := kit.act(slot.r, TickCall(now));
      if !drain {
        return Live(r, slot.accounted);
      }
      next := CallAndResync(Live(r, slot.accounted), DrainCall);
    }

    /** `sweep`: deadlines first, then idle flows end. */
    method SweepNow(now: Time, drain: bool) returns (events: seq<FlowEvent<K>>)
      requires AtRest()
      modifies this, tracker
      ensures AtRest() && Kept(kit, limits, old(Tracked()), old(streams), streams) && (old(Owned()) ==> Owned())
      ensures tracker.View() == Sweep(tracker.rules, old(tracker.View()), now).0 && tracker.Gates() == old(tracker.Gates())
      ensures streams == AllTicked(kit, old(streams), now, drain) - EndedKeys(Sweep(tracker.rules, old(tracker.View()), now).1)
      ensures events == Visible(Shown(tracker.Gates(), Sweep(tracker.rules, old(tracker.View()), now).1), Showing())
    {
      hide TableInv, Pool;
      ghost var t0, m0 := tracker.View(), streams;
      AdvanceStreams(now, drain);
      ghost var m1 := streams;
      TickKept(kit, limits, t0.entries.Keys, m0, now, drain);
      hide AllTicked;
      events := EndIdle(now);
      EndedKept(kit, limits, t0.entries.Keys, m0, m1, EndedKeys(Sweep(tracker.rules, t0, now).1));
    }

    /** The tracker's sweep, and the stream state of whatever it ended. */
    method EndIdle(now: Time) returns (events: seq<FlowEvent<K>>)
      requires AtRest()
      modifies this, tracker
      ensures AtRest() && tracker.Gates() == old(tracker.Gates()) && (old(Owned()) ==> Owned())
      ensures tracker.View() == Sweep(tracker.rules, old(tracker.View()), now).0
      ensures streams == old(streams) - EndedKeys(Sweep(tracker.rules, old(tracker.View()), now).1)
      ensures events == Visible(Shown(tracker.Gates(), Sweep(tracker.rules, old(tracker.View()), now).1), Showing())
    {
      hide TableInv, Pool;
      ghost var t0 := tracker.View();
      EndAllAccounted(t0, IdleKeys(tracker.rules, t0, t0.order, now), IdleTimeout);
      ghost var ev := Sweep(tracker.rules, t0, now).1;
      hide EndAll, IdleKeys, Visible, Shown, EndedKeys, EndCount;
      events := tracker.DoSweep(now);
      events := AfterTracker(events, ev);
    }

    /** `finish`: a sweep at the end of time, without the deadlines. */
    method Finish() returns (events: seq<FlowEvent<K>>)
      requires AtRest()
      modifies this, tracker
      ensures AtRest() && Kept(kit, limits, old(Tracked()), old(streams), streams)
      ensures tracker.View() == Sweep(tracker.rules, old(tracker.View()), END_OF_TIME).0
      ensures streams == old(streams) - EndedKeys(Sweep(tracker.rules, old(tracker.View()), END_OF_TIME).1)
      ensures events == Visible(Shown(tracker.Gates(), Sweep(tracker.rules, old(tracker.View()), END_OF_TIME).1), Showing())
      ensures Tracked() == Lasting(tracker.rules, old(tracker.View())) && (old(Owned()) ==> Owned())
      ensures Tracked() == {} ==> global == 0 && (old(Owned()) ==> streams == map[])
    {
      hide Kept, Sweep, Visible, Shown, EndedKeys, Pool;
      ghost var t0, m0 := tracker.View(), streams;
      KeptSame(kit, limits, t0.entries.Keys, m0);
      EndedKept(kit, limits, t0.entries.Keys, m0, m0, EndedKeys(Sweep(tracker.rules, t0, END_OF_TIME).1));
      SweepExact(tracker.rules, t0, END_OF_TIME);
      hide TableInv, Idle;
      events := EndIdle(END_OF_TIME);
      if Tracked() == {} {
        NoneLive(streams);
      }
    }

    /** End one flow now. */
    method ForceClose(key: K) returns (events: seq<FlowEvent<K>>)
      requires AtRest()
      modifies this, tracker
      ensures AtRest() && Kept(kit, limits, old(Tracked()), old(streams), streams)
      ensures old(Owned()) ==> Owned()
      ensures key in old(Tracked()) ==> streams == old(streams) - {key}
      ensures key !in old(Tracked()) ==> streams == old(streams)
      ensures tracker.View() == End(old(tracker.View()), key, ForceClosed).0
      ensures events == Visible(End(old(tracker.View()), key, ForceClosed).1, Showing())
    {
      hide TableInv, Pool, Kept, Drop;
      ghost var m0, t0 := streams, tracker.View();
      EndAccounted(t0, key, ForceClosed);
      KeptSame(kit, limits, t0.entries.Keys, m0);
      EndedKept(kit, limits, t0.entries.Keys, m0, m0, {key});
      var ev := tracker.ForceClose(key);
      if ev.None? {
        return [];
      }
      seenGone := seenGone + 1;
      assert EndedKeys([ev.value]) == {key};
      hide EndedKeys;
      events := CloseAndFinalize([ev.value]);
    }

    /** Move one side's output to the caller; a stop kept from the memory cap is reported once. */
    method DrainStream(key: K, side: Side) returns (got: Drained)
      requires Valid()
      modifies this`streams, this`global
      ensures Valid() && (old(AtRest()) ==> AtRest())
      ensures Kept(kit, limits, old(streams).Keys, old(streams), streams) && streams.Keys == old(streams).Keys
      ensures forall k :: k in streams && k != key ==> streams[k] == old(streams)[k]
      ensures key !in streams ==> got == Nothing
      ensures key in streams ==>
                var was, now := old(streams)[key].At(side), streams[key].At(side);
                && streams[key].At(Other(side)) == old(streams)[key].At(Other(side))
                && (was.Empty? ==> got == Nothing && now == was)
                && (was.Live? ==> got == Output(kit.ready(was.r), kit.stop(was.r)) && now == Synced(kit, kit.act(was.r, DrainCall)))
                && (was.Done? ==> now == was.(reported := true) && got == if was.reported then Nothing else StopReport(was.stop))
    {
      hide TableInv, Pool, Kept, FlowTracker.Valid;
      KeptSame(kit, limits, streams.Keys, streams);
      if key !in streams || streams[key].At(side).Empty? {
        return Nothing;
      }
      PoolWithout(streams, key);
      var next;
      next, got := DrainSlot(streams[key].At(side));
      Replace(key, side, next);
    }

    /** Put a drained slot back. */
    method Replace(key: K, side: Side, next: Slot<R>)
      requires key in streams && global == Pool(streams) - Acc(streams[key].At(side)) + Acc(next)
      requires var was := streams[key].At(side);
               && !was.Empty? && (was.Done? ==> next == was.(reported := true))
               && (was.Live? ==> next == Synced(kit, kit.act(was.r, DrainCall)))
      modifies this`streams
      ensures global == Pool(streams) && Kept(kit, limits, old(streams).Keys, old(streams), streams)
      ensures streams == old(streams)[key := old(streams)[key].Put(side, next)]
    {
      hide Pool, Kept;
      PoolWithout(streams, key);
      var flow := streams[key].Put(side, next);
      PoolPut(streams, key, flow);
      DrainKept(kit, limits, streams, key, side, flow);
      streams := streams[key := flow];
    }

    method DrainSlot(slot: Slot<R>) returns (next: Slot<R>, got: Drained)
      requires !slot.Empty? && global >= Acc(slot)
      modifies this`global
      ensures global == old(global) - Acc(slot) + Acc(next)
      ensures slot.Live? ==> got == Output(kit.ready(slot.r), kit.stop(slot.r)) && next == Synced(kit, kit.act(slot.r, DrainCall))
      ensures slot.Done? ==> next == slot.(reported := true) && got == if slot.reported then Nothing else StopReport(slot.stop)
    {
      match slot
      case Live(r, _) =>
        next := CallAndResync(slot, DrainCall);
        got := Output(kit.ready(r), kit.stop(r));
      case Done(stop, reported) =>
        next := Done(stop, true);
        got := if reported then Nothing else StopReport(stop);
    }

    /** The consumer is done with this side, known or not: no reassembler, no report. */
    method DiscardSide(key: K, side: Side)
      requires Valid()
      modifies this`streams, this`global
      ensures Valid() && (old(AtRest()) ==> AtRest()) && (Owned() <==> old(Owned()) && key in Tracked())
      ensures Kept(kit, limits, old(streams).Keys, old(streams), streams) && streams.Keys == old(streams).Keys + {key}
      ensures forall k :: k in streams && k != key ==> streams[k] == old(streams)[k]
      ensures var was := if key in old(streams) then old(streams)[key] else NewFlow();
              && streams[key].At(Other(side)) == was.At(Other(side))
              && streams[key].At(side) == Done(KeptStop(kit, was.At(side)), true)
    {
      hide TableInv, Pool, Kept;
      if key in streams { PoolWithout(streams, key); } else { PoolAbsent(streams, key); }
      var flow := if key in streams then streams[key] else NewFlow();
      var slot := flow.At(side);
      var done := Tombstone(slot, None);
      flow := flow.Put(side, Done(done.stop, true));
      PoolPut(streams, key, flow);
      DiscardKept(kit, limits, streams, key, side, flow);
      streams := streams[key := flow];
    }
  }

  // ----- what every driver operation keeps

  /** The table after the packet reached its stream state, before ended flows go. */
  ghost function Fed<K, R>(kit: Kit<K, R>, limits: Limits, rules: Rules<K>, m: map<K, Flow<R>>, t: Table<K>, a: Arrival<K>): map<K, Flow<R>> {
    var key := a.seen.key;
    var entry := if key in t.entries then t.entries[key] else FreshEntry(rules, a.seen);
    var n := if key in t.entries then m else m - {key};
    if a.seg.None? then n else FeedStreams(kit, limits, n, key, SideOf(entry, a.seen.forward), a.seg.value, a.want)
  }

  ghost function FedPass<K, R>(kit: Kit<K, R>, limits: Limits, rules: Rules<K>, m: map<K, Flow<R>>, t: Table<K>, a: Arrival<K>): Option<nat> {
    var key := a.seen.key;
    var entry := if key in t.entries then t.entries[key] else FreshEntry(rules, a.seen);
    var n := if key in t.entries then m else m - {key};
    if a.seg.None? then None else FeedPass(kit, limits, n, key, SideOf(entry, a.seen.forward), a.seg.value, a.want)
  }

  /** Under these policies the memory cap is a bound on the pool. */
  predicate Hard(limits: Limits) { limits.policy.PassThrough? || limits.policy.DropFlow? }

  /**
   From one table to the next: surviving tracked flows only move onward; if only data
   makes reassemblers grow, live sides stay covered by what they account for,
   and a hard cap that held still holds.
   */
  ghost predicate Kept<K, R(!new)>(kit: Kit<K, R>, limits: Limits, tracked: set<K>, m: map<K, Flow<R>>, n: map<K, Flow<R>>) {
    && TableOnward(tracked, m, n)
    && (Modest(kit) && AllCovered(kit, m) ==>
          && AllCovered(kit, n)
          && (Hard(limits) && !Over(limits, Pool(m)) ==> !Over(limits, Pool(n))))
  }

  lemma KeptSame<K, R(!new)>(kit: Kit<K, R>, limits: Limits, tracked: set<K>, m: map<K, Flow<R>>)
    ensures Kept(kit, limits, tracked, m, m)
  {
  }

  lemma KeptTrans<K, R(!new)>(kit: Kit<K, R>, limits: Limits, t: set<K>, u: set<K>, m: map<K, Flow<R>>, n: map<K, Flow<R>>, o: map<K, Flow<R>>)
    requires Kept(kit, limits, t, m, n) && Kept(kit, limits, u, n, o) && o.Keys <= n.Keys && t * n.Keys <= u
    ensures Kept(kit, limits, t, m, o)
  {
    forall k | k in t && k in m && k in o ensures FlowOnward(m[k], o[k]) {
      assert FlowOnward(m[k], n[k]) && FlowOnward(n[k], o[k]);
    }
  }

  /** A packet moves its flow onward, or starts its key over; nothing else changes. */
  lemma FedKept<K, R(!new)>(kit: Kit<K, R>, limits: Limits, rules: Rules<K>, m: map<K, Flow<R>>, t: Table<K>, a: Arrival<K>)
    ensures var n := Fed(kit, limits, rules, m, t, a);
            && Kept(kit, limits, t.entries.Keys, m, n)
            && n.Keys <= m.Keys + {a.seen.key}
            && forall k :: k in m && k != a.seen.key ==> k in n && n[k] == m[k]
  {
    var key := a.seen.key;
    var m0 := if key in t.entries then m else m - {key};
    PoolShrinks(m, key);
    KeptSame(kit, limits, t.entries.Keys, m0);
    if a.seg.Some? {
      var entry := if key in t.entries then t.entries[key] else FreshEntry(rules, a.seen);
      var side := SideOf(entry, a.seen.forward);
      FeedTableOnward(kit, limits, m0, key, side, a.seg.value, a.want);
      if Modest(kit) && AllCovered(kit, m) {
        FeedCap(kit, limits, m0, key, side, a.seg.value, a.want);
      }
      hide FeedFlow, Pool, FlowOnward;
    }
  }

  /** Once the ended flows are gone, stream state follows the tracker as it did before the packet. */
  lemma FedSettled<K, R(!new)>(kit: Kit<K, R>, limits: Limits, rules: Rules<K>, m: map<K, Flow<R>>, t: Table<K>, a: Arrival<K>)
    ensures var (u, ev) := Track(rules, t, a.seen);
            var n := Fed(kit, limits, rules, m, t, a) - EndedKeys(ev);
            && (Settled(t.entries.Keys, m) ==> Settled(u.entries.Keys, n))
            && t.entries.Keys * n.Keys <= u.entries.Keys
            && (m.Keys <= t.entries.Keys ==> n.Keys <= u.entries.Keys)
  {
    FedKept(kit, limits, rules, m, t, a);
    TrackAccounted(rules, t, a.seen);
    hide Fed, Track, Kept, EndedKeys, EndCount;
  }

  lemma {:induction false} PoolLess<K, R>(m: map<K, Flow<R>>, gone: set<K>)
    ensures Pool(m - gone) <= Pool(m)
    decreases |gone|
  {
    if gone == {} {
      assert m - gone == m;
    } else {
      var k :| k in gone;
      PoolLess(m, gone - {k});
      PoolShrinks(m - (gone - {k}), k);
      assert m - (gone - {k}) - {k} == m - gone;
    }
  }

  /** Losing the ended flows keeps everything. */
  lemma EndedKept<K, R(!new)>(kit: Kit<K, R>, limits: Limits, tracked: set<K>, m: map<K, Flow<R>>, n: map<K, Flow<R>>, gone: set<K>)
    requires Kept(kit, limits, tracked, m, n)
    ensures Kept(kit, limits, tracked, m, n - gone)
  {
    PoolLess(n, gone);
  }

  lemma TickedSlot<K, R(!new)>(kit: Kit<K, R>, slot: Slot<R>, now: Time, drain: bool)
    ensures Onward(slot, Ticked(kit, slot, now, drain))
    ensures Modest(kit) && Covered(kit, slot) ==>
              Covered(kit, Ticked(kit, slot, now, drain)) && Acc(Ticked(kit, slot, now, drain)) <= Acc(slot)
  {
    if slot.Live? && Modest(kit) {
      var r := kit.act(slot.r, TickCall(now));
      assert kit.bytes(r) <= kit.bytes(slot.r);
      assert kit.bytes(kit.act(r, DrainCall)) <= kit.bytes(r);
    }
  }

  lemma {:induction false} PoolBelow<K, R>(m: map<K, Flow<R>>, n: map<K, Flow<R>>)
    requires m.Keys == n.Keys && forall k :: k in m ==> FlowAcc(n[k]) <= FlowAcc(m[k])
    ensures Pool(n) <= Pool(m)
    decreases |m|
  {
    if m == map[] {
      assert n == map[];
    } else {
      var k :| k in m;
      PoolWithout(m, k);
      PoolWithout(n, k);
      Smaller(m, k);
      PoolBelow(m - {k}, n - {k});
    }
  }

  lemma TickKept<K, R(!new)>(kit: Kit<K, R>, limits: Limits, tracked: set<K>, m: map<K, Flow<R>>, now: Time, drain: bool)
    ensures Kept(kit, limits, tracked, m, AllTicked(kit, m, now, drain))
  {
    var n := AllTicked(kit, m, now, drain);
    forall k | k in m
      ensures FlowOnward(m[k], n[k])
      ensures Modest(kit) && FlowCovered(kit, m[k]) ==> FlowCovered(kit, n[k]) && FlowAcc(n[k]) <= FlowAcc(m[k])
    {
      TickedSlot(kit, m[k].ini, now, drain);
      TickedSlot(kit, m[k].res, now, drain);
    }
    if Modest(kit) && AllCovered(kit, m) {
      PoolBelow(m, n);
    }
  }

  lemma DrainKept<K, R(!new)>(kit: Kit<K, R>, limits: Limits, m: map<K, Flow<R>>, key: K, side: Side, f: Flow<R>)
    requires key in m && f == m[key].Put(side, f.At(side)) && Onward(m[key].At(side), f.At(side))
    requires m[key].At(side).Live? ==> f.At(side) == Synced(kit, kit.act(m[key].At(side).r, DrainCall))
    requires m[key].At(side).Done? ==> f.At(side).Done?
    requires !m[key].At(side).Empty?
    ensures Kept(kit, limits, m.Keys, m, m[key := f])
  {
    var n := m[key := f];
    if m[key].At(side).Live? && Modest(kit) {
      assert kit.bytes(kit.act(m[key].At(side).r, DrainCall)) <= kit.bytes(m[key].At(side).r);
    }
    if Modest(kit) && AllCovered(kit, m) {
      assert FlowCovered(kit, m[key]);
      PoolBelow(m, n);
    }
  }

  lemma DiscardKept<K, R(!new)>(kit: Kit<K, R>, limits: Limits, m: map<K, Flow<R>>, key: K, side: Side, f: Flow<R>)
    requires var was := if key in m then m[key] else NewFlow();
             f == was.Put(side, f.At(side)) && f.At(side).Done? && Onward(was.At(side), f.At(side))
    ensures Kept(kit, limits, m.Keys, m, m[key := f])
  {
    if key in m {
      if Modest(kit) && AllCovered(kit, m) {
        assert FlowCovered(kit, m[key]);
        PoolBelow(m, m[key := f]);
      }
    } else {
      PoolPut(m, key, f);
      PoolAbsent(m, key);
    }
  }

  lemma CallsAre<K, R>(kit: Kit<K, R>, r: R, pass: bool, p: Segment)
    ensures var payload := p.Payload();
            var truncated := p.Wire() > |payload|;
            var r1 := if pass && !truncated then kit.act(r, SegmentIntoCall(p.DataSeq(), payload, p.ts))
                      else if payload != [] then kit.act(r, SegmentCall(p.DataSeq(), payload, p.ts)) else r;
            var r2 := if !(pass && !truncated) && truncated
                      then kit.act(r1, MissingCall((p.DataSeq() + |payload|) % TWO_32, Min(p.Wire() - |payload|, TWO_32 - 1), p.ts)) else r1;
            var r3 := if p.flags.fin then kit.act(r2, FinCall(p.FinEnd(), p.ts)) else r2;
            Apply(kit, r, DataCalls(pass, p)) == r3
  {
    var payload := p.Payload();
    var truncated := p.Wire() > |payload|;
    var fin := if p.flags.fin then [FinCall(p.FinEnd(), p.ts)] else [];
    var cut := if truncated
               then [MissingCall((p.DataSeq() + |payload|) % TWO_32, Min(p.Wire() - |payload|, TWO_32 - 1), p.ts)] else [];
    var data := if payload != [] then [SegmentCall(p.DataSeq(), payload, p.ts)] else [];
    if pass && !truncated {
      ApplyConcat(kit, r, [SegmentIntoCall(p.DataSeq(), payload, p.ts)], fin);
    } else {
      ApplyConcat(kit, r, data + cut, fin);
      ApplyConcat(kit, r, data, cut);
    }
  }

  lemma {:induction false} ApplyConcat<K, R>(kit: Kit<K, R>, r: R, a: seq<Call>, b: seq<Call>)
    ensures Apply(kit, r, a + b) == Apply(kit, Apply(kit, r, a), b)
    decreases |a|
  {
    if a == [] {
      assert a + b == b;
    } else {
      assert (a + b)[1..] == a[1..] + b;
      ApplyConcat(kit, kit.act(r, a[0]), a[1..], b);
    }
  }

  lemma EndedSnoc<K>(evs: seq<FlowEvent<K>>, i: nat)
    requires i < |evs|
    ensures EndedKeys(evs[..i + 1]) == EndedKeys(evs[..i]) + (if evs[i].Ended? then {evs[i].key} else {})
    ensures forall e :: e in evs[..i + 1] <==> e in evs[..i] || e == evs[i]
  {
    assert evs[..i + 1] == evs[..i] + [evs[i]];
  }

  lemma EndedPush<K>(evs: seq<FlowEvent<K>>, e: FlowEvent<K>)
    ensures EndedKeys(evs + [e]) == EndedKeys(evs) + (if e.Ended? then {e.key} else {})
  {
  }

  lemma {:induction false} VisibleEnds<K>(evs: seq<FlowEvent<K>>, show: bool)
    ensures EndedKeys(Visible(evs, show)) == if show then EndedKeys(evs) else {}
    decreases |evs|
  {
    if evs != [] {
      var i := |evs| - 1;
      VisibleEnds(evs[..i], show);
      assert evs[..|evs|] == evs;
      EndedSnoc(evs, i);
      EndedPush(Visible(evs[..i], show), evs[i]);
    }
  }
}

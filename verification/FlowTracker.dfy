/**
 `FlowTracker` (src/tracker.rs), updated in place, with its hot-key cache and
 its event gates, proved against the plain table of `FlowTable`.
 */
module FlowTracking {
  import opened Types
  import opened FlowTable

  datatype Kind = StartedKind | EstablishedKind | StateChangeKind | PacketKind | EndedKind

  function KindOf<K>(ev: FlowEvent<K>): Kind {
    match ev
    case Started(_, _, _) => StartedKind
    case BecameEstablished(_, _) => EstablishedKind
    case StateChange(_, _, _, _) => StateChangeKind
    case Packet(_, _, _, _) => PacketKind
    case Ended(_, _, _) => EndedKind
  }

  /** Which events reach the caller: a driver always sees every `Ended`. */
  datatype Gate = Gate(driverOwned: bool, paused: bool, suppressed: set<Kind>) {
    predicate Emits(kind: Kind) { (driverOwned && kind.EndedKind?) || (!paused && kind !in suppressed) }
  }

  function Shown<K>(gate: Gate, evs: seq<FlowEvent<K>>): seq<FlowEvent<K>> {
    if evs == [] then []
    else (if gate.Emits(KindOf(evs[0])) then [evs[0]] else []) + Shown(gate, evs[1..])
  }

  lemma {:induction false} ShownConcat<K>(gate: Gate, a: seq<FlowEvent<K>>, b: seq<FlowEvent<K>>)
    ensures Shown(gate, a + b) == Shown(gate, a) + Shown(gate, b)
    decreases |a|
  {
    if a == [] {
      assert a + b == b;
    } else {
      assert (a + b)[1..] == a[1..] + b;
      ShownConcat(gate, a[1..], b);
    }
  }

  lemma ShownOne<K>(gate: Gate, ev: FlowEvent<K>)
    ensures Shown(gate, [ev]) == if gate.Emits(KindOf(ev)) then [ev] else []
  {
  }

  lemma ShownNothing<K>(gate: Gate)
    ensures Shown<K>(gate, []) == []
  {
  }

  /** With nothing masked or paused, everything is shown. */
  lemma {:induction false} ShownAll<K>(gate: Gate, evs: seq<FlowEvent<K>>)
    requires !gate.paused && gate.suppressed == {}
    ensures Shown(gate, evs) == evs
    decreases |evs|
  {
    if evs != [] { ShownAll(gate, evs[1..]); }
  }

  /** A driver sees exactly the flows that ended, whatever the mask. */
  lemma {:induction false} EndsShown<K>(gate: Gate, evs: seq<FlowEvent<K>>)
    requires gate.driverOwned
    ensures forall e :: e in evs && e.Ended? ==> e in Shown(gate, evs)
    ensures forall e :: e in Shown(gate, evs) ==> e in evs
    decreases |evs|
  {
    if evs != [] {
      EndsShown(gate, evs[1..]);
      assert evs == [evs[0]] + evs[1..];
    }
  }

  class FlowTracker<K(==)> {
    const rules: Rules<K>
    const driverOwned: bool
    var paused: bool
    var suppressed: set<Kind>
    var entries: map<K, Entry>
    /** Least recently used first. */
    var order: seq<K>
    /** The flow of the last packet, if it is still there. */
    var hot: Option<K>
    var created: nat
    var ended: nat
    var evicted: nat
    var forgotten: nat
    var unmatched: nat
    var lastSweep: Option<Time>

    constructor (rules: Rules<K>, driverOwned: bool)
      requires rules.maxFlows > 0
      ensures Valid() && View() == EmptyTable() && this.rules == rules && this.driverOwned == driverOwned
    {
      this.rules, this.driverOwned := rules, driverOwned;
      paused, suppressed, entries, order, hot := false, {}, map[], [], None;
      created, ended, evicted, forgotten, unmatched, lastSweep := 0, 0, 0, 0, 0, None;
    }

    ghost function View(): Table<K>
      reads this
    {
      Table(entries, order, created, ended, evicted, forgotten)
    }

    function Gates(): Gate
      reads this
    {
      Gate(driverOwned, paused, suppressed)
    }

    /** The table is sound and the hot key is in it. */
    ghost predicate Valid()
      reads this
    {
      rules.maxFlows > 0 && TableInv(rules, View()) && (hot.Some? ==> hot.value in entries)
    }

    /** Take a flow out of the table. */
    method Pop(key: K)
      requires key in entries
      modifies this`entries, this`order, this`hot
      ensures View() == Remove(old(View()), key)
      ensures hot == if old(hot) == Some(key) then None else old(hot)
    {
      entries := entries - {key};
      order := Drop(order, key);
      if hot == Some(key) {
        hot := None;
      }
    }

    /** Take the least recently used flow out of a full table. */
    method EvictOne() returns (events: seq<FlowEvent<K>>)
      requires Valid() && |entries| >= rules.maxFlows
      modifies this`entries, this`order, this`hot, this`evicted, this`ended
      ensures View() == Evict(rules, old(View())).0 && events == Shown(Gates(), Evict(rules, old(View())).1)
      ensures hot.Some? ==> hot.value in entries
    {
      hide TableInv, Drop;
      FullTable(rules, View());
      RemoveKeys(View(), order[0]);
      var gone := order[0];
      var end := Ended(gone, Evicted, entries[gone].st);
      Pop(gone);
      events := if Gates().Emits(EndedKind) then [end] else [];
      evicted := evicted + 1;
      ended := ended + 1;
    }

    /** Create the flow of a first packet, evicting the least recently used one if the table is full. */
    method Create(p: Seen<K>) returns (events: seq<FlowEvent<K>>)
      requires Valid() && p.key !in entries
      modifies this`entries, this`order, this`hot, this`evicted, this`ended, this`created
      ensures Valid() && p.key in entries
      ensures View() == Admit(rules, old(View()), p).0
      ensures events == Shown(Gates(), Admit(rules, old(View()), p).1)
    {
      hide TableInv, FreshEntry, Shown;
      ghost var t := View();
      AdmitInv(rules, t, p);
      var entry := FreshEntry(rules, p);
      if |entries| >= rules.maxFlows {
        events := EvictOne();
      } else {
        events := [];
        ShownNothing<K>(Gates());
      }
      ghost var first := Evict(rules, t).1;
      assert events == Shown(Gates(), first);
      assert View() == Evict(rules, t).0;
      hide Evict;
      entries := entries[p.key := entry];
      order := order + [p.key];
      created := created + 1;
      var started := Started(p.key, SideOf(entry, p.forward), p.ts);
      ShownConcat(Gates(), first, [started]);
      ShownOne(Gates(), started);
      if Gates().Emits(StartedKind) {
        events := events + [started];
      }
    }

    /** The TCP state machine on one packet of a flow. */
    method RunStateMachine(before: Entry, p: Seen<K>) returns (entry: Entry, events: seq<FlowEvent<K>>)
      ensures var (e, ev) := Step(before, p); entry == e && events == Shown(Gates(), ev)
    {
      entry, events := before, [];
      if p.tcp.Some? {
        var flags, side := p.tcp.value, SideOf(entry, p.forward);
        var otherFin := match side case Initiator => entry.st.finR case Responder => entry.st.finI;
        if flags.fin {
          match side
          case Initiator => entry := entry.(st := entry.st.(finI := true));
          case Responder => entry := entry.(st := entry.st.(finR := true));
        }
        var state := Transition(before.state, flags, side, otherFin);
        if state != before.state {
          entry := entry.(state := state);
          if state == Established {
            if Gates().Emits(EstablishedKind) {
              events := [BecameEstablished(p.key, p.ts)];
            }
          } else if Gates().Emits(StateChangeKind) {
            events := [StateChange(p.key, before.state, state, p.ts)];
          }
        }
      }
    }

    /** Account one packet of a known flow, run its state machine, and end it in a terminal state. */
    method Account(p: Seen<K>) returns (events: seq<FlowEvent<K>>)
      requires Valid() && p.key in entries
      modifies this`entries, this`order, this`hot, this`ended
      ensures Valid()
      ensures View() == Touch(old(View()), p).0
      ensures events == Shown(Gates(), Touch(old(View()), p).1)
      ensures p.key in entries ==> hot == Some(p.key)
    {
      hide TableInv, Count, Step, Shown, Drop;
      ghost var t := View();
      TouchInv(rules, t, p);
      RemoveKeys(t, p.key);
      var side := SideOf(entries[p.key], p.forward);
      var entry;
      entry, events := RunStateMachine(Count(entries[p.key], p), p);
      ghost var ev := Step(Count(t.entries[p.key], p), p).1;
      var packet := Packet(p.key, side, p.Len(), p.ts);
      ShownConcat(Gates(), ev, [packet]);
      ShownOne(Gates(), packet);
      if Gates().Emits(PacketKind) {
        events := events + [packet];
      }
      if Terminal(entry.state) {
        Pop(p.key);
        var end := Ended(p.key, EndOf(entry.state), entry.st);
        ShownConcat(Gates(), ev + [packet], [end]);
        ShownOne(Gates(), end);
        if Gates().Emits(EndedKind) {
          events := events + [end];
        }
        ended := ended + 1;
      } else {
        entries := entries[p.key := entry];
        order := Drop(order, p.key) + [p.key];
        hot := Some(p.key);
      }
    }

    /** One packet of flow `p.key`, without the automatic sweep. */
    method TrackPacket(p: Seen<K>) returns (events: seq<FlowEvent<K>>, isNew: bool)
      requires Valid()
      modifies this
      ensures Valid() && Gates() == old(Gates()) && lastSweep == old(lastSweep)
      ensures isNew == (p.key !in old(entries))
      ensures View() == Track(rules, old(View()), p).0 && events == Shown(Gates(), Track(rules, old(View()), p).1)
    {
      hide TableInv, Touch, Shown;
      ghost var t0, gate := View(), Gates();
      KnownFlow(rules, t0, p, gate);
      // The hot key is in the table, so the lookup can be skipped for it.
      var hotHit := hot == Some(p.key);
      isNew := !hotHit && p.key !in entries;
      events := [];
      if isNew {
        events := Create(p);
      }
      ghost var t1, ev1 := View(), Admit(rules, t0, p).1;
      assert t1 == Admit(rules, t0, p).0 && events == Shown(gate, ev1);
      hide Admit;
      var more := Account(p);
      ShownConcat(gate, ev1, Touch(t1, p).1);
      events := events + more;
    }

    /** One packet; `None` is one the extractor maps to no flow. */
    method TrackWith(seen: Option<Seen<K>>) returns (events: seq<FlowEvent<K>>, isNew: bool)
      requires Valid()
      modifies this
      ensures Valid() && Gates() == old(Gates())
      ensures driverOwned ==> lastSweep == old(lastSweep)
      ensures seen.None? ==> View() == old(View()) && unmatched == old(unmatched) + 1 && events == [] && !isNew
      ensures seen.Some? ==> isNew == (seen.value.key !in old(entries))
      ensures seen.Some? ==>
                var (t, ev) := Track(rules, old(View()), seen.value);
                if driverOwned || !SweepDue(old(lastSweep), seen.value.ts)
                then View() == t && events == Shown(Gates(), ev)
                else View() == Sweep(rules, t, seen.value.ts).0
                     && events == Shown(Gates(), ev) + Shown(Gates(), Sweep(rules, t, seen.value.ts).1)
    {
      hide TableInv, Track, Sweep, Shown;
      if seen.None? {
        unmatched := unmatched + 1;
        return [], false;
      }
      events, isNew := TrackPacket(seen.value);
      if !driverOwned && SweepDue(lastSweep, seen.value.ts) {
        var swept := DoSweep(seen.value.ts);
        events := events + swept;
      }
    }

    predicate SweepDue(last: Option<Time>, ts: Time)
    {
      rules.autoSweep.Some? && (last.None? || Since(ts, last.value) >= rules.autoSweep.value)
    }

    /** End every idle flow. */
    method DoSweep(now: Time) returns (events: seq<FlowEvent<K>>)
      requires Valid()
      modifies this
      ensures Valid() && Gates() == old(Gates()) && lastSweep == Some(now)
      ensures View() == Sweep(rules, old(View()), now).0 && events == Shown(Gates(), Sweep(rules, old(View()), now).1)
    {
      lastSweep := Some(now);
      var expired := Expired(now);
      events := EndEach(expired);
    }

    /** The idle flows, most recently used first. */
    method Expired(now: Time) returns (expired: seq<K>)
      requires Valid()
      ensures expired == IdleKeys(rules, View(), order, now)
    {
      hide TableInv, Idle, IdleKeys;
      assert order[..|order|] == order;
      expired := [];
      var i := |order|;
      while i > 0
        invariant 0 <= i <= |order|
        invariant expired + IdleKeys(rules, View(), order[..i], now) == IdleKeys(rules, View(), order, now)
      {
        i := i - 1;
        var key := order[i];
        OrderIn(rules, View(), i);
        IdleStep(rules, View(), order, i, now);
        if Idle(rules, key, entries[key], now) {
          expired := expired + [key];
        }
      }
      NoIdle(rules, View(), now);
    }

    method EndEach(keys: seq<K>) returns (events: seq<FlowEvent<K>>)
      requires Valid()
      modifies this
      ensures Valid() && Gates() == old(Gates()) && lastSweep == old(lastSweep)
      ensures View() == EndAll(old(View()), keys, IdleTimeout).0
      ensures events == Shown(Gates(), EndAll(old(View()), keys, IdleTimeout).1)
    {
      hide TableInv, End, Shown;
      events := [];
      ShownNothing<K>(Gates());
      ghost var t := View();
      ghost var all := EndAll(t, keys, IdleTimeout);
      var j := 0;
      while j < |keys|
        invariant 0 <= j <= |keys| && Valid() && Gates() == old(Gates()) && lastSweep == old(lastSweep)
        invariant all.0 == EndAll(View(), keys[j..], IdleTimeout).0
        invariant Shown(Gates(), all.1) == events + Shown(Gates(), EndAll(View(), keys[j..], IdleTimeout).1)
      {
        assert keys[j..][1..] == keys[j + 1..];
        ghost var one := End(View(), keys[j], IdleTimeout);
        ShownConcat(Gates(), one.1, EndAll(one.0, keys[j + 1..], IdleTimeout).1);
        var more := EndIdle(keys[j]);
        events := events + more;
        j := j + 1;
      }
      assert keys[|keys|..] == [];
    }

    /** End one idle flow. */
    method EndIdle(key: K) returns (events: seq<FlowEvent<K>>)
      requires Valid()
      modifies this
      ensures Valid() && Gates() == old(Gates()) && lastSweep == old(lastSweep)
      ensures View() == End(old(View()), key, IdleTimeout).0
      ensures events == Shown(Gates(), End(old(View()), key, IdleTimeout).1)
    {
      hide TableInv, Drop;
      EndInv(rules, View(), key, IdleTimeout);
      events := [];
      if key in entries {
        NotTerminal(rules, View(), key);
        var entry := entries[key];
        RemoveKeys(View(), key);
        Pop(key);
        if entry.state == Closed || entry.state == Reset {
          // Already reported: such a flow is never stored.
          assert false;
        }
        ended := ended + 1;
        if Gates().Emits(EndedKind) {
          events := [Ended(key, IdleTimeout, entry.st)];
        }
      }
    }

    method ForceClose(key: K) returns (ev: Option<FlowEvent<K>>)
      requires Valid()
      modifies this
      ensures Valid() && Gates() == old(Gates())
      ensures View() == End(old(View()), key, ForceClosed).0
      ensures ev == if key in old(entries) then Some(Ended(key, ForceClosed, old(entries)[key].st)) else None
    {
      hide TableInv, Drop;
      EndInv(rules, View(), key, ForceClosed);
      if key !in entries {
        return None;
      }
      var st := entries[key].st;
      RemoveKeys(View(), key);
      Pop(key);
      ended := ended + 1;
      return Some(Ended(key, ForceClosed, st));
    }

    method DoForget(key: K) returns (removed: bool)
      requires Valid()
      modifies this
      ensures Valid() && Gates() == old(Gates())
      ensures View() == Forget(old(View()), key) && removed == (key in old(entries))
    {
      hide TableInv, Drop;
      ForgetInv(rules, View(), key);
      removed := key in entries;
      if removed {
        RemoveKeys(View(), key);
        Pop(key);
        forgotten := forgotten + 1;
      }
    }
  }

  lemma NotTerminal<K>(rules: Rules<K>, t: Table<K>, key: K)
    requires TableInv(rules, t) && key in t.entries
    ensures !Terminal(t.entries[key].state)
  {
  }

  lemma RemoveKeys<K>(t: Table<K>, key: K)
    ensures Remove(t, key).entries.Keys == t.entries.Keys - {key}
  {
  }

  /** A known flow needs no admission. */
  lemma KnownFlow<K>(rules: Rules<K>, t: Table<K>, p: Seen<K>, gate: Gate)
    ensures p.key in t.entries ==> Admit(rules, t, p) == (t, []) && Shown(gate, Admit(rules, t, p).1) == []
  {
  }

  lemma FullTable<K>(rules: Rules<K>, t: Table<K>)
    requires rules.maxFlows > 0 && TableInv(rules, t) && |t.entries| >= rules.maxFlows
    ensures t.order != [] && t.order[0] in t.entries
  {
    InMembers(t.order, t.order[0]);
  }

  lemma IdleStep<K>(rules: Rules<K>, t: Table<K>, order: seq<K>, i: nat, now: Time)
    requires i < |order| && order[i] in t.entries
    ensures IdleKeys(rules, t, order[..i + 1], now)
         == (if Idle(rules, order[i], t.entries[order[i]], now) then [order[i]] else []) + IdleKeys(rules, t, order[..i], now)
  {
    assert order[..i + 1][..i] == order[..i];
  }

  lemma NoIdle<K>(rules: Rules<K>, t: Table<K>, now: Time)
    ensures IdleKeys(rules, t, [], now) == []
  {
  }

  lemma OrderIn<K>(rules: Rules<K>, t: Table<K>, i: nat)
    requires TableInv(rules, t) && i < |t.order|
    ensures t.order[i] in t.entries
  {
    InMembers(t.order, t.order[i]);
  }
}

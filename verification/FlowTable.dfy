/**
 The flow table (src/tracker.rs) and the TCP state machine (src/tcp_state.rs)
 as functions on values. The most-recently-used cache key does not appear here:
 a flow is new when it is not in the table.
 */
module FlowTable {
  import opened Types

  // ----- the TCP state machine (section 3.5 of RFC 793)

  datatype FlowState = SynSent | SynReceived | Established | FinWait | ClosingTcp | Active | Closed | Reset | Aborted

  datatype Side = Initiator | Responder

  datatype Flags = Flags(syn: bool, ack: bool, fin: bool, rst: bool)

  function Transition(state: FlowState, flags: Flags, side: Side, otherFin: bool): FlowState {
    if flags.rst then Reset
    else if state == Active && side == Initiator && flags.syn then SynSent
    else if state == SynSent && side == Responder && flags.syn && flags.ack then SynReceived
    else if state == SynReceived && side == Initiator && flags.ack then Established
    else if state == Established && flags.fin then FinWait
    else if state == FinWait && flags.fin && otherFin then ClosingTcp
    else if state == ClosingTcp && flags.ack then Closed
    else state
  }

  predicate Terminal(state: FlowState) { state == Closed || state == Reset || state == Aborted }

  /** Past the three-way handshake and not ended. */
  predicate Open(state: FlowState) { state == Established || state == FinWait || state == ClosingTcp }

  // ----- flows

  datatype Proto = Tcp | Udp | OtherProto

  datatype Stats = Stats(
    packetsI: nat, packetsR: nat, bytesI: nat, bytesR: nat, ipI: nat, ipR: nat,
    finI: bool, finR: bool, lastSeen: Time)

  datatype Entry = Entry(state: FlowState, forward: bool, proto: Proto, st: Stats)

  datatype EndReason = Fin | Rst | IdleTimeout | Evicted | ForceClosed

  datatype FlowEvent<K> =
    | Started(key: K, side: Side, ts: Time)
    | BecameEstablished(key: K, ts: Time)
    | StateChange(key: K, from: FlowState, to: FlowState, ts: Time)
    | Packet(key: K, side: Side, len: nat, ts: Time)
    | Ended(key: K, reason: EndReason, st: Stats)

  /** A packet the extractor mapped to a flow: orientation, lengths and TCP flags. */
  datatype Seen<K> = Seen(
    key: K, forward: bool, proto: Proto, tcp: Option<Flags>,
    captured: nat, wire: nat, headerCut: nat, l3: Option<nat>, ts: Time)
  {
    /** The larger of the reported length and what headers claim. */
    function Len(): nat { Max(wire, captured + headerCut) }

    /** Length from the IP header on, at most `Len()`. */
    function IpLen(): nat { if l3.None? then Len() else Min(l3.value, Len()) }
  }

  datatype Rules<!K> = Rules(maxFlows: nat, inferInitiator: bool, timeout: (K, Proto) -> Time, autoSweep: Option<Time>)

  /** `order` lists the keys, least recently seen first. */
  datatype Table<K> = Table(entries: map<K, Entry>, order: seq<K>, created: nat, ended: nat, evicted: nat, forgotten: nat)

  function EmptyTable<K>(): Table<K> { Table(map[], [], 0, 0, 0, 0) }

  function Drop<K(==)>(order: seq<K>, key: K): seq<K> {
    if order == [] then [] else if order[0] == key then order[1..] else [order[0]] + Drop(order[1..], key)
  }

  function FreshEntry<K>(rules: Rules<K>, p: Seen<K>): Entry {
    var flip := rules.inferInitiator && p.tcp.Some? && p.tcp.value.syn && p.tcp.value.ack;
    Entry(Active, if flip then !p.forward else p.forward, p.proto, Stats(0, 0, 0, 0, 0, 0, false, false, p.ts))
  }

  function SideOf(e: Entry, forward: bool): Side { if forward == e.forward then Initiator else Responder }

  function Remove<K(==)>(t: Table<K>, key: K): Table<K> { t.(entries := t.entries - {key}, order := Drop(t.order, key)) }

  /** A full table gives up its least recently seen flow. */
  function Evict<K(==)>(rules: Rules<K>, t: Table<K>): (Table<K>, seq<FlowEvent<K>>) {
    if |t.entries| < rules.maxFlows || t.order == [] || t.order[0] !in t.entries then (t, [])
    else
      var k := t.order[0];
      (Remove(t, k).(ended := t.ended + 1, evicted := t.evicted + 1), [Ended(k, Evicted, t.entries[k].st)])
  }

  /** Look the flow up, creating it if need be. */
  function Admit<K(==)>(rules: Rules<K>, t: Table<K>, p: Seen<K>): (r: (Table<K>, seq<FlowEvent<K>>))
    ensures p.key in r.0.entries
  {
    if p.key in t.entries then (t, [])
    else
      var (u, ev) := Evict(rules, t);
      var e := FreshEntry(rules, p);
      (u.(entries := u.entries[p.key := e], order := u.order + [p.key], created := u.created + 1),
       ev + [Started(p.key, SideOf(e, p.forward), p.ts)])
  }

  function Count<K>(e: Entry, p: Seen<K>): Entry {
    var st := e.st.(lastSeen := p.ts);
    e.(st := if SideOf(e, p.forward).Initiator?
             then st.(packetsI := st.packetsI + 1, bytesI := st.bytesI + p.Len(), ipI := st.ipI + p.IpLen())
             else st.(packetsR := st.packetsR + 1, bytesR := st.bytesR + p.Len(), ipR := st.ipR + p.IpLen()))
  }

  /** Run the state machine on one TCP packet. */
  function Step<K>(e: Entry, p: Seen<K>): (Entry, seq<FlowEvent<K>>) {
    if p.tcp.None? then (e, [])
    else
      var flags, side := p.tcp.value, SideOf(e, p.forward);
      var otherFin := if side.Initiator? then e.st.finR else e.st.finI;
      var st := if !flags.fin then e.st else if side.Initiator? then e.st.(finI := true) else e.st.(finR := true);
      var next := Transition(e.state, flags, side, otherFin);
      (e.(st := st, state := next),
       if next == e.state then []
       else if next == Established then [BecameEstablished(p.key, p.ts)]
       else [StateChange(p.key, e.state, next, p.ts)])
  }

  function EndOf(state: FlowState): EndReason { if state == Reset then Rst else Fin }

  /** One packet of a known flow: counters, state machine, and the end of the flow. */
  function Touch<K(==)>(t: Table<K>, p: Seen<K>): (Table<K>, seq<FlowEvent<K>>)
    requires p.key in t.entries
  {
    var side := SideOf(t.entries[p.key], p.forward);
    var (e, ev) := Step(Count(t.entries[p.key], p), p);
    var all := ev + [Packet(p.key, side, p.Len(), p.ts)];
    if Terminal(e.state) then (Remove(t, p.key).(ended := t.ended + 1), all + [Ended(p.key, EndOf(e.state), e.st)])
    else (t.(entries := t.entries[p.key := e], order := Drop(t.order, p.key) + [p.key]), all)
  }

  function Track<K(==)>(rules: Rules<K>, t: Table<K>, p: Seen<K>): (Table<K>, seq<FlowEvent<K>>) {
    var (u, ev) := Admit(rules, t, p);
    var (w, ev2) := Touch(u, p);
    (w, ev + ev2)
  }

  // ----- ends without a packet

  /** Remove a flow, reporting why. */
  function End<K(==)>(t: Table<K>, key: K, reason: EndReason): (Table<K>, seq<FlowEvent<K>>) {
    if key !in t.entries then (t, [])
    else (Remove(t, key).(ended := t.ended + 1), [Ended(key, reason, t.entries[key].st)])
  }

  function EndAll<K(==)>(t: Table<K>, keys: seq<K>, reason: EndReason): (Table<K>, seq<FlowEvent<K>>)
    decreases |keys|
  {
    if keys == [] then (t, [])
    else
      var (u, ev) := End(t, keys[0], reason);
      var (w, ev2) := EndAll(u, keys[1..], reason);
      (w, ev + ev2)
  }

  predicate Idle<K>(rules: Rules<K>, key: K, e: Entry, now: Time) {
    Since(now, e.st.lastSeen) >= rules.timeout(key, e.proto)
  }

  /** The idle keys among `order`, most recently seen first. */
  function IdleKeys<K(==)>(rules: Rules<K>, t: Table<K>, order: seq<K>, now: Time): seq<K> {
    if order == [] then []
    else
      var k, rest := order[|order| - 1], order[..|order| - 1];
      (if k in t.entries && Idle(rules, k, t.entries[k], now) then [k] else []) + IdleKeys(rules, t, rest, now)
  }

  function Sweep<K(==)>(rules: Rules<K>, t: Table<K>, now: Time): (Table<K>, seq<FlowEvent<K>>) {
    EndAll(t, IdleKeys(rules, t, t.order, now), IdleTimeout)
  }

  function Forget<K(==)>(t: Table<K>, key: K): Table<K> {
    if key !in t.entries then t else Remove(t, key).(forgotten := t.forgotten + 1)
  }

  // ----- what every operation keeps

  ghost predicate NoDup<K>(s: seq<K>) { forall i, j :: 0 <= i < j < |s| ==> s[i] != s[j] }

  function Members<K(==)>(s: seq<K>): set<K> { set k | k in s }

  /** The recency list is exactly the table's keys. */
  ghost predicate Listed<K>(t: Table<K>) {
    NoDup(t.order) && |t.order| == |t.entries| && Members(t.order) == t.entries.Keys
  }

  /** Nothing terminal is stored; IP bytes never exceed wire bytes; a closing flow has both FINs. */
  predicate EntryOk(e: Entry) {
    && !Terminal(e.state)
    && e.st.ipI <= e.st.bytesI && e.st.ipR <= e.st.bytesR
    && (e.state == ClosingTcp ==> e.st.finI && e.st.finR)
  }

  ghost predicate TableInv<K>(rules: Rules<K>, t: Table<K>) {
    && Listed(t)
    && |t.entries| <= rules.maxFlows
    && (forall k :: k in t.entries ==> EntryOk(t.entries[k]))
    && t.created == t.ended + t.forgotten + |t.entries|
  }

  lemma {:induction false} DropKeeps<K>(s: seq<K>, key: K)
    requires NoDup(s) && key in s
    ensures NoDup(Drop(s, key)) && |Drop(s, key)| == |s| - 1
    ensures Members(Drop(s, key)) == Members(s) - {key}
  {
    if s[0] != key {
      assert s == [s[0]] + s[1..];
      assert Members(s) == {s[0]} + Members(s[1..]);
      assert NoDup(s[1..]) by {
        forall i, j | 0 <= i < j < |s[1..]| ensures s[1..][i] != s[1..][j] { assert s[i + 1] != s[j + 1]; }
      }
      DropKeeps(s[1..], key);
      var d := Drop(s[1..], key);
      forall i | 0 <= i < |s[1..]| ensures s[1..][i] != s[0] { assert s[0] != s[i + 1]; }
      assert s[0] !in Members(d);
      ConsNoDup(s[0], d);
      assert Members([s[0]] + d) == {s[0]} + Members(d);
    } else {
      forall i, j | 0 <= i < j < |s[1..]| ensures s[1..][i] != s[1..][j] { assert s[i + 1] != s[j + 1]; }
      forall k | k in s[1..] ensures k in s && k != key {
        var i :| 0 <= i < |s[1..]| && s[1..][i] == k;
        assert s[0] != s[i + 1];
      }
      assert s == [s[0]] + s[1..];
    }
  }

  lemma ConsNoDup<K>(x: K, s: seq<K>)
    requires NoDup(s) && x !in s
    ensures NoDup([x] + s)
  {
    forall i, j | 0 <= i < j < |[x] + s| ensures ([x] + s)[i] != ([x] + s)[j] {
      if i > 0 { assert s[i - 1] != s[j - 1]; }
    }
  }

  lemma SnocNoDup<K>(s: seq<K>, x: K)
    requires NoDup(s) && x !in s
    ensures NoDup(s + [x])
  {
  }

  lemma InMembers<K>(s: seq<K>, key: K)
    ensures key in Members(s) <==> key in s
  {
  }

  lemma SnocMembers<K>(s: seq<K>, key: K)
    ensures Members(s + [key]) == Members(s) + {key}
  {
  }

  lemma RemoveInv<K>(t: Table<K>, key: K)
    requires Listed(t) && key in t.entries
    ensures Listed(Remove(t, key)) && |Remove(t, key).entries| == |t.entries| - 1
  {
    hide Drop, NoDup, Members;
    assert key in t.order by { InMembers(t.order, key); }
    DropKeeps(t.order, key);
    assert t.entries.Keys == (t.entries - {key}).Keys + {key};
  }

  lemma AddInv<K>(t: Table<K>, key: K, e: Entry)
    requires Listed(t) && key !in t.entries
    ensures var u := t.(entries := t.entries[key := e], order := t.order + [key]);
            Listed(u) && |u.entries| == |t.entries| + 1
  {
    hide NoDup, Members;
    InMembers(t.order, key);
    SnocNoDup(t.order, key);
    SnocMembers(t.order, key);
    assert t.entries[key := e].Keys == t.entries.Keys + {key};
  }

  lemma EvictInv<K>(rules: Rules<K>, t: Table<K>)
    requires rules.maxFlows > 0 && TableInv(rules, t)
    ensures var u := Evict(rules, t).0; TableInv(rules, u) && |u.entries| < rules.maxFlows
  {
    hide Drop, NoDup, Members, EntryOk;
    if |t.entries| >= rules.maxFlows {
      InMembers(t.order, t.order[0]);
      RemoveInv(t, t.order[0]);
    }
  }

  lemma AdmitInv<K>(rules: Rules<K>, t: Table<K>, p: Seen<K>)
    requires rules.maxFlows > 0 && TableInv(rules, t)
    ensures TableInv(rules, Admit(rules, t, p).0)
  {
    hide NoDup, Members;
    if p.key !in t.entries {
      EvictInv(rules, t);
      var u := Evict(rules, t).0;
      EvictFrom(rules, t);
      hide Evict;
      AddInv(u, p.key, FreshEntry(rules, p));
    }
  }

  lemma EvictFrom<K>(rules: Rules<K>, t: Table<K>)
    ensures Evict(rules, t).0.entries.Keys <= t.entries.Keys
  {
  }

  lemma StepOk<K>(e: Entry, p: Seen<K>)
    requires EntryOk(e)
    ensures var u := Step(Count(e, p), p).0;
            EntryOk(u.(state := if Terminal(u.state) then Active else u.state)) && u.state != Aborted
            && (u.state == Closed ==> u.st.finI && u.st.finR && Open(e.state))
  {
  }

  lemma TouchInv<K>(rules: Rules<K>, t: Table<K>, p: Seen<K>)
    requires TableInv(rules, t) && p.key in t.entries
    ensures TableInv(rules, Touch(t, p).0)
  {
    hide Step, Count, EntryOk, Drop, NoDup, Members;
    RemoveInv(t, p.key);
    var u := Remove(t, p.key);
    var e := Step(Count(t.entries[p.key], p), p).0;
    TouchEntry(t.entries[p.key], p);
    AddInv(u, p.key, e);
    assert u.entries[p.key := e] == t.entries[p.key := e];
  }

  lemma TouchEntry<K>(e: Entry, p: Seen<K>)
    requires EntryOk(e)
    ensures var u := Step(Count(e, p), p).0; !Terminal(u.state) ==> EntryOk(u)
  {
    StepOk(e, p);
    hide Step, Count;
  }

  lemma TrackInv<K>(rules: Rules<K>, t: Table<K>, p: Seen<K>)
    requires rules.maxFlows > 0 && TableInv(rules, t)
    ensures TableInv(rules, Track(rules, t, p).0)
  {
    hide Admit, Touch, TableInv;
    AdmitInv(rules, t, p);
    TouchInv(rules, Admit(rules, t, p).0, p);
  }

  lemma EndInv<K>(rules: Rules<K>, t: Table<K>, key: K, reason: EndReason)
    requires TableInv(rules, t)
    ensures TableInv(rules, End(t, key, reason).0)
  {
    hide Drop, NoDup, Members, EntryOk;
    if key in t.entries {
      RemoveInv(t, key);
    }
  }

  lemma ForgetInv<K>(rules: Rules<K>, t: Table<K>, key: K)
    requires TableInv(rules, t)
    ensures TableInv(rules, Forget(t, key))
  {
    hide Drop, NoDup, Members, EntryOk;
    if key in t.entries {
      RemoveInv(t, key);
    }
  }

  lemma {:induction false} EndAllInv<K>(rules: Rules<K>, t: Table<K>, keys: seq<K>, reason: EndReason)
    requires TableInv(rules, t)
    ensures TableInv(rules, EndAll(t, keys, reason).0)
    decreases |keys|
  {
    hide End, TableInv;
    if keys != [] {
      EndInv(rules, t, keys[0], reason);
      EndAllInv(rules, End(t, keys[0], reason).0, keys[1..], reason);
    }
  }

  // ----- what a sweep removes

  lemma {:induction false} EndAllEntries<K>(t: Table<K>, keys: seq<K>, reason: EndReason)
    ensures EndAll(t, keys, reason).0.entries == t.entries - Members(keys)
    decreases |keys|
  {
    hide Drop;
    if keys != [] {
      EndAllEntries(End(t, keys[0], reason).0, keys[1..], reason);
      assert keys == [keys[0]] + keys[1..];
      assert Members(keys) == {keys[0]} + Members(keys[1..]);
    }
  }

  lemma {:induction false} IdleMembers<K>(rules: Rules<K>, t: Table<K>, order: seq<K>, now: Time, k: K)
    ensures k in IdleKeys(rules, t, order, now) <==> k in order && k in t.entries && Idle(rules, k, t.entries[k], now)
    decreases |order|
  {
    hide Idle;
    if order != [] {
      var rest := order[..|order| - 1];
      assert order == rest + [order[|order| - 1]];
      IdleMembers(rules, t, rest, now, k);
    }
  }

  /** A sweep removes exactly the idle flows and leaves every other entry as it is. */
  lemma SweepExact<K>(rules: Rules<K>, t: Table<K>, now: Time)
    requires TableInv(rules, t)
    ensures Sweep(rules, t, now).0.entries == map k | k in t.entries && !Idle(rules, k, t.entries[k], now) :: t.entries[k]
  {
    hide Idle, EndAll, IdleKeys;
    var gone := IdleKeys(rules, t, t.order, now);
    EndAllEntries(t, gone, IdleTimeout);
    forall k | k in t.entries ensures k in Members(gone) <==> Idle(rules, k, t.entries[k], now) {
      IdleMembers(rules, t, t.order, now, k);
      InMembers(t.order, k);
      InMembers(gone, k);
    }
  }
}

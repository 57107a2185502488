/** Whole runs of the flow tracker: balanced counters, the grammar of each key's events, and fair eviction. */
module FlowTrace {
  import opened Types
  import opened FlowTable

  // ----- the grammar, as an automaton reading one key's events

  /** Between flows, inside one (established or not, with what its packets add up to), or ungrammatical. */
  datatype Phase = Outside | Inside(est: bool, packetsI: nat, packetsR: nat, bytesI: nat, bytesR: nat) | Broken

  /** The totals reported at the end are those of the bracket's packets; a FIN end needs a full handshake and two FINs. */
  predicate Proper(ph: Phase, reason: EndReason, st: Stats)
    requires ph.Inside?
  {
    && st.packetsI == ph.packetsI && st.packetsR == ph.packetsR && st.bytesI == ph.bytesI && st.bytesR == ph.bytesR
    && st.ipI <= st.bytesI && st.ipR <= st.bytesR
    && (reason == Fin ==> ph.est && st.finI && st.finR)
  }

  function Next<K(==)>(key: K, ph: Phase, ev: FlowEvent<K>): Phase {
    if ev.key != key then ph
    else match ev
      case Started(_, _, _) => if ph.Outside? then Inside(false, 0, 0, 0, 0) else Broken
      case BecameEstablished(_, _) => if ph.Inside? && !ph.est then ph.(est := true) else Broken
      case StateChange(_, _, _, _) => if ph.Inside? then ph else Broken
      case Packet(_, side, len, _) =>
        if !ph.Inside? then Broken
        else if side.Initiator? then ph.(packetsI := ph.packetsI + 1, bytesI := ph.bytesI + len)
        else ph.(packetsR := ph.packetsR + 1, bytesR := ph.bytesR + len)
      case Ended(_, reason, st) => if ph.Inside? && Proper(ph, reason, st) then Outside else Broken
  }

  function Read<K(==)>(key: K, ph: Phase, evs: seq<FlowEvent<K>>): Phase
    decreases |evs|
  {
    if evs == [] then ph else Read(key, Next(key, ph, evs[0]), evs[1..])
  }

  lemma {:induction false} ReadConcat<K>(key: K, ph: Phase, a: seq<FlowEvent<K>>, b: seq<FlowEvent<K>>)
    ensures Read(key, ph, a + b) == Read(key, Read(key, ph, a), b)
    decreases |a|
  {
    hide Next;
    if a == [] {
      assert a + b == b;
    } else {
      assert (a + b)[1..] == a[1..] + b;
      ReadConcat(key, Next(key, ph, a[0]), a[1..], b);
    }
  }

  /** Where the reading of a key should stand, given the table. */
  function PhaseOf<K>(t: Table<K>, key: K): Phase {
    if key !in t.entries then Outside
    else
      var e := t.entries[key];
      Inside(Open(e.state), e.st.packetsI, e.st.packetsR, e.st.bytesI, e.st.bytesR)
  }

  lemma Read1<K>(key: K, ph: Phase, ev: FlowEvent<K>)
    ensures Read(key, ph, [ev]) == Next(key, ph, ev)
  {
    hide Next;
    assert Read(key, Next(key, ph, ev), [ev][1..]) == Next(key, ph, ev);
  }

  lemma EndReads<K>(rules: Rules<K>, t: Table<K>, gone: K, reason: EndReason, key: K)
    requires TableInv(rules, t) && reason != Fin
    ensures var (u, ev) := End(t, gone, reason); Read(key, PhaseOf(t, key), ev) == PhaseOf(u, key)
  {
    hide Drop, Listed;
    if gone in t.entries {
      Read1(key, PhaseOf(t, key), Ended(gone, reason, t.entries[gone].st));
    }
  }

  lemma EvictIsEnd<K>(rules: Rules<K>, t: Table<K>)
    ensures var (u, ev) := Evict(rules, t);
            (u, ev) == (t, []) ||
            (t.order != [] && (u.(evicted := t.evicted), ev) == End(t, t.order[0], Evicted))
  {
  }

  lemma AdmitReads<K>(rules: Rules<K>, t: Table<K>, p: Seen<K>, key: K)
    requires TableInv(rules, t)
    ensures var (u, ev) := Admit(rules, t, p); Read(key, PhaseOf(t, key), ev) == PhaseOf(u, key)
  {
    if p.key !in t.entries {
      EvictIsEnd(rules, t);
      if t.order != [] { EndReads(rules, t, t.order[0], Evicted, key); }
      EvictFrom(rules, t);
      hide Evict, TableInv;
      var (u, ev) := Evict(rules, t);
      var start := Started(p.key, SideOf(FreshEntry(rules, p), p.forward), p.ts);
      ReadConcat(key, PhaseOf(t, key), ev, [start]);
      Read1(key, PhaseOf(u, key), start);
    }
  }

  /** Counters, then at most one state event, then the packet event, then perhaps the end. */
  lemma TouchReads<K>(rules: Rules<K>, t: Table<K>, p: Seen<K>, key: K)
    requires TableInv(rules, t) && p.key in t.entries
    ensures var (u, ev) := Touch(t, p); Read(key, PhaseOf(t, key), ev) == PhaseOf(u, key)
  {
    hide Listed, Drop, Read, Step, Count;
    var e := t.entries[p.key];
    var side := SideOf(e, p.forward);
    var (f, ev) := Step(Count(e, p), p);
    var packet := Packet(p.key, side, p.Len(), p.ts);
    var ph := PhaseOf(t, key);
    ReadConcat(key, ph, ev, [packet]);
    Read1(key, Read(key, ph, ev), packet);
    var ended := Ended(p.key, EndOf(f.state), f.st);
    ReadConcat(key, ph, ev + [packet], [ended]);
    Read1(key, Next(key, Read(key, ph, ev), packet), ended);
    if key == p.key {
      OwnReads(e, p, ph);
    } else {
      OthersSkip(e, p, key, ph);
    }
  }

  lemma OthersSkip<K>(e: Entry, p: Seen<K>, key: K, ph: Phase)
    requires key != p.key
    ensures Read(key, ph, Step(Count(e, p), p).1) == ph
  {
    var ev := Step(Count(e, p), p).1;
    if ev != [] { Read1(key, ph, ev[0]); }
  }

  lemma OwnReads<K>(e: Entry, p: Seen<K>, ph: Phase)
    requires EntryOk(e) && ph == Inside(Open(e.state), e.st.packetsI, e.st.packetsR, e.st.bytesI, e.st.bytesR)
    ensures var (f, ev) := Step(Count(e, p), p);
            var packet := Packet(p.key, SideOf(e, p.forward), p.Len(), p.ts);
            var after := Next(p.key, Read(p.key, ph, ev), packet);
            && after.Inside?
            && (!Terminal(f.state) ==>
                  after == Inside(Open(f.state), f.st.packetsI, f.st.packetsR, f.st.bytesI, f.st.bytesR))
            && (Terminal(f.state) ==> Proper(after, EndOf(f.state), f.st))
  {
    StepOk(e, p);
    var (f, ev) := Step(Count(e, p), p);
    CountShape(e, p);
    StepShape(Count(e, p), p);
    hide Step, Count;
    if ev != [] { Read1(p.key, ph, ev[0]); }
  }

  lemma CountShape<K>(e: Entry, p: Seen<K>)
    ensures var c := Count(e, p);
            && c.state == e.state && c.forward == e.forward
            && (SideOf(e, p.forward).Initiator? ==>
                  c.st.packetsI == e.st.packetsI + 1 && c.st.bytesI == e.st.bytesI + p.Len()
                  && c.st.packetsR == e.st.packetsR && c.st.bytesR == e.st.bytesR)
            && (SideOf(e, p.forward).Responder? ==>
                  c.st.packetsR == e.st.packetsR + 1 && c.st.bytesR == e.st.bytesR + p.Len()
                  && c.st.packetsI == e.st.packetsI && c.st.bytesI == e.st.bytesI)
  {
  }

  /** At most one event, and an Established exactly when the flow opens. */
  lemma StepShape<K>(e: Entry, p: Seen<K>)
    requires !Terminal(e.state)
    ensures var (f, ev) := Step(e, p);
            && f.st.(finI := e.st.finI, finR := e.st.finR) == e.st
            && |ev| <= 1 && (forall x :: x in ev ==> x.key == p.key && (x.BecameEstablished? || x.StateChange?))
            && (ev != [] && ev[0].BecameEstablished? <==> !Open(e.state) && Open(f.state))
            && (!Terminal(f.state) && Open(e.state) ==> Open(f.state))
  {
  }

  lemma TrackReads<K>(rules: Rules<K>, t: Table<K>, p: Seen<K>, key: K)
    requires rules.maxFlows > 0 && TableInv(rules, t)
    ensures var (u, ev) := Track(rules, t, p); Read(key, PhaseOf(t, key), ev) == PhaseOf(u, key)
  {
    hide Admit, Touch, TableInv, Read;
    AdmitInv(rules, t, p);
    AdmitReads(rules, t, p, key);
    var (u, ev) := Admit(rules, t, p);
    TouchReads(rules, u, p, key);
    ReadConcat(key, PhaseOf(t, key), ev, Touch(u, p).1);
  }

  lemma {:induction false} EndAllReads<K>(rules: Rules<K>, t: Table<K>, keys: seq<K>, reason: EndReason, key: K)
    requires TableInv(rules, t) && reason != Fin
    ensures var (u, ev) := EndAll(t, keys, reason); Read(key, PhaseOf(t, key), ev) == PhaseOf(u, key)
    decreases |keys|
  {
    hide End, TableInv, Read, Next;
    if keys == [] {
      assert Read(key, PhaseOf(t, key), []) == PhaseOf(t, key) by { ReadNothing(key, PhaseOf(t, key)); }
    } else {
      var (u, ev) := End(t, keys[0], reason);
      EndInv(rules, t, keys[0], reason);
      EndReads(rules, t, keys[0], reason, key);
      EndAllReads(rules, u, keys[1..], reason, key);
      ReadConcat(key, PhaseOf(t, key), ev, EndAll(u, keys[1..], reason).1);
    }
  }

  lemma ReadNothing<K>(key: K, ph: Phase)
    ensures Read(key, ph, []) == ph
  {
  }

  // ----- runs

  datatype Op<K> = Arrive(p: Seen<K>) | SweepAt(now: Time) | Force(key: K) | Lose(key: K)

  function Do<K(==)>(rules: Rules<K>, t: Table<K>, op: Op<K>): (Table<K>, seq<FlowEvent<K>>) {
    match op
    case Arrive(p) => Track(rules, t, p)
    case SweepAt(now) => Sweep(rules, t, now)
    case Force(key) => End(t, key, ForceClosed)
    case Lose(key) => (Forget(t, key), [])
  }

  /** The table and the whole event history after a run. */
  function Run<K(==)>(rules: Rules<K>, t: Table<K>, ops: seq<Op<K>>): (Table<K>, seq<FlowEvent<K>>)
    decreases |ops|
  {
    if ops == [] then (t, [])
    else
      var (u, ev) := Do(rules, t, ops[0]);
      var (w, rest) := Run(rules, u, ops[1..]);
      (w, ev + rest)
  }

  lemma DoInv<K>(rules: Rules<K>, t: Table<K>, op: Op<K>)
    requires rules.maxFlows > 0 && TableInv(rules, t)
    ensures TableInv(rules, Do(rules, t, op).0)
  {
    hide TableInv, Track, End, EndAll, IdleKeys, Forget;
    match op
    case Arrive(p) => TrackInv(rules, t, p);
    case SweepAt(now) => EndAllInv(rules, t, IdleKeys(rules, t, t.order, now), IdleTimeout);
    case Force(key) => EndInv(rules, t, key, ForceClosed);
    case Lose(key) => ForgetInv(rules, t, key);
  }

  lemma DoReads<K>(rules: Rules<K>, t: Table<K>, op: Op<K>, key: K)
    requires rules.maxFlows > 0 && TableInv(rules, t) && !op.Lose?
    ensures var (u, ev) := Do(rules, t, op); Read(key, PhaseOf(t, key), ev) == PhaseOf(u, key)
  {
    hide TableInv, Track, End, EndAll, IdleKeys, Read;
    match op
    case Arrive(p) => TrackReads(rules, t, p, key);
    case SweepAt(now) => EndAllReads(rules, t, IdleKeys(rules, t, t.order, now), IdleTimeout, key);
    case Force(k) => EndReads(rules, t, k, ForceClosed, key);
  }

  /** Created flows are ended, forgotten or live; no stored flow is terminal; the table never exceeds its size. */
  lemma {:induction false} Balanced<K>(rules: Rules<K>, t: Table<K>, ops: seq<Op<K>>)
    requires rules.maxFlows > 0 && TableInv(rules, t)
    ensures TableInv(rules, Run(rules, t, ops).0)
    decreases |ops|
  {
    hide TableInv, Do;
    if ops != [] {
      DoInv(rules, t, ops[0]);
      Balanced(rules, Do(rules, t, ops[0]).0, ops[1..]);
    }
  }

  lemma {:induction false} RunReads<K>(rules: Rules<K>, t: Table<K>, ops: seq<Op<K>>, key: K)
    requires rules.maxFlows > 0 && TableInv(rules, t) && forall op :: op in ops ==> !op.Lose?
    ensures var (u, ev) := Run(rules, t, ops); Read(key, PhaseOf(t, key), ev) == PhaseOf(u, key)
    decreases |ops|
  {
    hide TableInv, Do, Read;
    if ops == [] {
      ReadNothing(key, PhaseOf(t, key));
    } else {
      var (u, ev) := Do(rules, t, ops[0]);
      DoInv(rules, t, ops[0]);
      DoReads(rules, t, ops[0], key);
      RunReads(rules, u, ops[1..], key);
      ReadConcat(key, PhaseOf(t, key), ev, Run(rules, u, ops[1..]).1);
    }
  }

  /** In every run without `forget`, each key's events are well-formed brackets, the last one open iff the flow is live. */
  lemma TraceGrammar<K>(rules: Rules<K>, ops: seq<Op<K>>, key: K)
    requires rules.maxFlows > 0 && forall op :: op in ops ==> !op.Lose?
    ensures var (t, evs) := Run(rules, EmptyTable<K>(), ops);
            var ph := Read(key, Outside, evs);
            !ph.Broken? && (ph.Inside? <==> key in t.entries)
  {
    assert NoDup<K>([]) && Members<K>([]) == {};
    RunReads(rules, EmptyTable<K>(), ops, key);
    hide Run, Read;
  }

  // ----- eviction takes the flow whose last packet is oldest

  /** Index of the last packet event of a key, or -1. */
  function LastPacket<K(==)>(evs: seq<FlowEvent<K>>, key: K): (r: int)
    ensures -1 <= r < |evs|
  {
    if evs == [] then -1
    else if evs[|evs| - 1].Packet? && evs[|evs| - 1].key == key then |evs| - 1
    else LastPacket(evs[..|evs| - 1], key)
  }

  /** The recency list is sorted by last packet. */
  ghost predicate ByRecency<K>(t: Table<K>, evs: seq<FlowEvent<K>>) {
    forall i, j :: 0 <= i < j < |t.order| ==> LastPacket(evs, t.order[i]) < LastPacket(evs, t.order[j])
  }

  ghost predicate NoPackets<K>(evs: seq<FlowEvent<K>>) { forall e :: e in evs ==> !e.Packet? }

  lemma {:induction false} LastConcat<K>(a: seq<FlowEvent<K>>, b: seq<FlowEvent<K>>, key: K)
    ensures LastPacket(a + b, key) == if LastPacket(b, key) >= 0 then |a| + LastPacket(b, key) else LastPacket(a, key)
    decreases |b|
  {
    if b == [] {
      assert a + b == a;
    } else {
      assert (a + b)[..|a + b| - 1] == a + b[..|b| - 1];
      LastConcat(a, b[..|b| - 1], key);
    }
  }

  lemma {:induction false} LastNone<K>(evs: seq<FlowEvent<K>>, key: K)
    requires forall e :: e in evs ==> !(e.Packet? && e.key == key)
    ensures LastPacket(evs, key) == -1
    decreases |evs|
  {
    if evs != [] { LastNone(evs[..|evs| - 1], key); }
  }

  /** Dropping a key cuts one position out of the list, or none. */
  lemma {:induction false} DropIs<K>(s: seq<K>, key: K) returns (n: nat)
    ensures n <= |s| && Drop(s, key) == if n < |s| then s[..n] + s[n + 1..] else s
  {
    if s == [] || s[0] == key {
      n := 0;
    } else {
      var m := DropIs(s[1..], key);
      n := m + 1;
      assert s == [s[0]] + s[1..];
      if m < |s[1..]| {
        assert s[..n] == [s[0]] + s[1..][..m] && s[n + 1..] == s[1..][m + 1..];
      }
    }
  }

  /** Sorted lists stay sorted when a key leaves. */
  lemma RemoveSorted<K>(t: Table<K>, key: K, evs: seq<FlowEvent<K>>)
    requires ByRecency(t, evs)
    ensures ByRecency(Remove(t, key), evs)
  {
    hide Drop, LastPacket;
    var n := DropIs(t.order, key);
    var d := Drop(t.order, key);
    forall i, j | 0 <= i < j < |d| ensures LastPacket(evs, d[i]) < LastPacket(evs, d[j]) {
      assert d[i] == t.order[if i < n then i else i + 1] && d[j] == t.order[if j < n then j else j + 1];
    }
  }

  lemma QuietSorted<K>(t: Table<K>, evs: seq<FlowEvent<K>>, more: seq<FlowEvent<K>>)
    requires ByRecency(t, evs) && NoPackets(more)
    ensures ByRecency(t, evs + more)
  {
    forall i | 0 <= i < |t.order| ensures LastPacket(evs + more, t.order[i]) == LastPacket(evs, t.order[i]) {
      LastConcat(evs, more, t.order[i]);
      LastNone(more, t.order[i]);
    }
  }

  lemma EndSorted<K>(t: Table<K>, key: K, reason: EndReason, evs: seq<FlowEvent<K>>)
    requires ByRecency(t, evs)
    ensures var (u, ev) := End(t, key, reason); ByRecency(u, evs + ev) && NoPackets(ev)
  {
    var (u, ev) := End(t, key, reason);
    RemoveSorted(t, key, evs);
    QuietSorted(u, evs, ev);
  }

  lemma {:induction false} EndAllSorted<K>(t: Table<K>, keys: seq<K>, reason: EndReason, evs: seq<FlowEvent<K>>)
    requires ByRecency(t, evs)
    ensures var (u, ev) := EndAll(t, keys, reason); ByRecency(u, evs + ev)
    decreases |keys|
  {
    hide ByRecency, End, NoPackets;
    if keys == [] {
      assert evs + [] == evs;
    } else {
      var (u, ev) := End(t, keys[0], reason);
      EndSorted(t, keys[0], reason, evs);
      EndAllSorted(u, keys[1..], reason, evs + ev);
      assert evs + ev + EndAll(u, keys[1..], reason).1 == evs + (ev + EndAll(u, keys[1..], reason).1);
    }
  }

  /** After its packet a key is the most recent. */
  lemma TrackSorted<K>(rules: Rules<K>, t: Table<K>, p: Seen<K>, evs: seq<FlowEvent<K>>)
    requires rules.maxFlows > 0 && TableInv(rules, t) && ByRecency(t, evs)
    ensures var (u, ev) := Track(rules, t, p); ByRecency(u, evs + ev)
  {
    hide ByRecency, Step, Count;
    AdmitInv(rules, t, p);
    AdmitSorted(rules, t, p, evs);
    var (u, ev) := Admit(rules, t, p);
    TouchSorted(rules, u, p, evs, ev);
    assert evs + ev + Touch(u, p).1 == evs + (ev + Touch(u, p).1);
  }

  /** Once the packet's flow is there, the others are still sorted. */
  lemma AdmitSorted<K>(rules: Rules<K>, t: Table<K>, p: Seen<K>, evs: seq<FlowEvent<K>>)
    requires TableInv(rules, t) && ByRecency(t, evs)
    ensures var (u, ev) := Admit(rules, t, p); ByRecency(Remove(u, p.key), evs + ev)
  {
    if p.key in t.entries {
      assert evs + [] == evs;
      RemoveSorted(t, p.key, evs);
    } else {
      hide Evict, ByRecency, FreshEntry, TableInv, Drop;
      EvictSorted(rules, t, evs);
      var (u, ev) := Evict(rules, t);
      EvictInv2(rules, t, p.key);
      var e := FreshEntry(rules, p);
      var start := Started(p.key, SideOf(e, p.forward), p.ts);
      AddSorted(u, p.key, e, evs + ev, start);
      assert evs + ev + [start] == evs + (ev + [start]);
    }
  }

  /** A flow that has not been counted yet has no place in the order. */
  lemma AddSorted<K>(u: Table<K>, key: K, e: Entry, evs: seq<FlowEvent<K>>, start: FlowEvent<K>)
    requires ByRecency(u, evs) && key !in u.order && start.Started?
    ensures ByRecency(Remove(u.(entries := u.entries[key := e], order := u.order + [key], created := u.created + 1), key), evs + [start])
  {
    hide LastPacket, Drop;
    QuietSorted(u, evs, [start]);
    DropLast(u.order, key);
  }

  lemma EvictSorted<K>(rules: Rules<K>, t: Table<K>, evs: seq<FlowEvent<K>>)
    requires ByRecency(t, evs)
    ensures var (u, ev) := Evict(rules, t); ByRecency(u, evs + ev)
  {
    EvictIsEnd(rules, t);
    assert evs + [] == evs;
    if t.order != [] { EndSorted(t, t.order[0], Evicted, evs); }
    hide Evict, End;
  }

  lemma EvictInv2<K>(rules: Rules<K>, t: Table<K>, key: K)
    requires TableInv(rules, t) && key !in t.entries
    ensures key !in Evict(rules, t).0.order
  {
    InMembers(t.order, key);
    if |t.entries| >= rules.maxFlows && t.order != [] {
      InMembers(t.order, t.order[0]);
      DropKeeps(t.order, t.order[0]);
      InMembers(Drop(t.order, t.order[0]), key);
    }
  }

  lemma {:induction false} DropLast<K>(s: seq<K>, key: K)
    requires key !in s
    ensures Drop(s + [key], key) == s
  {
    if s == [] {
      assert s + [key] == [key];
    } else {
      assert (s + [key])[1..] == s[1..] + [key];
      DropLast(s[1..], key);
    }
  }

  lemma TouchSorted<K>(rules: Rules<K>, u: Table<K>, p: Seen<K>, evs: seq<FlowEvent<K>>, ev: seq<FlowEvent<K>>)
    requires p.key in u.entries && TableInv(rules, u) && ByRecency(Remove(u, p.key), evs + ev)
    ensures var (w, ev2) := Touch(u, p); ByRecency(w, evs + ev + ev2)
  {
    hide Step, Count;
    var before := evs + ev;
    var (w, ev2) := Touch(u, p);
    var rest := Drop(u.order, p.key);
    assert p.key !in rest by {
      InMembers(u.order, p.key);
      DropKeeps(u.order, p.key);
      InMembers(rest, p.key);
    }
    TouchEvents(u, p);
    forall i | 0 <= i < |rest| ensures LastPacket(before + ev2, rest[i]) == LastPacket(before, rest[i]) {
      LastConcat(before, ev2, rest[i]);
      LastNone(ev2, rest[i]);
    }
    LastConcat(before, ev2, p.key);
  }

  lemma TouchEvents<K>(u: Table<K>, p: Seen<K>)
    requires p.key in u.entries
    ensures var ev := Touch(u, p).1;
            (forall e :: e in ev ==> e.key == p.key) && LastPacket(ev, p.key) >= 0
  {
    var side := SideOf(u.entries[p.key], p.forward);
    var (e, ev) := Step(Count(u.entries[p.key], p), p);
    var packet := [Packet(p.key, side, p.Len(), p.ts)];
    LastConcat(ev, packet, p.key);
    LastConcat(ev + packet, [Ended(p.key, EndOf(e.state), e.st)], p.key);
  }

  lemma DoSorted<K>(rules: Rules<K>, t: Table<K>, op: Op<K>, evs: seq<FlowEvent<K>>)
    requires rules.maxFlows > 0 && TableInv(rules, t) && ByRecency(t, evs)
    ensures var (u, ev) := Do(rules, t, op); ByRecency(u, evs + ev)
  {
    match op
    case Arrive(p) => hide Track; TrackSorted(rules, t, p, evs);
    case SweepAt(now) => hide EndAll; EndAllSorted(t, IdleKeys(rules, t, t.order, now), IdleTimeout, evs);
    case Force(key) => hide End; EndSorted(t, key, ForceClosed, evs);
    case Lose(key) => assert evs + [] == evs; RemoveSorted(t, key, evs);
  }

  lemma {:induction false} RunSorted<K>(rules: Rules<K>, t: Table<K>, ops: seq<Op<K>>, evs: seq<FlowEvent<K>>)
    requires rules.maxFlows > 0 && TableInv(rules, t) && ByRecency(t, evs)
    ensures var (u, ev) := Run(rules, t, ops); ByRecency(u, evs + ev)
    decreases |ops|
  {
    hide TableInv, ByRecency, Do;
    if ops == [] {
      assert evs + [] == evs;
    } else {
      var (u, ev) := Do(rules, t, ops[0]);
      DoInv(rules, t, ops[0]);
      DoSorted(rules, t, ops[0], evs);
      RunSorted(rules, u, ops[1..], evs + ev);
      assert evs + ev + Run(rules, u, ops[1..]).1 == evs + (ev + Run(rules, u, ops[1..]).1);
    }
  }

  /** A new flow in a full table ends the first one listed. */
  lemma EvictsFirst<K>(rules: Rules<K>, t: Table<K>, p: Seen<K>)
    requires rules.maxFlows > 0 && TableInv(rules, t) && p.key !in t.entries && |t.entries| == rules.maxFlows
    ensures t.order != [] && t.order[0] in t.entries && Members(t.order) == t.entries.Keys
    ensures var ev := Track(rules, t, p).1; ev != [] && ev[0].Ended? && ev[0].reason == Evicted && ev[0].key == t.order[0]
  {
    InMembers(t.order, t.order[0]);
    hide Touch, Drop, FreshEntry;
  }

  /** After any run, a packet that forces an eviction evicts the live flow whose last packet is the oldest of all. */
  lemma EvictsOldest<K>(rules: Rules<K>, ops: seq<Op<K>>, p: Seen<K>, k: K)
    requires rules.maxFlows > 0
    ensures var (t, evs) := Run(rules, EmptyTable<K>(), ops);
            p.key !in t.entries && |t.entries| == rules.maxFlows && k in t.entries ==>
              var ev := Track(rules, t, p).1;
              && ev[0].Ended? && ev[0].reason == Evicted && ev[0].key in t.entries
              && (k != ev[0].key ==> LastPacket(evs, ev[0].key) < LastPacket(evs, k))
  {
    assert NoDup<K>([]) && Members<K>([]) == {};
    Balanced(rules, EmptyTable<K>(), ops);
    RunSorted(rules, EmptyTable<K>(), ops, []);
    var (t, evs) := Run(rules, EmptyTable<K>(), ops);
    assert [] + evs == evs;
    hide Run, Drop, LastPacket;
    if p.key !in t.entries && |t.entries| == rules.maxFlows && k in t.entries {
      EvictsFirst(rules, t, p);
      InMembers(t.order, k);
      hide Track, TableInv, NoDup;
      var i :| 0 <= i < |t.order| && t.order[i] == k;
    }
  }
}

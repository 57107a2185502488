/** Whole runs of the flow driver: stream state follows the tracker, the cap holds, a stop is told once. */
module DriverRuns {
  import opened Types
  import opened FlowTable
  import opened StreamTable
  import opened FlowDriving

  /** The flow table and the stream table beside it. */
  datatype State<K, R> = State(t: Table<K>, m: map<K, Flow<R>>)

  datatype Op<K> =
    | Packet(a: Arrival<K>)
    | SweepAll(now: Time, drain: bool)
    | Drain(key: K, side: Side)
    | Discard(key: K, side: Side)
    | Force(key: K)
    | FinishAll

  function DrainedSlot<K, R>(kit: Kit<K, R>, slot: Slot<R>): Slot<R> {
    match slot
    case Empty => slot
    case Live(r, _) => Synced(kit, kit.act(r, DrainCall))
    case Done(stop, _) => Done(stop, true)
  }

  function FlowOf<K, R>(m: map<K, Flow<R>>, key: K): Flow<R> { if key in m then m[key] else NewFlow() }

  /** What each driver call does to the two tables. */
  ghost function Step<K, R>(kit: Kit<K, R>, limits: Limits, rules: Rules<K>, s: State<K, R>, op: Op<K>): State<K, R> {
    match op
    case Packet(a) =>
      var (t, ev) := Track(rules, s.t, a.seen);
      State(t, Fed(kit, limits, rules, s.m, s.t, a) - EndedKeys(ev))
    case SweepAll(now, drain) =>
      var (t, ev) := Sweep(rules, s.t, now);
      State(t, AllTicked(kit, s.m, now, drain) - EndedKeys(ev))
    case Drain(key, side) =>
      if key !in s.m then s else s.(m := s.m[key := s.m[key].Put(side, DrainedSlot(kit, s.m[key].At(side)))])
    case Discard(key, side) =>
      var f := FlowOf(s.m, key);
      s.(m := s.m[key := f.Put(side, Done(KeptStop(kit, f.At(side)), true))])
    case Force(key) => State(End(s.t, key, ForceClosed).0, if key in s.t.entries then s.m - {key} else s.m)
    case FinishAll =>
      var (t, ev) := Sweep(rules, s.t, END_OF_TIME);
      State(t, s.m - EndedKeys(ev))
  }

  ghost function Run<K, R>(kit: Kit<K, R>, limits: Limits, rules: Rules<K>, s: State<K, R>, ops: seq<Op<K>>): State<K, R>
    decreases |ops|
  {
    if ops == [] then s else Run(kit, limits, rules, Step(kit, limits, rules, s, ops[0]), ops[1..])
  }

  /** Every live side belongs to a tracked flow. */
  ghost predicate Sound<K, R>(s: State<K, R>) { Settled(s.t.entries.Keys, s.m) }

  /** Every key with stream state is a tracked flow. */
  ghost predicate Follows<K, R>(s: State<K, R>) { s.m.Keys <= s.t.entries.Keys }

  /** The ends the driver hears of account for every flow the tracker drops. */
  lemma StepSound<K, R(!new)>(kit: Kit<K, R>, limits: Limits, rules: Rules<K>, s: State<K, R>, op: Op<K>)
    requires Sound(s)
    ensures Sound(Step(kit, limits, rules, s, op))
  {
    match op
    case Packet(a) =>
      FedSettled(kit, limits, rules, s.m, s.t, a);
      hide Fed, Track;
    case SweepAll(now, drain) =>
      EndAllAccounted(s.t, IdleKeys(rules, s.t, s.t.order, now), IdleTimeout);
      hide EndAll, IdleKeys;
    case Drain(key, side) =>
    case Discard(key, side) =>
    case Force(key) =>
      hide Drop;
    case FinishAll =>
      EndAllAccounted(s.t, IdleKeys(rules, s.t, s.t.order, END_OF_TIME), IdleTimeout);
      hide EndAll, IdleKeys;
  }

  /** Discarding a side of a flow the tracker does not hold is the only call that leaves stream state without a flow. */
  lemma StepFollows<K, R(!new)>(kit: Kit<K, R>, limits: Limits, rules: Rules<K>, s: State<K, R>, op: Op<K>)
    requires Follows(s)
    ensures Follows(Step(kit, limits, rules, s, op)) <==> (op.Discard? ==> op.key in s.t.entries)
  {
    match op
    case Packet(a) =>
      FedSettled(kit, limits, rules, s.m, s.t, a);
      hide Fed, Track;
    case SweepAll(now, drain) =>
      EndAllAccounted(s.t, IdleKeys(rules, s.t, s.t.order, now), IdleTimeout);
      hide EndAll, IdleKeys;
    case Drain(key, side) =>
    case Discard(key, side) =>
    case Force(key) =>
      hide Drop;
    case FinishAll =>
      EndAllAccounted(s.t, IdleKeys(rules, s.t, s.t.order, END_OF_TIME), IdleTimeout);
      hide EndAll, IdleKeys;
  }

  lemma StepKept<K, R(!new)>(kit: Kit<K, R>, limits: Limits, rules: Rules<K>, s: State<K, R>, op: Op<K>)
    ensures Kept(kit, limits, s.t.entries.Keys, s.m, Step(kit, limits, rules, s, op).m)
  {
    hide Kept;
    var tracked := s.t.entries.Keys;
    KeptSame(kit, limits, tracked, s.m);
    match op
    case Packet(a) =>
      FedKept(kit, limits, rules, s.m, s.t, a);
      hide Fed, Track;
      EndedKept(kit, limits, tracked, s.m, Fed(kit, limits, rules, s.m, s.t, a), EndedKeys(Track(rules, s.t, a.seen).1));
    case SweepAll(now, drain) =>
      TickKept(kit, limits, tracked, s.m, now, drain);
      hide AllTicked, Sweep;
      EndedKept(kit, limits, tracked, s.m, AllTicked(kit, s.m, now, drain), EndedKeys(Sweep(rules, s.t, now).1));
    case Drain(key, side) =>
      DrainStep(kit, limits, s.m, key, side);
      if key in s.m { Restrict(kit, limits, tracked, s.m, Step(kit, limits, rules, s, op).m); }
    case Discard(key, side) =>
      var f := FlowOf(s.m, key);
      DiscardKept(kit, limits, s.m, key, side, f.Put(side, Done(KeptStop(kit, f.At(side)), true)));
      Restrict(kit, limits, tracked, s.m, Step(kit, limits, rules, s, op).m);
    case Force(key) => EndedKept(kit, limits, tracked, s.m, s.m, {key});
    case FinishAll =>
      hide Sweep;
      EndedKept(kit, limits, tracked, s.m, s.m, EndedKeys(Sweep(rules, s.t, END_OF_TIME).1));
  }

  /** What moves every stored flow onward moves the tracked ones onward. */
  lemma Restrict<K, R(!new)>(kit: Kit<K, R>, limits: Limits, tracked: set<K>, m: map<K, Flow<R>>, n: map<K, Flow<R>>)
    requires Kept(kit, limits, m.Keys, m, n)
    ensures Kept(kit, limits, tracked, m, n)
  {
  }

  lemma DrainStep<K, R(!new)>(kit: Kit<K, R>, limits: Limits, m: map<K, Flow<R>>, key: K, side: Side)
    ensures key in m ==> Kept(kit, limits, m.Keys, m, m[key := m[key].Put(side, DrainedSlot(kit, m[key].At(side)))])
  {
    if key in m {
      var f := m[key].Put(side, DrainedSlot(kit, m[key].At(side)));
      if m[key].At(side).Empty? {
        KeptSame(kit, limits, m.Keys, m);
        assert m[key := f] == m;
      } else {
        DrainKept(kit, limits, m, key, side, f);
      }
    }
  }

  /** Discards only of flows the tracker holds at the time. */
  ghost predicate Careful<K, R>(kit: Kit<K, R>, limits: Limits, rules: Rules<K>, s: State<K, R>, ops: seq<Op<K>>)
    decreases |ops|
  {
    ops == [] || ((ops[0].Discard? ==> ops[0].key in s.t.entries) && Careful(kit, limits, rules, Step(kit, limits, rules, s, ops[0]), ops[1..]))
  }

  /**
   In every run from a state where it holds: live sides belong to tracked
   flows, and so does all stream state if discards do; and if only data makes
   reassemblers grow, a hard memory cap that the pool respects at the start is
   respected after every call.
   */
  lemma {:induction false} RunSafe<K, R(!new)>(kit: Kit<K, R>, limits: Limits, rules: Rules<K>, s: State<K, R>, ops: seq<Op<K>>)
    requires Sound(s)
    ensures var r := Run(kit, limits, rules, s, ops);
            && Sound(r)
            && (Follows(s) && Careful(kit, limits, rules, s, ops) ==> Follows(r))
            && (Modest(kit) && AllCovered(kit, s.m) ==>
                  AllCovered(kit, r.m) && (Hard(limits) && !Over(limits, Pool(s.m)) ==> !Over(limits, Pool(r.m))))
    decreases |ops|
  {
    hide Sound, Follows, AllCovered, Modest, Pool, Step, TableOnward;
    if ops != [] {
      StepSound(kit, limits, rules, s, ops[0]);
      if Follows(s) { StepFollows(kit, limits, rules, s, ops[0]); }
      StepKept(kit, limits, rules, s, ops[0]);
      RunSafe(kit, limits, rules, Step(kit, limits, rules, s, ops[0]), ops[1..]);
    }
  }

  // ----- the end of input

  /**
   `finish` leaves exactly the flows whose timeout is longer than the time left
   until the end of time. When there is none, nothing is accounted for any more,
   and no stream state is left if it all belonged to flows.
   */
  lemma FinishLeaves<K, R(!new)>(kit: Kit<K, R>, limits: Limits, rules: Rules<K>, s: State<K, R>)
    requires TableInv(rules, s.t) && Sound(s)
    ensures var r := Step(kit, limits, rules, s, FinishAll);
            && r.t.entries.Keys == Lasting(rules, s.t)
            && (Lasting(rules, s.t) == {} ==> Pool(r.m) == 0 && (Follows(s) ==> r.m == map[]))
  {
    StepSound(kit, limits, rules, s, FinishAll);
    SweepExact(rules, s.t, END_OF_TIME);
    if Follows(s) { StepFollows(kit, limits, rules, s, FinishAll); }
    hide Sweep, TableInv, Idle, Pool;
    var r := Step(kit, limits, rules, s, FinishAll);
    if Lasting(rules, s.t) == {} { NoneLive(r.m); }
  }

  lemma StepTable<K, R>(kit: Kit<K, R>, limits: Limits, rules: Rules<K>, s: State<K, R>, op: Op<K>)
    requires rules.maxFlows > 0 && TableInv(rules, s.t)
    ensures TableInv(rules, Step(kit, limits, rules, s, op).t)
  {
    hide TableInv, Track, Fed, EndAll, End, IdleKeys;
    match op
    case Packet(a) => TrackInv(rules, s.t, a.seen);
    case SweepAll(now, _) => EndAllInv(rules, s.t, IdleKeys(rules, s.t, s.t.order, now), IdleTimeout);
    case Drain(_, _) =>
    case Discard(_, _) =>
    case Force(key) => EndInv(rules, s.t, key, ForceClosed);
    case FinishAll => EndAllInv(rules, s.t, IdleKeys(rules, s.t, s.t.order, END_OF_TIME), IdleTimeout);
  }

  lemma {:induction false} RunTable<K, R>(kit: Kit<K, R>, limits: Limits, rules: Rules<K>, s: State<K, R>, ops: seq<Op<K>>)
    requires rules.maxFlows > 0 && TableInv(rules, s.t)
    ensures TableInv(rules, Run(kit, limits, rules, s, ops).t)
    decreases |ops|
  {
    hide TableInv, Step;
    if ops != [] {
      StepTable(kit, limits, rules, s, ops[0]);
      RunTable(kit, limits, rules, Step(kit, limits, rules, s, ops[0]), ops[1..]);
    }
  }

  ghost function Start<K, R>(): State<K, R> { State(EmptyTable(), map[]) }

  /** Any run of a new driver, then `finish`: no flow, no stream state and an empty pool, unless a timeout reaches past the end of time. */
  lemma FinishAfterRun<K, R(!new)>(kit: Kit<K, R>, limits: Limits, rules: Rules<K>, ops: seq<Op<K>>)
    requires rules.maxFlows > 0
    ensures var s := Run(kit, limits, rules, Start<K, R>(), ops);
            var r := Step(kit, limits, rules, s, FinishAll);
            && r.t.entries.Keys == Lasting(rules, s.t)
            && (Lasting(rules, s.t) == {} ==> Pool(r.m) == 0 && (Careful(kit, limits, rules, Start<K, R>(), ops) ==> r.m == map[]))
  {
    assert EmptyTable<K>().entries == map[];
    assert TableInv(rules, EmptyTable<K>());
    assert Sound(Start<K, R>()) && Follows(Start<K, R>());
    hide TableInv, Step, Sound, Follows, Lasting, Pool, Run, Careful, Modest, AllCovered;
    RunTable(kit, limits, rules, Start<K, R>(), ops);
    RunSafe(kit, limits, rules, Start<K, R>(), ops);
    FinishLeaves(kit, limits, rules, Run(kit, limits, rules, Start<K, R>(), ops));
  }

  /** With a timeout reaching to the end of time, the flow of one packet survives `finish`. */
  lemma FinishCanLeave()
    ensures var rules := Rules(1, false, (k: int, proto: Proto) => END_OF_TIME, None);
            var p := Seen(0, true, Udp, None, 0, 0, 0, None, 1);
            0 in Sweep(rules, Track(rules, EmptyTable<int>(), p).0, END_OF_TIME).0.entries
  {
    var rules := Rules(1, false, (k: int, proto: Proto) => END_OF_TIME, None);
    var p := Seen(0, true, Udp, None, 0, 0, 0, None, 1);
    assert EmptyTable<int>().entries == map[];
    assert TableInv(rules, EmptyTable<int>());
    TrackInv(rules, EmptyTable<int>(), p);
    SweepExact(rules, Track(rules, EmptyTable<int>(), p).0, END_OF_TIME);
  }

  // ----- a stop is told to at most one drain

  /** This drain reports a stop the side kept. */
  predicate Tells<K, R>(s: State<K, R>, op: Op<K>, key: K, side: Side) {
    op == Drain(key, side) && key in s.m && s.m[key].At(side).Done? && !s.m[key].At(side).reported
  }

  ghost function Told<K, R>(kit: Kit<K, R>, limits: Limits, rules: Rules<K>, s: State<K, R>, ops: seq<Op<K>>, key: K, side: Side): nat
    decreases |ops|
  {
    if ops == [] then 0
    else (if Tells(s, ops[0], key, side) then 1 else 0) + Told(kit, limits, rules, Step(kit, limits, rules, s, ops[0]), ops[1..], key, side)
  }

  /** The flow is tracked and keeps its stream state throughout. */
  ghost predicate Stays<K, R>(kit: Kit<K, R>, limits: Limits, rules: Rules<K>, s: State<K, R>, ops: seq<Op<K>>, key: K)
    decreases |ops|
  {
    key in s.t.entries && key in s.m && (ops == [] || Stays(kit, limits, rules, Step(kit, limits, rules, s, ops[0]), ops[1..], key))
  }

  predicate Silent<R>(slot: Slot<R>) { slot.Done? && slot.reported }

  lemma StepSide<K, R(!new)>(kit: Kit<K, R>, limits: Limits, rules: Rules<K>, s: State<K, R>, op: Op<K>, key: K, side: Side)
    requires key in s.t.entries && key in s.m && key in Step(kit, limits, rules, s, op).m
    ensures Onward(s.m[key].At(side), Step(kit, limits, rules, s, op).m[key].At(side))
    ensures Tells(s, op, key, side) ==> Silent(Step(kit, limits, rules, s, op).m[key].At(side))
  {
    StepKept(kit, limits, rules, s, op);
    hide Fed, Track, Sweep, AllTicked;
    var n := Step(kit, limits, rules, s, op).m;
    assert FlowOnward(s.m[key], n[key]);
  }

  lemma {:induction false} SilentStays<K, R(!new)>(kit: Kit<K, R>, limits: Limits, rules: Rules<K>, s: State<K, R>, ops: seq<Op<K>>, key: K, side: Side)
    requires Stays(kit, limits, rules, s, ops, key) && Silent(s.m[key].At(side))
    ensures Told(kit, limits, rules, s, ops, key, side) == 0
    decreases |ops|
  {
    hide Step;
    if ops != [] {
      StepSide(kit, limits, rules, s, ops[0], key, side);
      SilentStays(kit, limits, rules, Step(kit, limits, rules, s, ops[0]), ops[1..], key, side);
    }
  }

  /** Over any run of one flow, a side's kept stop is reported to at most one drain. */
  lemma {:induction false} ToldAtMostOnce<K, R(!new)>(kit: Kit<K, R>, limits: Limits, rules: Rules<K>, s: State<K, R>, ops: seq<Op<K>>, key: K, side: Side)
    requires Stays(kit, limits, rules, s, ops, key)
    ensures Told(kit, limits, rules, s, ops, key, side) <= 1
    decreases |ops|
  {
    hide Step;
    if ops != [] {
      var u := Step(kit, limits, rules, s, ops[0]);
      StepSide(kit, limits, rules, s, ops[0], key, side);
      if Tells(s, ops[0], key, side) {
        SilentStays(kit, limits, rules, u, ops[1..], key, side);
      } else {
        ToldAtMostOnce(kit, limits, rules, u, ops[1..], key, side);
      }
    }
  }
}

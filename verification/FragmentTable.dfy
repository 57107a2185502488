/** The table of datagrams being reassembled (src/ip_fragment.rs), as functions on values. */
module FragmentTable {
  import opened Types
  import opened Seqs
  import opened Fragments

  datatype Limits = Limits(maxDatagrams: nat, maxBytes: nat, timeout: Time)

  /** Pending datagrams and counters; `begun` and `evicted` complete the balance. */
  datatype Table<K> = Table(
    pending: map<K, Pending>, reassembled: nat, timedOut: nat, overlaps: nat, oversize: nat,
    begun: nat, evicted: nat)

  function EmptyTable<K>(): Table<K> { Table(map[], 0, 0, 0, 0, 0, 0) }

  predicate Fresh(limits: Limits, p: Pending, now: Time) { Since(now, p.firstSeen) <= limits.timeout }

  /** Only datagrams begun within the timeout stay. */
  function Expire<K(==)>(limits: Limits, t: Table<K>, now: Time): Table<K> {
    var kept := map k | k in t.pending && Fresh(limits, t.pending[k], now) :: t.pending[k];
    t.(pending := kept, timedOut := t.timedOut + if |kept| <= |t.pending| then |t.pending| - |kept| else 0)
  }

  /** A datagram seen no later than any other. */
  ghost predicate Oldest<K>(t: Table<K>, k: K) {
    k in t.pending && forall j :: j in t.pending ==> t.pending[k].firstSeen <= t.pending[j].firstSeen
  }

  predicate Full<K>(limits: Limits, t: Table<K>, key: K) {
    key !in t.pending && |t.pending| >= limits.maxDatagrams && t.pending != map[]
  }

  /** Make room for a new datagram; `victim` is the oldest one. */
  function MakeRoom<K(==)>(limits: Limits, t: Table<K>, key: K, victim: K): Table<K> {
    if Full(limits, t, key) && victim in t.pending then t.(pending := t.pending - {victim}, evicted := t.evicted + 1) else t
  }

  /** Apply what a fragment did to its datagram. */
  function Settle<K(==)>(t: Table<K>, key: K, v: Verdict): (Table<K>, Option<seq<byte>>) {
    var u := if key in t.pending then t else t.(begun := t.begun + 1);
    match v
    case Waiting(p) => (u.(pending := u.pending[key := p]), None)
    case Complete(d) => (u.(pending := u.pending - {key}, reassembled := u.reassembled + 1), Some(d))
    case Overlap => (u.(pending := u.pending - {key}, overlaps := u.overlaps + 1), None)
    case Oversize => (u.(pending := u.pending - {key}, oversize := u.oversize + 1), None)
  }

  datatype Arrival<K> = Arrival(key: K, off: nat, more: bool, payload: seq<byte>, now: Time, victim: K)

  /** The table a fragment meets: expired datagrams gone, room made. */
  function Ready<K(==)>(limits: Limits, t: Table<K>, a: Arrival<K>): Table<K> {
    MakeRoom(limits, Expire(limits, t, a.now), a.key, a.victim)
  }

  function EntryOf<K>(t: Table<K>, key: K, now: Time): Pending {
    if key in t.pending then t.pending[key] else NewPending(now)
  }

  /** One fragment. */
  function Push<K(==)>(limits: Limits, t: Table<K>, a: Arrival<K>): (Table<K>, Option<seq<byte>>) {
    if a.off == 0 && !a.more then (t, Some(a.payload))
    else
      var u := Ready(limits, t, a);
      Settle(u, a.key, Offer(limits.maxBytes, EntryOf(u, a.key, a.now), a.off, a.more, a.payload))
  }

  // ----- what every fragment keeps

  /** The table fits, nothing is poisoned, and every datagram begun is accounted for. */
  ghost predicate TableInv<K>(limits: Limits, t: Table<K>) {
    && (limits.maxDatagrams > 0 ==> |t.pending| <= limits.maxDatagrams)
    && (forall k :: k in t.pending ==> !t.pending[k].poisoned)
    && t.begun == t.reassembled + t.timedOut + t.overlaps + t.oversize + t.evicted + |t.pending|
  }

  lemma FewerKeys<K>(a: map<K, Pending>, b: map<K, Pending>)
    requires a.Keys <= b.Keys
    ensures |a| <= |b|
  {
    SubsetSize(a.Keys, b.Keys);
    assert |a| == |a.Keys| && |b| == |b.Keys|;
  }

  lemma ExpireInv<K>(limits: Limits, t: Table<K>, now: Time)
    requires TableInv(limits, t)
    ensures TableInv(limits, Expire(limits, t, now))
  {
    FewerKeys(Expire(limits, t, now).pending, t.pending);
  }

  lemma ExpireShape<K>(limits: Limits, t: Table<K>, now: Time)
    ensures var u := Expire(limits, t, now);
            |u.pending| <= |t.pending| && u == t.(pending := u.pending, timedOut := t.timedOut + |t.pending| - |u.pending|)
  {
    FewerKeys(Expire(limits, t, now).pending, t.pending);
  }

  lemma WithoutKey<K>(m: map<K, Pending>, k: K)
    ensures |m - {k}| == if k in m then |m| - 1 else |m|
  {
    assert (m - {k}).Keys == m.Keys - {k};
    assert |m| == |m.Keys| && |m - {k}| == |(m - {k}).Keys|;
  }

  lemma WithKey<K>(m: map<K, Pending>, k: K, p: Pending)
    ensures |m[k := p]| == if k in m then |m| else |m| + 1
  {
    assert m[k := p].Keys == m.Keys + {k};
    assert |m| == |m.Keys| && |m[k := p]| == |m[k := p].Keys|;
  }

  /** The datagram is there already, or there is room for it. */
  predicate HasRoom<K>(limits: Limits, t: Table<K>, key: K) {
    limits.maxDatagrams > 0 ==> key in t.pending || |t.pending| < limits.maxDatagrams
  }

  lemma RoomInv<K>(limits: Limits, t: Table<K>, key: K, victim: K)
    requires TableInv(limits, t) && (Full(limits, t, key) ==> victim in t.pending)
    ensures TableInv(limits, MakeRoom(limits, t, key, victim)) && HasRoom(limits, MakeRoom(limits, t, key, victim), key)
  {
    WithoutKey(t.pending, victim);
  }

  lemma SettleInv<K>(limits: Limits, t: Table<K>, key: K, v: Verdict)
    requires TableInv(limits, t) && HasRoom(limits, t, key)
    requires v.Waiting? ==> !v.p.poisoned
    ensures TableInv(limits, Settle(t, key, v).0)
  {
    WithoutKey(t.pending, key);
    if v.Waiting? { WithKey(t.pending, key, v.p); }
  }

  /** The victim is the oldest datagram whenever one is needed. */
  ghost predicate Fair<K>(limits: Limits, t: Table<K>, a: Arrival<K>) {
    var u := Expire(limits, t, a.now);
    (a.off != 0 || a.more) && Full(limits, u, a.key) ==> Oldest(u, a.victim)
  }

  /** With room for one datagram at least, the table never exceeds its size, and nothing is lost uncounted. */
  lemma PushInv<K>(limits: Limits, t: Table<K>, a: Arrival<K>)
    requires TableInv(limits, t) && Fair(limits, t, a)
    ensures TableInv(limits, Push(limits, t, a).0)
  {
    if a.off != 0 || a.more {
      ExpireInv(limits, t, a.now);
      var u := Expire(limits, t, a.now);
      RoomInv(limits, u, a.key, a.victim);
      hide Expire;
      var w := MakeRoom(limits, u, a.key, a.victim);
      NeverPoisoned(limits.maxBytes, EntryOf(w, a.key, a.now), a.off, a.more, a.payload);
      hide Offer, MakeRoom;
      SettleInv(limits, w, a.key, Offer(limits.maxBytes, EntryOf(w, a.key, a.now), a.off, a.more, a.payload));
    }
  }

  lemma NeverPoisoned(cap: nat, p: Pending, off: nat, more: bool, payload: seq<byte>)
    requires !p.poisoned
    ensures var v := Offer(cap, p, off, more, payload); v.Waiting? ==> !v.p.poisoned
  {
  }

  // ----- one datagram among others

  /** The datagram of `key` is neither timed out nor evicted by this fragment. */
  ghost predicate Spares<K>(limits: Limits, t: Table<K>, a: Arrival<K>, key: K) {
    key in t.pending ==>
      Fresh(limits, t.pending[key], a.now) && (Full(limits, Expire(limits, t, a.now), a.key) ==> a.victim != key)
  }

  function Held<K>(t: Table<K>, key: K): Option<Pending> { if key in t.pending then Some(t.pending[key]) else None }

  lemma ReadyKeeps<K>(limits: Limits, t: Table<K>, a: Arrival<K>, key: K)
    requires Spares(limits, t, a, key)
    ensures Held(Ready(limits, t, a), key) == Held(t, key)
  {
  }

  /** Fragments of other datagrams leave this one alone; its own do what they would do alone. */
  lemma PushHeld<K>(limits: Limits, t: Table<K>, a: Arrival<K>, key: K)
    requires Spares(limits, t, a, key) && (a.off != 0 || a.more)
    ensures var (u, out) := Push(limits, t, a);
            var v := Offer(limits.maxBytes, EntryOf(t, key, a.now), a.off, a.more, a.payload);
            && (a.key != key ==> Held(u, key) == Held(t, key))
            && (a.key == key ==>
                  && Held(u, key) == (if v.Waiting? then Some(v.p) else None)
                  && out == (if v.Complete? then Some(v.datagram) else None))
  {
    ReadyKeeps(limits, t, a, key);
    hide Ready, Offer;
  }

  // ----- runs

  function PieceOf<K>(a: Arrival<K>): Piece { Piece(a.off, a.more, a.payload) }

  /** The pieces of one datagram among a run's fragments. */
  function PiecesOf<K(==)>(es: seq<Arrival<K>>, key: K): seq<Piece> {
    if es == [] then [] else (if es[0].key == key then [PieceOf(es[0])] else []) + PiecesOf(es[1..], key)
  }

  /** What the fragments of one datagram return, in order. */
  function Outs<K(==)>(limits: Limits, t: Table<K>, es: seq<Arrival<K>>, key: K): seq<Option<seq<byte>>>
    decreases |es|
  {
    if es == [] then []
    else
      var (u, out) := Push(limits, t, es[0]);
      (if es[0].key == key then [out] else []) + Outs(limits, u, es[1..], key)
  }

  /** No fragment of the run looks unfragmented, and none times out or evicts the datagram of `key`. */
  ghost predicate Undisturbed<K>(limits: Limits, t: Table<K>, es: seq<Arrival<K>>, key: K)
    decreases |es|
  {
    es == [] ||
    (&& Spares(limits, t, es[0], key)
     && (es[0].key == key ==> es[0].off != 0 || es[0].more)
     && Undisturbed(limits, Push(limits, t, es[0]).0, es[1..], key))
  }

  /** Nothing, then the datagram at the last fragment. */
  ghost predicate OnlyLast(outs: seq<Option<seq<byte>>>, n: nat, d: seq<byte>) {
    |outs| == n && forall i :: 0 <= i < n ==> outs[i] == if i == n - 1 then Some(d) else None
  }

  lemma PushOther<K>(limits: Limits, t: Table<K>, a: Arrival<K>, key: K)
    requires Spares(limits, t, a, key) && a.key != key
    ensures Held(Push(limits, t, a).0, key) == Held(t, key)
  {
    if a.off != 0 || a.more { PushHeld(limits, t, a, key); }
  }

  /** With `done` already offered, the rest of the run completes the datagram at its last piece. */
  lemma {:induction false} RestCompletes<K>(limits: Limits, t: Table<K>, es: seq<Arrival<K>>, key: K, done: seq<Piece>, d: seq<byte>, first: Time)
    requires Cuts(done + PiecesOf(es, key), d) && |d| <= limits.maxBytes && Undisturbed(limits, t, es, key)
    requires PiecesOf(es, key) != []
    requires done == [] ==> key !in t.pending
    requires done != [] ==> key in t.pending && OfferAll(limits.maxBytes, NewPending(first), done) == Waiting(t.pending[key])
    ensures OnlyLast(Outs(limits, t, es, key), |PiecesOf(es, key)|, d)
    decreases |es|
  {
    hide Offer, OfferAll, Cuts, Push, Spares;
    var a := es[0];
    var u := Push(limits, t, a).0;
    var rest := PiecesOf(es[1..], key);
    if a.key != key {
      PushOther(limits, t, a, key);
      assert PiecesOf(es, key) == rest && Outs(limits, t, es, key) == Outs(limits, u, es[1..], key);
      RestCompletes(limits, u, es[1..], key, done, d, first);
    } else {
      var x := PieceOf(a);
      var ps := done + PiecesOf(es, key);
      var start := if done == [] then a.now else first;
      assert PiecesOf(es, key) == [x] + rest && ps == done + [x] + rest;
      PushHeld(limits, t, a, key);
      OwnPiece(limits, t, a, key, done, ps, d, start);
      if rest != [] {
        RestCompletes(limits, u, es[1..], key, done + [x], d, start);
      } else {
        NoneLeft(limits, u, es[1..], key);
      }
    }
  }

  lemma {:induction false} NoneLeft<K>(limits: Limits, t: Table<K>, es: seq<Arrival<K>>, key: K)
    requires PiecesOf(es, key) == []
    ensures Outs(limits, t, es, key) == []
    decreases |es|
  {
    if es != [] {
      assert es[0].key != key;
      NoneLeft(limits, Push(limits, t, es[0]).0, es[1..], key);
    }
  }

  /** One more piece of the datagram: still waiting, or complete if it is the last. */
  lemma OwnPiece<K>(limits: Limits, t: Table<K>, a: Arrival<K>, key: K, done: seq<Piece>, ps: seq<Piece>, d: seq<byte>, start: Time)
    requires Cuts(ps, d) && |d| <= limits.maxBytes && |done| < |ps| && done + [PieceOf(a)] <= ps
    requires done == [] ==> key !in t.pending && start == a.now
    requires done != [] ==> key in t.pending && OfferAll(limits.maxBytes, NewPending(start), done) == Waiting(t.pending[key])
    ensures var v := Offer(limits.maxBytes, EntryOf(t, key, a.now), a.off, a.more, a.payload);
            && (|done| + 1 < |ps| ==> v.Waiting? && OfferAll(limits.maxBytes, NewPending(start), done + [PieceOf(a)]) == v)
            && (|done| + 1 == |ps| ==> v == Complete(d))
  {
    hide Offer, Cuts, OfferAll;
    var n, cap := |done| + 1, limits.maxBytes;
    PrefixIs(done, PieceOf(a), ps);
    OfferAllStep(cap, NewPending(start), ps, n);
    NoneOffered(cap, NewPending(start));
    AnyOrder(cap, ps, d, start, if n < |ps| then n else 0);
  }

  lemma PrefixIs<T>(done: seq<T>, x: T, ps: seq<T>)
    requires done + [x] <= ps
    ensures ps[..|done| + 1] == done + [x] && ps[..|done|] == done && ps[|done|] == x && ps[..|ps|] == ps
  {
    assert ps[|done|] == (done + [x])[|done|];
  }

  lemma NoneOffered(cap: nat, p: Pending)
    ensures OfferAll(cap, p, []) == Waiting(p)
  {
  }

  /**
   Among any other traffic, in any arrival order, the fragments that cut a
   datagram in two or more return nothing until the last, which returns it.
   */
  lemma DatagramDelivered<K>(limits: Limits, t: Table<K>, es: seq<Arrival<K>>, key: K, d: seq<byte>)
    requires Cuts(PiecesOf(es, key), d) && |PiecesOf(es, key)| >= 2 && |d| <= limits.maxBytes
    requires key !in t.pending && AllSpared(limits, t, es, key)
    ensures OnlyLast(Outs(limits, t, es, key), |PiecesOf(es, key)|, d)
  {
    var ps := PiecesOf(es, key);
    forall i | 0 <= i < |ps| ensures ps[i].off != 0 || ps[i].more { NeverUnfragmented(ps, d, i); }
    SparedUndisturbed(limits, t, es, key);
    assert [] + ps == ps;
    RestCompletes(limits, t, es, key, [], d, 0);
  }

  ghost predicate AllSpared<K>(limits: Limits, t: Table<K>, es: seq<Arrival<K>>, key: K)
    decreases |es|
  {
    es == [] || (Spares(limits, t, es[0], key) && AllSpared(limits, Push(limits, t, es[0]).0, es[1..], key))
  }

  lemma {:induction false} SparedUndisturbed<K>(limits: Limits, t: Table<K>, es: seq<Arrival<K>>, key: K)
    requires AllSpared(limits, t, es, key)
    requires forall i :: 0 <= i < |PiecesOf(es, key)| ==> PiecesOf(es, key)[i].off != 0 || PiecesOf(es, key)[i].more
    ensures Undisturbed(limits, t, es, key)
    decreases |es|
  {
    hide Push, Spares;
    if es != [] {
      var rest := PiecesOf(es[1..], key);
      if es[0].key == key {
        assert PiecesOf(es, key) == [PieceOf(es[0])] + rest;
        assert PiecesOf(es, key)[0] == PieceOf(es[0]);
        forall i | 0 <= i < |rest| ensures rest[i].off != 0 || rest[i].more { assert rest[i] == PiecesOf(es, key)[i + 1]; }
      } else {
        assert PiecesOf(es, key) == [] + rest == rest;
      }
      SparedUndisturbed(limits, Push(limits, t, es[0]).0, es[1..], key);
    }
  }
}

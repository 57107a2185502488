/** Whole runs of the fragment table: stored fragments stay apart and counted, and no byte is made up. */
module FragmentRuns {
  import opened Types
  import opened Fragments
  import opened FragmentTable

  function Run<K(==)>(limits: Limits, t: Table<K>, es: seq<Arrival<K>>): Table<K>
    decreases |es|
  {
    if es == [] then t else Push(limits, Run(limits, t, es[..|es| - 1]), es[|es| - 1]).0
  }

  /** Every pending datagram is one of non-empty fragments, apart, all counted, within the cap. */
  ghost predicate AllOk<K>(limits: Limits, t: Table<K>) {
    forall k :: k in t.pending ==> PendingOk(limits.maxBytes, t.pending[k])
  }

  lemma ReadyOk<K>(limits: Limits, t: Table<K>, a: Arrival<K>)
    requires AllOk(limits, t)
    ensures AllOk(limits, Ready(limits, t, a)) && PendingOk(limits.maxBytes, EntryOf(Ready(limits, t, a), a.key, a.now))
  {
    hide PendingOk;
    assert PendingOk(limits.maxBytes, NewPending(a.now)) by { FreshOk(limits.maxBytes, a.now); }
  }

  lemma FreshOk(cap: nat, now: Time)
    ensures PendingOk(cap, NewPending(now))
  {
  }

  lemma PushOk<K>(limits: Limits, t: Table<K>, a: Arrival<K>)
    requires AllOk(limits, t) && a.payload != []
    ensures AllOk(limits, Push(limits, t, a).0)
  {
    if a.off != 0 || a.more {
      ReadyOk(limits, t, a);
      var u := Ready(limits, t, a);
      OfferRefines(limits.maxBytes, EntryOf(u, a.key, a.now), a.off, a.more, a.payload);
      hide PendingOk, Offer, Ready, Meets, Fills;
    }
  }

  /**
   After any run of non-empty fragments, overlaps, timeouts and evictions
   included, every pending datagram is well formed, and so is whatever the next
   fragment meets: what it does to the offset-to-byte map is exact.
   */
  lemma {:induction false} RunOk<K>(limits: Limits, es: seq<Arrival<K>>, a: Arrival<K>)
    requires forall e :: e in es ==> e.payload != []
    ensures var t := Run(limits, EmptyTable<K>(), es);
            AllOk(limits, t) && PendingOk(limits.maxBytes, EntryOf(Ready(limits, t, a), a.key, a.now))
    decreases |es|
  {
    hide AllOk, PendingOk, Push, Ready;
    if es == [] {
      assert AllOk(limits, EmptyTable<K>()) by { NothingPending<K>(limits); }
    } else {
      var last := es[|es| - 1];
      RunOk(limits, es[..|es| - 1], last);
      PushOk(limits, Run(limits, EmptyTable<K>(), es[..|es| - 1]), last);
    }
    ReadyOk(limits, Run(limits, EmptyTable<K>(), es), a);
  }

  lemma NothingPending<K>(limits: Limits)
    ensures AllOk(limits, EmptyTable<K>())
  {
  }

  // ----- bytes come from fragments

  /** Some received fragment of this datagram carried byte `b` at offset `o`. */
  ghost predicate Carried<K>(es: seq<Arrival<K>>, key: K, o: nat, b: byte) {
    exists i :: 0 <= i < |es| && Carries(es[i], key, o, b)
  }

  predicate Carries<K(==)>(a: Arrival<K>, key: K, o: nat, b: byte) {
    a.key == key && a.off <= o < a.off + |a.payload| && a.payload[o - a.off] == b
  }

  ghost predicate FragCarried<K>(es: seq<Arrival<K>>, key: K, f: Frag) {
    forall j :: 0 <= j < |f.data| ==> Carried(es, key, f.off + j, f.data[j])
  }

  ghost predicate AllCarried<K>(es: seq<Arrival<K>>, key: K, fs: seq<Frag>) {
    fs == [] || (FragCarried(es, key, fs[0]) && AllCarried(es, key, fs[1..]))
  }

  ghost predicate TableCarried<K>(es: seq<Arrival<K>>, t: Table<K>) {
    forall k :: k in t.pending ==> AllCarried(es, k, t.pending[k].frags)
  }

  lemma CarriedMore<K>(es: seq<Arrival<K>>, a: Arrival<K>, key: K, o: nat, b: byte)
    ensures Carried(es, key, o, b) ==> Carried(es + [a], key, o, b)
    ensures Carries(a, key, o, b) ==> Carried(es + [a], key, o, b)
  {
    if Carried(es, key, o, b) {
      var i :| 0 <= i < |es| && Carries(es[i], key, o, b);
      assert (es + [a])[i] == es[i];
    }
    if Carries(a, key, o, b) { assert (es + [a])[|es|] == a; }
  }

  lemma {:induction false} AllCarriedMore<K>(es: seq<Arrival<K>>, a: Arrival<K>, key: K, fs: seq<Frag>)
    requires AllCarried(es, key, fs)
    ensures AllCarried(es + [a], key, fs)
  {
    if fs != [] {
      var f := fs[0];
      forall j | 0 <= j < |f.data| ensures Carried(es + [a], key, f.off + j, f.data[j]) {
        CarriedMore(es, a, key, f.off + j, f.data[j]);
      }
      AllCarriedMore(es, a, key, fs[1..]);
    }
  }

  lemma {:induction false} PutCarried<K>(es: seq<Arrival<K>>, key: K, fs: seq<Frag>, f: Frag)
    requires AllCarried(es, key, fs) && FragCarried(es, key, f)
    ensures AllCarried(es, key, Put(fs, f))
  {
    hide FragCarried;
    if fs != [] {
      assert ([f] + fs)[1..] == fs && ([f] + fs[1..])[1..] == fs[1..];
      if f.off > fs[0].off {
        PutCarried(es, key, fs[1..], f);
        assert ([fs[0]] + Put(fs[1..], f))[1..] == Put(fs[1..], f);
      }
    } else {
      assert [f][1..] == [];
    }
  }

  lemma {:induction false} JoinedCarried<K>(es: seq<Arrival<K>>, key: K, fs: seq<Frag>, at: nat, total: nat, i: nat)
    requires AllCarried(es, key, fs) && Contiguous(fs, at, total) && i < |Joined(fs)|
    ensures Carried(es, key, at + i, Joined(fs)[i])
  {
    if i < |fs[0].data| {
      assert Joined(fs)[i] == fs[0].data[i];
    } else {
      JoinedCarried(es, key, fs[1..], fs[0].End(), total, i - |fs[0].data|);
    }
  }

  /** One fragment: what is kept and what is returned was carried. */
  lemma OfferCarried<K>(es: seq<Arrival<K>>, cap: nat, p: Pending, a: Arrival<K>)
    requires AllCarried(es, a.key, p.frags)
    ensures var v := Offer(cap, p, a.off, a.more, a.payload);
            && (v.Waiting? ==> AllCarried(es + [a], a.key, v.p.frags))
            && (v.Complete? ==> forall i :: 0 <= i < |v.datagram| ==> Carried(es + [a], a.key, i, v.datagram[i]))
  {
    var all, f := es + [a], Frag(a.off, a.payload);
    AllCarriedMore(es, a, a.key, p.frags);
    forall j | 0 <= j < |f.data| ensures Carried(all, a.key, f.off + j, f.data[j]) {
      CarriedMore(es, a, a.key, f.off + j, f.data[j]);
    }
    PutCarried(all, a.key, p.frags, f);
    var gs := Put(p.frags, f);
    var v := Offer(cap, p, a.off, a.more, a.payload);
    if v.Complete? {
      var total := if a.more then p.total else Some(f.End());
      forall i | 0 <= i < |v.datagram| ensures Carried(all, a.key, i, v.datagram[i]) {
        JoinedCarried(all, a.key, gs, 0, total.value, i);
      }
    }
    hide Hit, Put, Contiguous, Joined, AllCarried, Carried;
  }

  lemma PushCarried<K>(limits: Limits, es: seq<Arrival<K>>, t: Table<K>, a: Arrival<K>)
    requires TableCarried(es, t)
    ensures var (u, out) := Push(limits, t, a);
            && TableCarried(es + [a], u)
            && (out.Some? ==> forall i :: 0 <= i < |out.value| ==> Carried(es + [a], a.key, i, out.value[i]))
  {
    hide AllCarried, Carried, Offer;
    forall k | k in t.pending ensures AllCarried(es + [a], k, t.pending[k].frags) {
      AllCarriedMore(es, a, k, t.pending[k].frags);
    }
    if a.off == 0 && !a.more {
      forall i | 0 <= i < |a.payload| ensures Carried(es + [a], a.key, i, a.payload[i]) {
        CarriedMore(es, a, a.key, i, a.payload[i]);
      }
    } else {
      var u := Ready(limits, t, a);
      assert TableCarried(es, u) && TableCarried(es + [a], u);
      NoneCarried(es, a.key);
      hide Ready;
      OfferCarried(es, limits.maxBytes, EntryOf(u, a.key, a.now), a);
    }
  }

  lemma NoneCarried<K>(es: seq<Arrival<K>>, key: K)
    ensures AllCarried(es, key, [])
  {
  }

  lemma {:induction false} RunCarried<K>(limits: Limits, es: seq<Arrival<K>>)
    ensures TableCarried(es, Run(limits, EmptyTable<K>(), es))
    decreases |es|
  {
    if es != [] {
      var before, last := es[..|es| - 1], es[|es| - 1];
      RunCarried(limits, before);
      hide TableCarried, Push;
      PushCarried(limits, before, Run(limits, EmptyTable<K>(), before), last);
      assert before + [last] == es;
    }
  }

  /** After any run whatever, each byte of a returned datagram was carried at its offset by a fragment of that datagram's key. */
  lemma DatagramSound<K>(limits: Limits, es: seq<Arrival<K>>, a: Arrival<K>)
    ensures var out := Push(limits, Run(limits, EmptyTable<K>(), es), a).1;
            out.Some? ==> forall i :: 0 <= i < |out.value| ==> Carried(es + [a], a.key, i, out.value[i])
  {
    hide TableCarried, Push, Run, Carried;
    RunCarried(limits, es);
    PushCarried(limits, es, Run(limits, EmptyTable<K>(), es), a);
  }
}

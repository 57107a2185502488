/** `IpFragmentReassembler` (src/ip_fragment.rs), updated in place and proved against `FragmentTable`. */
module IpFragment {
  import opened Types
  import opened Fragments
  import opened FragmentTable

  /** Some stored fragment meets `[off, end)`: one pass over the fragments. */
  method AnyOverlap(fs: seq<Frag>, off: nat, end: nat) returns (r: bool)
    ensures r == Hit(fs, off, end)
  {
    for i := 0 to |fs|
      invariant Hit(fs[i..], off, end) == Hit(fs, off, end)
    {
      assert fs[i..][1..] == fs[i + 1..];
      if off < fs[i].End() && fs[i].off < end {
        return true;
      }
    }
    return false;
  }

  /** The buffered fragments run from byte 0 to `total` without a hole. */
  method IsContiguous(fs: seq<Frag>, total: nat) returns (r: bool)
    ensures r == Contiguous(fs, 0, total)
  {
    var expected: nat := 0;
    for i := 0 to |fs|
      invariant Contiguous(fs[i..], expected, total) == Contiguous(fs, 0, total)
    {
      assert fs[i..][1..] == fs[i + 1..];
      if fs[i].off != expected {
        return false;
      }
      expected := expected + |fs[i].data|;
    }
    return expected == total;
  }

  method Join(fs: seq<Frag>) returns (out: seq<byte>)
    ensures out == Joined(fs)
  {
    out := [];
    for i := 0 to |fs|
      invariant out + Joined(fs[i..]) == Joined(fs)
    {
      assert fs[i..][1..] == fs[i + 1..];
      out := out + fs[i].data;
    }
  }

  class IpFragmentReassembler<K(==)> {
    const limits: Limits
    var pending: map<K, Pending>
    var reassembled: nat
    var timedOut: nat
    var overlaps: nat
    var oversize: nat
    ghost var begun: nat
    ghost var evicted: nat

    constructor (limits: Limits)
      ensures Valid() && View() == EmptyTable() && this.limits == limits
    {
      this.limits := limits;
      pending, reassembled, timedOut, overlaps, oversize := map[], 0, 0, 0, 0;
      begun, evicted := 0, 0;
    }

    ghost function View(): Table<K>
      reads this
    {
      Table(pending, reassembled, timedOut, overlaps, oversize, begun, evicted)
    }

    ghost predicate Valid()
      reads this
    {
      TableInv(limits, View())
    }

    /** Exactly the datagrams begun longer ago than the timeout go, and are counted. */
    method EvictExpired(now: Time) returns (dropped: nat)
      requires Valid()
      modifies this`pending, this`timedOut
      ensures Valid() && View() == Expire(limits, old(View()), now) && dropped == |old(pending)| - |pending|
    {
      hide TableInv;
      ghost var t0 := View();
      ExpireInv(limits, t0, now);
      var before := pending;
      var todo := pending.Keys;
      while todo != {}
        invariant todo <= pending.Keys <= before.Keys && timedOut == old(timedOut)
        invariant forall k :: k in before ==> (k in pending <==> k in todo || Fresh(limits, before[k], now))
        invariant forall k :: k in pending ==> pending[k] == before[k]
        decreases |todo|
      {
        var k :| k in todo;
        todo := todo - {k};
        if Since(now, pending[k].firstSeen) > limits.timeout {
          pending := pending - {k};
        }
      }
      assert pending == Expire(limits, t0, now).pending;
      ExpireShape(limits, t0, now);
      dropped := |before| - |pending|;
      timedOut := timedOut + dropped;
      assert View() == Expire(limits, t0, now);
    }

    /** The key of a datagram whose first fragment is oldest. */
    method FindOldest() returns (oldest: K)
      requires pending != map[]
      ensures Oldest(View(), oldest)
    {
      oldest :| oldest in pending;
      var todo := pending.Keys - {oldest};
      while todo != {}
        invariant oldest in pending && todo <= pending.Keys
        invariant forall k :: k in pending && k !in todo ==> pending[oldest].firstSeen <= pending[k].firstSeen
        decreases |todo|
      {
        var k :| k in todo;
        todo := todo - {k};
        if pending[k].firstSeen < pending[oldest].firstSeen {
          oldest := k;
        }
      }
    }

    /** A new key in a full table costs an oldest datagram its place. */
    method DropOldestIfFull(key: K) returns (ghost victim: K)
      requires Valid()
      modifies this`pending, this`evicted
      ensures Valid() && (Full(limits, old(View()), key) ==> Oldest(old(View()), victim))
      ensures View() == MakeRoom(limits, old(View()), key, victim)
      ensures HasRoom(limits, View(), key)
    {
      victim := key;
      if key !in pending && |pending| >= limits.maxDatagrams && pending != map[] {
        var k := FindOldest();
        victim := k;
        RoomInv(limits, View(), key, k);
        pending := pending - {k};
        evicted := evicted + 1;
      }
    }

    /** Feed one fragment; `Some` is a complete datagram. */
    method DoPush(key: K, off: nat, more: bool, payload: seq<byte>, now: Time) returns (out: Option<seq<byte>>, ghost victim: K)
      requires Valid()
      modifies this
      ensures Valid() && Fair(limits, old(View()), Arrival(key, off, more, payload, now, victim))
      ensures (View(), out) == Push(limits, old(View()), Arrival(key, off, more, payload, now, victim))
    {
      hide TableInv, Expire;
      victim := key;
      ghost var t0 := View();
      // Not actually fragmented.
      if off == 0 && !more {
        return Some(payload), key;
      }
      var dropped := EvictExpired(now);
      victim := DropOldestIfFull(key);
      ghost var t2 := View();
      assert t2 == Ready(limits, t0, Arrival(key, off, more, payload, now, victim));
      out := Store(key, off, more, payload, now);
    }

    /** What one fragment does to its datagram. */
    method Examine(entry: Pending, off: nat, more: bool, payload: seq<byte>) returns (v: Verdict)
      ensures v == Offer(limits.maxBytes, entry, off, more, payload)
    {
      hide Hit, Put, Contiguous, Joined;
      if entry.poisoned {
        return Waiting(entry);
      }
      var end := off + |payload|;
      var hit := AnyOverlap(entry.frags, off, end);
      if hit {
        return Overlap;
      }
      if entry.buffered + |payload| > limits.maxBytes || end > limits.maxBytes {
        return Oversize;
      }
      var frags := Put(entry.frags, Frag(off, payload));
      var total := if more then entry.total else Some(end);
      if total.Some? {
        var whole := IsContiguous(frags, total.value);
        if whole {
          var d := Join(frags);
          return Complete(d);
        }
      }
      return Waiting(entry.(frags := frags, total := total, buffered := entry.buffered + |payload|));
    }

    /** Check one fragment against its datagram and store, complete or drop it. */
    method Store(key: K, off: nat, more: bool, payload: seq<byte>, now: Time) returns (out: Option<seq<byte>>)
      requires Valid() && HasRoom(limits, View(), key)
      modifies this
      ensures Valid()
      ensures (View(), out) == Settle(old(View()), key, Offer(limits.maxBytes, EntryOf(old(View()), key, now), off, more, payload))
    {
      ghost var t := View();
      var entry := if key in pending then pending[key] else NewPending(now);
      assert entry == EntryOf(t, key, now) && !entry.poisoned;
      NeverPoisoned(limits.maxBytes, entry, off, more, payload);
      hide TableInv, Offer, Settle;
      var v := Examine(entry, off, more, payload);
      SettleInv(limits, t, key, v);
      out := Conclude(key, v);
    }

    /** Keep waiting, or close the datagram and count why. */
    method Conclude(key: K, v: Verdict) returns (out: Option<seq<byte>>)
      modifies this
      ensures (View(), out) == Settle(old(View()), key, v)
    {
      if key !in pending {
        begun := begun + 1;
      }
      match v
      case Waiting(p) =>
        pending := pending[key := p];
        out := None;
      case Complete(d) =>
        pending := pending - {key};
        reassembled := reassembled + 1;
        out := Some(d);
      case Overlap =>
        overlaps := overlaps + 1;
        pending := pending - {key};
        out := None;
      case Oversize =>
        oversize := oversize + 1;
        pending := pending - {key};
        out := None;
    }
  }
}

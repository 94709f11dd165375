/**
 * Sequences of `Set` and `Delete` calls on one Go map store, applied one after
 * another. Under its lock the store behaves as if its calls ran in some such
 * order; this module states what the table holds at the end: each key holds
 * what the last successful call on that key left, a key is present exactly
 * when it was set and not deleted since, and calls on different keys may be
 * interleaved in any order without changing the result.
 */
module History {
  import opened Util
  import opened GoMap

  /** One call that may change the table. */
  datatype Call<V> = SetCall(key: string, v: Iface<V>) | DeleteCall(key: string)

  /** Whether a call returns nil; it does not depend on the table. */
  predicate Succeeds<V>(f: MarshalFormat, u: Helpers<V>, c: Call<V>)
  {
    match c
    case SetCall(k, v) => u.checkKeyAndValue(k, v).None? && Marshal(u, f, v).Ok?
    case DeleteCall(k) => u.checkKey(k).None?
  }

  /** What a successful call leaves under its key: the marshalled value, or nothing. */
  function Written<V>(f: MarshalFormat, u: Helpers<V>, c: Call<V>): Option<Bytes>
    requires Succeeds(f, u, c)
  {
    match c
    case SetCall(_, v) => Some(Marshal(u, f, v).value)
    case DeleteCall(_) => None
  }

  /** The entry of `k`, if any. */
  function Find(entries: Entries, k: string): Option<Bytes>
  {
    if k in entries then Some(entries[k]) else None
  }

  /** One call on a store with format `f` holding `entries`. */
  function Perform<V>(entries: Entries, f: MarshalFormat, u: Helpers<V>, c: Call<V>): (r: Outcome)
    ensures r.err.None? <==> Succeeds(f, u, c)
    // a call changes at most its own key, and only when it succeeds
    ensures forall k :: Find(r.entries, k) ==
                        if c.key == k && Succeeds(f, u, c) then Written(f, u, c) else Find(entries, k)
  {
    match c
    case SetCall(k, v) => SetEntry(entries, f, u, k, v)
    case DeleteCall(k) => DeleteEntry(entries, u, k)
  }

  /** The table after the calls, in order, starting from `entries`. */
  function Replay<V>(entries: Entries, f: MarshalFormat, u: Helpers<V>, calls: seq<Call<V>>): Entries
    decreases |calls|
  {
    if calls == [] then entries
    else
      var n := |calls| - 1;
      Perform(Replay(entries, f, u, calls[..n]), f, u, calls[n]).entries
  }

  /** The index of the last call on `k` that succeeds, if there is one. */
  function LastWrite<V>(f: MarshalFormat, u: Helpers<V>, calls: seq<Call<V>>, k: string): (r: Option<nat>)
    ensures r.Some? ==> r.value < |calls| && calls[r.value].key == k && Succeeds(f, u, calls[r.value])
    ensures forall j :: (if r.Some? then r.value < j else 0 <= j) && j < |calls| && calls[j].key == k
                        ==> !Succeeds(f, u, calls[j])
    decreases |calls|
  {
    if calls == [] then None
    else
      var n := |calls| - 1;
      if calls[n].key == k && Succeeds(f, u, calls[n]) then Some(n)
      else LastWrite(f, u, calls[..n], k)
  }

  /** What the last successful call on `k` left under it; the initial entry if there is none. */
  function LastWritten<V>(entries: Entries, f: MarshalFormat, u: Helpers<V>, calls: seq<Call<V>>, k: string): Option<Bytes>
  {
    match LastWrite(f, u, calls, k)
    case None => Find(entries, k)
    case Some(i) => Written(f, u, calls[i])
  }

  /** After any sequence of calls, each key holds what the last successful call on it left. */
  lemma {:induction false} ReplayKeepsLastWrite<V>(entries: Entries, f: MarshalFormat, u: Helpers<V>, calls: seq<Call<V>>, k: string)
    ensures Find(Replay(entries, f, u, calls), k) == LastWritten(entries, f, u, calls, k)
    decreases |calls|
  {
    if calls != [] {
      var n := |calls| - 1;
      ReplayKeepsLastWrite(entries, f, u, calls[..n], k);
      if !(calls[n].key == k && Succeeds(f, u, calls[n])) {
        var r := LastWrite(f, u, calls[..n], k);
        assert r.Some? ==> calls[..n][r.value] == calls[r.value];
      }
    }
  }

  /**
   * Starting from a new store, a key is present after the calls exactly when
   * some successful `Set` stored it and no successful `Delete` of it followed.
   */
  lemma PresentIffSetAndNotDeleted<V>(f: MarshalFormat, u: Helpers<V>, calls: seq<Call<V>>, k: string)
    ensures k in Replay(map[], f, u, calls) <==>
      exists i :: 0 <= i < |calls| && calls[i].SetCall? && calls[i].key == k && Succeeds(f, u, calls[i]) &&
        forall j :: i < j < |calls| && calls[j].DeleteCall? && calls[j].key == k ==> !Succeeds(f, u, calls[j])
  {
    ReplayKeepsLastWrite(map[], f, u, calls, k);
    var last := LastWrite(f, u, calls, k);
    if exists i :: 0 <= i < |calls| && calls[i].SetCall? && calls[i].key == k && Succeeds(f, u, calls[i]) &&
        forall j :: i < j < |calls| && calls[j].DeleteCall? && calls[j].key == k ==> !Succeeds(f, u, calls[j])
    {
      var i :| 0 <= i < |calls| && calls[i].SetCall? && calls[i].key == k && Succeeds(f, u, calls[i]) &&
        forall j :: i < j < |calls| && calls[j].DeleteCall? && calls[j].key == k ==> !Succeeds(f, u, calls[j]);
      assert last.Some? && last.value >= i;
      assert calls[last.value].SetCall?;
    }
  }

  /** The indices of the calls on `k`. */
  ghost function CallsOn<V>(calls: seq<Call<V>>, k: string): set<nat>
  {
    set j: nat | j < |calls| && calls[j].key == k
  }

  /** The calls on `k`, in their order. */
  function OnKey<V>(calls: seq<Call<V>>, k: string): seq<Call<V>>
    decreases |calls|
  {
    if calls == [] then []
    else
      var n := |calls| - 1;
      if calls[n].key == k then OnKey(calls[..n], k) + [calls[n]] else OnKey(calls[..n], k)
  }

  /** Every call `OnKey` keeps is on `k`, and it keeps as many calls as there are on `k`. */
  lemma {:induction false} OnKeyCount<V>(calls: seq<Call<V>>, k: string)
    ensures forall i :: 0 <= i < |OnKey(calls, k)| ==> OnKey(calls, k)[i].key == k
    ensures |OnKey(calls, k)| == |CallsOn(calls, k)|
    decreases |calls|
  {
    if calls != [] {
      var n := |calls| - 1;
      OnKeyCount(calls[..n], k);
      assert CallsOn(calls, k) == CallsOn(calls[..n], k) + (if calls[n].key == k then {n} else {});
    }
  }

  /** Filtering keeps the order: the calls on `k` of `a + b` are those of `a`, then those of `b`. */
  lemma {:induction false} OnKeyAppend<V>(a: seq<Call<V>>, b: seq<Call<V>>, k: string)
    ensures OnKey(a + b, k) == OnKey(a, k) + OnKey(b, k)
    decreases |b|
  {
    if b == [] {
      assert a + b == a;
    } else {
      var n := |b| - 1;
      var ab := a + b;
      OnKeyAppend(a, b[..n], k);
      assert ab[..|ab| - 1] == a + b[..n];
      assert ab[|ab| - 1] == b[n];
      var front := OnKey(a, k) + OnKey(b[..n], k);
      if b[n].key == k {
        assert OnKey(ab, k) == front + [b[n]];
        assert OnKey(b, k) == OnKey(b[..n], k) + [b[n]];
        assert front + [b[n]] == OnKey(a, k) + (OnKey(b[..n], k) + [b[n]]);
      } else {
        assert OnKey(ab, k) == front;
        assert OnKey(b, k) == OnKey(b[..n], k);
      }
    }
  }

  /** What a key holds at the end depends only on the calls on that key. */
  lemma {:induction false} ReplayOnKey<V>(entries: Entries, f: MarshalFormat, u: Helpers<V>, calls: seq<Call<V>>, k: string)
    ensures Find(Replay(entries, f, u, calls), k) == Find(Replay(entries, f, u, OnKey(calls, k)), k)
    decreases |calls|
  {
    if calls != [] {
      var n := |calls| - 1;
      ReplayOnKey(entries, f, u, calls[..n], k);
      if calls[n].key == k {
        var own := OnKey(calls[..n], k);
        assert (own + [calls[n]])[..|own|] == own;
      }
    }
  }

  /**
   * Two orders of the same per-key calls leave the same table. For callers
   * that work on disjoint keys this covers the orders in which their locked
   * calls can take effect; `Delete` does not lock, so a `Delete` that overlaps
   * another call is not covered.
   */
  lemma Interleavings<V>(entries: Entries, f: MarshalFormat, u: Helpers<V>, a: seq<Call<V>>, b: seq<Call<V>>)
    requires forall k :: OnKey(a, k) == OnKey(b, k)
    ensures Replay(entries, f, u, a) == Replay(entries, f, u, b)
  {
    var ra, rb := Replay(entries, f, u, a), Replay(entries, f, u, b);
    forall k
      ensures Find(ra, k) == Find(rb, k)
    {
      ReplayOnKey(entries, f, u, a, k);
      ReplayOnKey(entries, f, u, b, k);
    }
    assert forall k :: k in ra <==> k in rb by {
      forall k ensures k in ra <==> k in rb {
        assert Find(ra, k) == Find(rb, k);
      }
    }
    forall k | k in ra
      ensures ra[k] == rb[k]
    {
      assert Find(ra, k) == Find(rb, k);
    }
  }

  /**
   * Two runs of calls on disjoint sets of keys leave the same table in either
   * order: the case of two callers on different keys whose calls take effect
   * one at a time (a `Delete`, which does not lock, must not overlap another call).
   */
  lemma DisjointCallsCommute<V>(entries: Entries, f: MarshalFormat, u: Helpers<V>, a: seq<Call<V>>, b: seq<Call<V>>)
    requires forall i, j :: 0 <= i < |a| && 0 <= j < |b| ==> a[i].key != b[j].key
    ensures Replay(entries, f, u, a + b) == Replay(entries, f, u, b + a)
  {
    forall k
      ensures OnKey(a + b, k) == OnKey(b + a, k)
    {
      OnKeyAppend(a, b, k);
      OnKeyAppend(b, a, k);
      OnKeyCount(a, k);
      OnKeyCount(b, k);
      if CallsOn(a, k) != {} {
        var i :| i in CallsOn(a, k);
        assert CallsOn(b, k) == {};
        assert OnKey(b, k) == [];
      } else {
        assert OnKey(a, k) == [];
      }
    }
    Interleavings(entries, f, u, a + b, b + a);
  }

  /** With checks that keep their documented promise, the empty key is never stored. */
  lemma EmptyKeyNeverStored<V(!new)>(f: MarshalFormat, u: Helpers<V>, calls: seq<Call<V>>)
    requires Documented(u)
    ensures "" !in Replay(map[], f, u, calls)
  {
    PresentIffSetAndNotDeleted(f, u, calls, "");
  }
}

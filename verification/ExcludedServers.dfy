/**
 * Servers to be avoided by later tries of one RPC (brpc/brpc/excluded_servers.h), kept in a
 * bounded ring that drops its oldest entry when full (brpc/butil/containers/bounded_queue.h).
 */
module Excluded {

  type SocketId = int

  /** Add on the queue seen as a sequence, oldest first. */
  function Push(q: seq<SocketId>, cap: nat, id: SocketId): (r: seq<SocketId>)
    requires |q| <= cap && cap > 0
    ensures |r| <= cap && r != [] && r[|r| - 1] == id
  {
    if q != [] && q[|q| - 1] == id then q
    else if |q| < cap then q + [id]
    else q[1..] + [id]
  }

  function PushAll(q: seq<SocketId>, cap: nat, ids: seq<SocketId>): (r: seq<SocketId>)
    requires |q| <= cap && cap > 0
    ensures |r| <= cap
    decreases |ids|
  {
    if ids == [] then q else Push(PushAll(q, cap, ids[..|ids| - 1]), cap, ids[|ids| - 1])
  }

  /** `ids` without immediate repetitions. */
  function Distinct(ids: seq<SocketId>): (r: seq<SocketId>)
    ensures ids != [] ==> r != [] && r[|r| - 1] == ids[|ids| - 1]
    ensures |r| <= |ids| && (ids == [] ==> r == [])
    decreases |ids|
  {
    if ids == [] then []
    else
      var r := Distinct(ids[..|ids| - 1]);
      if r != [] && r[|r| - 1] == ids[|ids| - 1] then r else r + [ids[|ids| - 1]]
  }

  function Last(s: seq<SocketId>, k: nat): seq<SocketId> { if |s| <= k then s else s[|s| - k..] }

  /** After any additions the ring holds the last `cap` of them, repetitions collapsed. */
  lemma {:induction false} HoldsLastAdditions(cap: nat, ids: seq<SocketId>)
    requires cap > 0
    ensures PushAll([], cap, ids) == Last(Distinct(ids), cap)
    decreases |ids|
  {
    if ids != [] {
      var init, x := ids[..|ids| - 1], ids[|ids| - 1];
      HoldsLastAdditions(cap, init);
      LastStep(Distinct(init), cap, x);
    }
  }

  lemma LastStep(d: seq<SocketId>, cap: nat, x: SocketId)
    requires cap > 0
    ensures Push(Last(d, cap), cap, x) == Last(if d != [] && d[|d| - 1] == x then d else d + [x], cap)
  {
    if d == [] || d[|d| - 1] != x {
      if |d| < cap {
        assert Last(d, cap) == d;
      } else {
        assert Last(d, cap)[1..] + [x] == (d + [x])[|d| + 1 - cap..];
      }
    }
  }

  /** The addition made j steps ago sits among the last j + 1 distinct ones. */
  lemma {:induction false} DistinctKeeps(ids: seq<SocketId>, j: nat) returns (k: nat)
    requires j < |ids|
    ensures |Distinct(ids)| - 1 - j <= k < |Distinct(ids)| && Distinct(ids)[k] == ids[|ids| - 1 - j]
    decreases |ids|
  {
    if j > 0 {
      k := DistinctKeeps(ids[..|ids| - 1], j - 1);
    } else {
      k := |Distinct(ids)| - 1;
    }
  }

  /** Whatever was added among the last `cap` additions is excluded. */
  lemma {:induction false} RecentAdditionsExcluded(cap: nat, ids: seq<SocketId>, j: nat)
    requires j < cap && j < |ids|
    ensures ids[|ids| - 1 - j] in PushAll([], cap, ids)
  {
    HoldsLastAdditions(cap, ids);
    var k := DistinctKeeps(ids, j);
    var d := Distinct(ids);
    if |d| > cap { assert d[k] == d[|d| - cap..][k - (|d| - cap)]; }
  }

  /** Ring position of `off`, which callers keep below twice the capacity. */
  function Wrap(off: nat, cap: nat): nat
    requires off < cap + cap
  {
    if off < cap then off else off - cap
  }

  /** BoundedQueue's _mod: subtracting instead of dividing. */
  method Mod(off: nat, cap: nat) returns (r: nat)
    requires cap > 0
    ensures r < cap
    ensures off < cap + cap ==> r == Wrap(off, cap)
  {
    r := off;
    while r >= cap
      invariant off < cap + cap ==> r == off || (r == off - cap && off >= cap)
    {
      r := r - cap;
    }
  }

  /** Entries of a ring of storage `s`, oldest first. */
  function Ring(s: seq<SocketId>, start: nat, count: nat): (q: seq<SocketId>)
    requires start < |s| && count <= |s|
    ensures |q| == count
    ensures forall i :: 0 <= i < count ==> q[i] == s[Wrap(start + i, |s|)]
  {
    seq(count, i requires 0 <= i < count => s[Wrap(start + i, |s|)])
  }

  lemma RingGrows(s: seq<SocketId>, start: nat, count: nat, id: SocketId)
    requires start < |s| && count < |s|
    ensures Ring(s[Wrap(start + count, |s|) := id], start, count + 1) == Ring(s, start, count) + [id]
  {
    var r := Ring(s[Wrap(start + count, |s|) := id], start, count + 1);
    forall i | 0 <= i < count + 1 ensures r[i] == (Ring(s, start, count) + [id])[i] {}
  }

  lemma RingShifts(s: seq<SocketId>, start: nat, id: SocketId)
    requires start < |s|
    ensures Ring(s[start := id], Wrap(start + 1, |s|), |s|) == Ring(s, start, |s|)[1..] + [id]
  {
    var r := Ring(s[start := id], Wrap(start + 1, |s|), |s|);
    forall i | 0 <= i < |s| ensures r[i] == (Ring(s, start, |s|)[1..] + [id])[i] {}
  }

  /** ExcludedServers over its ring storage. */
  class ExcludedServers {
    const cap: nat
    const items: array<SocketId>
    var start: nat
    var count: nat

    ghost predicate Valid() reads this {
      cap > 0 && items.Length == cap && start < cap && count <= cap
    }

    ghost function Contents(): (q: seq<SocketId>)
      reads this, items
      requires Valid()
    {
      Ring(items[..], start, count)
    }

    constructor (cap: nat)
      requires cap > 0
      ensures Valid() && fresh(items) && this.cap == cap && Contents() == []
    {
      this.cap := cap;
      items := new SocketId[cap];
      start, count := 0, 0;
    }

    /** The i-th entry from the oldest. */
    method At(i: nat) returns (x: SocketId)
      requires Valid() && i < count
      ensures x == Contents()[i]
    {
      var p := Mod(start + i, cap);
      x := items[p];
    }

    method Add(id: SocketId)
      requires Valid()
      modifies this, items
      ensures Valid() && Contents() == Push(old(Contents()), cap, id)
    {
      ghost var q := Contents();
      if count > 0 {
        var last := At(count - 1);
        if last == id {
          assert Push(q, cap, id) == q;
          return;
        }
      }
      assert Push(q, cap, id) == if |q| < cap then q + [id] else q[1..] + [id];
      ElimPush(id);
    }

    method ElimPush(id: SocketId)
      requires Valid()
      modifies this, items
      ensures Valid()
      ensures Contents() == if old(count) < cap then old(Contents()) + [id] else old(Contents())[1..] + [id]
    {
      ghost var s, at := items[..], start;
      if count < cap {
        var p := Mod(start + count, cap);
        RingGrows(s, start, count, id);
        items[p] := id;
        count := count + 1;
        assert items[..] == s[p := id];
      } else {
        RingShifts(s, start, id);
        items[start] := id;
        start := Mod(start + 1, cap);
        assert items[..] == s[at := id];
      }
    }

    method IsExcluded(id: SocketId) returns (found: bool)
      requires Valid()
      ensures found <==> id in Contents()
    {
      var i := 0;
      while i < count
        invariant i <= count
        invariant forall j :: count - i <= j < count ==> Contents()[j] != id
      {
        var x := At(count - i - 1);
        if x == id { return true; }
        i := i + 1;
      }
      return false;
    }
  }
}

/**
 * Grouping of servers by partition (brpc/brpc/partition_channel.cpp). Load balancers are sets of
 * servers that report how many servers a batch added or removed; the tag parser is a parameter;
 * creating a sub channel succeeds.
 */
module Partitioning {
  import opened Options

  datatype ServerId = ServerId(id: nat, tag: string)
  datatype Part = Part(kinds: int, index: int)

  type Parser = string -> Option<Part>

  /** The tag names partition `index` out of `kinds`, and that partition exists. */
  predicate Belongs(parse: Parser, s: ServerId, kinds: int, index: int) {
    0 <= index < kinds && parse(s.tag) == Some(Part(kinds, index))
  }

  predicate OfKind(parse: Parser, s: ServerId, kinds: int) {
    parse(s.tag).Some? && Belongs(parse, s, kinds, parse(s.tag).value.index)
  }

  function SetOf(servers: seq<ServerId>): set<ServerId> { set s | s in servers }

  /** The servers of one partition. */
  function Members(parse: Parser, servers: set<ServerId>, kinds: int, index: int): set<ServerId> {
    set s | s in servers && Belongs(parse, s, kinds, index)
  }

  function InPartition(parse: Parser, servers: seq<ServerId>, kinds: int, index: int): seq<ServerId> {
    if servers == [] then []
    else
      var rest, s := InPartition(parse, servers[..|servers| - 1], kinds, index), servers[|servers| - 1];
      if Belongs(parse, s, kinds, index) then rest + [s] else rest
  }

  function InKind(parse: Parser, servers: seq<ServerId>, kinds: int): seq<ServerId> {
    if servers == [] then []
    else
      var rest, s := InKind(parse, servers[..|servers| - 1], kinds), servers[|servers| - 1];
      if OfKind(parse, s, kinds) then rest + [s] else rest
  }

  lemma {:induction false} PartitionMembers(parse: Parser, servers: seq<ServerId>, kinds: int, index: int)
    ensures SetOf(InPartition(parse, servers, kinds, index)) == Members(parse, SetOf(servers), kinds, index)
    decreases |servers|
  {
    if servers != [] {
      var init, s := servers[..|servers| - 1], servers[|servers| - 1];
      PartitionMembers(parse, init, kinds, index);
      assert servers == init + [s];
      assert SetOf(servers) == SetOf(init) + {s};
      if Belongs(parse, s, kinds, index) {
        var r := InPartition(parse, init, kinds, index);
        assert SetOf(r + [s]) == SetOf(r) + {s};
      }
    }
  }

  lemma {:induction false} KindHolds(parse: Parser, servers: seq<ServerId>, kinds: int, s: ServerId)
    ensures s in InKind(parse, servers, kinds) <==> s in servers && OfKind(parse, s, kinds)
    decreases |servers|
  {
    if servers != [] {
      var init := servers[..|servers| - 1];
      KindHolds(parse, init, kinds, s);
      assert servers == init + [servers[|servers| - 1]];
    }
  }

  /** Passing on only the servers of the right kind loses nothing. */
  lemma {:induction false} KindMembers(parse: Parser, servers: seq<ServerId>, kinds: int, index: int)
    ensures Members(parse, SetOf(InKind(parse, servers, kinds)), kinds, index)
         == Members(parse, SetOf(servers), kinds, index)
  {
    forall s: ServerId | Belongs(parse, s, kinds, index)
      ensures s in SetOf(InKind(parse, servers, kinds)) <==> s in SetOf(servers)
    {
      KindHolds(parse, servers, kinds, s);
    }
  }

  // ---- the load balancers of one PartitionChannelBase ----

  type Balancers = seq<set<ServerId>>

  function Total(lbs: Balancers): nat {
    if lbs == [] then 0 else Total(lbs[..|lbs| - 1]) + |lbs[|lbs| - 1]|
  }

  lemma {:induction false} TotalUpdate(lbs: Balancers, i: nat, s: set<ServerId>)
    requires i < |lbs|
    ensures Total(lbs[i := s]) == Total(lbs) - |lbs[i]| + |s|
    decreases |lbs|
  {
    var n := |lbs| - 1;
    if i < n {
      TotalUpdate(lbs[..n], i, s);
      assert lbs[i := s][..n] == lbs[..n][i := s];
    } else {
      assert lbs[i := s][..n] == lbs[..n];
    }
  }

  /** The total is zero iff every balancer is empty. */
  lemma {:induction false} TotalZero(lbs: Balancers)
    ensures Total(lbs) == 0 <==> forall i :: 0 <= i < |lbs| ==> lbs[i] == {}
    decreases |lbs|
  {
    if lbs != [] {
      var init := lbs[..|lbs| - 1];
      TotalZero(init);
      assert forall i :: 0 <= i < |init| ==> init[i] == lbs[i];
    }
  }

  method PartitionServersIntoTemps(parse: Parser, kinds: nat, servers: seq<ServerId>) returns (tmps: seq<seq<ServerId>>)
    ensures |tmps| == kinds
    ensures forall i :: 0 <= i < kinds ==> tmps[i] == InPartition(parse, servers, kinds, i)
  {
    tmps := seq(kinds, _ => []);
    for n := 0 to |servers|
      invariant |tmps| == kinds
      invariant forall i :: 0 <= i < kinds ==> tmps[i] == InPartition(parse, servers[..n], kinds, i)
    {
      assert servers[..n + 1][..n] == servers[..n];
      var part := parse(servers[n].tag);
      if part.None? { continue; }
      if part.value.kinds != kinds { continue; }
      var index := part.value.index;
      if index < 0 || index >= kinds { continue; }
      tmps := tmps[index := tmps[index] + [servers[n]]];
    }
    assert servers[..|servers|] == servers;
  }

  method AddServersInBatch(parse: Parser, before: Balancers, servers: seq<ServerId>) returns (lbs: Balancers, ntotal: nat)
    ensures |lbs| == |before| && Total(lbs) == Total(before) + ntotal
    ensures forall i :: 0 <= i < |lbs| ==> lbs[i] == before[i] + Members(parse, SetOf(servers), |lbs|, i)
  {
    lbs, ntotal := before, 0;
    var tmps := PartitionServersIntoTemps(parse, |lbs|, servers);
    for i := 0 to |lbs|
      invariant |lbs| == |before| && Total(lbs) == Total(before) + ntotal
      invariant forall j :: i <= j < |lbs| ==> lbs[j] == before[j]
      invariant forall j :: 0 <= j < i ==> lbs[j] == before[j] + Members(parse, SetOf(servers), |lbs|, j)
    {
      PartitionMembers(parse, servers, |lbs|, i);
      if tmps[i] != [] {
        var s := lbs[i] + SetOf(tmps[i]);
        Grows(lbs[i], s);
        TotalUpdate(lbs, i, s);
        ntotal := ntotal + (|s| - |lbs[i]|);
        lbs := lbs[i := s];
      }
    }
  }

  lemma {:induction false} Grows(a: set<ServerId>, b: set<ServerId>)
    requires a <= b
    ensures |a| <= |b|
  {
    assert |b| == |a| + |b - a| by { assert b == a + (b - a); }
  }

  method RemoveServersInBatch(parse: Parser, before: Balancers, servers: seq<ServerId>) returns (lbs: Balancers, ntotal: nat)
    ensures |lbs| == |before| && Total(lbs) + ntotal == Total(before)
    ensures forall i :: 0 <= i < |lbs| ==> lbs[i] == before[i] - Members(parse, SetOf(servers), |lbs|, i)
  {
    lbs, ntotal := before, 0;
    var tmps := PartitionServersIntoTemps(parse, |lbs|, servers);
    for i := 0 to |lbs|
      invariant |lbs| == |before| && Total(lbs) + ntotal == Total(before)
      invariant forall j :: i <= j < |lbs| ==> lbs[j] == before[j]
      invariant forall j :: 0 <= j < i ==> lbs[j] == before[j] - Members(parse, SetOf(servers), |lbs|, j)
    {
      PartitionMembers(parse, servers, |lbs|, i);
      if tmps[i] != [] {
        var s := lbs[i] - SetOf(tmps[i]);
        Grows(s, lbs[i]);
        TotalUpdate(lbs, i, s);
        ntotal := ntotal + (|lbs[i]| - |s|);
        lbs := lbs[i := s];
      }
    }
  }

  /** Every balancer holds exactly the live servers of its partition. */
  predicate Holds(parse: Parser, lbs: Balancers, live: set<ServerId>) {
    forall i :: 0 <= i < |lbs| ==> lbs[i] == Members(parse, live, |lbs|, i)
  }

  lemma {:induction false} MembersChange(parse: Parser, live: set<ServerId>, servers: set<ServerId>, kinds: int, index: int)
    ensures Members(parse, live + servers, kinds, index)
         == Members(parse, live, kinds, index) + Members(parse, servers, kinds, index)
    ensures Members(parse, live - servers, kinds, index)
         == Members(parse, live, kinds, index) - Members(parse, servers, kinds, index)
  {}

  lemma {:induction false} HoldsAfter(parse: Parser, before: Balancers, lbs: Balancers, live: set<ServerId>, servers: set<ServerId>)
    requires |lbs| == |before| && Holds(parse, before, live)
    ensures (forall i :: 0 <= i < |lbs| ==> lbs[i] == before[i] + Members(parse, servers, |lbs|, i))
      ==> Holds(parse, lbs, live + servers)
    ensures (forall i :: 0 <= i < |lbs| ==> lbs[i] == before[i] - Members(parse, servers, |lbs|, i))
      ==> Holds(parse, lbs, live - servers)
  {
    forall i | 0 <= i < |lbs|
      ensures Members(parse, live + servers, |lbs|, i) == before[i] + Members(parse, servers, |lbs|, i)
      ensures Members(parse, live - servers, |lbs|, i) == before[i] - Members(parse, servers, |lbs|, i)
    {
      MembersChange(parse, live, servers, |lbs|, i);
    }
  }
}

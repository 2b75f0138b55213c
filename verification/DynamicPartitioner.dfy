/** DynamicPartitionChannel::Partitioner: one sub channel per number of partitions. */
module DynamicPartitioner {
  import opened Partitioning

  /** SubPartitionChannel */
  datatype Sub = Sub(lbs: Balancers, tmp: seq<ServerId>, numServers: int)

  type Channels = map<int, Sub>

  /** A sub channel has one balancer per partition, holds the live servers of its kind and counts them. */
  predicate SubOk(parse: Parser, kinds: int, c: Sub, live: set<ServerId>) {
    kinds > 0 && |c.lbs| == kinds && Holds(parse, c.lbs, live) && c.numServers == Total(c.lbs)
  }

  predicate AllOk(parse: Parser, chans: Channels, live: set<ServerId>) {
    forall k :: k in chans ==> SubOk(parse, k, chans[k], live)
  }

  predicate HasKind(parse: Parser, live: set<ServerId>, kinds: int) {
    exists s :: s in live && OfKind(parse, s, kinds)
  }

  /** A kind has a sub channel iff some live server is of that kind. */
  ghost predicate Invariant(parse: Parser, chans: Channels, live: set<ServerId>) {
    AllOk(parse, chans, live) && forall k :: k in chans <==> HasKind(parse, live, k)
  }

  lemma {:induction false} CountedServers(parse: Parser, kinds: int, c: Sub, live: set<ServerId>)
    requires SubOk(parse, kinds, c, live)
    ensures c.numServers > 0 <==> HasKind(parse, live, kinds)
  {
    TotalZero(c.lbs);
    if HasKind(parse, live, kinds) {
      var s :| s in live && OfKind(parse, s, kinds);
      var i := parse(s.tag).value.index;
      assert s in c.lbs[i];
    }
    if c.numServers > 0 {
      var i :| 0 <= i < |c.lbs| && c.lbs[i] != {};
      var s :| s in c.lbs[i];
      assert OfKind(parse, s, kinds);
    }
  }

  /** A server of a kind the batch does not contain is not touched by it. */
  lemma {:induction false} Untouched(parse: Parser, kinds: int, c: Sub, live: set<ServerId>, servers: seq<ServerId>)
    requires SubOk(parse, kinds, c, live) && InKind(parse, servers, kinds) == []
    ensures SubOk(parse, kinds, c, live + SetOf(servers)) && SubOk(parse, kinds, c, live - SetOf(servers))
  {
    forall i | 0 <= i < |c.lbs|
      ensures Members(parse, SetOf(servers), kinds, i) == {}
    {
      KindMembers(parse, servers, kinds, i);
    }
    HoldsAfter(parse, c.lbs, c.lbs, live, SetOf(servers));
  }

  /** After the servers of a batch were sorted into the tmp vectors. */
  ghost predicate Collected(parse: Parser, chans: Channels, servers: seq<ServerId>, live: set<ServerId>) {
    && AllOk(parse, chans, live)
    && (forall k :: k in chans ==> chans[k].tmp == InKind(parse, servers, k))
    && (forall k :: k in chans <==> HasKind(parse, live + SetOf(servers), k))
  }

  lemma {:induction false} KindsAfter(parse: Parser, live: set<ServerId>, before: seq<ServerId>, s: ServerId)
    ensures forall k :: HasKind(parse, live + SetOf(before + [s]), k) <==>
      HasKind(parse, live + SetOf(before), k) || OfKind(parse, s, k)
  {
    var old_, new_ := live + SetOf(before), live + SetOf(before + [s]);
    assert new_ == old_ + {s};
    forall k
      ensures HasKind(parse, new_, k) <==> HasKind(parse, old_, k) || OfKind(parse, s, k)
    {
      if HasKind(parse, new_, k) {
        var x :| x in new_ && OfKind(parse, x, k);
        assert x == s || x in old_;
      }
      if HasKind(parse, old_, k) {
        var x :| x in old_ && OfKind(parse, x, k);
        assert x in new_;
      }
      assert s in new_;
    }
  }

  lemma {:induction false} KindAfter(parse: Parser, before: seq<ServerId>, s: ServerId)
    ensures forall k :: InKind(parse, before + [s], k) ==
                        (if OfKind(parse, s, k) then InKind(parse, before, k) + [s] else InKind(parse, before, k))
  {
    assert (before + [s])[..|before|] == before;
  }

  /** A kind without live servers starts from empty balancers, and no server of it came before. */
  lemma {:induction false} NewSub(parse: Parser, kinds: nat, live: set<ServerId>, before: seq<ServerId>)
    requires kinds > 0 && !HasKind(parse, live + SetOf(before), kinds)
    ensures SubOk(parse, kinds, NewChannel(kinds), live)
    ensures InKind(parse, before, kinds) == []
  {
    var lbs: Balancers := seq(kinds, _ => {});
    TotalZero(lbs);
    forall i | 0 <= i < kinds ensures Members(parse, live, kinds, i) == {} {
      forall s | s in live ensures !Belongs(parse, s, kinds, i) {
        assert s in live + SetOf(before) && !OfKind(parse, s, kinds);
      }
    }
    if InKind(parse, before, kinds) != [] { KindPresent(parse, kinds, live, before); }
  }

  lemma {:induction false} KindPresent(parse: Parser, kinds: int, live: set<ServerId>, servers: seq<ServerId>)
    requires InKind(parse, servers, kinds) != []
    ensures HasKind(parse, live + SetOf(servers), kinds)
  {
    var s := InKind(parse, servers, kinds)[0];
    KindHolds(parse, servers, kinds, s);
    assert s in live + SetOf(servers);
  }

  function NewChannel(kinds: nat): Sub { Sub(seq(kinds, _ => {}), [], 0) }

  /** The sub channel of a kind, made if there was none, with one more server in tmp. */
  function WithServer(chans: Channels, kinds: nat, s: ServerId): Channels {
    var c := if kinds in chans then chans[kinds] else NewChannel(kinds);
    chans[kinds := c.(tmp := c.tmp + [s])]
  }

  lemma {:induction false} NothingCollected(parse: Parser, chans: Channels, before: seq<ServerId>, s: ServerId, live: set<ServerId>)
    requires Collected(parse, chans, before, live) && forall k :: !OfKind(parse, s, k)
    ensures Collected(parse, chans, before + [s], live)
  {
    KindsAfter(parse, live, before, s);
    KindAfter(parse, before, s);
  }

  lemma {:induction false} ServerCollected(parse: Parser, chans: Channels, before: seq<ServerId>, s: ServerId,
                                           live: set<ServerId>, kinds: nat)
    requires Collected(parse, chans, before, live) && OfKind(parse, s, kinds)
    ensures Collected(parse, WithServer(chans, kinds, s), before + [s], live)
  {
    KindsAfter(parse, live, before, s);
    KindAfter(parse, before, s);
    if kinds !in chans { NewSub(parse, kinds, live, before); }
    var after := WithServer(chans, kinds, s);
    forall k | k in after ensures SubOk(parse, k, after[k], live) && after[k].tmp == InKind(parse, before + [s], k) {
      if k != kinds { OneKind(parse, s, k, kinds); }
    }
    forall k ensures k in after <==> k in chans || OfKind(parse, s, k) {
      if k != kinds { OneKind(parse, s, k, kinds); }
    }
  }

  /** A server is of one kind only. */
  lemma {:induction false} OneKind(parse: Parser, s: ServerId, k: int, kinds: int)
    requires OfKind(parse, s, kinds) && k != kinds
    ensures !OfKind(parse, s, k)
  {}

  lemma {:induction false} AddedOk(parse: Parser, kinds: int, c: Sub, lbs: Balancers, live: set<ServerId>, servers: seq<ServerId>)
    requires SubOk(parse, kinds, c, live) && |lbs| == kinds
    requires forall i :: 0 <= i < kinds ==> lbs[i] == c.lbs[i] + Members(parse, SetOf(InKind(parse, servers, kinds)), kinds, i)
    ensures Holds(parse, lbs, live + SetOf(servers))
  {
    forall i | 0 <= i < kinds
      ensures lbs[i] == c.lbs[i] + Members(parse, SetOf(servers), kinds, i)
    {
      KindMembers(parse, servers, kinds, i);
    }
    HoldsAfter(parse, c.lbs, lbs, live, SetOf(servers));
  }

  lemma {:induction false} RemovedOk(parse: Parser, kinds: int, c: Sub, lbs: Balancers, live: set<ServerId>, servers: seq<ServerId>)
    requires SubOk(parse, kinds, c, live) && |lbs| == kinds
    requires forall i :: 0 <= i < kinds ==> lbs[i] == c.lbs[i] - Members(parse, SetOf(InKind(parse, servers, kinds)), kinds, i)
    ensures Holds(parse, lbs, live - SetOf(servers))
  {
    forall i | 0 <= i < kinds
      ensures lbs[i] == c.lbs[i] - Members(parse, SetOf(servers), kinds, i)
    {
      KindMembers(parse, servers, kinds, i);
    }
    HoldsAfter(parse, c.lbs, lbs, live, SetOf(servers));
  }

  /** The loop over the map has done all kinds but those in `todo`. */
  ghost predicate Updated(parse: Parser, chans: Channels, todo: set<int>, servers: seq<ServerId>,
                          live: set<ServerId>, after: set<ServerId>) {
    forall k :: k in chans ==>
      if k in todo then SubOk(parse, k, chans[k], live) && chans[k].tmp == InKind(parse, servers, k)
      else SubOk(parse, k, chans[k], after)
  }

  /** What the naming service reports, and the servers that are then live. */
  datatype Event = Added(servers: seq<ServerId>) | Removed(servers: seq<ServerId>)

  function Replay(live: set<ServerId>, events: seq<Event>): set<ServerId> {
    if events == [] then live
    else
      var before := Replay(live, events[..|events| - 1]);
      match events[|events| - 1]
      case Added(servers) => before + SetOf(servers)
      case Removed(servers) => before - SetOf(servers)
  }

  predicate Distinct(ks: seq<int>) { forall i, j :: 0 <= i < j < |ks| ==> ks[i] != ks[j] }

  /** A sub channel no server of the batch belongs to has live servers and keeps them. */
  lemma {:induction false} StillAlive(parse: Parser, kinds: int, c: Sub, live: set<ServerId>, servers: seq<ServerId>)
    requires SubOk(parse, kinds, c, live) && InKind(parse, servers, kinds) == []
    requires HasKind(parse, live + SetOf(servers), kinds)
    ensures c.numServers > 0
  {
    var s :| s in live + SetOf(servers) && OfKind(parse, s, kinds);
    KindHolds(parse, servers, kinds, s);
    CountedServers(parse, kinds, c, live);
  }

  lemma {:induction false} KindsLeft(parse: Parser, live: set<ServerId>, servers: seq<ServerId>)
    ensures forall k :: HasKind(parse, live - SetOf(servers), k) ==> HasKind(parse, live + SetOf(servers), k)
  {
    forall k | HasKind(parse, live - SetOf(servers), k) ensures HasKind(parse, live + SetOf(servers), k) {
      var s :| s in live - SetOf(servers) && OfKind(parse, s, k);
      assert s in live + SetOf(servers);
    }
  }

  /** The sub channels to be erased: those that were done and count no server. */
  ghost predicate Vanished(chans: Channels, todo: set<int>, erased: seq<int>) {
    forall k :: k in erased <==> k in chans && k !in todo && chans[k].numServers <= 0
  }

  lemma {:induction false} UpdatedNext(parse: Parser, chans: Channels, todo: set<int>, servers: seq<ServerId>,
                                       live: set<ServerId>, after: set<ServerId>, k: int, c: Sub)
    requires Updated(parse, chans, todo, servers, live, after) && k in todo && SubOk(parse, k, c, after)
    ensures Updated(parse, chans[k := c], todo - {k}, servers, live, after)
  {}

  lemma {:induction false} VanishedNext(chans: Channels, todo: set<int>, erased: seq<int>, k: int, c: Sub, more: seq<int>)
    requires Distinct(erased) && Vanished(chans, todo, erased) && k in todo && k in chans
    requires more == if c.numServers <= 0 then erased + [k] else erased
    ensures Distinct(more) && Vanished(chans[k := c], todo - {k}, more)
  {
    assert k !in erased;
  }

  /** Erasing the sub channels that count no server leaves exactly the kinds with live servers. */
  lemma {:induction false} Remaining(parse: Parser, chans: Channels, erased: seq<int>, servers: seq<ServerId>, live: set<ServerId>)
    requires forall k :: k in chans <==> HasKind(parse, live + SetOf(servers), k)
    requires AllOk(parse, chans, live - SetOf(servers)) && Vanished(chans, {}, erased)
    ensures Invariant(parse, chans - (set k | k in erased), live - SetOf(servers))
  {
    var after := live - SetOf(servers);
    KindsLeft(parse, live, servers);
    forall k | k in chans ensures chans[k].numServers > 0 <==> HasKind(parse, after, k) {
      CountedServers(parse, k, chans[k], after);
    }
  }

  lemma {:induction false} Inhabited(s: set<int>)
    ensures s == {} || exists x :: x in s
  {
    if !(exists x :: x in s) { assert forall x :: x in s <==> x in {}; }
  }

  method Pick(s: set<int>) returns (k: int)
    requires s != {}
    ensures k in s
  {
    Inhabited(s);
    k :| k in s;
  }

  method AddTo(parse: Parser, kinds: int, c: Sub, ghost live: set<ServerId>, ghost servers: seq<ServerId>) returns (r: Sub)
    requires SubOk(parse, kinds, c, live) && c.tmp == InKind(parse, servers, kinds)
    ensures SubOk(parse, kinds, r, live + SetOf(servers))
  {
    r := c;
    if c.tmp != [] {
      var lbs, n := AddServersInBatch(parse, c.lbs, c.tmp);
      AddedOk(parse, kinds, c, lbs, live, servers);
      r := c.(lbs := lbs, numServers := c.numServers + n);
    } else {
      Untouched(parse, kinds, c, live, servers);
    }
  }

  method RemoveFrom(parse: Parser, kinds: int, c: Sub, ghost live: set<ServerId>, ghost servers: seq<ServerId>) returns (r: Sub)
    requires SubOk(parse, kinds, c, live) && c.tmp == InKind(parse, servers, kinds)
    requires HasKind(parse, live + SetOf(servers), kinds)
    ensures SubOk(parse, kinds, r, live - SetOf(servers)) && r.tmp == c.tmp
    ensures c.tmp == [] ==> r.numServers > 0
  {
    r := c;
    if c.tmp != [] {
      var lbs, n := RemoveServersInBatch(parse, c.lbs, c.tmp);
      RemovedOk(parse, kinds, c, lbs, live, servers);
      r := c.(lbs := lbs, numServers := c.numServers - n);
    } else {
      Untouched(parse, kinds, c, live, servers);
      StillAlive(parse, kinds, c, live, servers);
    }
  }

  class Partitioner {
    const parse: Parser
    var chans: Channels
    ghost var live: set<ServerId>

    ghost predicate Valid()
      reads this
    {
      Invariant(parse, chans, live)
    }

    constructor (parse: Parser)
      ensures Valid() && live == {} && chans == map[]
    {
      this.parse, this.chans, this.live := parse, map[], {};
    }

    /** Creates missing sub channels and collects each kind's servers of the batch. */
    method PartitionServersIntoTemps(servers: seq<ServerId>)
      requires Valid()
      modifies this`chans
      ensures Collected(parse, chans, servers, live)
    {
      var cleared := map k | k in chans :: chans[k].(tmp := []);
      chans := cleared;
      assert SetOf([]) == {};
      assert servers[..0] == [];
      for n := 0 to |servers|
        invariant Collected(parse, chans, servers[..n], live)
      {
        assert servers[..n + 1][..n] == servers[..n];
        CollectOne(servers[..n], servers[n]);
      }
      assert servers[..|servers|] == servers;
    }

    method CollectOne(ghost before: seq<ServerId>, s: ServerId)
      requires Collected(parse, chans, before, live)
      modifies this`chans
      ensures Collected(parse, chans, before + [s], live)
    {
      var part := parse(s.tag);
      if part.None? || part.value.kinds <= 0 || part.value.index < 0 || part.value.index >= part.value.kinds {
        NothingCollected(parse, chans, before, s, live);
        return;
      }
      var kinds := part.value.kinds;
      ServerCollected(parse, chans, before, s, live, kinds);
      ghost var was := chans;
      if kinds !in chans { chans := chans[kinds := NewChannel(kinds)]; }
      chans := chans[kinds := chans[kinds].(tmp := chans[kinds].tmp + [s])];
      assert chans == WithServer(was, kinds, s);
    }

    method OnAddedServers(servers: seq<ServerId>)
      requires Valid()
      modifies this
      ensures Valid() && live == old(live) + SetOf(servers)
    {
      PartitionServersIntoTemps(servers);
      ghost var after, keys := live + SetOf(servers), chans.Keys;
      var todo := chans.Keys;
      while todo != {}
        invariant todo <= chans.Keys == keys && live == old(live)
        invariant Updated(parse, chans, todo, servers, live, after)
      {
        var k := Pick(todo);
        var c := AddTo(parse, k, chans[k], live, servers);
        UpdatedNext(parse, chans, todo, servers, live, after, k, c);
        chans := chans[k := c];
        todo := todo - {k};
      }
      live := after;
    }

    method OnRemovedServers(servers: seq<ServerId>)
      requires Valid()
      modifies this
      ensures Valid() && live == old(live) - SetOf(servers)
    {
      PartitionServersIntoTemps(servers);
      ghost var after, keys := live - SetOf(servers), chans.Keys;
      var todo := chans.Keys;
      var erased: seq<int> := [];
      while todo != {}
        invariant todo <= chans.Keys == keys && live == old(live)
        invariant Updated(parse, chans, todo, servers, live, after)
        invariant Distinct(erased) && Vanished(chans, todo, erased)
      {
        var k := Pick(todo);
        erased := RemoveKind(k, todo, erased, servers);
        todo := todo - {k};
      }
      Remaining(parse, chans, erased, servers, live);
      live := after;
      Erase(erased);
    }

    /** One round of the loop over the map; a sub channel without servers is noted for erasure. */
    method RemoveKind(k: int, ghost todo: set<int>, erased: seq<int>, ghost servers: seq<ServerId>) returns (more: seq<int>)
      requires k in todo && k in chans && HasKind(parse, live + SetOf(servers), k)
      requires Updated(parse, chans, todo, servers, live, live - SetOf(servers))
      requires Distinct(erased) && Vanished(chans, todo, erased)
      modifies this`chans
      ensures chans.Keys == old(chans.Keys) && Updated(parse, chans, todo - {k}, servers, live, live - SetOf(servers))
      ensures Distinct(more) && Vanished(chans, todo - {k}, more)
    {
      more := erased;
      var c := RemoveFrom(parse, k, chans[k], live, servers);
      UpdatedNext(parse, chans, todo, servers, live, live - SetOf(servers), k, c);
      ghost var before := chans;
      chans := chans[k := c];
      if c.tmp != [] && c.numServers <= 0 {
        assert c.numServers == 0;
        more := erased + [k];
      }
      VanishedNext(before, todo, erased, k, c, more);
    }

    method Erase(erased: seq<int>)
      requires Distinct(erased) && forall k :: k in erased ==> k in chans
      modifies this`chans
      ensures chans == old(chans) - set k | k in erased
    {
      for i := 0 to |erased|
        invariant chans == old(chans) - set k | k in erased[..i]
      {
        var k := erased[i];
        assert k in erased && k !in erased[..i];
        assert k in chans;
        chans := chans - {k};
      }
    }

    /** After any events: partition (kinds, index) holds exactly the live servers with that tag. */
    method Watch(events: seq<Event>)
      requires Valid()
      modifies this
      ensures Valid() && live == Replay(old(live), events)
      ensures forall k, i :: k in chans && 0 <= i < k ==>
        k == |chans[k].lbs| && chans[k].lbs[i] == Members(parse, live, k, i)
      ensures forall k :: k in chans <==> HasKind(parse, live, k)
      ensures forall k :: k in chans ==> chans[k].numServers == Total(chans[k].lbs) > 0
    {
      for n := 0 to |events|
        invariant Valid() && live == Replay(old(live), events[..n])
      {
        assert events[..n + 1][..n] == events[..n];
        match events[n]
        case Added(servers) => OnAddedServers(servers);
        case Removed(servers) => OnRemovedServers(servers);
      }
      assert events[..|events|] == events;
      forall k | k in chans ensures chans[k].numServers > 0 {
        CountedServers(parse, k, chans[k], live);
      }
    }
  }
}

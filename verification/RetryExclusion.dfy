/**
 * Later tries of a load-balanced RPC avoid the servers of earlier ones: how the additions to
 * ExcludedServers follow the retries of the client call protocol.
 */
module RetryExclusion {
  import opened Excluded
  import opened Options
  import opened RetryProtocol

  /** Contents of the ring after the given additions. */
  function Held(cfg: Config, adds: seq<SocketId>): seq<SocketId> {
    if cfg.maxRetry == 0 then [] else PushAll([], Capacity(cfg), adds)
  }

  /** The ring is exactly what was added. */
  predicate RingHeld(cfg: Config, accessed: Option<seq<SocketId>>, adds: seq<SocketId>) {
    (accessed.None? ==> adds == []) && (accessed.Some? ==> accessed.value == Held(cfg, adds))
  }

  /** Every addition came with one more try; a single server is neither selected nor added. */
  predicate CountOk(cfg: Config, r: Rpc) {
    && |r.adds| <= cfg.maxRetry
    && (r.log.ended == 0 ==> |r.adds| <= r.cur.nretry <= cfg.maxRetry)
    && (cfg.single ==> r.picks == [] && r.adds == [])
  }

  /** A selection saw the ring of its time, with every earlier selected server already added. */
  predicate PickOk(cfg: Config, adds: seq<SocketId>, picks: seq<Pick>, j: nat)
    requires j < |picks|
  {
    && picks[j].after <= |adds|
    && picks[j].excluded == Held(cfg, adds[..picks[j].after])
    && forall i :: 0 <= i < j ==> picks[i].peer in adds[..picks[j].after]
  }

  predicate PicksOk(cfg: Config, adds: seq<SocketId>, picks: seq<Pick>) {
    forall j :: 0 <= j < |picks| ==> PickOk(cfg, adds, picks, j)
  }

  /** Every selected server has been added. */
  predicate AllAdded(adds: seq<SocketId>, picks: seq<Pick>) { forall i :: 0 <= i < |picks| ==> picks[i].peer in adds }

  /** Only the latest selection, the current server, may not be added yet. */
  predicate AlmostAdded(adds: seq<SocketId>, picks: seq<Pick>, peer: SocketId) {
    || AllAdded(adds, picks)
    || (picks != [] && AllAdded(adds, picks[..|picks| - 1]) && picks[|picks| - 1].peer == peer)
  }

  predicate Recorded(cfg: Config, r: Rpc) { RingHeld(cfg, r.accessed, r.adds) && PicksOk(cfg, r.adds, r.picks) }

  /** Before the current try selects. */
  predicate Before(cfg: Config, r: Rpc) { CountOk(cfg, r) && Recorded(cfg, r) && AllAdded(r.adds, r.picks) }

  /** After it may have selected. */
  predicate During(cfg: Config, r: Rpc) {
    CountOk(cfg, r) && Recorded(cfg, r) && AlmostAdded(r.adds, r.picks, r.cur.peer)
  }

  lemma PicksGrowAdds(cfg: Config, adds: seq<SocketId>, picks: seq<Pick>, x: SocketId, j: nat)
    requires j < |picks| && PickOk(cfg, adds, picks, j)
    ensures PickOk(cfg, adds + [x], picks, j)
  {
    var m := picks[j].after;
    assert (adds + [x])[..m] == adds[..m];
  }

  lemma PicksGrow(cfg: Config, adds: seq<SocketId>, picks: seq<Pick>, p: Pick, j: nat)
    requires j < |picks| && PickOk(cfg, adds, picks, j)
    ensures PickOk(cfg, adds, picks + [p], j)
  {
    assert forall i :: 0 <= i <= j ==> (picks + [p])[i] == picks[i];
  }

  lemma {:induction false} SelectedDuring(cfg: Config, r: Rpc, p: SocketId, f: bool)
    requires Before(cfg, r)
    ensures During(cfg, Selected(cfg, r, p, f))
  {
    if !cfg.single {
      var q := Pick(r.cur.nretry, p, if r.accessed.None? then [] else r.accessed.value, |r.adds|);
      PickedLast(cfg, r.adds, r.picks, q);
    }
  }

  lemma {:induction false} PickedLast(cfg: Config, adds: seq<SocketId>, picks: seq<Pick>, q: Pick)
    requires PicksOk(cfg, adds, picks) && AllAdded(adds, picks) && q.after == |adds| && q.excluded == Held(cfg, adds)
    ensures PicksOk(cfg, adds, picks + [q]) && AlmostAdded(adds, picks + [q], q.peer)
  {
    var all := picks + [q];
    forall j | 0 <= j < |all| ensures PickOk(cfg, adds, all, j) {
      if j < |picks| {
        PicksGrow(cfg, adds, picks, q, j);
      } else {
        assert adds[..|adds|] == adds;
      }
    }
    assert all[..|all| - 1] == picks;
  }

  /** Ready for the next try, which has not been counted yet. */
  predicate Avoided(cfg: Config, r: Rpc) {
    && |r.adds| <= r.cur.nretry + 1 <= cfg.maxRetry && (cfg.single ==> r.picks == [] && r.adds == [])
    && Recorded(cfg, r) && AllAdded(r.adds, r.picks)
  }

  lemma {:induction false} AvoidBefore(cfg: Config, env: Env, r: Rpc)
    requires AccessedFits(cfg, r) && During(cfg, r) && r.log.ended == 0 && r.cur.nretry < cfg.maxRetry
    requires Avoid(cfg, env, r).Some?
    ensures var a := Avoid(cfg, env, r).value;
      Avoided(cfg, a) && a.cur == r.cur && a.log == r.log && a.parked == r.parked
  {
    if !cfg.single {
      var adds := r.adds + [r.cur.peer];
      assert adds[..|adds| - 1] == r.adds && adds[|adds| - 1] == r.cur.peer;
      assert Held(cfg, adds) == Push(Held(cfg, r.adds), Capacity(cfg), r.cur.peer);
      Added(cfg, r.adds, r.picks, r.cur.peer);
    }
  }

  lemma {:induction false} NextTry(cfg: Config, a: Rpc)
    requires Avoided(cfg, a)
    ensures Before(cfg, ParkCurrent(a)) && Before(cfg, RetryCurrent(a))
  {}

  lemma {:induction false} EndDuring(cfg: Config, r: Rpc, id: nat)
    requires During(cfg, r) || Avoided(cfg, r)
    ensures During(cfg, EndRPC(cfg, r, id))
  {}

  lemma {:induction false} Added(cfg: Config, adds: seq<SocketId>, picks: seq<Pick>, x: SocketId)
    requires PicksOk(cfg, adds, picks) && AlmostAdded(adds, picks, x)
    ensures PicksOk(cfg, adds + [x], picks) && AllAdded(adds + [x], picks)
  {
    forall j | 0 <= j < |picks| ensures PickOk(cfg, adds + [x], picks, j) {
      PicksGrowAdds(cfg, adds, picks, x, j);
    }
    forall i | 0 <= i < |picks| ensures picks[i].peer in adds + [x] {
      if i < |picks| - 1 { assert picks[..|picks| - 1][i] == picks[i]; }
      assert picks[i].peer in adds || picks[i].peer == x;
    }
  }

  lemma {:induction false} ReturnedDuring(cfg: Config, env: Env, r: Rpc, id: nat, saved: int)
    requires AccessedFits(cfg, r) && r.log.ended == 0 && During(cfg, r)
    ensures During(cfg, OnVersionedRPCReturned(cfg, env, r, id, saved))
    decreases cfg.maxRetry - r.cur.nretry, 0
  {
    EndDuring(cfg, r, id);
    if Superseded(cfg, r, id) && !(OfParked(cfg, r, id) && r.err == 0) {
    } else if (r.err == 0 && !cfg.customPolicy) || r.cur.nretry >= cfg.maxRetry {
    } else if r.err == EBACKUPREQUEST {
      BackupDuring(cfg, env, r, id);
    } else if env.doRetry(r.cur.nretry, r.err) {
      RetryDuring(cfg, env, r, id);
    }
  }

  /** Giving up on a backup request without memory. */
  lemma {:induction false} OverwriteDuring(cfg: Config, a: Rpc, parked: Option<Call>, id: nat)
    requires Avoided(cfg, a)
    ensures During(cfg, EndRPC(cfg, a.(parked := None, err := ENOMEM, log := Overwrite(a.log, parked)), id))
  {
    EndDuring(cfg, a.(parked := None, err := ENOMEM, log := Overwrite(a.log, parked)), id);
  }

  lemma {:induction false} BackupDuring(cfg: Config, env: Env, r: Rpc, id: nat)
    requires AccessedFits(cfg, r) && r.log.ended == 0 && During(cfg, r)
    requires r.cur.nretry < cfg.maxRetry
    ensures During(cfg, Backup(cfg, env, r, id))
    decreases cfg.maxRetry - r.cur.nretry - 1, 3
  {
    var rc, a := env.timerRc(r.cur.nretry), Avoid(cfg, env, r);
    if rc != 0 {
      EndDuring(cfg, r.(err := rc), id);
    } else if a.None? {
      EndDuring(cfg, r.(err := ENOMEM), id);
    } else {
      AvoidBefore(cfg, env, r);
      if env.newCall(r.cur.nretry) {
        NextTry(cfg, a.value);
        IssueDuring(cfg, env, ParkCurrent(a.value));
      } else {
        OverwriteDuring(cfg, a.value, r.parked, id);
      }
    }
  }

  lemma {:induction false} RetryDuring(cfg: Config, env: Env, r: Rpc, id: nat)
    requires AccessedFits(cfg, r) && r.log.ended == 0 && During(cfg, r)
    requires r.cur.nretry < cfg.maxRetry
    ensures During(cfg, Retry(cfg, env, r, id))
    decreases cfg.maxRetry - r.cur.nretry - 1, 3
  {
    var r1 := r.(log := Check(r.log, id == CurrentId(cfg, r)));
    var a := Avoid(cfg, env, r1);
    if a.None? {
      EndDuring(cfg, r1.(err := ENOMEM), id);
    } else {
      AvoidBefore(cfg, env, r1);
      NextTry(cfg, a.value);
      IssueDuring(cfg, env, RetryCurrent(a.value));
    }
  }

  lemma {:induction false} IssueDuring(cfg: Config, env: Env, r: Rpc)
    requires AccessedFits(cfg, r) && r.log.ended == 0 && Before(cfg, r)
    ensures During(cfg, IssueRPC(cfg, env, r))
    decreases cfg.maxRetry - r.cur.nretry, 2
  {
    var o := env.tries(r.cur.nretry);
    var b := Begin(r);
    if !o.SelectFail? { SelectedDuring(cfg, b, o.peer, o.feedback); }
    var a := Attempt(cfg, b, o);
    if !o.Sent? {
      var a1 := a.(err := Code(a.err));
      ReturnedDuring(cfg, env, a1, CurrentId(cfg, a1), a1.err);
    }
  }

  lemma {:induction false} RunDuring(cfg: Config, env: Env, failed: Option<int>, es: seq<Event>)
    ensures During(cfg, Run(cfg, env, failed, es))
    decreases |es|
  {
    if es == [] {
      if failed.Some? {
        var r := FRESH.(err := Code(failed.value));
        ReturnedDuring(cfg, env, r, CurrentId(cfg, r), r.err);
      } else {
        IssueDuring(cfg, env, FRESH);
      }
    } else {
      var e, r := es[|es| - 1], Run(cfg, env, failed, es[..|es| - 1]);
      RunDuring(cfg, env, failed, es[..|es| - 1]);
      if r.log.ended == 0 {
        var code := if e.Error? then Code(e.code) else if e.code == 0 then r.err else e.code;
        ReturnedDuring(cfg, env, r.(err := code), e.id, r.err);
      }
    }
  }

  /**
   * With at most RETRY_AVOIDANCE retries every server selected by an earlier try is excluded at
   * every later selection, in every run and whatever the events are.
   */
  lemma {:induction false} EarlierServersExcluded(cfg: Config, env: Env, failed: Option<int>, es: seq<Event>, i: nat, j: nat)
    requires cfg.maxRetry <= RETRY_AVOIDANCE
    requires i < j < |Run(cfg, env, failed, es).picks|
    ensures var t := Run(cfg, env, failed, es); t.picks[i].peer in t.picks[j].excluded
  {
    RunDuring(cfg, env, failed, es);
    var t := Run(cfg, env, failed, es);
    assert PickOk(cfg, t.adds, t.picks, j);
    var seen := t.adds[..t.picks[j].after];
    var k :| 0 <= k < |seen| && seen[k] == t.picks[i].peer;
    RecentAdditionsExcluded(Capacity(cfg), seen, |seen| - 1 - k);
  }

  /** With more retries the RETRY_AVOIDANCE most recently added servers are excluded. */
  lemma {:induction false} RecentServersExcluded(cfg: Config, env: Env, failed: Option<int>, es: seq<Event>, j: nat, k: nat)
    requires cfg.maxRetry >= RETRY_AVOIDANCE
    requires j < |Run(cfg, env, failed, es).picks|
    requires k < RETRY_AVOIDANCE && k < Run(cfg, env, failed, es).picks[j].after
    ensures var t := Run(cfg, env, failed, es);
      t.picks[j].after <= |t.adds| && t.adds[t.picks[j].after - 1 - k] in t.picks[j].excluded
  {
    RunDuring(cfg, env, failed, es);
    var t := Run(cfg, env, failed, es);
    assert PickOk(cfg, t.adds, t.picks, j);
    RecentAdditionsExcluded(Capacity(cfg), t.adds[..t.picks[j].after], k);
  }
}

/**
 * What single events do in any run of the client call protocol: which ids can end an RPC, what a
 * superseded id may change, who wins, and what ends the RPC for good.
 */
module RetryOutcomes {
  import opened Options
  import opened RetryChecks
  import opened RetryProtocol
  import opened RetryTheorems

  // ---- superseded ids ----

  lemma {:induction false} SupersededIsIgnored(cfg: Config, env: Env, r: Rpc, e: Event)
    requires AccessedFits(cfg, r) && Superseded(cfg, r, e.id) && r.log.ended == 0
    requires !(OfParked(cfg, r, e.id) && Raised(r, e) == 0)
    ensures Handle(cfg, env, r, e) == Ignore(cfg, r.(err := Raised(r, e)), e.id, r.err)
  {}

  /**
   * An event of a superseded try changes neither the current call, the error code, the tries nor
   * the avoided servers. It can only end the parked call: by success, which ends the RPC, or by
   * failure, which settles and drops it.
   */
  lemma {:induction false} SupersededIsHarmless(cfg: Config, env: Env, failed: Option<int>, es: seq<Event>, e: Event)
    requires Run(cfg, env, failed, es).log.ended == 0 && Superseded(cfg, Run(cfg, env, failed, es), e.id)
    requires !(OfParked(cfg, Run(cfg, env, failed, es), e.id) && CodeOf(e) == 0)
    ensures var r, t := Run(cfg, env, failed, es), Run(cfg, env, failed, es + [e]);
      && t.cur == r.cur && t.err == 0 && t.accessed == r.accessed && t.log.issued == r.log.issued
      && t.log.ended == 0 && Quiet(r.log, t.log)
      && (!OfParked(cfg, r, e.id) ==> t == r)
      && (OfParked(cfg, r, e.id) ==>
            t.parked.None? && t.log.settled == r.log.settled + multiset{r.parked.value.nretry})
  {
    var r := Run(cfg, env, failed, es);
    RunSound(cfg, env, failed, es);
    CodeRaised(cfg, r, e);
    RunStep(cfg, env, failed, es, e);
    SupersededIsIgnored(cfg, env, r, e);
  }

  /** In every run the event that ends the RPC carries the base id or the id of the current or the
      parked call. */
  lemma {:induction false} EndsOnLiveId(cfg: Config, env: Env, failed: Option<int>, es: seq<Event>, e: Event)
    requires Run(cfg, env, failed, es).log.ended == 0 && Run(cfg, env, failed, es + [e]).log.ended == 1
    ensures var r := Run(cfg, env, failed, es);
      e.id == cfg.base || e.id == CurrentId(cfg, r) || (OfParked(cfg, r, e.id) && CodeOf(e) == 0)
  {
    var r := Run(cfg, env, failed, es);
    if Superseded(cfg, r, e.id) && !(OfParked(cfg, r, e.id) && CodeOf(e) == 0) {
      SupersededIsHarmless(cfg, env, failed, es, e);
    }
  }

  /** In every run the parked calls dropped or lost, and the one still parked, are at most the backup
      requests. */
  lemma {:induction false} DropsNeedBackups(cfg: Config, env: Env, failed: Option<int>, es: seq<Event>)
    ensures DroppedCalls(cfg, env, failed, es) + |LostTries(cfg, env, failed, es)|
      + One(Run(cfg, env, failed, es).parked.Some?) <= Requests(cfg, env, failed, es)
  {
    BackupsBound(cfg, env, failed, es);
  }

  // ---- what ends an RPC ----

  /** An ended RPC takes no more events. */
  lemma {:induction false} EndedStays(cfg: Config, env: Env, failed: Option<int>, es: seq<Event>, more: seq<Event>)
    requires Run(cfg, env, failed, es).log.ended > 0
    ensures Run(cfg, env, failed, es + more) == Run(cfg, env, failed, es)
    decreases |more|
  {
    if more == [] {
      assert es + more == es;
    } else {
      var init, e := more[..|more| - 1], more[|more| - 1];
      EndedStays(cfg, env, failed, es, init);
      RunStep(cfg, env, failed, es + init, e);
      assert es + more == es + init + [e];
    }
  }

  predicate Succeeds(cfg: Config, r: Rpc, e: Event) {
    e.Response? && e.code == 0 && (e.id == CurrentId(cfg, r) || OfParked(cfg, r, e.id))
  }

  /** How the loser, then the winner is settled. */
  function SuccessCodes(cfg: Config, r: Rpc, id: nat): seq<(nat, int)>
    requires id == CurrentId(cfg, r) || OfParked(cfg, r, id)
  {
    if id != CurrentId(cfg, r) then [(r.cur.nretry, ECANCELED), (r.parked.value.nretry, 0)]
    else if r.parked.Some? then [(r.parked.value.nretry, EBACKUPREQUEST), (r.cur.nretry, 0)]
    else [(r.cur.nretry, 0)]
  }

  lemma {:induction false} WinnerSettled(cfg: Config, r: Rpc, id: nat)
    requires r.err == 0 && id != cfg.base && (id == CurrentId(cfg, r) || OfParked(cfg, r, id))
    ensures EndRPC(cfg, r, id).log.codes == r.log.codes + SuccessCodes(cfg, r, id)
  {}

  /** The policy keeps a success. */
  predicate KeepsSuccess(cfg: Config, env: Env, r: Rpc) { !cfg.customPolicy || !env.doRetry(r.cur.nretry, 0) }

  lemma {:induction false} SuccessIsEnd(cfg: Config, env: Env, r: Rpc, e: Event)
    requires AccessedFits(cfg, r) && Succeeds(cfg, r, e) && r.err == 0 && r.log.ended == 0 && KeepsSuccess(cfg, env, r)
    ensures Handle(cfg, env, r, e) == EndRPC(cfg, r, e.id)
  {
    assert r.(err := r.err) == r;
  }

  lemma {:induction false} SuccessSettles(cfg: Config, env: Env, r: Rpc, e: Event)
    requires AccessedFits(cfg, r) && Succeeds(cfg, r, e) && r.err == 0 && r.log.ended == 0 && KeepsSuccess(cfg, env, r)
    ensures var t := Handle(cfg, env, r, e);
      t.log.ended == 1 && t.err == 0 && t.log.codes == r.log.codes + SuccessCodes(cfg, r, e.id)
  {
    SuccessIsEnd(cfg, env, r, e);
    EndKeeps(cfg, r, e.id);
    WinnerSettled(cfg, r, e.id);
  }

  /**
   * A successful response of the current or the parked call ends the RPC without error, whatever
   * happens later. The loser is settled with EBACKUPREQUEST when it was parked and with ECANCELED
   * when it was current.
   */
  lemma {:induction false} SuccessEnds(cfg: Config, env: Env, failed: Option<int>, es: seq<Event>, e: Event, more: seq<Event>)
    requires var r := Run(cfg, env, failed, es);
      r.log.ended == 0 && Succeeds(cfg, r, e) && KeepsSuccess(cfg, env, r)
    ensures var r, t := Run(cfg, env, failed, es), Run(cfg, env, failed, es + [e] + more);
      && t.log.ended == 1 && t.err == 0
      && t.log.codes == r.log.codes + SuccessCodes(cfg, r, e.id)
  {
    var r := Run(cfg, env, failed, es);
    RunSound(cfg, env, failed, es);
    RunStep(cfg, env, failed, es, e);
    SuccessSettles(cfg, env, r, e);
    EndedStays(cfg, env, failed, es + [e], more);
  }

  /** Every open call, the parked one first, is settled with this code. */
  function OpenCodes(r: Rpc, code: int): seq<(nat, int)> {
    (if r.parked.Some? then [(r.parked.value.nretry, code)] else []) + [(r.cur.nretry, code)]
  }

  lemma {:induction false} OpenSettled(cfg: Config, r: Rpc, id: nat)
    requires r.err != 0 && !Superseded(cfg, r, id)
    ensures EndRPC(cfg, r, id).log.codes == r.log.codes + OpenCodes(r, r.err)
  {}

  /** The event fails the whole RPC: the policy declines its code or no retries are left. */
  predicate Fails(cfg: Config, env: Env, r: Rpc, e: Event) {
    && !Superseded(cfg, r, e.id) && CodeOf(e) != 0
    && (r.cur.nretry >= cfg.maxRetry || (e.code != EBACKUPREQUEST && !env.doRetry(r.cur.nretry, CodeOf(e))))
  }

  /**
   * A failure on the base or the current id that the policy declines (a timeout, a cancellation), or
   * that finds no retries left (even a backup request), ends the RPC with its code for every open
   * call, whatever happens later.
   */
  lemma {:induction false} FailureEnds(cfg: Config, env: Env, failed: Option<int>, es: seq<Event>, e: Event, more: seq<Event>)
    requires Run(cfg, env, failed, es).log.ended == 0 && Fails(cfg, env, Run(cfg, env, failed, es), e)
    ensures var r, t := Run(cfg, env, failed, es), Run(cfg, env, failed, es + [e] + more);
      t.log.ended == 1 && t.err == CodeOf(e) && t.log.codes == r.log.codes + OpenCodes(r, CodeOf(e))
  {
    var r := Run(cfg, env, failed, es);
    RunSound(cfg, env, failed, es);
    CodeRaised(cfg, r, e);
    RunStep(cfg, env, failed, es, e);
    FailureIsEnd(cfg, env, r, e);
    EndKeeps(cfg, r.(err := CodeOf(e)), e.id);
    OpenSettled(cfg, r.(err := CodeOf(e)), e.id);
    EndedStays(cfg, env, failed, es + [e], more);
  }

  lemma {:induction false} FailureIsEnd(cfg: Config, env: Env, r: Rpc, e: Event)
    requires AccessedFits(cfg, r) && r.log.ended == 0 && Raised(r, e) == CodeOf(e) && Fails(cfg, env, r, e)
    requires CodeOf(e) == EBACKUPREQUEST <==> e.code == EBACKUPREQUEST
    ensures Handle(cfg, env, r, e) == EndRPC(cfg, r.(err := CodeOf(e)), e.id)
  {}
}

/**
 * Exactly which events make the internal CHECKs of the client call protocol fire, and exactly which
 * tries are lost: an error the retry policy accepts but that did not come from the current call, and
 * a backup request that finds a call already parked, whether an event or a failed sending brings it.
 */
module RetryChecks {
  import opened Options
  import opened RetryProtocol
  import opened RetryTheorems

  /** The event is taken up: it comes from the whole RPC, the current call or a parked call that won. */
  predicate TakenUp(cfg: Config, r: Rpc, id: nat) {
    !Superseded(cfg, r, id) || (OfParked(cfg, r, id) && r.err == 0)
  }

  /** The RPC goes on after the event. */
  predicate GoesOn(cfg: Config, r: Rpc) {
    !(r.err == 0 && !cfg.customPolicy) && r.cur.nretry < cfg.maxRetry
  }

  /** A backup request finds a parked call, and timer and memory let it get as far as overwriting it. */
  predicate DoubleParks(cfg: Config, env: Env, r: Rpc) {
    var k := r.cur.nretry;
    && r.parked.Some? && env.timerRc(k) == 0
    && (cfg.single || r.accessed.Some? || env.newAccessed(k))
  }

  /** r is the state with the event's error set. */
  predicate LosesAt(cfg: Config, env: Env, r: Rpc, id: nat) {
    TakenUp(cfg, r, id) && GoesOn(cfg, r) && r.err == EBACKUPREQUEST && DoubleParks(cfg, env, r)
  }

  predicate StraysAt(cfg: Config, env: Env, r: Rpc, id: nat) {
    && TakenUp(cfg, r, id) && GoesOn(cfg, r) && r.err != EBACKUPREQUEST
    && env.doRetry(r.cur.nretry, r.err) && id != CurrentId(cfg, r)
  }

  /** The event itself overwrites a parked call. */
  predicate Loses(cfg: Config, env: Env, r: Rpc, e: Event) {
    r.log.ended == 0 && LosesAt(cfg, env, r.(err := Raised(r, e)), e.id)
  }

  /** The event is retried although it did not come from the current call. */
  predicate Strays(cfg: Config, env: Env, r: Rpc, e: Event) {
    r.log.ended == 0 && StraysAt(cfg, env, r.(err := Raised(r, e)), e.id)
  }

  // ---- which tries are lost, by the oracles alone ----

  /** The code with which sending the try fails. */
  function FailCode(cfg: Config, o: Try): int
    requires !o.Sent?
  {
    Code(if o.SelectFail? && cfg.single then EHOSTDOWN else o.rc)
  }

  predicate CanAvoid(env: Env, k: nat, known: bool) { known || env.newAccessed(k) }

  /** The tries overwritten while try k is sent, with the given try parked; known: servers to avoid are
      kept already, or need not be. */
  function Sending(cfg: Config, env: Env, k: nat, parked: Option<nat>, known: bool): seq<nat>
    decreases cfg.maxRetry - k, 1
  {
    if env.tries(k).Sent? || k >= cfg.maxRetry then []
    else GoingOn(cfg, env, k, FailCode(cfg, env.tries(k)), parked, known)
  }

  /** The same after try k failed with the code. */
  function GoingOn(cfg: Config, env: Env, k: nat, code: int, parked: Option<nat>, known: bool): seq<nat>
    requires k < cfg.maxRetry
    decreases cfg.maxRetry - k, 0
  {
    if code == EBACKUPREQUEST then
      if env.timerRc(k) != 0 || !CanAvoid(env, k, known) then []
      else Listed(parked) + if env.newCall(k) then Sending(cfg, env, k + 1, Some(k), true) else []
    else if env.doRetry(k, code) && CanAvoid(env, k, known) then Sending(cfg, env, k + 1, parked, true)
    else []
  }

  function Listed(parked: Option<nat>): seq<nat> { if parked.Some? then [parked.value] else [] }

  function ParkedTry(r: Rpc): Option<nat> { if r.parked.Some? then Some(r.parked.value.nretry) else None }

  predicate Known(cfg: Config, r: Rpc) { cfg.single || r.accessed.Some? }

  /** The tries lost once the state has the error of an event that is taken up. */
  function LossesAt(cfg: Config, env: Env, r: Rpc): seq<nat> {
    if GoesOn(cfg, r) then GoingOn(cfg, env, r.cur.nretry, r.err, ParkedTry(r), Known(cfg, r)) else []
  }

  /** The tries lost to one event and to the sending it leads to. */
  function Losses(cfg: Config, env: Env, r: Rpc, e: Event): seq<nat> {
    var r1 := r.(err := Raised(r, e));
    if r.log.ended == 0 && TakenUp(cfg, r1, e.id) then LossesAt(cfg, env, r1) else []
  }

  function StartLosses(cfg: Config, env: Env, failed: Option<int>): seq<nat> {
    if failed.None? then Sending(cfg, env, 0, None, cfg.single)
    else if cfg.maxRetry == 0 then []
    else GoingOn(cfg, env, 0, Code(failed.value), None, cfg.single)
  }

  /** All tries lost in a run, in the order they are lost. */
  function LostTries(cfg: Config, env: Env, failed: Option<int>, es: seq<Event>): seq<nat>
    decreases |es|
  {
    if es == [] then StartLosses(cfg, env, failed)
    else
      var init := es[..|es| - 1];
      LostTries(cfg, env, failed, init) + Losses(cfg, env, Run(cfg, env, failed, init), es[|es| - 1])
  }

  // ---- the CHECKs follow ----

  /** No CHECK fired and nothing was lost between the two. */
  predicate Quiet(a: Ledger, b: Ledger) { a.checksFailed == b.checksFailed && a.lost == b.lost }

  function Numbers(cs: seq<Call>): seq<nat> { seq(|cs|, i requires 0 <= i < |cs| => cs[i].nretry) }

  /** Between the two the tries ks were lost, and a CHECK fired for each. */
  predicate Fires(a: Ledger, b: Ledger, ks: seq<nat>) {
    b.checksFailed == a.checksFailed + |ks| && a.lost <= b.lost && Numbers(b.lost) == Numbers(a.lost) + ks
  }

  lemma {:induction false} QuietFires(a: Ledger, b: Ledger)
    requires Quiet(a, b)
    ensures Fires(a, b, [])
  {}

  lemma {:induction false} OverwriteFires(log: Ledger, parked: Option<Call>)
    ensures Fires(log, Overwrite(log, parked), Listed(if parked.Some? then Some(parked.value.nretry) else None))
    ensures parked.Some? ==> Overwrite(log, parked).lost == log.lost + [parked.value]
  {}

  lemma {:induction false} FiresThen(a: Ledger, b: Ledger, c: Ledger, ks: seq<nat>, ls: seq<nat>)
    requires Fires(a, b, ks) && Fires(b, c, ls)
    ensures Fires(a, c, ks + ls)
  {
    assert Numbers(a.lost) + (ks + ls) == Numbers(a.lost) + ks + ls;
  }

  lemma {:induction false} QuietThen(a: Ledger, b: Ledger, c: Ledger, ks: seq<nat>)
    requires Quiet(a, b) && Fires(b, c, ks)
    ensures Fires(a, c, ks)
  {}

  lemma {:induction false} EndQuiet(cfg: Config, r: Rpc, id: nat)
    requires Superseded(cfg, r, id) ==> OfParked(cfg, r, id)
    ensures Quiet(r.log, EndRPC(cfg, r, id).log)
  {}

  lemma {:induction false} AttemptQuiet(cfg: Config, r: Rpc, t: Try)
    ensures var a := Attempt(cfg, Begin(r), t);
      && Quiet(r.log, a.log) && a.cur.nretry == r.cur.nretry && a.accessed == r.accessed && a.parked == r.parked
      && (!t.Sent? ==> a.err == FailCode(cfg, t))
  {}

  lemma {:induction false} AvoidKnows(cfg: Config, env: Env, r: Rpc)
    requires cfg.maxRetry > 0 && AccessedFits(cfg, r)
    ensures var a := Avoid(cfg, env, r);
      (a.Some? <==> CanAvoid(env, r.cur.nretry, Known(cfg, r))) && (a.Some? ==> Known(cfg, a.value))
  {}

  lemma {:induction false} IssueFires(cfg: Config, env: Env, r: Rpc)
    requires AccessedFits(cfg, r)
    ensures Fires(r.log, IssueRPC(cfg, env, r).log, Sending(cfg, env, r.cur.nretry, ParkedTry(r), Known(cfg, r)))
    decreases cfg.maxRetry - r.cur.nretry, 2
  {
    var o := env.tries(r.cur.nretry);
    var a := Attempt(cfg, Begin(r), o);
    AttemptQuiet(cfg, r, o);
    QuietFires(r.log, a.log);
    if !o.Sent? {
      SendFailedFires(cfg, env, a);
      QuietThen(r.log, a.log, HandleSendFailed(cfg, env, a).log, LossesAt(cfg, env, a));
    }
  }

  lemma {:induction false} SendFailedFires(cfg: Config, env: Env, r: Rpc)
    requires AccessedFits(cfg, r) && r.err != 0
    ensures Fires(r.log, HandleSendFailed(cfg, env, r).log, LossesAt(cfg, env, r))
    decreases cfg.maxRetry - r.cur.nretry, 1
  {
    assert r.(err := Code(r.err)) == r;
    ReturnedFires(cfg, env, r, CurrentId(cfg, r), r.err);
  }

  /** An event that is taken up: what it does to the CHECKs and the lost tries. */
  lemma {:induction false} ReturnedFires(cfg: Config, env: Env, r: Rpc, id: nat, saved: int)
    requires AccessedFits(cfg, r) && TakenUp(cfg, r, id)
    ensures Fires(Check(r.log, !StraysAt(cfg, env, r, id)), OnVersionedRPCReturned(cfg, env, r, id, saved).log,
                  LossesAt(cfg, env, r))
    decreases cfg.maxRetry - r.cur.nretry, 0
  {
    if !GoesOn(cfg, r) {
      EndQuiet(cfg, r, id);
      QuietFires(r.log, EndRPC(cfg, r, id).log);
    } else if r.err == EBACKUPREQUEST {
      BackupFires(cfg, env, r, id);
    } else if env.doRetry(r.cur.nretry, r.err) {
      RetryFires(cfg, env, r, id);
    } else {
      EndQuiet(cfg, r, id);
      QuietFires(r.log, EndRPC(cfg, r, id).log);
    }
  }

  lemma {:induction false} RetryFires(cfg: Config, env: Env, r: Rpc, id: nat)
    requires AccessedFits(cfg, r) && TakenUp(cfg, r, id) && GoesOn(cfg, r)
    requires r.err != EBACKUPREQUEST && env.doRetry(r.cur.nretry, r.err)
    ensures Fires(Check(r.log, id == CurrentId(cfg, r)), Retry(cfg, env, r, id).log, LossesAt(cfg, env, r))
    decreases cfg.maxRetry - r.cur.nretry - 1, 3
  {
    var r1 := r.(log := Check(r.log, id == CurrentId(cfg, r)));
    var a := Avoid(cfg, env, r1);
    AvoidKeeps(cfg, env, r1);
    AvoidKnows(cfg, env, r1);
    if a.None? {
      EndQuiet(cfg, r1.(err := ENOMEM), id);
      QuietFires(r1.log, Retry(cfg, env, r, id).log);
    } else {
      IssueFires(cfg, env, RetryCurrent(a.value));
      QuietThen(r1.log, RetryCurrent(a.value).log, Retry(cfg, env, r, id).log, LossesAt(cfg, env, r));
    }
  }

  /** A backup request: the CHECK fires, and the parked call is lost, iff DoubleParks. */
  lemma {:induction false} BackupFires(cfg: Config, env: Env, r: Rpc, id: nat)
    requires AccessedFits(cfg, r) && TakenUp(cfg, r, id) && GoesOn(cfg, r) && r.err == EBACKUPREQUEST
    ensures Fires(r.log, Backup(cfg, env, r, id).log, LossesAt(cfg, env, r))
    ensures DoubleParks(cfg, env, r) ==> r.log.lost + [r.parked.value] <= Backup(cfg, env, r, id).log.lost
    decreases cfg.maxRetry - r.cur.nretry - 1, 4
  {
    var rc := env.timerRc(r.cur.nretry);
    var a := Avoid(cfg, env, r);
    AvoidKeeps(cfg, env, r);
    AvoidKnows(cfg, env, r);
    if rc != 0 {
      EndQuiet(cfg, r.(err := rc), id);
      QuietFires(r.log, Backup(cfg, env, r, id).log);
    } else if a.None? {
      EndQuiet(cfg, r.(err := ENOMEM), id);
      QuietFires(r.log, Backup(cfg, env, r, id).log);
    } else {
      BackupOverwrites(cfg, env, r, id, a.value);
    }
  }

  lemma {:induction false} BackupOverwrites(cfg: Config, env: Env, r: Rpc, id: nat, a: Rpc)
    requires AccessedFits(cfg, r) && TakenUp(cfg, r, id) && GoesOn(cfg, r) && r.err == EBACKUPREQUEST
    requires env.timerRc(r.cur.nretry) == 0 && Avoid(cfg, env, r) == Some(a) && AccessedFits(cfg, a) && Known(cfg, a)
    requires a.cur == r.cur && a.parked == r.parked && a.log == r.log && CanAvoid(env, r.cur.nretry, Known(cfg, r))
    ensures Fires(r.log, Backup(cfg, env, r, id).log, LossesAt(cfg, env, r))
    ensures r.parked.Some? ==> r.log.lost + [r.parked.value] <= Backup(cfg, env, r, id).log.lost
    decreases cfg.maxRetry - r.cur.nretry - 1, 3
  {
    var log, t := Overwrite(r.log, r.parked), Backup(cfg, env, r, id);
    OverwriteFires(r.log, r.parked);
    if env.newCall(r.cur.nretry) {
      IssueFires(cfg, env, ParkCurrent(a));
      FiresThen(r.log, log, t.log, Listed(ParkedTry(r)), Sending(cfg, env, r.cur.nretry + 1, Some(r.cur.nretry), true));
    } else {
      EndQuiet(cfg, a.(parked := None, err := ENOMEM, log := log), id);
      QuietFires(log, t.log);
      FiresThen(r.log, log, t.log, Listed(ParkedTry(r)), []);
    }
  }

  /** What one event does to the CHECKs and the lost tries. */
  lemma {:induction false} HandleFires(cfg: Config, env: Env, r: Rpc, e: Event)
    requires AccessedFits(cfg, r)
    ensures Fires(Check(r.log, !Strays(cfg, env, r, e)), Handle(cfg, env, r, e).log, Losses(cfg, env, r, e))
    ensures Loses(cfg, env, r, e) ==> r.log.lost + [r.parked.value] <= Handle(cfg, env, r, e).log.lost
  {
    QuietFires(r.log, r.log);
    if r.log.ended == 0 {
      var r1 := r.(err := Raised(r, e));
      if TakenUp(cfg, r1, e.id) {
        ReturnedFires(cfg, env, r1, e.id, r.err);
        if LosesAt(cfg, env, r1, e.id) { BackupFires(cfg, env, r1, e.id); }
      } else {
        QuietFires(r.log, Ignore(cfg, r1, e.id, r.err).log);
      }
    }
  }

  // ---- whole runs ----

  function One(b: bool): nat { if b then 1 else 0 }

  /** How many events of the run are retried without coming from the current call. */
  function StrayEvents(cfg: Config, env: Env, failed: Option<int>, es: seq<Event>): nat
    decreases |es|
  {
    if es == [] then 0
    else
      var init := es[..|es| - 1];
      StrayEvents(cfg, env, failed, init) + One(Strays(cfg, env, Run(cfg, env, failed, init), es[|es| - 1]))
  }

  lemma {:induction false} StartFires(cfg: Config, env: Env, failed: Option<int>)
    ensures Fires(FRESH.log, Start(cfg, env, failed).log, StartLosses(cfg, env, failed))
  {
    if failed.Some? {
      SendFailedFires(cfg, env, FRESH.(err := Code(failed.value)));
    } else {
      IssueFires(cfg, env, FRESH);
    }
  }

  /** In every run each CHECK that fired is explained by one lost try or one stray event, and the other
      way round; and the lost tries are exactly those the oracles and events determine. */
  lemma {:induction false} ChecksExplained(cfg: Config, env: Env, failed: Option<int>, es: seq<Event>)
    ensures var t := Run(cfg, env, failed, es);
      && t.log.checksFailed == |LostTries(cfg, env, failed, es)| + StrayEvents(cfg, env, failed, es)
      && Numbers(t.log.lost) == LostTries(cfg, env, failed, es)
    decreases |es|
  {
    if es == [] {
      StartFires(cfg, env, failed);
    } else {
      var init := es[..|es| - 1];
      ChecksExplained(cfg, env, failed, init);
      HandleFires(cfg, env, Run(cfg, env, failed, init), es[|es| - 1]);
    }
  }

  /** Everything promised to the outside was done, and done once. */
  ghost predicate AllSettled(r: Rpc) {
    && r.parked.None? && r.log.fed == r.log.selected && r.log.released == r.log.acquired
    && forall k: nat :: r.log.settled[k] == if k <= r.cur.nretry then 1 else 0
  }

  lemma {:induction false} LostOrSettled(r: Rpc)
    requires PaidBack(r) && (forall i :: 0 <= i < |r.log.lost| ==> r.log.lost[i].nretry <= r.cur.nretry)
    ensures AllSettled(r) <==> r.log.lost == []
  {
    if r.log.lost == [] {
      assert r.log.fed + multiset{} == r.log.fed && r.log.released + multiset{} == r.log.released;
    } else {
      var k := r.log.lost[0].nretry;
      assert LostTry(r.log, k);
      assert r.log.settled[k] == 0;
    }
  }

  lemma {:induction false} LostIsEarlier(r: Rpc, i: nat)
    requires Settled(r.log, r.cur.nretry + 1) && i < |r.log.lost|
    ensures r.log.lost[i].nretry <= r.cur.nretry
  {
    var k, lost := r.log.lost[i].nretry, Sum(r.log.lost, TryOf);
    SumHolds(r.log.lost, k);
    UptoOnce(r.cur.nretry + 1, k);
    assert (r.log.settled + multiset{} + lost)[k] == r.log.settled[k] + lost[k];
  }

  /**
   * A finished RPC has settled every try, given every feedback and released every socket exactly once
   * iff no backup request found a call already parked.
   */
  lemma {:induction false} SettlesExactly(cfg: Config, env: Env, failed: Option<int>, es: seq<Event>)
    requires Run(cfg, env, failed, es).log.ended == 1
    ensures AllSettled(Run(cfg, env, failed, es)) <==> LostTries(cfg, env, failed, es) == []
  {
    var t := Run(cfg, env, failed, es);
    ChecksExplained(cfg, env, failed, es);
    RunSound(cfg, env, failed, es);
    SettledPaysBack(t);
    forall i | 0 <= i < |t.log.lost| ensures t.log.lost[i].nretry <= t.cur.nretry { LostIsEarlier(t, i); }
    LostOrSettled(t);
    assert |Numbers(t.log.lost)| == |t.log.lost|;
  }

  // ---- how many backup requests it takes ----

  /** Events that ask for a backup request. */
  function Backups(es: seq<Event>): nat
    decreases |es|
  {
    if es == [] then 0 else Backups(es[..|es| - 1]) + One(es[|es| - 1].code == EBACKUPREQUEST)
  }

  lemma {:induction false} CodeRaised(cfg: Config, r: Rpc, e: Event)
    requires Sound(cfg, r) && r.log.ended == 0
    ensures Raised(r, e) == CodeOf(e) && (CodeOf(e) == EBACKUPREQUEST <==> e.code == EBACKUPREQUEST)
  {}

  predicate SendsBackup(cfg: Config, o: Try) { !o.Sent? && FailCode(cfg, o) == EBACKUPREQUEST }

  /** The first n tries whose sending fails with the code of a backup request. */
  function SendBackups(cfg: Config, env: Env, n: nat): nat {
    if n == 0 then 0 else SendBackups(cfg, env, n - 1) + One(SendsBackup(cfg, env.tries(n - 1)))
  }

  /** All that may ask for a backup request in a run. */
  function Requests(cfg: Config, env: Env, failed: Option<int>, es: seq<Event>): nat {
    One(failed == Some(EBACKUPREQUEST)) + SendBackups(cfg, env, cfg.maxRetry + 1) + Backups(es)
  }

  /** Each backup request parks at most one call, and the first one finds none. */
  predicate Budget(requests: nat, dropped: nat, lost: nat, parked: bool) {
    dropped + lost + One(parked) <= requests && (requests <= 1 ==> lost == 0)
  }

  /** The requests until now, of which the code in r.err is not used up yet. */
  predicate Spare(requests: nat, dropped: nat, r: Rpc) {
    var more := One(r.err == EBACKUPREQUEST);
    more <= requests && Budget(requests - more, dropped, |r.log.lost|, r.parked.Some?)
  }

  function SentBackups(cfg: Config, env: Env, r: Rpc): nat { SendBackups(cfg, env, r.cur.nretry + 1) }

  lemma {:induction false} IssueBudget(cfg: Config, env: Env, r: Rpc, c: nat, d: nat)
    requires AccessedFits(cfg, r)
    requires Budget(c + SendBackups(cfg, env, r.cur.nretry), d, |r.log.lost|, r.parked.Some?)
    ensures var t := IssueRPC(cfg, env, r); Budget(c + SentBackups(cfg, env, t), d, |t.log.lost|, t.parked.Some?)
    decreases cfg.maxRetry - r.cur.nretry, 2
  {
    var o := env.tries(r.cur.nretry);
    var a := Attempt(cfg, Begin(r), o);
    AttemptQuiet(cfg, r, o);
    if !o.Sent? {
      assert a.(err := Code(a.err)) == a;
      ReturnedBudget(cfg, env, a, CurrentId(cfg, a), a.err, c, d);
    }
  }

  lemma {:induction false} ReturnedBudget(cfg: Config, env: Env, r: Rpc, id: nat, saved: int, c: nat, d: nat)
    requires AccessedFits(cfg, r) && TakenUp(cfg, r, id) && Spare(c + SentBackups(cfg, env, r), d, r)
    ensures var t := OnVersionedRPCReturned(cfg, env, r, id, saved);
      Budget(c + SentBackups(cfg, env, t), d, |t.log.lost|, t.parked.Some?)
    decreases cfg.maxRetry - r.cur.nretry, 0
  {
    if !GoesOn(cfg, r) {
      EndBudget(cfg, r, id, c + SentBackups(cfg, env, r), d);
    } else if r.err == EBACKUPREQUEST {
      BackupBudget(cfg, env, r, id, c, d);
    } else if env.doRetry(r.cur.nretry, r.err) {
      RetryBudget(cfg, env, r, id, c, d);
    } else {
      EndBudget(cfg, r, id, c + SentBackups(cfg, env, r), d);
    }
  }

  lemma {:induction false} EndBudget(cfg: Config, r: Rpc, id: nat, c: nat, d: nat)
    requires Budget(c, d, |r.log.lost|, r.parked.Some?) || Spare(c, d, r)
    ensures var t := EndRPC(cfg, r, id);
      Budget(c, d, |t.log.lost|, t.parked.Some?) && t.cur.nretry == r.cur.nretry
  {
    EndKeeps(cfg, r, id);
  }

  lemma {:induction false} RetryBudget(cfg: Config, env: Env, r: Rpc, id: nat, c: nat, d: nat)
    requires AccessedFits(cfg, r) && GoesOn(cfg, r) && r.err != EBACKUPREQUEST && Spare(c + SentBackups(cfg, env, r), d, r)
    ensures var t := Retry(cfg, env, r, id); Budget(c + SentBackups(cfg, env, t), d, |t.log.lost|, t.parked.Some?)
    decreases cfg.maxRetry - r.cur.nretry - 1, 3
  {
    var r1 := r.(log := Check(r.log, id == CurrentId(cfg, r)));
    var a := Avoid(cfg, env, r1);
    AvoidKeeps(cfg, env, r1);
    if a.None? {
      EndBudget(cfg, r1.(err := ENOMEM), id, c + SentBackups(cfg, env, r), d);
    } else {
      IssueBudget(cfg, env, RetryCurrent(a.value), c, d);
    }
  }

  lemma {:induction false} BackupBudget(cfg: Config, env: Env, r: Rpc, id: nat, c: nat, d: nat)
    requires AccessedFits(cfg, r) && GoesOn(cfg, r) && r.err == EBACKUPREQUEST && Spare(c + SentBackups(cfg, env, r), d, r)
    ensures var t := Backup(cfg, env, r, id); Budget(c + SentBackups(cfg, env, t), d, |t.log.lost|, t.parked.Some?)
    decreases cfg.maxRetry - r.cur.nretry - 1, 3
  {
    var rc, a, n := env.timerRc(r.cur.nretry), Avoid(cfg, env, r), c + SentBackups(cfg, env, r);
    AvoidKeeps(cfg, env, r);
    if rc != 0 {
      EndBudget(cfg, r.(err := rc), id, n, d);
    } else if a.None? {
      EndBudget(cfg, r.(err := ENOMEM), id, n, d);
    } else if env.newCall(r.cur.nretry) {
      IssueBudget(cfg, env, ParkCurrent(a.value), c, d);
    } else {
      EndBudget(cfg, a.value.(parked := None, err := ENOMEM, log := Overwrite(a.value.log, r.parked)), id, n, d);
    }
  }

  /** The event drops a failed parked call. */
  predicate Drops(cfg: Config, r: Rpc, e: Event) {
    r.log.ended == 0 && Superseded(cfg, r, e.id) && OfParked(cfg, r, e.id) && Raised(r, e) != 0
  }

  function DroppedCalls(cfg: Config, env: Env, failed: Option<int>, es: seq<Event>): nat
    decreases |es|
  {
    if es == [] then 0
    else
      var init := es[..|es| - 1];
      DroppedCalls(cfg, env, failed, init) + One(Drops(cfg, Run(cfg, env, failed, init), es[|es| - 1]))
  }

  lemma {:induction false} HandleBudget(cfg: Config, env: Env, r: Rpc, e: Event, c: nat, d: nat)
    requires AccessedFits(cfg, r) && r.log.ended == 0 && Budget(c + SentBackups(cfg, env, r), d, |r.log.lost|, r.parked.Some?)
    ensures var t, more := Handle(cfg, env, r, e), One(Raised(r, e) == EBACKUPREQUEST);
      Budget(c + more + SentBackups(cfg, env, t), d + One(Drops(cfg, r, e)), |t.log.lost|, t.parked.Some?)
  {
    var r1 := r.(err := Raised(r, e));
    if TakenUp(cfg, r1, e.id) {
      ReturnedBudget(cfg, env, r1, e.id, r.err, c + One(r1.err == EBACKUPREQUEST), d);
    }
  }

  lemma {:induction false} StartBudget(cfg: Config, env: Env, failed: Option<int>)
    ensures var t := Start(cfg, env, failed);
      Budget(One(failed == Some(EBACKUPREQUEST)) + SentBackups(cfg, env, t), 0, |t.log.lost|, t.parked.Some?)
  {
    var c := One(failed == Some(EBACKUPREQUEST));
    if failed.Some? {
      var r := FRESH.(err := Code(failed.value));
      assert r.(err := Code(r.err)) == r;
      ReturnedBudget(cfg, env, r, CurrentId(cfg, r), r.err, c, 0);
    } else {
      IssueBudget(cfg, env, FRESH, c, 0);
    }
  }

  /** The same with the requests of the tries sent so far. */
  function RequestsSoFar(cfg: Config, env: Env, failed: Option<int>, es: seq<Event>): nat {
    One(failed == Some(EBACKUPREQUEST)) + Backups(es) + SentBackups(cfg, env, Run(cfg, env, failed, es))
  }

  lemma {:induction false} RunBudget(cfg: Config, env: Env, failed: Option<int>, es: seq<Event>)
    ensures var t := Run(cfg, env, failed, es);
      Budget(RequestsSoFar(cfg, env, failed, es), DroppedCalls(cfg, env, failed, es), |t.log.lost|, t.parked.Some?)
    decreases |es|
  {
    if es == [] {
      StartBudget(cfg, env, failed);
    } else {
      var init, e := es[..|es| - 1], es[|es| - 1];
      var r, c := Run(cfg, env, failed, init), One(failed == Some(EBACKUPREQUEST)) + Backups(init);
      RunBudget(cfg, env, failed, init);
      RunSound(cfg, env, failed, init);
      if r.log.ended == 0 {
        CodeRaised(cfg, r, e);
        HandleBudget(cfg, env, r, e, c, DroppedCalls(cfg, env, failed, init));
      }
    }
  }

  lemma {:induction false} SendBackupsGrow(cfg: Config, env: Env, m: nat, n: nat)
    requires m <= n
    ensures SendBackups(cfg, env, m) <= SendBackups(cfg, env, n)
    decreases n
  {
    if m < n { SendBackupsGrow(cfg, env, m, n - 1); }
  }

  lemma {:induction false} LostLength(cfg: Config, env: Env, failed: Option<int>, es: seq<Event>)
    ensures |LostTries(cfg, env, failed, es)| == |Run(cfg, env, failed, es).log.lost|
  {
    ChecksExplained(cfg, env, failed, es);
    assert |Numbers(Run(cfg, env, failed, es).log.lost)| == |Run(cfg, env, failed, es).log.lost|;
  }

  lemma {:induction false} RunInRange(cfg: Config, env: Env, failed: Option<int>, es: seq<Event>)
    ensures Run(cfg, env, failed, es).cur.nretry <= cfg.maxRetry
  {
    RunSound(cfg, env, failed, es);
  }

  lemma {:induction false} RequestsGrow(cfg: Config, env: Env, failed: Option<int>, es: seq<Event>)
    ensures RequestsSoFar(cfg, env, failed, es) <= Requests(cfg, env, failed, es)
  {
    RunInRange(cfg, env, failed, es);
    SendBackupsGrow(cfg, env, Run(cfg, env, failed, es).cur.nretry + 1, cfg.maxRetry + 1);
  }

  /** In every run the calls dropped, lost and still parked are at most the backup requests, and a
      single backup request never finds a parked call. */
  lemma {:induction false} BackupsBound(cfg: Config, env: Env, failed: Option<int>, es: seq<Event>)
    ensures Budget(Requests(cfg, env, failed, es), DroppedCalls(cfg, env, failed, es),
                   |LostTries(cfg, env, failed, es)|, Run(cfg, env, failed, es).parked.Some?)
  {
    RunBudget(cfg, env, failed, es);
    RequestsGrow(cfg, env, failed, es);
    LostLength(cfg, env, failed, es);
  }

  /** A call is parked only after a backup request, and the first one never finds a parked call. */
  lemma {:induction false} FirstBackupIsSafe(cfg: Config, env: Env, failed: Option<int>, es: seq<Event>)
    ensures Requests(cfg, env, failed, es) == 0 ==> Run(cfg, env, failed, es).parked.None?
    ensures Requests(cfg, env, failed, es) <= 1 ==> LostTries(cfg, env, failed, es) == []
  {
    BackupsBound(cfg, env, failed, es);
  }

  /** The code an event brings when no error is set. */
  function CodeOf(e: Event): int { if e.Error? then Code(e.code) else e.code }

  /** The policy declines success and every code that arrives on the base id but backup requests. */
  ghost predicate PolicyDeclines(cfg: Config, env: Env, es: seq<Event>) {
    && (forall k :: !env.doRetry(k, 0))
    && (forall i, k :: 0 <= i < |es| && es[i].id == cfg.base && es[i].code != EBACKUPREQUEST ==> !env.doRetry(k, CodeOf(es[i])))
  }

  lemma {:induction false} DeclinedIsNoStray(cfg: Config, env: Env, r: Rpc, e: Event)
    requires Sound(cfg, r) && r.log.ended == 0 && !env.doRetry(r.cur.nretry, 0)
    requires e.id == cfg.base && e.code != EBACKUPREQUEST ==> !env.doRetry(r.cur.nretry, CodeOf(e))
    ensures !Strays(cfg, env, r, e)
  {
    CodeRaised(cfg, r, e);
  }

  lemma {:induction false} DeclinedNeverStray(cfg: Config, env: Env, failed: Option<int>, es: seq<Event>)
    requires PolicyDeclines(cfg, env, es)
    ensures StrayEvents(cfg, env, failed, es) == 0
    decreases |es|
  {
    if es != [] {
      var n := |es| - 1;
      var init, r := es[..n], Run(cfg, env, failed, es[..n]);
      DeclinedInit(cfg, env, es);
      DeclinedNeverStray(cfg, env, failed, init);
      RunSound(cfg, env, failed, init);
      assert !env.doRetry(r.cur.nretry, 0);
      if es[n].id == cfg.base && es[n].code != EBACKUPREQUEST { assert !env.doRetry(r.cur.nretry, CodeOf(es[n])); }
      if r.log.ended == 0 { DeclinedIsNoStray(cfg, env, r, es[n]); }
    }
  }

  lemma {:induction false} DeclinedInit(cfg: Config, env: Env, es: seq<Event>)
    requires PolicyDeclines(cfg, env, es) && es != []
    ensures PolicyDeclines(cfg, env, es[..|es| - 1])
  {
    var init := es[..|es| - 1];
    forall i, k | 0 <= i < |init| && init[i].id == cfg.base && init[i].code != EBACKUPREQUEST
      ensures !env.doRetry(k, CodeOf(init[i]))
    {
      assert es[i] == init[i];
    }
  }

  /**
   * With at most one backup request and a policy that declines success and what arrives on the base id
   * (timeout and cancellation, unless a peer answers there): no CHECK fires and, once ended, everything
   * is settled exactly once.
   */
  lemma {:induction false} EveryRunSettlesOnce(cfg: Config, env: Env, failed: Option<int>, es: seq<Event>)
    requires Requests(cfg, env, failed, es) <= 1 && PolicyDeclines(cfg, env, es)
    ensures var t := Run(cfg, env, failed, es);
      t.log.checksFailed == 0 && (t.log.ended == 1 ==> AllSettled(t))
  {
    ChecksExplained(cfg, env, failed, es);
    FirstBackupIsSafe(cfg, env, failed, es);
    DeclinedNeverStray(cfg, env, failed, es);
    if Run(cfg, env, failed, es).log.ended == 1 { SettlesExactly(cfg, env, failed, es); }
  }

  // ---- runs a peer can cause ----

  const CFG := Config(10, 2, false, 0, false)
  const ENV := Env(k => Sent(100 + k, true), (_, c) => c == 1, _ => 0, _ => true, _ => true)

  /** The timer's backup request, then a response of the current call that carries its code. */
  const TIMER := Error(10, EBACKUPREQUEST)
  const ECHO := Response(12, EBACKUPREQUEST)
  const TIMEOUT := Error(10, ERPCTIMEDOUT)

  /** One more event. */
  lemma {:induction false} RunStep(cfg: Config, env: Env, failed: Option<int>, es: seq<Event>, e: Event)
    ensures Run(cfg, env, failed, es + [e]) == Handle(cfg, env, Run(cfg, env, failed, es), e)
  {
    assert (es + [e])[..|es|] == es;
  }

  lemma {:induction false} FirstTry()
    ensures var r := Run(CFG, ENV, None, []);
      && r.cur == Call(0, true, 100, true) && r.parked == None && r.err == 0 && r.log.ended == 0 && r.log.lost == []
      && r.log.selected == multiset{(0, 100)} && r.log.fed == multiset{}
  {
    assert Run(CFG, ENV, None, []) == IssueRPC(CFG, ENV, FRESH);
  }

  /** A backup request on the base or the current id parks the current call and issues the next. */
  lemma {:induction false} ParkAgain(r: Rpc, e: Event)
    requires AccessedFits(CFG, r) && r.log.ended == 0 && r.err == 0 && r.cur.nretry < 2
    requires e.code == EBACKUPREQUEST && !Superseded(CFG, r, e.id)
    ensures var t := Handle(CFG, ENV, r, e); var k := r.cur.nretry + 1;
      && t.cur == Call(k, true, 100 + k, true) && t.err == 0 && t.parked == Some(r.cur)
      && t.log.selected == r.log.selected + multiset{(k, 100 + k)} && t.log.fed == r.log.fed && t.log.ended == 0
      && t.log.lost == r.log.lost + (if r.parked.Some? then [r.parked.value] else [])
  {
    BackupIssues(r.(err := EBACKUPREQUEST), e.id);
    assert r.log.lost + [] == r.log.lost;
  }

  lemma {:induction false} BackupIssues(r: Rpc, id: nat)
    requires AccessedFits(CFG, r) && r.err == EBACKUPREQUEST && r.cur.nretry < 2 && !Superseded(CFG, r, id)
    ensures var p := ParkCurrent(Avoid(CFG, ENV, r).value); var k := r.cur.nretry + 1;
      OnVersionedRPCReturned(CFG, ENV, r, id, 0) == Connected(Selected(CFG, Begin(p), 100 + k, true))
  {
    AvoidKeeps(CFG, ENV, r);
    assert OnVersionedRPCReturned(CFG, ENV, r, id, 0) == Backup(CFG, ENV, r, id);
    assert Backup(CFG, ENV, r, id) == IssueRPC(CFG, ENV, ParkCurrent(Avoid(CFG, ENV, r).value));
  }

  lemma {:induction false} ThenTimeout(r: Rpc)
    requires AccessedFits(CFG, r) && r.log.ended == 0
    requires r.cur == Call(2, true, 102, true) && r.parked == Some(Call(1, true, 101, true))
    ensures var t := Handle(CFG, ENV, r, TIMEOUT);
      && t.log.ended == 1 && t.log.lost == r.log.lost && t.log.selected == r.log.selected
      && t.log.fed == r.log.fed + multiset{(1, 101)} + multiset{(2, 102)}
  {
    assert Handle(CFG, ENV, r, TIMEOUT) == EndRPC(CFG, r.(err := ERPCTIMEDOUT), 10);
  }

  lemma {:induction false} AfterTimer()
    ensures var r := Run(CFG, ENV, None, [TIMER]);
      && r.cur == Call(1, true, 101, true) && r.err == 0 && r.parked == Some(Call(0, true, 100, true))
      && r.log.ended == 0 && r.log.lost == [] && r.log.fed == multiset{} && r.log.selected[(0, 100)] == 1
  {
    FirstTry();
    RunStep(CFG, ENV, None, [], TIMER);
    assert [] + [TIMER] == [TIMER];
    ParkAgain(Run(CFG, ENV, None, []), TIMER);
  }

  lemma {:induction false} AfterEcho()
    ensures var r := Run(CFG, ENV, None, [TIMER] + [ECHO]);
      && r.cur == Call(2, true, 102, true) && r.parked == Some(Call(1, true, 101, true))
      && r.log.ended == 0 && r.log.lost == [Call(0, true, 100, true)] && r.log.fed == multiset{} && r.log.selected[(0, 100)] == 1
  {
    AfterTimer();
    RunStep(CFG, ENV, None, [TIMER], ECHO);
    ParkAgain(Run(CFG, ENV, None, [TIMER]), ECHO);
  }

  /** After the timer's backup request one response with code EBACKUPREQUEST loses the first call, whose
      server never gets its feedback. */
  lemma {:induction false} EchoedBackupLosesFeedback()
    ensures var t := Run(CFG, ENV, None, [TIMER] + [ECHO] + [TIMEOUT]);
      && t.log.ended == 1 && t.log.lost == [Call(0, true, 100, true)]
      && t.log.selected[(0, 100)] == 1 && t.log.fed[(0, 100)] == 0
  {
    AfterEcho();
    RunStep(CFG, ENV, None, [TIMER] + [ECHO], TIMEOUT);
    ThenTimeout(Run(CFG, ENV, None, [TIMER] + [ECHO]));
  }

  /** A response on the base id with a code the policy accepts fires the CHECK on the current id. */
  lemma {:induction false} AnswerOnBaseFires()
    ensures Run(CFG, ENV, None, [] + [Response(10, 1)]).log.checksFailed == 1
  {
    FirstTry();
    var r := Run(CFG, ENV, None, []);
    RunStep(CFG, ENV, None, [], Response(10, 1));
    StartFires(CFG, ENV, None);
    HandleFires(CFG, ENV, r, Response(10, 1));
  }
}

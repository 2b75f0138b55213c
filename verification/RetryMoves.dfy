/**
 * What the client call protocol does with an event it goes on with (brpc/brpc/controller.cpp): which try
 * it issues next, what it settles, and with which code it gives up when it cannot go on.
 */
module RetryMoves {
  import opened Options
  import opened RetryChecks
  import opened RetryOutcomes
  import opened RetryProtocol
  import opened RetryTheorems

  // ---- tries and settlements are only added ----

  predicate Grows(a: Ledger, b: Ledger) { a.issued <= b.issued && a.codes <= b.codes }

  lemma {:induction false} SettleGrows(a: Ledger, b: Ledger, c: Call, code: int)
    requires Grows(a, b)
    ensures Grows(a, Settle(b, c, code))
  {}

  lemma {:induction false} CurrentGrows(r: Rpc)
    ensures Grows(r.log, EndOnCurrent(r))
  {
    var log := if r.parked.None? then r.log
               else Settle(r.log, r.parked.value, if r.err == 0 then EBACKUPREQUEST else r.err);
    if r.parked.Some? { SettleGrows(r.log, r.log, r.parked.value, if r.err == 0 then EBACKUPREQUEST else r.err); }
    SettleGrows(r.log, log, r.cur, r.err);
  }

  lemma {:induction false} EarlierGrows(cfg: Config, r: Rpc, id: nat)
    ensures Grows(r.log, EndOnEarlier(cfg, r, id))
  {
    var first := Check(r.log, r.parked.Some?);
    SettleGrows(r.log, first, r.cur, ECANCELED);
    if r.parked.Some? {
      var mine := GetId(cfg, r.parked.value.nretry) == id;
      SettleGrows(r.log, Check(Settle(first, r.cur, ECANCELED), mine), r.parked.value, if mine then r.err else ECANCELED);
    }
  }

  lemma {:induction false} EndGrows(cfg: Config, r: Rpc, id: nat)
    ensures Grows(r.log, EndRPC(cfg, r, id).log)
  {
    CurrentGrows(r);
    EarlierGrows(cfg, r, id);
  }

  lemma {:induction false} AttemptGrows(cfg: Config, r: Rpc, t: Try)
    ensures var a := Attempt(cfg, Begin(r), t);
      a.log.issued == r.log.issued + [r.cur.nretry] && a.log.codes == r.log.codes
  {}

  /** What the outside was asked for: feedback from the server selected, if one was and it wants it, and a
      sending socket, if there was a connection. */
  predicate Asked(cfg: Config, r: Rpc, a: Rpc, t: Try) {
    var k := r.cur.nretry;
    && a.log.selected == r.log.selected +
         (if !cfg.single && !t.SelectFail? && t.feedback then multiset{(k, t.peer)} else multiset{})
    && a.log.acquired == r.log.acquired + (if t.SendFail? || t.Sent? then multiset{k} else multiset{})
    && a.cur.nretry == k && (!t.SelectFail? ==> a.cur.peer == if cfg.single then cfg.singleId else t.peer)
  }

  lemma {:induction false} AttemptAsks(cfg: Config, r: Rpc, t: Try)
    ensures Asked(cfg, r, Attempt(cfg, Begin(r), t), t)
  {
    assert r.log.selected + multiset{} == r.log.selected && r.log.acquired + multiset{} == r.log.acquired;
  }

  lemma {:induction false} IssueGrows(cfg: Config, env: Env, r: Rpc)
    requires AccessedFits(cfg, r)
    ensures var t := IssueRPC(cfg, env, r);
      r.log.issued + [r.cur.nretry] <= t.log.issued && r.log.codes <= t.log.codes
    decreases cfg.maxRetry - r.cur.nretry, 2
  {
    var o := env.tries(r.cur.nretry);
    var a := Attempt(cfg, Begin(r), o);
    AttemptGrows(cfg, r, o);
    AttemptQuiet(cfg, r, o);
    if !o.Sent? { ReturnedGrows(cfg, env, a, CurrentId(cfg, a), a.err); }
  }

  lemma {:induction false} ReturnedGrows(cfg: Config, env: Env, r: Rpc, id: nat, saved: int)
    requires AccessedFits(cfg, r) && TakenUp(cfg, r, id)
    ensures Grows(r.log, OnVersionedRPCReturned(cfg, env, r, id, saved).log)
    decreases cfg.maxRetry - r.cur.nretry, 0
  {
    EndGrows(cfg, r, id);
    if GoesOn(cfg, r) {
      if r.err == EBACKUPREQUEST {
        BackupGrows(cfg, env, r, id);
      } else if env.doRetry(r.cur.nretry, r.err) {
        RetryGrows(cfg, env, r, id);
      }
    }
  }

  lemma {:induction false} BackupGrows(cfg: Config, env: Env, r: Rpc, id: nat)
    requires AccessedFits(cfg, r) && GoesOn(cfg, r)
    ensures Grows(r.log, Backup(cfg, env, r, id).log)
    decreases cfg.maxRetry - r.cur.nretry - 1, 3
  {
    var rc, a := env.timerRc(r.cur.nretry), Avoid(cfg, env, r);
    AvoidKeeps(cfg, env, r);
    if rc != 0 {
      EndGrows(cfg, r.(err := rc), id);
    } else if a.None? {
      EndGrows(cfg, r.(err := ENOMEM), id);
    } else if env.newCall(r.cur.nretry) {
      IssueGrows(cfg, env, ParkCurrent(a.value));
    } else {
      EndGrows(cfg, a.value.(parked := None, err := ENOMEM, log := Overwrite(a.value.log, r.parked)), id);
    }
  }

  lemma {:induction false} RetryGrows(cfg: Config, env: Env, r: Rpc, id: nat)
    requires AccessedFits(cfg, r) && GoesOn(cfg, r)
    ensures Grows(r.log, Retry(cfg, env, r, id).log)
    decreases cfg.maxRetry - r.cur.nretry - 1, 3
  {
    var r1 := r.(log := Check(r.log, id == CurrentId(cfg, r)));
    var a := Avoid(cfg, env, r1);
    AvoidKeeps(cfg, env, r1);
    if a.None? {
      EndGrows(cfg, r1.(err := ENOMEM), id);
    } else {
      IssueGrows(cfg, env, RetryCurrent(a.value));
    }
  }

  // ---- the next try ----

  /** The call of try k once it is sent: to the server selected for it, or the only one. */
  function SentCall(cfg: Config, k: nat, o: Try): Call
    requires o.Sent?
  {
    if cfg.single then Call(k, false, cfg.singleId, true) else Call(k, o.feedback, o.peer, true)
  }

  /** The call was sent and nothing else happened: it waits, with only these codes settled. */
  predicate Waits(t: Rpc, c: Call, issued: seq<nat>, codes: seq<(nat, int)>, parked: Option<Call>) {
    && t.cur == c && t.err == 0 && t.log.ended == 0 && t.parked == parked
    && t.log.issued == issued + [c.nretry] && t.log.codes == codes
  }

  lemma {:induction false} IssueWaits(cfg: Config, env: Env, r: Rpc)
    requires AccessedFits(cfg, r) && env.tries(r.cur.nretry).Sent? && r.log.ended == 0
    ensures var c := SentCall(cfg, r.cur.nretry, env.tries(r.cur.nretry));
      Waits(IssueRPC(cfg, env, r), c, r.log.issued, r.log.codes, r.parked)
  {}

  /** Try k was issued after the given ones; if sending succeeds it waits, with only these codes settled. */
  predicate Issued(cfg: Config, env: Env, k: nat, t: Rpc, issued: seq<nat>, codes: seq<(nat, int)>, parked: Option<Call>) {
    && issued + [k] <= t.log.issued && codes <= t.log.codes
    && (env.tries(k).Sent? ==> Waits(t, SentCall(cfg, k, env.tries(k)), issued, codes, parked))
  }

  lemma {:induction false} IssueTry(cfg: Config, env: Env, r: Rpc)
    requires AccessedFits(cfg, r) && r.log.ended == 0
    ensures Issued(cfg, env, r.cur.nretry, IssueRPC(cfg, env, r), r.log.issued, r.log.codes, r.parked)
    ensures env.tries(r.cur.nretry).Sent? ==> Asked(cfg, r, IssueRPC(cfg, env, r), env.tries(r.cur.nretry))
  {
    IssueGrows(cfg, env, r);
    AttemptAsks(cfg, r, env.tries(r.cur.nretry));
    if env.tries(r.cur.nretry).Sent? { IssueWaits(cfg, env, r); }
  }

  /** What an accepted event leads to. */
  predicate Retried(cfg: Config, env: Env, r: Rpc, t: Rpc, code: int) {
    var k := r.cur.nretry;
    Issued(cfg, env, k + 1, t, r.log.issued, r.log.codes + [(k, code)], r.parked)
  }

  /** An event with a code the policy accepts, while retries and memory are left. */
  predicate Retries(cfg: Config, env: Env, r: Rpc, e: Event) {
    var c, k := CodeOf(e), r.cur.nretry;
    && r.log.ended == 0 && (!Superseded(cfg, r, e.id) || (OfParked(cfg, r, e.id) && c == 0))
    && k < cfg.maxRetry && (c != 0 || cfg.customPolicy) && c != EBACKUPREQUEST && env.doRetry(k, c)
  }

  lemma {:induction false} RetryIssues(cfg: Config, env: Env, r: Rpc, id: nat)
    requires AccessedFits(cfg, r) && r.cur.nretry < cfg.maxRetry && r.log.ended == 0
    requires CanAvoid(env, r.cur.nretry, Known(cfg, r))
    ensures var k := r.cur.nretry;
      Issued(cfg, env, k + 1, Retry(cfg, env, r, id), r.log.issued, r.log.codes + [(k, r.err)], r.parked)
  {
    var next := RetryIssuesFrom(cfg, env, r, id);
    IssueTry(cfg, env, next);
  }

  /** The state from which a retry issues the next try. */
  lemma {:induction false} RetryIssuesFrom(cfg: Config, env: Env, r: Rpc, id: nat) returns (next: Rpc)
    requires AccessedFits(cfg, r) && r.cur.nretry < cfg.maxRetry
    requires CanAvoid(env, r.cur.nretry, Known(cfg, r))
    ensures AccessedFits(cfg, next) && next.cur.nretry == r.cur.nretry + 1 && next.parked == r.parked
    ensures next.log.ended == r.log.ended && next.log.issued == r.log.issued
    ensures next.log.codes == r.log.codes + [(r.cur.nretry, r.err)]
    ensures Retry(cfg, env, r, id) == IssueRPC(cfg, env, next)
  {
    var r1 := r.(log := Check(r.log, id == CurrentId(cfg, r)));
    AvoidKeeps(cfg, env, r1);
    AvoidKnows(cfg, env, r1);
    next := RetryCurrent(Avoid(cfg, env, r1).value);
  }

  lemma {:induction false} HandleRetries(cfg: Config, env: Env, r: Rpc, e: Event)
    requires AccessedFits(cfg, r) && r.err == 0 && Retries(cfg, env, r, e) && CanAvoid(env, r.cur.nretry, Known(cfg, r))
    ensures Retried(cfg, env, r, Handle(cfg, env, r, e), CodeOf(e))
  {
    var r1 := r.(err := CodeOf(e));
    assert Handle(cfg, env, r, e) == Retry(cfg, env, r1, e.id);
    RetryIssues(cfg, env, r1, e.id);
  }

  /**
   * In every run such an event settles the current try with its code and issues the next one, up to the
   * last one allowed; if sending succeeds, that try waits and the parked call stays.
   */
  lemma {:induction false} RetryIsMade(cfg: Config, env: Env, failed: Option<int>, es: seq<Event>, e: Event)
    requires Retries(cfg, env, Run(cfg, env, failed, es), e)
    requires CanAvoid(env, Run(cfg, env, failed, es).cur.nretry, Known(cfg, Run(cfg, env, failed, es)))
    ensures Retried(cfg, env, Run(cfg, env, failed, es), Run(cfg, env, failed, es + [e]), CodeOf(e))
  {
    RunningIsClean(cfg, env, failed, es);
    RunStep(cfg, env, failed, es, e);
    HandleRetries(cfg, env, Run(cfg, env, failed, es), e);
  }

  lemma {:induction false} RunningIsClean(cfg: Config, env: Env, failed: Option<int>, es: seq<Event>)
    requires Run(cfg, env, failed, es).log.ended == 0
    ensures Run(cfg, env, failed, es).err == 0
  {
    RunSound(cfg, env, failed, es);
  }

  /** Without memory for the servers to avoid, the RPC ends with ENOMEM for every open call. */
  lemma {:induction false} RetryWithoutMemory(cfg: Config, env: Env, failed: Option<int>, es: seq<Event>, e: Event)
    requires Retries(cfg, env, Run(cfg, env, failed, es), e) && !Superseded(cfg, Run(cfg, env, failed, es), e.id)
    requires !CanAvoid(env, Run(cfg, env, failed, es).cur.nretry, Known(cfg, Run(cfg, env, failed, es)))
    ensures var r, t := Run(cfg, env, failed, es), Run(cfg, env, failed, es + [e]);
      t.log.ended == 1 && t.err == ENOMEM && t.log.codes == r.log.codes + OpenCodes(r, ENOMEM) && t.log.issued == r.log.issued
  {
    var r := Run(cfg, env, failed, es);
    RunSound(cfg, env, failed, es);
    CodeRaised(cfg, r, e);
    RunStep(cfg, env, failed, es, e);
    var r1 := r.(err := CodeOf(e));
    assert Handle(cfg, env, r, e) == Retry(cfg, env, r1, e.id);
    var r2 := r1.(log := Check(r.log, e.id == CurrentId(cfg, r)), err := ENOMEM);
    AvoidKnows(cfg, env, r1.(log := Check(r.log, e.id == CurrentId(cfg, r))));
    OpenSettled(cfg, r2, e.id);
    EndKeeps(cfg, r2, e.id);
  }

  // ---- backup requests ----

  /** An event that asks for a backup request while retries are left. */
  predicate AsksForBackup(cfg: Config, r: Rpc, e: Event) {
    r.log.ended == 0 && !Superseded(cfg, r, e.id) && CodeOf(e) == EBACKUPREQUEST && r.cur.nretry < cfg.maxRetry
  }

  /** The timer is armed again and there is memory for the servers to avoid. */
  predicate TimerAndServers(cfg: Config, env: Env, r: Rpc) {
    env.timerRc(r.cur.nretry) == 0 && CanAvoid(env, r.cur.nretry, Known(cfg, r))
  }

  predicate BackedUp(cfg: Config, env: Env, r: Rpc, t: Rpc) {
    Issued(cfg, env, r.cur.nretry + 1, t, r.log.issued, r.log.codes, Some(r.cur))
  }

  lemma {:induction false} BackupIssuesNext(cfg: Config, env: Env, r: Rpc, id: nat)
    requires AccessedFits(cfg, r) && r.cur.nretry < cfg.maxRetry && r.log.ended == 0
    requires TimerAndServers(cfg, env, r) && env.newCall(r.cur.nretry)
    ensures Issued(cfg, env, r.cur.nretry + 1, Backup(cfg, env, r, id), r.log.issued, r.log.codes, Some(r.cur))
  {
    AvoidKeeps(cfg, env, r);
    AvoidKnows(cfg, env, r);
    IssueTry(cfg, env, ParkCurrent(Avoid(cfg, env, r).value));
  }

  lemma {:induction false} HandleBacksUp(cfg: Config, env: Env, r: Rpc, e: Event)
    requires AccessedFits(cfg, r) && r.err == 0
    requires AsksForBackup(cfg, r, e) && TimerAndServers(cfg, env, r) && env.newCall(r.cur.nretry)
    ensures BackedUp(cfg, env, r, Handle(cfg, env, r, e))
  {
    var r1 := r.(err := EBACKUPREQUEST);
    assert Handle(cfg, env, r, e) == Backup(cfg, env, r1, e.id);
    BackupIssuesNext(cfg, env, r1, e.id);
  }

  /**
   * In every run a backup request parks the current try unsettled and issues the next one; if sending
   * succeeds, that try waits beside the parked one.
   */
  lemma {:induction false} BackupIsMade(cfg: Config, env: Env, failed: Option<int>, es: seq<Event>, e: Event)
    requires var r := Run(cfg, env, failed, es);
      AsksForBackup(cfg, r, e) && TimerAndServers(cfg, env, r) && env.newCall(r.cur.nretry)
    ensures BackedUp(cfg, env, Run(cfg, env, failed, es), Run(cfg, env, failed, es + [e]))
  {
    RunningIsClean(cfg, env, failed, es);
    RunStep(cfg, env, failed, es, e);
    HandleBacksUp(cfg, env, Run(cfg, env, failed, es), e);
  }

  /** The code with which a backup request that cannot be made ends the RPC. */
  function BackupCode(env: Env, k: nat): int { if env.timerRc(k) != 0 then env.timerRc(k) else ENOMEM }

  /**
   * Otherwise the RPC ends for every open call: with the timer's error, or with ENOMEM; when memory for
   * the parked call itself runs out, a call parked before is not settled.
   */
  lemma {:induction false} BackupThatFails(cfg: Config, env: Env, failed: Option<int>, es: seq<Event>, e: Event)
    requires var r := Run(cfg, env, failed, es);
      AsksForBackup(cfg, r, e) && !(TimerAndServers(cfg, env, r) && env.newCall(r.cur.nretry))
    ensures var r, t := Run(cfg, env, failed, es), Run(cfg, env, failed, es + [e]); var c := BackupCode(env, r.cur.nretry);
      && t.log.ended == 1 && t.err == c && t.log.issued == r.log.issued
      && t.log.codes == r.log.codes + (if TimerAndServers(cfg, env, r) then [(r.cur.nretry, c)] else OpenCodes(r, c))
  {
    var r := Run(cfg, env, failed, es);
    RunSound(cfg, env, failed, es);
    CodeRaised(cfg, r, e);
    RunStep(cfg, env, failed, es, e);
    var r1 := r.(err := EBACKUPREQUEST);
    assert Handle(cfg, env, r, e) == Backup(cfg, env, r1, e.id);
    AvoidKeeps(cfg, env, r1);
    AvoidKnows(cfg, env, r1);
    var end := if TimerAndServers(cfg, env, r)
               then Avoid(cfg, env, r1).value.(parked := None, err := ENOMEM, log := Overwrite(r.log, r.parked))
               else r1.(err := BackupCode(env, r.cur.nretry));
    assert Backup(cfg, env, r1, e.id) == EndRPC(cfg, end, e.id);
    OpenSettled(cfg, end, e.id);
    EndKeeps(cfg, end, e.id);
  }

  // ---- failed sendings ----

  /** A sending that fails is an error of the current try: all that is said of events holds for it. */
  lemma {:induction false} FailedSendingIsAnEvent(cfg: Config, env: Env, r: Rpc)
    requires AccessedFits(cfg, r) && r.log.ended == 0 && !env.tries(r.cur.nretry).Sent?
    ensures var o := env.tries(r.cur.nretry); var a := Attempt(cfg, Begin(r), o).(err := 0);
      && AccessedFits(cfg, a) && Asked(cfg, r, a, o) && a.log.issued == r.log.issued + [r.cur.nretry]
      && IssueRPC(cfg, env, r) == Handle(cfg, env, a, Error(CurrentId(cfg, a), FailCode(cfg, o)))
  {
    var o := env.tries(r.cur.nretry);
    var a := Attempt(cfg, Begin(r), o);
    AttemptQuiet(cfg, r, o);
    AttemptGrows(cfg, r, o);
    AttemptAsks(cfg, r, o);
    AttemptGoesOn(cfg, r, o);
    SendFailedIsAnEvent(cfg, env, a, a.err);
  }

  lemma {:induction false} AttemptGoesOn(cfg: Config, r: Rpc, t: Try)
    ensures Attempt(cfg, Begin(r), t).log.ended == r.log.ended
  {}

  lemma {:induction false} SendFailedIsAnEvent(cfg: Config, env: Env, a: Rpc, c: int)
    requires AccessedFits(cfg, a) && a.log.ended == 0 && a.err == c && c != 0
    ensures HandleSendFailed(cfg, env, a) == Handle(cfg, env, a.(err := 0), Error(CurrentId(cfg, a), c))
  {
    assert a.(err := 0).(err := c) == a;
    CurrentIgnoresSaved(cfg, env, a, a.err, 0);
  }

  lemma {:induction false} CurrentIgnoresSaved(cfg: Config, env: Env, r: Rpc, s1: int, s2: int)
    requires AccessedFits(cfg, r)
    ensures OnVersionedRPCReturned(cfg, env, r, CurrentId(cfg, r), s1) == OnVersionedRPCReturned(cfg, env, r, CurrentId(cfg, r), s2)
  {}

  /** Whichever way it starts, CallMethod issues try 0, or treats its failure like one of try 0. */
  lemma {:induction false} StartIssues(cfg: Config, env: Env, failed: Option<int>)
    ensures failed.None? ==> [0] <= Run(cfg, env, failed, []).log.issued
    ensures failed.None? && env.tries(0).Sent? ==> Waits(Run(cfg, env, failed, []), SentCall(cfg, 0, env.tries(0)), [], [], None)
    ensures failed.Some? ==> Run(cfg, env, failed, []) == Handle(cfg, env, FRESH, Error(CurrentId(cfg, FRESH), failed.value))
  {
    if failed.None? {
      IssueGrows(cfg, env, FRESH);
      assert FRESH.log.issued + [0] == [0];
      if env.tries(0).Sent? { IssueWaits(cfg, env, FRESH); }
    } else {
      var r := FRESH.(err := Code(failed.value));
      CurrentIgnoresSaved(cfg, env, r, r.err, 0);
    }
  }

  // ---- all retries are made ----

  function Upto(n: nat): seq<nat> { seq(n, i => i) }

  /** The first n tries all answer with this code. */
  function Answers(cfg: Config, c: int, n: nat): seq<Event> {
    seq(n, i requires 0 <= i => Response(GetId(cfg, i), c))
  }

  ghost predicate Persistent(cfg: Config, env: Env, c: int) {
    && c != 0 && c != EBACKUPREQUEST
    && (forall k: nat :: env.tries(k).Sent?) && (forall k: nat :: env.doRetry(k, c))
    && (cfg.single || forall k: nat :: env.newAccessed(k))
  }

  lemma {:induction false} AnswersLast(cfg: Config, c: int, n: nat)
    ensures Answers(cfg, c, n + 1) == Answers(cfg, c, n) + [Response(GetId(cfg, n), c)] && Upto(n + 1) == Upto(n) + [n]
  {}

  /** After n failing answers try n waits, and the tries up to it were issued. */
  predicate AtTry(r: Rpc, n: nat) { r.log.issued == Upto(n + 1) && r.cur.nretry == n && r.log.ended == 0 && r.err == 0 }

  lemma {:induction false} FirstTry(cfg: Config, env: Env, c: int)
    requires Persistent(cfg, env, c)
    ensures AtTry(Run(cfg, env, None, Answers(cfg, c, 0)), 0)
  {
    StartIssues(cfg, env, None);
    assert Answers(cfg, c, 0) == [] && Upto(1) == [0];
  }

  lemma {:induction false} NextTry(cfg: Config, env: Env, c: int, n: nat)
    requires Persistent(cfg, env, c) && n < cfg.maxRetry && AtTry(Run(cfg, env, None, Answers(cfg, c, n)), n)
    ensures AtTry(Run(cfg, env, None, Answers(cfg, c, n + 1)), n + 1)
  {
    AnswersLast(cfg, c, n);
    AnswersLast(cfg, c, n + 1);
    RetryIsMade(cfg, env, None, Answers(cfg, c, n), Response(GetId(cfg, n), c));
  }

  /**
   * With sending that works and a policy that accepts the code, failing answers lead through all tries
   * from 0 to max_retry in order, and only the answer to the last one ends the RPC.
   */
  lemma {:induction false} AllRetriesAreMade(cfg: Config, env: Env, c: int, n: nat)
    requires Persistent(cfg, env, c) && n <= cfg.maxRetry
    ensures var r := Run(cfg, env, None, Answers(cfg, c, n));
      r.log.issued == Upto(n + 1) && r.cur.nretry == n && r.log.ended == 0 && r.err == 0
    ensures n == cfg.maxRetry ==>
      var t := Run(cfg, env, None, Answers(cfg, c, n + 1)); t.log.ended == 1 && t.err == c && t.log.issued == Upto(n + 1)
  {
    if n == 0 {
      FirstTry(cfg, env, c);
    } else {
      AllRetriesAreMade(cfg, env, c, n - 1);
      NextTry(cfg, env, c, n - 1);
    }
    if n == cfg.maxRetry { LastAnswerEnds(cfg, env, c, n); }
  }

  lemma {:induction false} LastAnswerEnds(cfg: Config, env: Env, c: int, n: nat)
    requires c != 0 && n == cfg.maxRetry
    requires var r := Run(cfg, env, None, Answers(cfg, c, n)); r.cur.nretry == n && r.log.ended == 0 && r.err == 0
    ensures var r, t := Run(cfg, env, None, Answers(cfg, c, n)), Run(cfg, env, None, Answers(cfg, c, n + 1));
      t.log.ended == 1 && t.err == c && t.log.issued == r.log.issued
  {
    AnswersLast(cfg, c, n);
    var r, e := Run(cfg, env, None, Answers(cfg, c, n)), Response(GetId(cfg, n), c);
    RunStep(cfg, env, None, Answers(cfg, c, n), e);
    EndKeeps(cfg, r.(err := c), e.id);
  }
}

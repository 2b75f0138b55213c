/**
 * The Controller of brpc/brpc/controller.cpp as an object: its handlers update the fields step by
 * step and call each other; each is proved to do exactly what RetryProtocol says.
 */
module ControllerObject {
  import opened Excluded
  import opened Options
  import opened RetryProtocol
  import opened RetryTheorems

  class Controller {
    const cfg: Config
    const env: Env
    var currentCall: Call
    var unfinishedCall: Option<Call>
    var errorCode: int
    var accessed: Option<seq<SocketId>>
    var picks: seq<Pick>
    var adds: seq<SocketId>
    var log: Ledger

    ghost function Model(): (r: Rpc) reads this {
      Rpc(currentCall, unfinishedCall, errorCode, accessed, picks, adds, log)
    }

    ghost predicate Valid() reads this { AccessedFits(cfg, Model()) }

    constructor (cfg: Config, env: Env)
      ensures Valid() && Model() == FRESH && this.cfg == cfg && this.env == env
    {
      this.cfg, this.env := cfg, env;
      currentCall, unfinishedCall, errorCode, accessed := FRESH.cur, None, 0, None;
      picks, adds, log := [], [], EMPTY;
    }

    function GetIdOf(nretry: nat): nat { cfg.base + nretry + 1 }
    function CurrentIdNow(): nat reads this { cfg.base + currentCall.nretry + 1 }

    method SetFailed(code: int)
      modifies this`errorCode
      ensures Model() == old(Model()).(err := Code(code))
    {
      errorCode := if code == 0 then -1 else code;
    }

    /** Call::OnComplete of the current call: only the socket goes, other fields stay. */
    method CompleteCurrent(code: int)
      modifies this`currentCall, this`log
      ensures Model() == old(Model()).(cur := old(currentCall).(hasSock := false),
                                       log := Settle(old(log), old(currentCall), code))
    {
      log := Settle(log, currentCall, code);
      currentCall := currentCall.(hasSock := false);
    }

    /** Call::OnComplete of the parked call, followed by its deletion. */
    method CompleteParked(code: int)
      requires unfinishedCall.Some?
      modifies this`unfinishedCall, this`log
      ensures Model() == old(Model()).(parked := None, log := Settle(old(log), old(unfinishedCall).value, code))
    {
      log := Settle(log, unfinishedCall.value, code);
      unfinishedCall := None;
    }

    method EndCurrent()
      modifies this
      ensures Model() == old(Model()).(parked := None, cur := old(currentCall).(hasSock := false),
                                       log := EndOnCurrent(old(Model())))
    {
      if unfinishedCall.Some? {
        CompleteParked(if errorCode == 0 then EBACKUPREQUEST else errorCode);
      }
      CompleteCurrent(errorCode);
    }

    method EndEarlier(id: nat)
      modifies this
      ensures Model() == old(Model()).(parked := None, cur := old(currentCall).(hasSock := false),
                                       log := EndOnEarlier(cfg, old(Model()), id))
    {
      log := Check(log, unfinishedCall.Some?);
      CompleteCurrent(ECANCELED);
      if unfinishedCall.Some? {
        if GetIdOf(unfinishedCall.value.nretry) == id {
          CompleteParked(errorCode);
        } else {
          log := Check(log, false);
          CompleteParked(ECANCELED);
        }
      }
    }

    method End(id: nat)
      modifies this
      ensures Model() == EndRPC(cfg, old(Model()), id)
    {
      if id == CurrentIdNow() || id == cfg.base {
        EndCurrent();
      } else {
        EndEarlier(id);
      }
      log := log.(ended := log.ended + 1);
    }

    /** Adds the current server to the avoided ones; false when memory ran out. */
    method Remember() returns (ok: bool)
      requires Valid() && cfg.maxRetry > 0
      modifies this`accessed, this`adds
      ensures Valid() && ok == Avoid(cfg, env, old(Model())).Some?
      ensures Model() == if ok then Avoid(cfg, env, old(Model())).value else old(Model())
    {
      ok := true;
      if !cfg.single {
        if accessed.None? {
          if !env.newAccessed(currentCall.nretry) { return false; }
          accessed := Some([]);
        }
        accessed := Some(Push(accessed.value, Capacity(cfg), currentCall.peer));
        adds := adds + [currentCall.peer];
      }
    }

    method OnReturned(id: nat, saved: int)
      requires Valid()
      modifies this
      ensures Valid() && Model() == OnVersionedRPCReturned(cfg, env, old(Model()), id, saved)
      decreases cfg.maxRetry - currentCall.nretry, 0
    {
      if id != cfg.base && id != CurrentIdNow() {
        var parkedMatches := unfinishedCall.Some? && GetIdOf(unfinishedCall.value.nretry) == id;
        if !(parkedMatches && errorCode == 0) {
          if parkedMatches { CompleteParked(errorCode); }
          errorCode := saved;
          return;
        }
      }
      if (errorCode == 0 && !cfg.customPolicy) || currentCall.nretry >= cfg.maxRetry {
        End(id);
      } else if errorCode == EBACKUPREQUEST {
        OnBackupRequest(id);
      } else if env.doRetry(currentCall.nretry, errorCode) {
        OnRetry(id);
      } else {
        End(id);
      }
    }

    method OnBackupRequest(id: nat)
      requires Valid() && currentCall.nretry < cfg.maxRetry
      modifies this
      ensures Valid() && Model() == Backup(cfg, env, old(Model()), id)
      decreases cfg.maxRetry - currentCall.nretry - 1, 3
    {
      var rc := env.timerRc(currentCall.nretry);
      if rc != 0 {
        errorCode := rc;
        End(id);
        return;
      }
      var ok := Remember();
      if !ok {
        errorCode := ENOMEM;
        End(id);
        return;
      }
      if !env.newCall(currentCall.nretry) {
        log := Overwrite(log, unfinishedCall);
        unfinishedCall, errorCode := None, ENOMEM;
        End(id);
        return;
      }
      Park();
      Issue();
    }

    /** Moves the current call aside; the move constructor empties the fields it leaves behind. */
    method Park()
      modifies this`unfinishedCall, this`currentCall, this`log
      ensures Model() == ParkCurrent(old(Model()))
    {
      log := Overwrite(log, unfinishedCall);
      unfinishedCall := Some(currentCall);
      currentCall := Call(currentCall.nretry, false, INVALID_SOCKET_ID, false);
      currentCall := currentCall.(nretry := currentCall.nretry + 1);
    }

    method OnRetry(id: nat)
      requires Valid() && currentCall.nretry < cfg.maxRetry
      modifies this
      ensures Valid() && Model() == Retry(cfg, env, old(Model()), id)
      decreases cfg.maxRetry - currentCall.nretry - 1, 3
    {
      log := Check(log, CurrentIdNow() == id);
      var ok := Remember();
      if ok {
        Renew();
        Issue();
      } else {
        errorCode := ENOMEM;
        End(id);
      }
    }

    /** Settles the failed current call and turns to the next try. */
    method Renew()
      modifies this`currentCall, this`log
      ensures Model() == RetryCurrent(old(Model()))
    {
      CompleteCurrent(errorCode);
      currentCall := currentCall.(nretry := currentCall.nretry + 1);
    }

    method OnSendFailed()
      requires Valid()
      modifies this
      ensures Valid() && Model() == HandleSendFailed(cfg, env, old(Model()))
      decreases cfg.maxRetry - currentCall.nretry, 1
    {
      if errorCode == 0 { SetFailed(-1); }
      OnReturned(CurrentIdNow(), errorCode);
    }

    method Select(peer: SocketId, feedback: bool)
      modifies this`currentCall, this`picks, this`log
      ensures Model() == Selected(cfg, old(Model()), peer, feedback)
    {
      if cfg.single {
        currentCall := currentCall.(peer := cfg.singleId);
      } else {
        picks := picks + [Pick(currentCall.nretry, peer, if accessed.None? then [] else accessed.value, |adds|)];
        if feedback { log := log.(selected := log.selected + multiset{(currentCall.nretry, peer)}); }
        currentCall := currentCall.(needFeedback := feedback, peer := peer);
      }
    }

    method TakeSocket()
      modifies this`currentCall, this`log
      ensures Model() == Connected(old(Model()))
    {
      log := log.(acquired := log.acquired + multiset{currentCall.nretry});
      currentCall := currentCall.(hasSock := true);
    }

    method Issue()
      requires Valid()
      modifies this
      ensures Valid() && Model() == IssueRPC(cfg, env, old(Model()))
      decreases cfg.maxRetry - currentCall.nretry, 2
    {
      errorCode := 0;
      currentCall := currentCall.(needFeedback := false);
      log := log.(issued := log.issued + [currentCall.nretry]);
      var o := env.tries(currentCall.nretry);
      if o.SelectFail? {
        SetFailed(if cfg.single then EHOSTDOWN else o.rc);
        OnSendFailed();
        return;
      }
      Select(o.peer, o.feedback);
      if o.NoConnection? {
        SetFailed(o.rc);
        OnSendFailed();
        return;
      }
      TakeSocket();
      if o.SendFail? {
        SetFailed(o.rc);
        OnSendFailed();
      }
    }

    /** HandleSocketFailed and the response handlers of the protocols. */
    method OnEvent(e: Event)
      requires Valid()
      modifies this
      ensures Valid() && Model() == Handle(cfg, env, old(Model()), e)
      ensures old(Sound(cfg, Model())) ==> Sound(cfg, Model())
    {
      if Sound(cfg, Model()) { HandleSound(cfg, env, Model(), e); }
      if log.ended > 0 { return; }
      var saved := errorCode;
      match e
      case Error(id, code) =>
        SetFailed(code);
        OnReturned(id, saved);
      case Response(id, code) =>
        if code != 0 { errorCode := code; }
        OnReturned(id, saved);
    }

    /**
     * One RPC from CallMethod through any sequence of delivered events: it ends at most once, its tries
     * stay in the reserved range, and once ended it has paid back everything but lost calls.
     */
    method Serve(failed: Option<int>, events: seq<Event>)
      requires Valid() && Model() == FRESH
      modifies this
      ensures Valid() && Model() == Run(cfg, env, failed, events)
      ensures log.ended <= 1 && IssuedInRange(cfg, log) && (log.ended == 1 ==> PaidBack(Model()))
    {
      EveryRunAccounts(cfg, env, failed, events);
      if failed.Some? {
        SetFailed(failed.value);
        OnSendFailed();
      } else {
        Issue();
      }
      for i := 0 to |events|
        invariant Valid() && Model() == Run(cfg, env, failed, events[..i])
      {
        assert events[..i + 1][..i] == events[..i];
        OnEvent(events[i]);
      }
      assert events[..|events|] == events;
    }
  }
}

/**
 * The client call protocol of Controller (brpc/brpc/controller.cpp): tries, retries, one parked
 * backup call, versioned call ids and the settling of every try. Sockets, load balancer, timers,
 * allocation and retry policy are oracles keyed by the number of the try, which each try
 * consults at most once; events arrive one at a time because the call id is locked while one
 * is handled.
 */
module RetryProtocol {
  import opened Excluded
  import opened Options

  const ENOMEM := 12
  const EHOSTDOWN := 112
  const ECANCELED := 125
  const EBACKUPREQUEST := 1007
  const ERPCTIMEDOUT := 1008
  const INVALID_SOCKET_ID: SocketId := -1
  const RETRY_AVOIDANCE := 8

  /** What sending the try meets: no server, a server without connection, a failure after the
      connection was taken (authentication, packing), or a written request. */
  datatype Try =
    | SelectFail(rc: int)
    | NoConnection(peer: SocketId, feedback: bool, rc: int)
    | SendFail(peer: SocketId, feedback: bool, rc: int)
    | Sent(peer: SocketId, feedback: bool)

  datatype Env = Env(
    tries: nat -> Try,
    doRetry: (nat, int) -> bool,
    timerRc: nat -> int,
    newAccessed: nat -> bool,
    newCall: nat -> bool)

  datatype Config = Config(base: nat, maxRetry: nat, single: bool, singleId: SocketId, customPolicy: bool)

  datatype Call = Call(nretry: nat, needFeedback: bool, peer: SocketId, hasSock: bool)

  /** A selection that asked for feedback, by try and server. */
  type Key = (nat, SocketId)

  /** A load-balanced selection: the server, what was excluded, and how many additions preceded it. */
  datatype Pick = Pick(nretry: nat, peer: SocketId, excluded: seq<SocketId>, after: nat)

  /** What happened to the outside so far; lost calls were overwritten while parked. */
  datatype Ledger = Ledger(
    issued: seq<nat>,
    selected: multiset<Key>, fed: multiset<Key>,
    acquired: multiset<nat>, released: multiset<nat>,
    settled: multiset<nat>, codes: seq<(nat, int)>,
    lost: seq<Call>, checksFailed: nat, ended: nat)

  /** accessed: servers to avoid; picks and adds record selections and additions. */
  datatype Rpc = Rpc(cur: Call, parked: Option<Call>, err: int, accessed: Option<seq<SocketId>>,
                     picks: seq<Pick>, adds: seq<SocketId>, log: Ledger)

  const EMPTY := Ledger([], multiset{}, multiset{}, multiset{}, multiset{}, multiset{}, [], [], 0, 0)
  const FRESH := Rpc(Call(0, false, INVALID_SOCKET_ID, false), None, 0, None, [], [], EMPTY)

  /** get_id and current_id. */
  function GetId(cfg: Config, nretry: nat): nat { cfg.base + nretry + 1 }
  function CurrentId(cfg: Config, r: Rpc): nat { GetId(cfg, r.cur.nretry) }

  /** SetFailed replaces a zero code. */
  function Code(c: int): (r: int) ensures r != 0 { if c == 0 then -1 else c }

  // ---- the handlers ----

  /** Call::OnComplete: feedback, then the sending socket is released. */
  function Settle(log: Ledger, c: Call, code: int): Ledger {
    log.(fed := if c.needFeedback then log.fed + multiset{(c.nretry, c.peer)} else log.fed,
         released := if c.hasSock then log.released + multiset{c.nretry} else log.released,
         settled := log.settled + multiset{c.nretry},
         codes := log.codes + [(c.nretry, code)])
  }

  function Check(log: Ledger, ok: bool): Ledger { if ok then log else log.(checksFailed := log.checksFailed + 1) }

  /** The current call finished the RPC, or the whole RPC timed out or was cancelled. */
  function EndOnCurrent(r: Rpc): Ledger {
    var log := if r.parked.None? then r.log
               else Settle(r.log, r.parked.value, if r.err == 0 then EBACKUPREQUEST else r.err);
    Settle(log, r.cur, r.err)
  }

  /** An earlier call finished the RPC. */
  function EndOnEarlier(cfg: Config, r: Rpc, id: nat): Ledger {
    var log := Settle(Check(r.log, r.parked.Some?), r.cur, ECANCELED);
    if r.parked.None? then log
    else
      var mine := GetId(cfg, r.parked.value.nretry) == id;
      Settle(Check(log, mine), r.parked.value, if mine then r.err else ECANCELED)
  }

  /** EndRPC on the id the finishing event carried. */
  function EndRPC(cfg: Config, r: Rpc, id: nat): Rpc {
    var log := if Superseded(cfg, r, id) then EndOnEarlier(cfg, r, id) else EndOnCurrent(r);
    r.(parked := None, cur := r.cur.(hasSock := false), log := log.(ended := log.ended + 1))
  }

  function Capacity(cfg: Config): nat { if cfg.maxRetry < RETRY_AVOIDANCE then cfg.maxRetry else RETRY_AVOIDANCE }

  /** Remembers the current server for later selections; None when memory ran out. */
  function Avoid(cfg: Config, env: Env, r: Rpc): Option<Rpc>
    requires cfg.maxRetry > 0 && (r.accessed.Some? ==> |r.accessed.value| <= Capacity(cfg))
  {
    if cfg.single then Some(r)
    else if r.accessed.None? && !env.newAccessed(r.cur.nretry) then None
    else
      var q := if r.accessed.None? then [] else r.accessed.value;
      Some(r.(accessed := Some(Push(q, Capacity(cfg), r.cur.peer)), adds := r.adds + [r.cur.peer]))
  }

  predicate AccessedFits(cfg: Config, r: Rpc) { r.accessed.Some? ==> |r.accessed.value| <= Capacity(cfg) }

  /** The CHECK that no call is parked, and the loss of one that is. */
  function Overwrite(log: Ledger, parked: Option<Call>): Ledger {
    if parked.None? then log else log.(checksFailed := log.checksFailed + 1, lost := log.lost + [parked.value])
  }

  /** The Call move constructor followed by ++nretry. */
  function ParkCurrent(r: Rpc): Rpc {
    r.(parked := Some(r.cur), cur := Call(r.cur.nretry + 1, false, INVALID_SOCKET_ID, false),
       log := Overwrite(r.log, r.parked))
  }

  /** OnComplete of the failed current call followed by ++nretry. */
  function RetryCurrent(r: Rpc): Rpc {
    r.(cur := r.cur.(nretry := r.cur.nretry + 1, hasSock := false), log := Settle(r.log, r.cur, r.err))
  }

  predicate Superseded(cfg: Config, r: Rpc, id: nat) { id != cfg.base && id != CurrentId(cfg, r) }

  predicate OfParked(cfg: Config, r: Rpc, id: nat) {
    r.parked.Some? && GetId(cfg, r.parked.value.nretry) == id
  }

  /** The interception of events of previous calls. */
  function Ignore(cfg: Config, r: Rpc, id: nat, saved: int): Rpc {
    if OfParked(cfg, r, id)
    then r.(parked := None, log := Settle(r.log, r.parked.value, r.err), err := saved)
    else r.(err := saved)
  }

  function OnVersionedRPCReturned(cfg: Config, env: Env, r: Rpc, id: nat, saved: int): (t: Rpc)
    requires AccessedFits(cfg, r)
    ensures AccessedFits(cfg, t)
    decreases cfg.maxRetry - r.cur.nretry, 0
  {
    if Superseded(cfg, r, id) && !(OfParked(cfg, r, id) && r.err == 0) then Ignore(cfg, r, id, saved)
    else if (r.err == 0 && !cfg.customPolicy) || r.cur.nretry >= cfg.maxRetry then EndRPC(cfg, r, id)
    else if r.err == EBACKUPREQUEST then Backup(cfg, env, r, id)
    else if env.doRetry(r.cur.nretry, r.err) then Retry(cfg, env, r, id)
    else EndRPC(cfg, r, id)
  }

  /** EBACKUPREQUEST: the timer is re-armed, the current call is parked and another is issued. */
  function Backup(cfg: Config, env: Env, r: Rpc, id: nat): (t: Rpc)
    requires AccessedFits(cfg, r) && r.cur.nretry < cfg.maxRetry
    ensures AccessedFits(cfg, t)
    decreases cfg.maxRetry - r.cur.nretry - 1, 3
  {
    var rc := env.timerRc(r.cur.nretry);
    if rc != 0 then EndRPC(cfg, r.(err := rc), id)
    else
      var a := Avoid(cfg, env, r);
      if a.None? then EndRPC(cfg, r.(err := ENOMEM), id)
      else if !env.newCall(r.cur.nretry) then
        EndRPC(cfg, a.value.(parked := None, err := ENOMEM, log := Overwrite(a.value.log, r.parked)), id)
      else IssueRPC(cfg, env, ParkCurrent(a.value))
  }

  /** A retryable error: the current call is settled and the next try is issued. */
  function Retry(cfg: Config, env: Env, r: Rpc, id: nat): (t: Rpc)
    requires AccessedFits(cfg, r) && r.cur.nretry < cfg.maxRetry
    ensures AccessedFits(cfg, t)
    decreases cfg.maxRetry - r.cur.nretry - 1, 3
  {
    var r1 := r.(log := Check(r.log, id == CurrentId(cfg, r)));
    var a := Avoid(cfg, env, r1);
    if a.None? then EndRPC(cfg, r1.(err := ENOMEM), id)
    else IssueRPC(cfg, env, RetryCurrent(a.value))
  }

  function HandleSendFailed(cfg: Config, env: Env, r: Rpc): (t: Rpc)
    requires AccessedFits(cfg, r)
    ensures AccessedFits(cfg, t)
    decreases cfg.maxRetry - r.cur.nretry, 1
  {
    var r1 := r.(err := Code(r.err));
    OnVersionedRPCReturned(cfg, env, r1, CurrentId(cfg, r1), r1.err)
  }

  /** A server was found for the current try. */
  function Selected(cfg: Config, r: Rpc, peer: SocketId, feedback: bool): Rpc {
    var k := r.cur.nretry;
    if cfg.single then r.(cur := r.cur.(peer := cfg.singleId))
    else r.(cur := r.cur.(peer := peer, needFeedback := feedback),
            picks := r.picks + [Pick(k, peer, if r.accessed.None? then [] else r.accessed.value, |r.adds|)],
            log := if feedback then r.log.(selected := r.log.selected + multiset{(k, peer)}) else r.log)
  }

  /** A sending socket was taken for the current try. */
  function Connected(r: Rpc): Rpc {
    r.(cur := r.cur.(hasSock := true), log := r.log.(acquired := r.log.acquired + multiset{r.cur.nretry}))
  }

  /** The start of IssueRPC: last error and last feedback request are cleared. */
  function Begin(r: Rpc): Rpc {
    r.(err := 0, cur := r.cur.(needFeedback := false), log := r.log.(issued := r.log.issued + [r.cur.nretry]))
  }

  /** One attempt to send: what the oracle's answer leaves in the controller. */
  function Attempt(cfg: Config, r: Rpc, t: Try): Rpc {
    match t
    case SelectFail(rc) => r.(err := Code(if cfg.single then EHOSTDOWN else rc))
    case NoConnection(p, f, rc) => Selected(cfg, r, p, f).(err := Code(rc))
    case SendFail(p, f, rc) => Connected(Selected(cfg, r, p, f)).(err := Code(rc))
    case Sent(p, f) => Connected(Selected(cfg, r, p, f))
  }

  function IssueRPC(cfg: Config, env: Env, r: Rpc): (t: Rpc)
    requires AccessedFits(cfg, r)
    ensures AccessedFits(cfg, t)
    decreases cfg.maxRetry - r.cur.nretry, 2
  {
    var o := env.tries(r.cur.nretry);
    var a := Attempt(cfg, Begin(r), o);
    if o.Sent? then a else HandleSendFailed(cfg, env, a)
  }

  /** CallMethod: the request may already fail before the first try is issued. */
  function Start(cfg: Config, env: Env, failed: Option<int>): (t: Rpc)
    ensures AccessedFits(cfg, t)
  {
    if failed.Some? then HandleSendFailed(cfg, env, FRESH.(err := Code(failed.value))) else IssueRPC(cfg, env, FRESH)
  }

  /** An error raised on an id, or a response carrying an error code (0: success). */
  datatype Event = Error(id: nat, code: int) | Response(id: nat, code: int)

  /** The error code an event brings to the controller. */
  function Raised(r: Rpc, e: Event): int {
    match e
    case Error(_, code) => Code(code)
    case Response(_, code) => if code == 0 then r.err else code
  }

  function Handle(cfg: Config, env: Env, r: Rpc, e: Event): (t: Rpc)
    requires AccessedFits(cfg, r)
    ensures AccessedFits(cfg, t)
  {
    if r.log.ended > 0 then r   // the id is destroyed, nothing is delivered any more
    else OnVersionedRPCReturned(cfg, env, r.(err := Raised(r, e)), e.id, r.err)
  }

  /** A whole RPC: the start, then events in the order they are delivered. */
  function Run(cfg: Config, env: Env, failed: Option<int>, events: seq<Event>): (t: Rpc)
    ensures AccessedFits(cfg, t)
    decreases |events|
  {
    if events == [] then Start(cfg, env, failed)
    else Handle(cfg, env, Run(cfg, env, failed, events[..|events| - 1]), events[|events| - 1])
  }
}

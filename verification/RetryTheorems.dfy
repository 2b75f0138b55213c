/**
 * What every run of the client call protocol keeps, whatever events, codes and oracles bring: each
 * try is settled exactly once, each requested feedback is given exactly once and each sending socket
 * is released once, except for calls that were overwritten while parked; the RPC ends at most once.
 */
module RetryTheorems {
  import opened Excluded
  import opened Options
  import opened RetryProtocol

  // ---- the books ----

  function KeysOf(c: Call): multiset<Key> { if c.needFeedback then multiset{(c.nretry, c.peer)} else multiset{} }
  function SocksOf(c: Call): multiset<nat> { if c.hasSock then multiset{c.nretry} else multiset{} }
  function TryOf(c: Call): multiset<nat> { multiset{c.nretry} }

  function Parked<T>(o: Option<Call>, of: Call -> multiset<T>): multiset<T> {
    if o.Some? then of(o.value) else multiset{}
  }

  function Sum<T>(cs: seq<Call>, of: Call -> multiset<T>): multiset<T> {
    if cs == [] then multiset{} else Sum(cs[..|cs| - 1], of) + of(cs[|cs| - 1])
  }

  /** Tries 0 to n - 1, each once. */
  function Upto(n: nat): multiset<nat> { if n == 0 then multiset{} else Upto(n - 1) + multiset{n - 1} }

  lemma {:induction false} UptoOnce(n: nat, k: nat)
    ensures Upto(n)[k] == if k < n then 1 else 0
  {
    if n > 0 { UptoOnce(n - 1, k); }
  }

  /** What was promised is done, owed or lost. */
  predicate Balanced<T(==)>(promised: multiset<T>, done: multiset<T>, owed: multiset<T>, lost: multiset<T>) {
    promised == done + owed + lost
  }

  lemma {:induction false} PayOne<T>(promised: multiset<T>, done: multiset<T>, x: multiset<T>, rest: multiset<T>, lost: multiset<T>)
    requires Balanced(promised, done, x + rest, lost)
    ensures Balanced(promised, done + x, rest, lost)
  {}

  lemma {:induction false} Promise<T>(promised: multiset<T>, done: multiset<T>, x: multiset<T>, rest: multiset<T>, lost: multiset<T>)
    requires Balanced(promised, done, rest, lost)
    ensures Balanced(promised + x, done, x + rest, lost)
    ensures x == multiset{} ==> promised + x == promised
  {}

  lemma {:induction false} LoseOne<T>(promised: multiset<T>, done: multiset<T>, rest: multiset<T>, x: multiset<T>, lost: multiset<T>)
    requires Balanced(promised, done, rest + x, lost)
    ensures Balanced(promised, done, rest, lost + x)
  {}

  /** The ledger's promises are done or lost except for the given keys, sockets and tries. */
  predicate Open(log: Ledger, keys: multiset<Key>, socks: multiset<nat>, tries: multiset<nat>, n: nat) {
    && Balanced(log.selected, log.fed, keys, Sum(log.lost, KeysOf))
    && Balanced(log.acquired, log.released, socks, Sum(log.lost, SocksOf))
    && Balanced(Upto(n), log.settled, tries, Sum(log.lost, TryOf))
  }

  /** Everything promised to the outside is done, lost, or owed by the current or parked call. */
  predicate Owes(log: Ledger, cur: Call, parked: Option<Call>) {
    Open(log, KeysOf(cur) + Parked(parked, KeysOf), SocksOf(cur) + Parked(parked, SocksOf),
         TryOf(cur) + Parked(parked, TryOf), cur.nretry + 1)
  }

  /** The same before the current try has begun. */
  predicate OwesParked(log: Ledger, n: nat, parked: Option<Call>) {
    Open(log, Parked(parked, KeysOf), Parked(parked, SocksOf), Parked(parked, TryOf), n)
  }

  predicate Settled(log: Ledger, n: nat) { Open(log, multiset{}, multiset{}, multiset{}, n) }

  /** OnComplete pays exactly what its call owes. */
  lemma {:induction false} SettlePays(log: Ledger, c: Call, code: int, keys: multiset<Key>,
                                      socks: multiset<nat>, tries: multiset<nat>, n: nat)
    requires Open(log, KeysOf(c) + keys, SocksOf(c) + socks, TryOf(c) + tries, n)
    ensures Open(Settle(log, c, code), keys, socks, tries, n)
  {
    PayOne(log.selected, log.fed, KeysOf(c), keys, Sum(log.lost, KeysOf));
    PayOne(log.acquired, log.released, SocksOf(c), socks, Sum(log.lost, SocksOf));
    PayOne(Upto(n), log.settled, TryOf(c), tries, Sum(log.lost, TryOf));
    var t := Settle(log, c, code);
    assert t.fed == log.fed + KeysOf(c) && t.released == log.released + SocksOf(c) && t.settled == log.settled + TryOf(c);
  }

  /** Overwriting a parked call turns what it owes into a loss. */
  lemma {:induction false} OverwriteLoses(log: Ledger, parked: Option<Call>, keys: multiset<Key>,
                                          socks: multiset<nat>, tries: multiset<nat>, n: nat)
    requires Open(log, keys + Parked(parked, KeysOf), socks + Parked(parked, SocksOf), tries + Parked(parked, TryOf), n)
    ensures Open(Overwrite(log, parked), keys, socks, tries, n)
  {
    if parked.Some? {
      var c, lost := parked.value, log.lost + [parked.value];
      assert lost[..|lost| - 1] == log.lost;
      LoseOne(log.selected, log.fed, keys, KeysOf(c), Sum(log.lost, KeysOf));
      LoseOne(log.acquired, log.released, socks, SocksOf(c), Sum(log.lost, SocksOf));
      LoseOne(Upto(n), log.settled, tries, TryOf(c), Sum(log.lost, TryOf));
    } else {
      assert keys + multiset{} == keys && socks + multiset{} == socks && tries + multiset{} == tries;
    }
  }

  /** A call that has done nothing yet owes its try. */
  lemma {:induction false} BeginOwes(log: Ledger, c: Call, parked: Option<Call>)
    requires OwesParked(log, c.nretry, parked) && !c.hasSock && !c.needFeedback
    ensures Owes(log, c, parked)
  {
    Promise(Upto(c.nretry), log.settled, TryOf(c), Parked(parked, TryOf), Sum(log.lost, TryOf));
    assert multiset{} + Parked(parked, KeysOf) == Parked(parked, KeysOf);
    assert multiset{} + Parked(parked, SocksOf) == Parked(parked, SocksOf);
  }

  /** A selection that asks for feedback adds to what the call owes. */
  lemma {:induction false} SelectedOwes(log: Ledger, c: Call, parked: Option<Call>, p: SocketId)
    requires Owes(log, c, parked) && !c.needFeedback
    ensures Owes(log, c.(peer := p), parked)
    ensures Owes(log.(selected := log.selected + multiset{(c.nretry, p)}), c.(peer := p, needFeedback := true), parked)
  {
    assert multiset{} + Parked(parked, KeysOf) == Parked(parked, KeysOf);
    Promise(log.selected, log.fed, multiset{(c.nretry, p)}, Parked(parked, KeysOf), Sum(log.lost, KeysOf));
  }

  lemma {:induction false} ConnectedOwes(log: Ledger, c: Call, parked: Option<Call>)
    requires Owes(log, c, parked) && !c.hasSock
    ensures Owes(log.(acquired := log.acquired + multiset{c.nretry}), c.(hasSock := true), parked)
  {
    assert multiset{} + Parked(parked, SocksOf) == Parked(parked, SocksOf);
    Promise(log.acquired, log.released, TryOf(c), Parked(parked, SocksOf), Sum(log.lost, SocksOf));
  }

  lemma {:induction false} RetryOwes(log: Ledger, c: Call, parked: Option<Call>, code: int)
    requires Owes(log, c, parked)
    ensures OwesParked(Settle(log, c, code), c.nretry + 1, parked)
  {
    SettlePays(log, c, code, Parked(parked, KeysOf), Parked(parked, SocksOf), Parked(parked, TryOf), c.nretry + 1);
  }

  lemma {:induction false} ParkOwes(log: Ledger, c: Call, parked: Option<Call>)
    requires Owes(log, c, parked)
    ensures OwesParked(Overwrite(log, parked), c.nretry + 1, Some(c))
  {
    OverwriteLoses(log, parked, KeysOf(c), SocksOf(c), TryOf(c), c.nretry + 1);
  }

  lemma {:induction false} Swapped(log: Ledger, c: Call, p: Call, n: nat)
    requires Open(log, KeysOf(c) + KeysOf(p), SocksOf(c) + SocksOf(p), TryOf(c) + TryOf(p), n)
    ensures Open(log, KeysOf(p) + KeysOf(c), SocksOf(p) + SocksOf(c), TryOf(p) + TryOf(c), n)
  {
    assert KeysOf(c) + KeysOf(p) == KeysOf(p) + KeysOf(c);
    assert SocksOf(c) + SocksOf(p) == SocksOf(p) + SocksOf(c);
    assert TryOf(c) + TryOf(p) == TryOf(p) + TryOf(c);
  }

  /** Only this call is open. */
  predicate OwesAlone(log: Ledger, c: Call, n: nat) { Open(log, KeysOf(c), SocksOf(c), TryOf(c), n) }

  /** The parked call is settled, the current one stays open. */
  lemma {:induction false} ParkedPays(log: Ledger, c: Call, p: Call, code: int)
    requires Owes(log, c, Some(p))
    ensures OwesAlone(Settle(log, p, code), c, c.nretry + 1)
  {
    Swapped(log, c, p, c.nretry + 1);
    SettlePays(log, p, code, KeysOf(c), SocksOf(c), TryOf(c), c.nretry + 1);
  }

  lemma {:induction false} AloneOwes(log: Ledger, c: Call, n: nat)
    requires OwesAlone(log, c, n)
    ensures Open(log, KeysOf(c) + multiset{}, SocksOf(c) + multiset{}, TryOf(c) + multiset{}, n)
    ensures n == c.nretry + 1 ==> Owes(log, c, None)
  {
    assert KeysOf(c) + multiset{} == KeysOf(c) && SocksOf(c) + multiset{} == SocksOf(c) && TryOf(c) + multiset{} == TryOf(c);
  }

  /** Dropping the failed parked call leaves the current one open. */
  lemma {:induction false} DropOwes(log: Ledger, c: Call, p: Call, code: int)
    requires Owes(log, c, Some(p))
    ensures Owes(Settle(log, p, code), c, None)
  {
    ParkedPays(log, c, p, code);
    AloneOwes(Settle(log, p, code), c, c.nretry + 1);
  }

  lemma {:induction false} LastPays(log: Ledger, c: Call, code: int, n: nat)
    requires OwesAlone(log, c, n)
    ensures Settled(Settle(log, c, code), n)
  {
    AloneOwes(log, c, n);
    SettlePays(log, c, code, multiset{}, multiset{}, multiset{}, n);
  }

  lemma {:induction false} EndOnCurrentSettles(r: Rpc)
    requires Owes(r.log, r.cur, r.parked)
    ensures Settled(EndOnCurrent(r), r.cur.nretry + 1)
  {
    var n := r.cur.nretry + 1;
    if r.parked.Some? {
      var code := if r.err == 0 then EBACKUPREQUEST else r.err;
      ParkedPays(r.log, r.cur, r.parked.value, code);
      LastPays(Settle(r.log, r.parked.value, code), r.cur, r.err, n);
    } else {
      SettlePays(r.log, r.cur, r.err, multiset{}, multiset{}, multiset{}, n);
    }
  }

  lemma {:induction false} CheckOwes(log: Ledger, ok: bool, c: Call, parked: Option<Call>)
    requires Owes(log, c, parked)
    ensures Owes(Check(log, ok), c, parked)
  {}

  lemma {:induction false} CheckAlone(log: Ledger, ok: bool, c: Call, n: nat)
    requires OwesAlone(log, c, n)
    ensures OwesAlone(Check(log, ok), c, n)
  {}

  lemma {:induction false} EndOnEarlierSettles(cfg: Config, r: Rpc, id: nat)
    requires Owes(r.log, r.cur, r.parked)
    ensures Settled(EndOnEarlier(cfg, r, id), r.cur.nretry + 1)
  {
    var n := r.cur.nretry + 1;
    var log := Check(r.log, r.parked.Some?);
    CheckOwes(r.log, r.parked.Some?, r.cur, r.parked);
    if r.parked.Some? {
      var p := r.parked.value;
      var mine := GetId(cfg, p.nretry) == id;
      CurrentPays(log, r.cur, p, ECANCELED);
      CheckAlone(Settle(log, r.cur, ECANCELED), mine, p, n);
      LastPays(Check(Settle(log, r.cur, ECANCELED), mine), p, if mine then r.err else ECANCELED, n);
    } else {
      SettlePays(log, r.cur, ECANCELED, multiset{}, multiset{}, multiset{}, n);
    }
  }

  lemma {:induction false} CurrentPays(log: Ledger, c: Call, p: Call, code: int)
    requires Owes(log, c, Some(p))
    ensures OwesAlone(Settle(log, c, code), p, c.nretry + 1)
  {
    SettlePays(log, c, code, KeysOf(p), SocksOf(p), TryOf(p), c.nretry + 1);
  }

  /** EndRPC settles everything that is still open, whatever id it ends on. */
  lemma {:induction false} EndSettles(cfg: Config, r: Rpc, id: nat)
    requires Owes(r.log, r.cur, r.parked)
    ensures Settled(EndRPC(cfg, r, id).log, r.cur.nretry + 1)
  {
    if Superseded(cfg, r, id) { EndOnEarlierSettles(cfg, r, id); } else { EndOnCurrentSettles(r); }
  }

  // ---- the rest of the invariant ----

  predicate Increasing(s: seq<nat>, bound: nat) {
    && (forall i :: 0 <= i < |s| ==> s[i] < bound)
    && (forall i, j :: 0 <= i < j < |s| ==> s[i] < s[j])
  }

  lemma {:induction false} IncreasingIsShort(s: seq<nat>, bound: nat)
    requires Increasing(s, bound)
    ensures |s| <= bound
    decreases |s|
  {
    if s != [] { IncreasingIsShort(s[..|s| - 1], s[|s| - 1]); }
  }

  lemma {:induction false} IncreasingGrows(s: seq<nat>, k: nat)
    requires Increasing(s, k)
    ensures Increasing(s + [k], k + 1)
  {}

  /** The RPC is running and the parked call, if any, belongs to an earlier try. */
  predicate Level(cfg: Config, n: nat, parked: Option<Call>, log: Ledger) {
    n <= cfg.maxRetry && log.ended == 0 && (parked.Some? ==> parked.value.nretry < n)
  }

  /** A try is under way. */
  predicate Trying(cfg: Config, r: Rpc) {
    && Level(cfg, r.cur.nretry, r.parked, r.log)
    && Owes(r.log, r.cur, r.parked)
    && Increasing(r.log.issued, r.cur.nretry + 1)
  }

  /** Between events the current call waits on its socket and no error is set. */
  predicate Waiting(cfg: Config, r: Rpc) { Trying(cfg, r) && r.err == 0 && r.cur.hasSock }

  predicate Over(cfg: Config, r: Rpc) {
    && r.log.ended == 1 && r.cur.nretry <= cfg.maxRetry && r.parked.None?
    && Increasing(r.log.issued, r.cur.nretry + 1)
    && Settled(r.log, r.cur.nretry + 1)
  }

  predicate Sound(cfg: Config, r: Rpc) { if r.log.ended == 0 then Waiting(cfg, r) else Over(cfg, r) }

  lemma {:induction false} EndOver(cfg: Config, r: Rpc, id: nat)
    requires Trying(cfg, r)
    ensures Over(cfg, EndRPC(cfg, r, id))
  {
    EndSettles(cfg, r, id);
    EndKeeps(cfg, r, id);
  }

  lemma {:induction false} EndKeeps(cfg: Config, r: Rpc, id: nat)
    ensures var t := EndRPC(cfg, r, id);
      && t.log.issued == r.log.issued && t.log.ended == r.log.ended + 1 && t.log.lost == r.log.lost
      && t.cur.nretry == r.cur.nretry && t.err == r.err && t.parked.None?
  {}

  lemma {:induction false} AvoidKeeps(cfg: Config, env: Env, r: Rpc)
    requires cfg.maxRetry > 0 && AccessedFits(cfg, r)
    ensures var a := Avoid(cfg, env, r);
      a.Some? ==> AccessedFits(cfg, a.value) && a.value.cur == r.cur && a.value.parked == r.parked &&
                  a.value.log == r.log && a.value.err == r.err
  {}

  /** What IssueRPC needs. */
  predicate Ready(cfg: Config, r: Rpc) {
    && Level(cfg, r.cur.nretry, r.parked, r.log) && !r.cur.hasSock
    && OwesParked(r.log, r.cur.nretry, r.parked)
    && Increasing(r.log.issued, r.cur.nretry)
  }

  lemma {:induction false} RetryReady(cfg: Config, r: Rpc)
    requires Trying(cfg, r) && r.cur.nretry < cfg.maxRetry
    ensures Ready(cfg, RetryCurrent(r))
  {
    RetryOwes(r.log, r.cur, r.parked, r.err);
  }

  lemma {:induction false} ParkReady(cfg: Config, r: Rpc)
    requires Trying(cfg, r) && r.cur.nretry < cfg.maxRetry
    ensures Ready(cfg, ParkCurrent(r))
  {
    ParkOwes(r.log, r.cur, r.parked);
  }

  lemma {:induction false} OverwriteOwes(log: Ledger, cur: Call, parked: Option<Call>)
    requires Owes(log, cur, parked)
    ensures Owes(Overwrite(log, parked), cur, None)
  {
    OverwriteLoses(log, parked, KeysOf(cur), SocksOf(cur), TryOf(cur), cur.nretry + 1);
    AloneOwes(Overwrite(log, parked), cur, cur.nretry + 1);
  }

  /** Giving up on a backup request without memory: what was parked is lost, the rest is settled. */
  lemma {:induction false} OverwriteOver(cfg: Config, r: Rpc, id: nat)
    requires Trying(cfg, r)
    ensures Over(cfg, EndRPC(cfg, r.(parked := None, err := ENOMEM, log := Overwrite(r.log, r.parked)), id))
  {
    OverwriteOwes(r.log, r.cur, r.parked);
    EndOver(cfg, r.(parked := None, err := ENOMEM, log := Overwrite(r.log, r.parked)), id);
  }

  lemma {:induction false} ReturnedSound(cfg: Config, env: Env, r: Rpc, id: nat, saved: int)
    requires AccessedFits(cfg, r) && Trying(cfg, r) && (Superseded(cfg, r, id) ==> saved == 0 && r.cur.hasSock)
    ensures Sound(cfg, OnVersionedRPCReturned(cfg, env, r, id, saved))
    decreases cfg.maxRetry - r.cur.nretry, 0
  {
    if Superseded(cfg, r, id) && !(OfParked(cfg, r, id) && r.err == 0) {
      IgnoredSound(cfg, r, id, saved);
    } else if (r.err == 0 && !cfg.customPolicy) || r.cur.nretry >= cfg.maxRetry {
      EndOver(cfg, r, id);
    } else if r.err == EBACKUPREQUEST {
      BackupSound(cfg, env, r, id);
    } else if env.doRetry(r.cur.nretry, r.err) {
      RetrySound(cfg, env, r, id);
    } else {
      EndOver(cfg, r, id);
    }
  }

  lemma {:induction false} IgnoredSound(cfg: Config, r: Rpc, id: nat, saved: int)
    requires Trying(cfg, r) && saved == 0 && r.cur.hasSock
    ensures Sound(cfg, Ignore(cfg, r, id, saved))
  {
    if OfParked(cfg, r, id) { DropOwes(r.log, r.cur, r.parked.value, r.err); }
  }

  lemma {:induction false} BackupSound(cfg: Config, env: Env, r: Rpc, id: nat)
    requires AccessedFits(cfg, r) && Trying(cfg, r) && r.cur.nretry < cfg.maxRetry
    ensures Sound(cfg, Backup(cfg, env, r, id))
    decreases cfg.maxRetry - r.cur.nretry - 1, 3
  {
    var rc := env.timerRc(r.cur.nretry);
    AvoidKeeps(cfg, env, r);
    var a := Avoid(cfg, env, r);
    if rc != 0 {
      EndOver(cfg, r.(err := rc), id);
    } else if a.None? {
      EndOver(cfg, r.(err := ENOMEM), id);
    } else if !env.newCall(r.cur.nretry) {
      OverwriteOver(cfg, a.value, id);
    } else {
      ParkReady(cfg, a.value);
      IssueSound(cfg, env, ParkCurrent(a.value));
    }
  }

  lemma {:induction false} CheckTrying(cfg: Config, r: Rpc, ok: bool)
    requires Trying(cfg, r)
    ensures Trying(cfg, r.(log := Check(r.log, ok)))
  {
    CheckOwes(r.log, ok, r.cur, r.parked);
  }

  lemma {:induction false} RetrySound(cfg: Config, env: Env, r: Rpc, id: nat)
    requires AccessedFits(cfg, r) && Trying(cfg, r) && r.cur.nretry < cfg.maxRetry
    ensures Sound(cfg, Retry(cfg, env, r, id))
    decreases cfg.maxRetry - r.cur.nretry - 1, 3
  {
    var r1 := r.(log := Check(r.log, id == CurrentId(cfg, r)));
    CheckTrying(cfg, r, id == CurrentId(cfg, r));
    AvoidKeeps(cfg, env, r1);
    var a := Avoid(cfg, env, r1);
    if a.None? {
      EndOver(cfg, r1.(err := ENOMEM), id);
    } else {
      RetryReady(cfg, a.value);
      IssueSound(cfg, env, RetryCurrent(a.value));
    }
  }

  lemma {:induction false} SendFailedSound(cfg: Config, env: Env, r: Rpc)
    requires AccessedFits(cfg, r) && Trying(cfg, r)
    ensures Sound(cfg, HandleSendFailed(cfg, env, r))
    decreases cfg.maxRetry - r.cur.nretry, 1
  {
    var r1 := r.(err := Code(r.err));
    ReturnedSound(cfg, env, r1, CurrentId(cfg, r1), r1.err);
  }

  lemma {:induction false} SelectedTrying(cfg: Config, r: Rpc, p: SocketId, f: bool)
    requires Trying(cfg, r) && !r.cur.hasSock && !r.cur.needFeedback
    ensures Trying(cfg, Selected(cfg, r, p, f)) && !Selected(cfg, r, p, f).cur.hasSock
  {
    SelectedOwes(r.log, r.cur, r.parked, if cfg.single then cfg.singleId else p);
    assert r.cur.(peer := p, needFeedback := false) == r.cur.(peer := p);
  }

  lemma {:induction false} ConnectedTrying(cfg: Config, r: Rpc)
    requires Trying(cfg, r) && !r.cur.hasSock
    ensures Trying(cfg, Connected(r)) && Connected(r).cur.hasSock
  {
    ConnectedOwes(r.log, r.cur, r.parked);
  }

  lemma {:induction false} AttemptTrying(cfg: Config, r: Rpc, t: Try)
    requires Trying(cfg, r) && !r.cur.hasSock && !r.cur.needFeedback
    ensures Trying(cfg, Attempt(cfg, r, t)) && (t.Sent? ==> Attempt(cfg, r, t).cur.hasSock)
  {
    if !t.SelectFail? {
      SelectedTrying(cfg, r, t.peer, t.feedback);
      ConnectedTrying(cfg, Selected(cfg, r, t.peer, t.feedback));
    }
  }

  lemma {:induction false} AttemptKeeps(cfg: Config, r: Rpc, t: Try)
    ensures t.Sent? ==> Attempt(cfg, r, t).err == r.err
    ensures Attempt(cfg, r, t).cur.nretry == r.cur.nretry && Attempt(cfg, r, t).accessed == r.accessed
  {}

  lemma {:induction false} BeginTrying(cfg: Config, r: Rpc)
    requires Ready(cfg, r)
    ensures Trying(cfg, Begin(r)) && !Begin(r).cur.hasSock && !Begin(r).cur.needFeedback
  {
    BeginOwes(Begin(r).log, Begin(r).cur, r.parked);
    IncreasingGrows(r.log.issued, r.cur.nretry);
  }

  lemma {:induction false} IssueSound(cfg: Config, env: Env, r: Rpc)
    requires AccessedFits(cfg, r) && Ready(cfg, r)
    ensures Sound(cfg, IssueRPC(cfg, env, r))
    decreases cfg.maxRetry - r.cur.nretry, 2
  {
    BeginTrying(cfg, r);
    var o := env.tries(r.cur.nretry);
    var a := Attempt(cfg, Begin(r), o);
    AttemptTrying(cfg, Begin(r), o);
    AttemptKeeps(cfg, Begin(r), o);
    if !o.Sent? { SendFailedSound(cfg, env, a); }
  }

  // ---- whole runs ----

  lemma {:induction false} HandleSound(cfg: Config, env: Env, r: Rpc, e: Event)
    requires AccessedFits(cfg, r) && Sound(cfg, r)
    ensures Sound(cfg, Handle(cfg, env, r, e))
  {
    if r.log.ended == 0 { ReturnedSound(cfg, env, r.(err := Raised(r, e)), e.id, r.err); }
  }

  lemma {:induction false} StartSound(cfg: Config, env: Env, failed: Option<int>)
    ensures Sound(cfg, Start(cfg, env, failed))
  {
    assert Upto(1) == Upto(0) + multiset{0};
    if failed.Some? {
      SendFailedSound(cfg, env, FRESH.(err := Code(failed.value)));
    } else {
      IssueSound(cfg, env, FRESH);
    }
  }

  lemma {:induction false} RunSound(cfg: Config, env: Env, failed: Option<int>, es: seq<Event>)
    ensures Sound(cfg, Run(cfg, env, failed, es))
    decreases |es|
  {
    if es == [] {
      StartSound(cfg, env, failed);
    } else {
      var init := es[..|es| - 1];
      RunSound(cfg, env, failed, init);
      HandleSound(cfg, env, Run(cfg, env, failed, init), es[|es| - 1]);
    }
  }

  /** A lost call was selected, connected or tried without ever being settled. */
  predicate LostTry(log: Ledger, k: nat) { exists i :: 0 <= i < |log.lost| && log.lost[i].nretry == k }

  /** Tries are issued at most once, in order, on ids of the reserved range. */
  predicate IssuedInRange(cfg: Config, log: Ledger) {
    && |log.issued| <= cfg.maxRetry + 1
    && (forall i :: 0 <= i < |log.issued| ==> cfg.base < GetId(cfg, log.issued[i]) < cfg.base + 2 + cfg.maxRetry)
    && (forall i, j :: 0 <= i < j < |log.issued| ==> log.issued[i] < log.issued[j])
  }

  /** Feedback and sockets are paid back and every try is settled once, but for the lost calls. */
  ghost predicate PaidBack(r: Rpc) {
    && r.parked.None?
    && r.log.selected == r.log.fed + Sum(r.log.lost, KeysOf)
    && r.log.acquired == r.log.released + Sum(r.log.lost, SocksOf)
    && forall k: nat :: r.log.settled[k] == if k <= r.cur.nretry && !LostTry(r.log, k) then 1 else 0
  }

  lemma {:induction false} SumHolds(cs: seq<Call>, k: nat)
    ensures Sum(cs, TryOf)[k] > 0 <==> exists i :: 0 <= i < |cs| && cs[i].nretry == k
    decreases |cs|
  {
    if cs != [] {
      var init, last := cs[..|cs| - 1], cs[|cs| - 1];
      SumHolds(init, k);
      assert forall i :: 0 <= i < |init| ==> init[i] == cs[i];
      if last.nretry == k { assert cs[|cs| - 1].nretry == k; }
    }
  }

  lemma {:induction false} SettledPaysBack(r: Rpc)
    requires Settled(r.log, r.cur.nretry + 1) && r.parked.None?
    ensures PaidBack(r)
  {
    var n, lost := r.cur.nretry + 1, Sum(r.log.lost, TryOf);
    assert r.log.settled + multiset{} + lost == Upto(n);
    forall k: nat ensures r.log.settled[k] == if k <= r.cur.nretry && !LostTry(r.log, k) then 1 else 0 {
      UptoOnce(n, k);
      SumHolds(r.log.lost, k);
      assert (r.log.settled + multiset{} + lost)[k] == r.log.settled[k] + lost[k];
    }
  }

  /**
   * Every run, whatever events are delivered on whatever ids and with whatever codes: the RPC ends at
   * most once; at most max_retry + 1 tries are issued, on ids of the reserved range; and once the RPC
   * has ended every try was settled exactly once, every requested feedback was given exactly once and
   * every sending socket was released exactly once, except for calls overwritten while parked, which
   * are never settled.
   */
  lemma {:induction false} EveryRunAccounts(cfg: Config, env: Env, failed: Option<int>, es: seq<Event>)
    ensures var t := Run(cfg, env, failed, es);
      t.log.ended <= 1 && IssuedInRange(cfg, t.log) && (t.log.ended == 1 ==> PaidBack(t))
  {
    RunSound(cfg, env, failed, es);
    var t := Run(cfg, env, failed, es);
    IncreasingIsShort(t.log.issued, t.cur.nretry + 1);
    if t.log.ended == 1 { SettledPaysBack(t); }
  }
}

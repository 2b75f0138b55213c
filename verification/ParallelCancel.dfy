/**
 * Whom the parties of a ParallelChannel's rendezvous cancel (brpc/brpc/parallel_channel.cpp), and that
 * every failure is counted: what a run did, recorded beside its states.
 */
module ParallelCancel {
  import opened Options
  import opened ParallelRendezvous

  /** caster: the sub call whose failure reached fail_limit; bySub and byMain: the sub calls that were sent
      ECANCELED by it and by the main call; pending: the main call saw unfinished sub calls; failures: how
      many sub calls returned with an error. */
  datatype History = History(caster: Option<nat>, bySub: set<nat>, pending: bool, byMain: set<nat>, failures: nat)

  const NOTHING := History(None, {}, false, {}, 0)

  function Record(h: History, s: State, st: Step): History
    requires Enabled(s, st)
  {
    var n := |s.subs|;
    match st
    case Launch => h
    case OfSub(i, sub) =>
      var pc := s.subs[i];
      (match sub
       case Return(failed) => if failed then h.(failures := h.failures + 1) else h
       case Count => if pc.failed && s.sh.fails + 1 == s.sh.failLimit then h.(caster := Some(i)) else h
       case CancelOne => if pc.next < n && pc.next != i then h.(bySub := h.bySub + {pc.next}) else h
       case _ => h)
    case OfMain(m) =>
      (match m
       case MainLoad(seen) => h.(pending := seen < n)
       case MainCancelOne => if s.sh.main.next < n then h.(byMain := h.byMain + {s.sh.main.next}) else h
       case _ => h)
  }

  function HistoryOf(h: History, s: State, steps: seq<Step>, t: State): History
    requires Runs(s, steps, t)
    decreases |steps|
  {
    if steps == [] then h else HistoryOf(Record(h, s, steps[0]), Apply(s, steps[0]), steps[1..], t)
  }

  /** 0 .. n - 1 */
  function Below(n: nat): set<nat> { if n == 0 then {} else Below(n - 1) + {n - 1} }

  // ---- the sub call that reached fail_limit ----

  predicate NoneCancels(subs: seq<SubPc>) { forall k :: 0 <= k < |subs| ==> !subs[k].Cancelling? }

  predicate OthersQuiet(subs: seq<SubPc>, i: nat) { forall k :: 0 <= k < |subs| && k != i ==> !subs[k].Cancelling? }

  /** How far the cancelling of the others got. */
  predicate CastOk(s: State, h: History) {
    match h.caster
    case None => s.sh.fails < s.sh.failLimit && h.bySub == {} && NoneCancels(s.subs)
    case Some(i) =>
      && s.sh.fails >= s.sh.failLimit && i < |s.subs| && Failed(s.subs[i]) == 1 && OthersQuiet(s.subs, i)
      && (s.subs[i].Cancelling? ==> s.subs[i].next <= |s.subs| && h.bySub == Below(s.subs[i].next) - {i})
      && (!s.subs[i].Cancelling? ==> h.bySub == Below(|s.subs|) - {i})
  }

  lemma {:induction false} BelowNext(k: nat)
    ensures Below(k + 1) == Below(k) + {k} && Below(0) == {}
  {}

  lemma {:induction false} CastCount(s: State, h: History, i: nat)
    requires CastOk(s, h) && Enabled(s, OfSub(i, Count)) && s.sh.failLimit > 0
    ensures CastOk(Apply(s, OfSub(i, Count)), Record(h, s, OfSub(i, Count)))
  {
    BelowNext(0);
  }

  lemma {:induction false} CastCancel(s: State, h: History, i: nat)
    requires CastOk(s, h) && Enabled(s, OfSub(i, CancelOne))
    ensures CastOk(Apply(s, OfSub(i, CancelOne)), Record(h, s, OfSub(i, CancelOne)))
  {
    BelowNext(s.subs[i].next);
  }

  lemma {:induction false} CastStep(s: State, h: History, st: Step)
    requires CastOk(s, h) && Launched(s) && Enabled(s, st) && s.sh.failLimit > 0
    ensures CastOk(Apply(s, st), Record(h, s, st))
  {
    if st.OfSub? && st.sub.Count? {
      CastCount(s, h, st.i);
    } else if st.OfSub? && st.sub.CancelOne? {
      CastCancel(s, h, st.i);
    }
  }

  // ---- the main call ----

  predicate MainCancelOk(main: MainPc, n: nat, h: History) {
    if main.Idle? || main.Entered? then h.byMain == {} && !h.pending
    else if main.MainCancelling? then h.pending && main.next <= n && h.byMain == Below(main.next)
    else h.byMain == if h.pending then Below(n) else {}
  }

  lemma {:induction false} CountInRange(s: State)
    requires Inv(s)
    ensures (s.sh.id.Unlocked? ==> s.sh.main.Idle?) && s.sh.word % MSB <= |s.subs|
  {
    assert s.sh.word % MSB == TallyOf(s.subs).added;
  }

  lemma {:induction false} MainCancelStep(s: State, h: History, st: Step)
    requires MainCancelOk(s.sh.main, |s.subs|, h) && Enabled(s, st)
    requires (s.sh.id.Unlocked? ==> s.sh.main.Idle?) && s.sh.word % MSB <= |s.subs|
    ensures MainCancelOk(Apply(s, st).sh.main, |s.subs|, Record(h, s, st))
  {
    if st == OfMain(MainCancelOne) { BelowNext(s.sh.main.next); }
  }

  // ---- every failure is counted ----

  function Uncounted(pc: SubPc): nat { Bit(pc.Counting? && pc.failed) }

  predicate FailuresOk(s: State, h: History) { s.sh.fails + Sum(s.subs, Uncounted) == h.failures }

  lemma {:induction false} FailuresStep(s: State, h: History, st: Step)
    requires FailuresOk(s, h) && Enabled(s, st) && Launched(s)
    ensures FailuresOk(Apply(s, st), Record(h, s, st))
  {
    match st
    case Launch => SumUpdate(s.subs, s.launched, InFlight, Uncounted);
    case OfSub(i, sub) => SumUpdate(s.subs, i, SubAfter(s.subs[i], s.sh, |s.subs|, sub), Uncounted);
    case OfMain(_) =>
  }

  // ---- whole runs ----

  predicate HistoryOk(s: State, h: History) {
    CastOk(s, h) && MainCancelOk(s.sh.main, |s.subs|, h) && FailuresOk(s, h)
  }

  lemma {:induction false} HistoryRun(h: History, s: State, steps: seq<Step>, t: State)
    requires Inv(s) && HistoryOk(s, h) && Runs(s, steps, t)
    ensures HistoryOk(t, HistoryOf(h, s, steps, t))
    decreases |steps|
  {
    if steps != [] {
      CastStep(s, h, steps[0]);
      CountInRange(s);
      MainCancelStep(s, h, steps[0]);
      FailuresStep(s, h, steps[0]);
      StepInv(s, steps[0]);
      HistoryRun(Record(h, s, steps[0]), Apply(s, steps[0]), steps[1..], t);
    }
  }

  lemma {:induction false} HistoryReached(n: nat, failLimit: nat, steps: seq<Step>, t: State)
    requires 1 <= failLimit <= n < MSB && Runs(Init(n, failLimit), steps, t)
    ensures HistoryOk(t, HistoryOf(NOTHING, Init(n, failLimit), steps, t)) && |t.subs| == n && t.sh.failLimit == failLimit
  {
    var s := Init(n, failLimit);
    InitInv(n, failLimit);
    SumAll(s.subs, Uncounted, 0);
    HistoryRun(NOTHING, s, steps, t);
    Reached(n, failLimit, steps, t);
  }

  /**
   * In every run: no sub call is cancelled by another one until fail_limit failures are counted; then one
   * failed sub call cancels all others, and is through with it unless it is still at it.
   */
  lemma {:induction false} FailLimitCancelsOthers(n: nat, failLimit: nat, steps: seq<Step>, t: State)
    requires 1 <= failLimit <= n < MSB && Runs(Init(n, failLimit), steps, t)
    ensures var h := HistoryOf(NOTHING, Init(n, failLimit), steps, t);
      && |t.subs| == n && (t.sh.fails < failLimit ==> h.bySub == {})
      && (t.sh.fails >= failLimit && NoneCancels(t.subs) ==>
            && h.caster.Some? && h.caster.value < n && Failed(t.subs[h.caster.value]) == 1
            && h.bySub == Below(n) - {h.caster.value})
  {
    HistoryReached(n, failLimit, steps, t);
  }

  /**
   * In every run: once the main call, timed out, cancelled or told that all is finished, has looked at the
   * count, it cancels all sub calls iff it saw unfinished ones; a look while some are unfinished sees them.
   */
  lemma {:induction false} MainCancelsAllPending(n: nat, failLimit: nat, steps: seq<Step>, t: State)
    requires 1 <= failLimit <= n < MSB && Runs(Init(n, failLimit), steps, t)
    ensures var h, m := HistoryOf(NOTHING, Init(n, failLimit), steps, t), t.sh.main;
      && (m.Idle? || m.Entered? ==> h.byMain == {})
      && (m.MainSaving? || m.Oring? || m.MainCompleting? || m.MainFinished? ==>
            h.byMain == if h.pending then Below(n) else {})
      && (forall seen :: Enabled(t, OfMain(MainLoad(seen))) && t.sh.word % MSB < n ==>
            Record(h, t, OfMain(MainLoad(seen))).pending)
  {
    HistoryReached(n, failLimit, steps, t);
  }

  /** In every run each sub call that returned with an error is counted once, as soon as it counted itself. */
  lemma {:induction false} EveryFailureCounts(n: nat, failLimit: nat, steps: seq<Step>, t: State)
    requires 1 <= failLimit <= n < MSB && Runs(Init(n, failLimit), steps, t)
    ensures var h := HistoryOf(NOTHING, Init(n, failLimit), steps, t);
      && |t.subs| == n && t.sh.fails <= h.failures
      && ((forall k :: 0 <= k < n ==> !t.subs[k].Counting?) ==> t.sh.fails == h.failures)
  {
    HistoryReached(n, failLimit, steps, t);
    if forall k :: 0 <= k < n ==> !t.subs[k].Counting? { SumAll(t.subs, Uncounted, 0); }
  }
}

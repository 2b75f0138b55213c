/**
 * What the write queue of a socket (brpc/brpc/socket.cpp) achieves: without a failure every request is
 * returned as written, and from every state the threads can finish.
 */
module SocketProgress {
  import opened Bytes
  import opened Options
  import opened SocketWrite

  // ---- runs without failures ----

  predicate NoFail(steps: seq<Step>) { forall k :: 0 <= k < |steps| ==> !steps[k].Fail? }

  /** The thread is releasing requests as failed. */
  predicate GivesUp(pc: Pc) {
    pc.Failing? || ((pc.Checking? || pc.Reversing? || pc.Joining?) && pc.failing)
  }

  predicate NoneFailed(reqs: seq<Req>) { forall k :: 0 <= k < |reqs| ==> reqs[k].fails == 0 }

  predicate NoneGivesUp(pcs: seq<Pc>) { forall i :: 0 <= i < |pcs| ==> !GivesUp(pcs[i]) }

  predicate AllOk(closing: map<nat, bool>) { forall k :: k in closing ==> closing[k] }

  predicate Unfailed(s: State) { NoneFailed(s.reqs) && NoneGivesUp(s.pcs) && AllOk(s.closing) }

  lemma {:induction false} StillNoneFailed(s: State, st: Step)
    requires Unfailed(s) && Enabled(s, st) && !st.Fail?
    ensures NoneFailed(Apply(s, st).reqs)
  {
    if st.FailOne? { assert false; }
  }

  lemma {:induction false} StillNoneGivesUp(s: State, st: Step)
    requires NoneGivesUp(s.pcs) && Enabled(s, st) && !st.Fail?
    ensures NoneGivesUp(Apply(s, st).pcs)
  {
    if !st.Exchange? && !st.Close? { assert !GivesUp(s.pcs[st.i]); }
  }

  lemma {:induction false} StillAllOk(s: State, st: Step)
    requires NoneGivesUp(s.pcs) && AllOk(s.closing) && Enabled(s, st) && !st.Fail?
    ensures AllOk(Apply(s, st).closing)
  {
    if st.Compare? { assert !GivesUp(s.pcs[st.i]); }
  }

  /** Only a failure makes a thread give up. */
  lemma {:induction false} UnfailedStep(s: State, st: Step)
    requires Unfailed(s) && Enabled(s, st) && !st.Fail?
    ensures Unfailed(Apply(s, st))
  {
    StillNoneFailed(s, st);
    StillNoneGivesUp(s, st);
    StillAllOk(s, st);
  }

  lemma {:induction false} UnfailedRun(s: State, steps: seq<Step>, t: State)
    requires Unfailed(s) && Runs(s, steps, t) && NoFail(steps)
    ensures Unfailed(t)
    decreases |steps|
  {
    if steps != [] {
      UnfailedStep(s, steps[0]);
      UnfailedRun(Apply(s, steps[0]), steps[1..], t);
    }
  }

  // ---- what was pushed ----

  /** The data of all exchanges, in their order. */
  function Pushed(steps: seq<Step>): bytes
    decreases |steps|
  {
    if steps == [] then [] else (if steps[0].Exchange? then steps[0].data else []) + Pushed(steps[1..])
  }

  lemma {:induction false} DataSame(a: seq<Req>, b: seq<Req>)
    requires |a| == |b| && forall k :: 0 <= k < |a| ==> a[k].data == b[k].data
    ensures AllData(a) == AllData(b)
    decreases |a|
  {
    if a != [] { DataSame(a[..|a| - 1], b[..|b| - 1]); }
  }

  lemma {:induction false} DataStep(s: State, st: Step)
    requires Enabled(s, st)
    ensures AllData(Apply(s, st).reqs) == AllData(s.reqs) + if st.Exchange? then st.data else []
  {
    var t := Apply(s, st);
    if st.Exchange? {
      assert t.reqs[..|t.reqs| - 1] == s.reqs;
    } else {
      DataSame(s.reqs, t.reqs);
      assert AllData(s.reqs) + [] == AllData(s.reqs);
    }
  }

  lemma {:induction false} DataRun(s: State, steps: seq<Step>, t: State)
    requires Runs(s, steps, t)
    ensures AllData(t.reqs) == AllData(s.reqs) + Pushed(steps)
    decreases |steps|
  {
    if steps != [] {
      DataStep(s, steps[0]);
      DataRun(Apply(s, steps[0]), steps[1..], t);
      var x := if steps[0].Exchange? then steps[0].data else [];
      assert AllData(s.reqs) + x + Pushed(steps[1..]) == AllData(s.reqs) + (x + Pushed(steps[1..]));
    }
  }

  /**
   * Unless connecting, writing or waiting fails, no request is given up; once nothing is left to do,
   * each was returned as written exactly once, and the wire is the data of all exchanges in order.
   */
  lemma {:induction false} WithoutFailureAllWritten(steps: seq<Step>, t: State)
    requires Runs(INIT, steps, t) && NoFail(steps)
    ensures forall k :: 0 <= k < |t.reqs| ==> t.reqs[k].fails == 0
    ensures forall k :: k in t.closing ==> t.closing[k]
    ensures Quiescent(t) ==> t.wire == Pushed(steps) && forall k :: 0 <= k < |t.reqs| ==> t.reqs[k].oks == 1
  {
    UnfailedRun(INIT, steps, t);
    if Quiescent(t) {
      QuiescentMeansReturned(steps, t);
      DataRun(INIT, steps, t);
      assert [] + Pushed(steps) == Pushed(steps);
    }
  }

  // ---- the threads can finish ----

  /** How many of the requests lo..n - 1 are not written completely. */
  function Missing(reqs: seq<Req>, lo: nat, n: nat): nat
    decreases n - lo
  {
    if lo >= n then 0
    else (if lo < |reqs| && !Full(reqs[lo]) then 1 else 0) + Missing(reqs, lo + 1, n)
  }

  lemma {:induction false} MissingSame(a: seq<Req>, b: seq<Req>, lo: nat, n: nat)
    requires |a| == |b| && forall k :: lo <= k < |a| ==> (Full(a[k]) <==> Full(b[k]))
    ensures Missing(a, lo, n) == Missing(b, lo, n)
    decreases n - lo
  {
    if lo < n { MissingSame(a, b, lo + 1, n); }
  }

  lemma {:induction false} MissingNone(reqs: seq<Req>, lo: nat, n: nat)
    requires forall k :: lo <= k < n && k < |reqs| ==> Full(reqs[k])
    ensures Missing(reqs, lo, n) == 0
    decreases n - lo
  {
    if lo < n { MissingNone(reqs, lo + 1, n); }
  }

  lemma {:induction false} MissingFilled(a: seq<Req>, b: seq<Req>, lo: nat, n: nat, k: nat)
    requires |a| == |b| && lo <= k < n && k < |a| && !Full(a[k]) && b == a[k := b[k]] && Full(b[k])
    ensures Missing(b, lo, n) + 1 == Missing(a, lo, n)
    decreases n - lo
  {
    if lo == k { MissingSame(a, b, lo + 1, n); } else { MissingFilled(a, b, lo + 1, n, k); }
  }

  /** What whoever has the right to write does next when all goes well. */
  function Plan(s: State, w: Turn): Step
    requires w.Turn? && w.i < |s.pcs| && |s.pcs| == |s.reqs|
  {
    var pc := s.pcs[w.i];
    if pc.Writing? && pc.at < |s.reqs| && s.reqs[pc.at].sent < |s.reqs[pc.at].data| then
      Put(w.i, |s.reqs[pc.at].data| - s.reqs[pc.at].sent)
    else if pc.Writing? && CanSkip(s.reqs, pc.at) then MoveOn(w.i)
    else Progress(s, w)
  }

  /** How far the thread is in one round: with all written, or with something left to write. */
  function Phase(pc: Pc, full: bool): nat {
    match pc
    case Linking(_) => 10
    case Failing(_) => 9
    case Top(_, _) => if full then 8 else 5
    case Writing(_, _, _) => if full then 7 else 4
    case Written(_, _) => if full then 6 else 8
    case Seeking(_, _) => if full then 5 else 7
    case Checking(_, _, _) => if full then 4 else 6
    case Reversing(_, _, _, _, _, _) => 3
    case Joining(_, _, _, _, _) => 2
    case Gone => 0
  }

  function Distance(pcs: seq<Pc>, pc: Pc, end: nat): int {
    match pc
    case Writing(_, at, _) => end - at
    case Written(req, _) => end - req
    case Seeking(_, at) => end - at
    case Reversing(_, _, p, _, _, _) => 2 * (p - end) + if p < |pcs| && pcs[p].Linking? then 1 else 0
    case Failing(req) => end - req
    case _ => 0
  }

  datatype Rank = Rank(behind: int, missing: nat, phase: nat, distance: int)

  function RankOf(s: State, w: Turn): Rank
    requires w.Turn? && w.i < |s.pcs|
  {
    var missing := Missing(s.reqs, WindowOf(s.pcs, w).lo, w.end + 1);
    Rank(|s.reqs| - 1 - w.end, missing, Phase(s.pcs[w.i], missing == 0), Distance(s.pcs, s.pcs[w.i], w.end))
  }

  predicate Below(a: Rank, b: Rank) {
    || a.behind < b.behind
    || (a.behind == b.behind && (a.missing < b.missing
        || (a.missing == b.missing && (a.phase < b.phase || (a.phase == b.phase && a.distance < b.distance)))))
  }

  predicate Closer(s: State, w: Turn, t: State, w2: Turn)
    requires w.Turn? && w.i < |s.pcs|
  {
    w2.Turn? ==> w2.i < |t.pcs| && Below(RankOf(t, w2), RankOf(s, w))
  }

  lemma {:induction false} PlanEnabled(s: State, w: Turn)
    requires Inv(s, w) && w.Turn?
    ensures Enabled(s, Plan(s, w))
  {
    NeverStuck(s, w);
    HolderIs(s, w, w.i);
  }

  lemma {:induction false} TopCloser(s: State, w: Turn)
    requires Inv(s, w) && w.Turn? && s.pcs[w.i].Top?
    ensures Enabled(s, Plan(s, w)) && Closer(s, w, Apply(s, Plan(s, w)), w)
  {
    PlanEnabled(s, w);
    var r := s.pcs[w.i].req;
    OwnLink(s, w, r);
    if CanSkip(s.reqs, r) { MissingSame(s.reqs, Returns(s.reqs, r, true), r + 1, w.end + 1); }
  }

  lemma {:induction false} PutCloser(s: State, w: Turn)
    requires Inv(s, w) && w.Turn? && s.pcs[w.i].Writing? && Plan(s, w).Put?
    ensures Enabled(s, Plan(s, w)) && Closer(s, w, Apply(s, Plan(s, w)), w)
  {
    PlanEnabled(s, w);
    HolderIs(s, w, w.i);
    MissingFilled(s.reqs, Apply(s, Plan(s, w)).reqs, s.pcs[w.i].req, w.end + 1, s.pcs[w.i].at);
  }

  lemma {:induction false} WriteCloser(s: State, w: Turn)
    requires Inv(s, w) && w.Turn? && s.pcs[w.i].Writing? && !Plan(s, w).Put?
    ensures Enabled(s, Plan(s, w)) && Closer(s, w, Apply(s, Plan(s, w)), w)
  {
    PlanEnabled(s, w);
    HolderIs(s, w, w.i);
    var pc := s.pcs[w.i];
    OwnLink(s, w, pc.at);
    assert NodeAt(s.reqs, s.pcs, s.closing, WindowOf(s.pcs, w), pc.at);
    if pc.at == w.end { MissingNone(s.reqs, pc.req, w.end + 1); }
  }

  lemma {:induction false} WrittenCloser(s: State, w: Turn)
    requires Inv(s, w) && w.Turn? && s.pcs[w.i].Written?
    ensures Enabled(s, Plan(s, w)) && Closer(s, w, Apply(s, Plan(s, w)), w)
  {
    PlanEnabled(s, w);
    HolderIs(s, w, w.i);
    var r := s.pcs[w.i].req;
    OwnLink(s, w, r);
    if CanSkip(s.reqs, r) { MissingSame(s.reqs, Returns(s.reqs, r, true), r + 1, w.end + 1); }
  }

  lemma {:induction false} SeekCloser(s: State, w: Turn)
    requires Inv(s, w) && w.Turn? && s.pcs[w.i].Seeking?
    ensures Enabled(s, Plan(s, w)) && Closer(s, w, Apply(s, Plan(s, w)), w)
  {
    PlanEnabled(s, w);
    HolderIs(s, w, w.i);
    OwnLink(s, w, s.pcs[w.i].at);
  }

  lemma {:induction false} CheckCloser(s: State, w: Turn)
    requires Inv(s, w) && w.Turn? && s.pcs[w.i].Checking?
    ensures Enabled(s, Plan(s, w)) && Closer(s, w, Apply(s, Plan(s, w)), TurnAfter(s, w, Plan(s, w)))
  {
    PlanEnabled(s, w);
    HolderIs(s, w, w.i);
    OwnLink(s, w, s.pcs[w.i].req);
    OwnLink(s, w, w.end);
  }

  lemma {:induction false} AwaitCloser(s: State, w: Turn)
    requires Inv(s, w) && w.Turn? && s.pcs[w.i].Reversing? && Plan(s, w).Link?
    ensures Enabled(s, Plan(s, w)) && Closer(s, w, Apply(s, Plan(s, w)), w)
  {
    PlanEnabled(s, w);
    HolderIs(s, w, w.i);
    MissingSame(s.reqs, Apply(s, Plan(s, w)).reqs, s.pcs[w.i].req, w.end + 1);
  }

  lemma {:induction false} ReverseCloser(s: State, w: Turn)
    requires Inv(s, w) && w.Turn? && s.pcs[w.i].Reversing? && !Plan(s, w).Link?
    ensures Enabled(s, Plan(s, w)) && Closer(s, w, Apply(s, Plan(s, w)), w)
  {
    PlanEnabled(s, w);
    HolderIs(s, w, w.i);
    PushedLink(s, w, w.i);
    var pc := s.pcs[w.i];
    MissingSame(s.reqs, Links(s.reqs, pc.p, pc.q), pc.req, w.end + 1);
  }

  lemma {:induction false} FailCloser(s: State, w: Turn)
    requires Inv(s, w) && w.Turn? && s.pcs[w.i].Failing?
    ensures Enabled(s, Plan(s, w)) && Closer(s, w, Apply(s, Plan(s, w)), w)
  {
    PlanEnabled(s, w);
    HolderIs(s, w, w.i);
    var r := s.pcs[w.i].req;
    OwnLink(s, w, r);
    MissingSame(s.reqs, Returns(s.reqs, r, false), r + 1, w.end + 1);
  }

  lemma {:induction false} LinkCloser(s: State, w: Turn)
    requires Inv(s, w) && w.Turn? && (s.pcs[w.i].Linking? || s.pcs[w.i].Joining?)
    ensures Enabled(s, Plan(s, w)) && Closer(s, w, Apply(s, Plan(s, w)), TurnAfter(s, w, Plan(s, w)))
  {
    PlanEnabled(s, w);
    HolderIs(s, w, w.i);
    if s.pcs[w.i].Linking? { MissingSame(s.reqs, Apply(s, Plan(s, w)).reqs, w.i, w.end + 1); }
  }

  /** Every planned step comes closer to the end of the turn. */
  lemma {:induction false} PlanCloser(s: State, w: Turn)
    requires Inv(s, w) && w.Turn?
    ensures Enabled(s, Plan(s, w)) && Closer(s, w, Apply(s, Plan(s, w)), TurnAfter(s, w, Plan(s, w)))
  {
    HolderIs(s, w, w.i);
    match s.pcs[w.i]
    case Top(_, _) => TopCloser(s, w);
    case Writing(_, _, _) => if Plan(s, w).Put? { PutCloser(s, w); } else { WriteCloser(s, w); }
    case Written(_, _) => WrittenCloser(s, w);
    case Seeking(_, _) => SeekCloser(s, w);
    case Checking(_, _, _) => CheckCloser(s, w);
    case Reversing(_, _, _, _, _, _) => if Plan(s, w).Link? { AwaitCloser(s, w); } else { ReverseCloser(s, w); }
    case Failing(_) => FailCloser(s, w);
    case Linking(_) => LinkCloser(s, w);
    case Joining(_, _, _, _, _) => LinkCloser(s, w);
  }

  /** No new requests and no failures. */
  predicate Calm(steps: seq<Step>) { forall k :: 0 <= k < |steps| ==> !steps[k].Exchange? && !steps[k].Fail? }

  ghost predicate Finishes(s: State, more: seq<Step>, t: State) {
    Runs(s, more, t) && Calm(more) && Inv(t, Nobody) && t.closing == map[]
  }

  ghost predicate CanFinish(s: State) { exists more, t :: Finishes(s, more, t) }

  lemma {:induction false} OneMoreStep(s: State, st: Step)
    requires Enabled(s, st) && !st.Exchange? && !st.Fail? && CanFinish(Apply(s, st))
    ensures CanFinish(s)
  {
    var more, t :| Finishes(Apply(s, st), more, t);
    var all := [st] + more;
    assert all[1..] == more;
    assert Finishes(s, all, t);
  }

  lemma {:induction false} CloseAll(s: State)
    requires Inv(s, Nobody)
    ensures CanFinish(s)
    decreases |s.closing|
  {
    if s.closing == map[] {
      assert Finishes(s, [], s);
    } else {
      var r :| r in s.closing;
      CloseInv(s, Nobody, r);
      assert |s.closing - {r}| < |s.closing| by { assert s.closing.Keys == (s.closing - {r}).Keys + {r}; }
      CloseAll(CloseStep(s, r));
      OneMoreStep(s, Close(r));
    }
  }

  lemma {:induction false} RankIsBounded(s: State, w: Turn)
    requires Inv(s, w) && w.Turn?
    ensures RankOf(s, w).behind >= 0 && RankOf(s, w).distance >= 0
  {
    HolderIs(s, w, w.i);
  }

  lemma {:induction false} PlanAdvances(s: State, w: Turn)
    requires Inv(s, w) && w.Turn?
    ensures var st := Plan(s, w);
      && Enabled(s, st) && !st.Exchange? && !st.Fail? && Inv(Apply(s, st), TurnAfter(s, w, st))
      && Closer(s, w, Apply(s, st), TurnAfter(s, w, st))
      && (TurnAfter(s, w, st).Turn? ==>
            var r := RankOf(Apply(s, st), TurnAfter(s, w, st)); r.behind >= 0 && r.distance >= 0)
  {
    var st := Plan(s, w);
    PlanCloser(s, w);
    StepInv(s, w, st);
    if TurnAfter(s, w, st).Turn? { RankIsBounded(Apply(s, st), TurnAfter(s, w, st)); }
  }

  lemma {:induction false} FinishTurn(s: State, w: Turn, r: Rank)
    requires Inv(s, w) && (w.Turn? ==> r == RankOf(s, w) && r.behind >= 0 && r.distance >= 0)
    ensures CanFinish(s)
    decreases w.Turn?, r.behind, r.missing, r.phase, r.distance
  {
    if w.Nobody? {
      CloseAll(s);
    } else {
      var st := Plan(s, w);
      PlanAdvances(s, w);
      var t, w2 := Apply(s, st), TurnAfter(s, w, st);
      FinishTurn(t, w2, if w2.Turn? then RankOf(t, w2) else r);
      OneMoreStep(s, st);
    }
  }

  lemma {:induction false} IdleIsQuiescent(s: State)
    requires Inv(s, Nobody) && s.closing == map[]
    ensures Quiescent(s)
  {
    forall i | 0 <= i < |s.pcs| ensures s.pcs[i].Gone? {
      assert NodeAt(s.reqs, s.pcs, s.closing, WindowOf(s.pcs, Nobody), i);
    }
  }

  /** From every state the threads can finish what was pushed, without a new request or failure. */
  lemma {:induction false} EveryRunCanFinish(steps: seq<Step>, s: State)
    requires Runs(INIT, steps, s)
    ensures exists more, t :: Runs(s, more, t) && Calm(more) && Quiescent(t) && Runs(INIT, steps + more, t)
  {
    RunInv(INIT, Nobody, steps, s);
    var w := TurnOf(INIT, Nobody, steps, s);
    if w.Turn? { RankIsBounded(s, w); }
    FinishTurn(s, w, if w.Turn? then RankOf(s, w) else Rank(0, 0, 0, 0));
    var more, t :| Finishes(s, more, t);
    IdleIsQuiescent(t);
    RunsOn(INIT, steps, s, more, t);
  }

  lemma {:induction false} RunsOn(s: State, a: seq<Step>, m: State, b: seq<Step>, t: State)
    requires Runs(s, a, m) && Runs(m, b, t)
    ensures Runs(s, a + b, t)
    decreases |a|
  {
    if a == [] {
      assert a + b == b;
    } else {
      assert (a + b)[1..] == a[1..] + b;
      RunsOn(Apply(s, a[0]), a[1..], m, b, t);
    }
  }
}

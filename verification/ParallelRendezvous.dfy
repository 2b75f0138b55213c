/**
 * The rendezvous of ParallelChannelDone (brpc/brpc/parallel_channel.cpp).
 *
 * Any number of sub calls and the main call meet on one 32-bit atomic word: the lower
 * 31 bits count finished sub calls, the top bit says that the main call's Run() ran.
 * Every atomic operation and every group of member reads is one step; steps of different
 * parties interleave freely.
 */
module ParallelRendezvous {

  const MSB := 0x8000_0000
  const WORD := 0x1_0000_0000

  /** Progress of a party that passed the rendezvous. */
  datatype Stage = Enter | Merged | UserDoneRan

  /** Where one sub call is inside SubDone::Run / OnSubDoneRun(fin != NULL). */
  datatype SubPc =
    | Unlaunched                          // CallMethod has not started this sub call
    | InFlight
    | Counting(failed: bool)              // SubDone::Run entered
    | Cancelling(next: nat)               // reached fail_limit, cancelling the others
    | Saving(failed: bool)                // about to copy _ndone and the main call id
    | Adding(failed: bool)                // about to fetch_add _current_done
    | Notifying(failed: bool)             // about to send EPCHANFINISH to the main id
    | Completing(failed: bool, stage: Stage)
    | Finished(failed: bool, completer: bool)

  /** Where the main call is inside ParallelChannelDone::Run. */
  datatype MainPc =
    | Idle
    | Entered(err: int)
    | MainCancelling(next: nat)
    | MainSaving
    | Oring
    | MainCompleting(stage: Stage)
    | MainFinished(completer: bool)

  /** The main call id: once locked by an error it is only ever destroyed. */
  datatype IdState = Unlocked | Locked | Destroyed

  /** The fields every party can see, and the main party. */
  datatype Shared = Shared(
    main: MainPc, word: nat, fails: nat, failLimit: nat, id: IdState,
    completions: nat, userDones: nat, closes: nat, broadcasts: nat, freed: bool)

  datatype State = State(subs: seq<SubPc>, launched: nat, sh: Shared)

  /** Steps of one sub call. */
  datatype SubStep = Return(failed: bool) | Count | CancelOne | Save | Add | Notify | Complete

  /** Steps of the main call and of its environment. */
  datatype MainStep =
    | Raise(err: int)           // timeout or cancellation of the main call
    | MainLoad(seen: nat)       // the relaxed load may return any earlier count
    | MainCancelOne
    | MainSave
    | Or
    | MainComplete
    | Free                      // Controller::Reset destroys the object

  datatype Step = Launch | OfSub(i: nat, sub: SubStep) | OfMain(m: MainStep)

  const EPCHANFINISH := 1006
  const ERPCTIMEDOUT := 1008
  const ECANCELED := 125

  function Init(n: nat, failLimit: nat): State {
    State(seq(n, _ => Unlaunched), 0, Shared(Idle, 0, 0, failLimit, Unlocked, 0, 0, 0, 0, false))
  }

  predicate SubEnabled(pc: SubPc, st: SubStep) {
    match st
    case Return(_) => pc.InFlight?
    case Count => pc.Counting?
    case CancelOne => pc.Cancelling?
    case Save => pc.Saving?
    case Add => pc.Adding?
    case Notify => pc.Notifying?
    case Complete => pc.Completing?
  }

  predicate MainEnabled(sh: Shared, st: MainStep) {
    match st
    case Raise(e) => sh.id.Unlocked? && (e == ERPCTIMEDOUT || e == ECANCELED)
    case MainLoad(seen) => sh.main.Entered? && seen <= sh.word % MSB
    case MainCancelOne => sh.main.MainCancelling?
    case MainSave => sh.main.MainSaving?
    case Or => sh.main.Oring?
    case MainComplete => sh.main.MainCompleting?
    case Free => !sh.freed && sh.userDones > 0
  }

  predicate Enabled(s: State, st: Step) {
    match st
    case Launch => s.launched < |s.subs|
    case OfSub(i, sub) => i < |s.subs| && SubEnabled(s.subs[i], sub)
    case OfMain(m) => MainEnabled(s.sh, m)
  }

  /** True when the step dereferences the ParallelChannelDone (or a SubDone inside it). */
  predicate Touches(s: State, st: Step)
    requires Enabled(s, st)
  {
    match st
    case Launch => true
    case OfSub(i, sub) => !sub.Notify? && !(sub.Complete? && s.subs[i].stage.UserDoneRan?)
    case OfMain(m) => !m.Raise? && !m.Free? && !(m.MainComplete? && s.sh.main.stage.UserDoneRan?)
  }

  /** The body of OnComplete, split where user code may already destroy the object. */
  function CompleterStep(sh: Shared, stage: Stage): Shared {
    match stage
    case Enter => sh.(completions := sh.completions + 1)
    case Merged => sh.(userDones := sh.userDones + 1)
    case UserDoneRan => sh.(closes := sh.closes + 1, id := Destroyed)
  }

  function NextStage(stage: Stage): Stage { if stage.Enter? then Merged else UserDoneRan }

  /** Program point of the moving sub call after its step; n is the number of sub calls. */
  function SubAfter(pc: SubPc, sh: Shared, n: nat, st: SubStep): SubPc
    requires SubEnabled(pc, st)
  {
    match st
    case Return(failed) => Counting(failed)
    case Count => if pc.failed && sh.fails + 1 == sh.failLimit then Cancelling(0) else Saving(pc.failed)
    case CancelOne => if pc.next < n then Cancelling(pc.next + 1) else Saving(true)
    case Save => Adding(pc.failed)
    case Add =>
      if sh.word % MSB + 1 != n then Finished(pc.failed, false)
      else if sh.word < MSB then Notifying(pc.failed)
      else Completing(pc.failed, Enter)
    case Notify => Finished(pc.failed, false)
    case Complete =>
      if pc.stage.UserDoneRan? then Finished(pc.failed, true) else Completing(pc.failed, NextStage(pc.stage))
  }

  function SharedAfter(pc: SubPc, sh: Shared, st: SubStep): Shared
    requires SubEnabled(pc, st)
  {
    match st
    case Count =>
      if !pc.failed then sh
      else sh.(fails := sh.fails + 1,
               broadcasts := if sh.fails + 1 == sh.failLimit then sh.broadcasts + 1 else sh.broadcasts)
    case Add => sh.(word := (sh.word + 1) % WORD)
    case Notify => if sh.id.Unlocked? then sh.(id := Locked, main := Entered(EPCHANFINISH)) else sh
    case Complete => CompleterStep(sh, pc.stage)
    case _ => sh
  }

  function MainAfter(sh: Shared, n: nat, st: MainStep): Shared
    requires MainEnabled(sh, st)
  {
    match st
    case Raise(e) => sh.(id := Locked, main := Entered(e))
    case MainLoad(seen) => sh.(main := if seen != n then MainCancelling(0) else MainSaving)
    case MainCancelOne => sh.(main := if sh.main.next < n then MainCancelling(sh.main.next + 1) else MainSaving)
    case MainSave => sh.(main := Oring)
    case Or =>
      sh.(word := if sh.word < MSB then sh.word + MSB else sh.word,
          main := if sh.word % MSB != n then MainFinished(false) else MainCompleting(Enter))
    case MainComplete =>
      var stage := sh.main.stage;
      CompleterStep(sh, stage).(main := if stage.UserDoneRan? then MainFinished(true) else MainCompleting(NextStage(stage)))
    case Free => sh.(freed := true)
  }

  function Apply(s: State, st: Step): (t: State)
    requires Enabled(s, st)
    ensures |t.subs| == |s.subs| && t.sh.failLimit == s.sh.failLimit
  {
    match st
    case Launch => State(s.subs[s.launched := InFlight], s.launched + 1, s.sh)
    case OfSub(i, sub) =>
      var pc := s.subs[i];
      State(s.subs[i := SubAfter(pc, s.sh, |s.subs|, sub)], s.launched, SharedAfter(pc, s.sh, sub))
    case OfMain(m) => s.(sh := MainAfter(s.sh, |s.subs|, m))
  }

  /** `steps` is a run from `s` that ends in `t`. */
  predicate Runs(s: State, steps: seq<Step>, t: State)
    decreases |steps|
  {
    if steps == [] then s == t
    else Enabled(s, steps[0]) && Runs(Apply(s, steps[0]), steps[1..], t)
  }

  // ---- tallies over the sub calls ----

  function Bit(b: bool): nat { if b then 1 else 0 }

  /**
   * How many sub calls did their fetch_add, are counted as failed, are about to notify, chose
   * themselves to finish the RPC, entered OnComplete, ran the user's done, destroyed the id.
   */
  datatype Tally = Tally(added: nat, failed: nat, notifying: nat, chosen: nat,
                         entered: nat, ranDone: nat, closed: nat)

  function Added(pc: SubPc): nat { Bit(pc.Notifying? || pc.Completing? || pc.Finished?) }
  function Failed(pc: SubPc): nat {
    Bit(pc.Cancelling? || (!pc.Unlaunched? && !pc.InFlight? && !pc.Counting? && pc.failed))
  }
  function Notifies(pc: SubPc): nat { Bit(pc.Notifying?) }
  predicate Over(pc: SubPc) { pc.Finished? && pc.completer }
  function Chosen(pc: SubPc): nat { Bit(pc.Completing? || Over(pc)) }
  function HasEntered(pc: SubPc): nat { Bit((pc.Completing? && !pc.stage.Enter?) || Over(pc)) }
  function RanDone(pc: SubPc): nat { Bit((pc.Completing? && pc.stage.UserDoneRan?) || Over(pc)) }
  function Closed(pc: SubPc): nat { Bit(Over(pc)) }

  function One(pc: SubPc): Tally {
    Tally(Added(pc), Failed(pc), Notifies(pc), Chosen(pc), HasEntered(pc), RanDone(pc), Closed(pc))
  }

  function Plus(a: Tally, b: Tally): Tally {
    Tally(a.added + b.added, a.failed + b.failed, a.notifying + b.notifying, a.chosen + b.chosen,
          a.entered + b.entered, a.ranDone + b.ranDone, a.closed + b.closed)
  }

  function Sum(subs: seq<SubPc>, f: SubPc -> nat): nat {
    if subs == [] then 0 else f(subs[0]) + Sum(subs[1..], f)
  }

  function TallyOf(subs: seq<SubPc>): Tally {
    Tally(Sum(subs, Added), Sum(subs, Failed), Sum(subs, Notifies), Sum(subs, Chosen),
          Sum(subs, HasEntered), Sum(subs, RanDone), Sum(subs, Closed))
  }

  lemma {:induction false} SumUpdate(subs: seq<SubPc>, i: nat, pc: SubPc, f: SubPc -> nat)
    requires i < |subs|
    ensures Sum(subs[i := pc], f) + f(subs[i]) == Sum(subs, f) + f(pc)
  {
    var u := subs[i := pc];
    if i == 0 {
      assert u[1..] == subs[1..];
    } else {
      assert u[1..] == subs[1..][i - 1 := pc];
      SumUpdate(subs[1..], i - 1, pc, f);
    }
  }

  lemma {:induction false} SumAll(subs: seq<SubPc>, f: SubPc -> nat, c: nat)
    requires forall k :: 0 <= k < |subs| ==> f(subs[k]) == c
    ensures Sum(subs, f) == c * |subs|
  {
    if subs != [] { SumAll(subs[1..], f, c); }
  }

  lemma {:induction false} SumAtMost(subs: seq<SubPc>, f: SubPc -> nat, g: SubPc -> nat)
    requires forall k :: 0 <= k < |subs| ==> f(subs[k]) <= g(subs[k])
    ensures Sum(subs, f) <= Sum(subs, g)
  {
    if subs != [] { SumAtMost(subs[1..], f, g); }
  }

  lemma SumBelow(subs: seq<SubPc>, f: SubPc -> nat, g: SubPc -> nat, i: nat)
    requires forall k :: 0 <= k < |subs| ==> f(subs[k]) <= g(subs[k])
    requires i < |subs| && f(subs[i]) < g(subs[i])
    ensures Sum(subs, f) < Sum(subs, g)
  {
    SumSplit(subs, f, i);
    SumSplit(subs, g, i);
    SumAtMost(subs[..i], f, g);
    SumAtMost(subs[i + 1..], f, g);
  }

  lemma {:induction false} SumSplit(subs: seq<SubPc>, f: SubPc -> nat, i: nat)
    requires i < |subs|
    ensures Sum(subs, f) == Sum(subs[..i], f) + f(subs[i]) + Sum(subs[i + 1..], f)
  {
    if i > 0 {
      SumSplit(subs[1..], f, i - 1);
      assert subs[1..][..i - 1] == subs[..i][1..];
      assert subs[1..][i..] == subs[i + 1..];
    }
  }

  lemma TallyUpdate(subs: seq<SubPc>, i: nat, pc: SubPc)
    requires i < |subs|
    ensures Plus(TallyOf(subs[i := pc]), One(subs[i])) == Plus(TallyOf(subs), One(pc))
  {
    SumUpdate(subs, i, pc, Added); SumUpdate(subs, i, pc, Failed); SumUpdate(subs, i, pc, Notifies);
    SumUpdate(subs, i, pc, Chosen); SumUpdate(subs, i, pc, HasEntered);
    SumUpdate(subs, i, pc, RanDone); SumUpdate(subs, i, pc, Closed);
  }

  predicate Ordered(c: Tally) { c.closed <= c.ranDone <= c.entered <= c.chosen }

  lemma TallyOrdered(subs: seq<SubPc>)
    ensures Ordered(TallyOf(subs)) && TallyOf(subs).added <= |subs|
  {
    SumAtMost(subs, Closed, RanDone); SumAtMost(subs, RanDone, HasEntered); SumAtMost(subs, HasEntered, Chosen);
    SumAtMost(subs, Added, _ => 1); SumAll(subs, _ => 1, 1);
  }

  /** A sub call that has not added itself keeps the count below the number of sub calls. */
  lemma TallyMissing(subs: seq<SubPc>, i: nat)
    requires i < |subs| && Added(subs[i]) == 0
    ensures TallyOf(subs).added < |subs|
  {
    SumBelow(subs, Added, _ => 1, i); SumAll(subs, _ => 1, 1);
  }

  lemma TallyFresh(subs: seq<SubPc>)
    requires forall k :: 0 <= k < |subs| ==> subs[k].Unlaunched?
    ensures TallyOf(subs) == Tally(0, 0, 0, 0, 0, 0, 0)
  {
    SumAll(subs, Added, 0); SumAll(subs, Failed, 0); SumAll(subs, Notifies, 0); SumAll(subs, Chosen, 0);
    SumAll(subs, HasEntered, 0); SumAll(subs, RanDone, 0); SumAll(subs, Closed, 0);
  }

  lemma TallyFinished(subs: seq<SubPc>)
    requires forall k :: 0 <= k < |subs| ==> subs[k].Finished?
    ensures TallyOf(subs).added == |subs| && TallyOf(subs).notifying == 0
    ensures TallyOf(subs).chosen == TallyOf(subs).closed
  {
    SumAll(subs, Added, 1); SumAll(subs, Notifies, 0);
    SumAtMost(subs, Chosen, Closed); SumAtMost(subs, Closed, Chosen);
  }

  predicate MainOred(m: MainPc) { m.MainCompleting? || m.MainFinished? }
  predicate MainOver(m: MainPc) { m.MainFinished? && m.completer }
  function MainOne(m: MainPc): Tally {
    Tally(0, 0, 0, Bit(m.MainCompleting? || MainOver(m)),
          Bit((m.MainCompleting? && !m.stage.Enter?) || MainOver(m)),
          Bit((m.MainCompleting? && m.stage.UserDoneRan?) || MainOver(m)),
          Bit(MainOver(m)))
  }

  // ---- the invariant ----

  predicate Launched(s: State) {
    && s.launched <= |s.subs|
    && forall k :: 0 <= k < |s.subs| ==> (s.subs[k].Unlaunched? <==> k >= s.launched)
  }

  /** What the shared fields say about n sub calls whose tally is `c`. */
  predicate Books(sh: Shared, c: Tally, n: nat) {
    var m := MainOne(sh.main);
    && 1 <= n < MSB
    && 1 <= sh.failLimit <= n
    && c.added <= n
    && sh.word == c.added + (if MainOred(sh.main) then MSB else 0)
    && sh.fails == c.failed
    && sh.broadcasts == Bit(sh.fails >= sh.failLimit)
    && (sh.id.Unlocked? <==> sh.main.Idle?)
    && c.chosen + m.chosen == Bit(sh.word == n + MSB)
    && sh.completions == c.entered + m.entered
    && sh.userDones == c.ranDone + m.ranDone
    && sh.closes == c.closed + m.closed
    && (sh.id.Destroyed? <==> sh.closes > 0)
    && (sh.freed ==> sh.userDones > 0)
    && (c.added == n && sh.main.Idle? ==> c.notifying > 0)
  }

  predicate Inv(s: State) { Launched(s) && Books(s.sh, TallyOf(s.subs), |s.subs|) }

  lemma InitInv(n: nat, failLimit: nat)
    requires 1 <= failLimit <= n < MSB
    ensures Inv(Init(n, failLimit))
  {
    TallyFresh(Init(n, failLimit).subs);
  }

  lemma AddBooks(pc: SubPc, sh: Shared, c: Tally, d: Tally, n: nat)
    requires pc.Adding? && Books(sh, c, n) && c.added < n
    requires Plus(d, One(pc)) == Plus(c, One(SubAfter(pc, sh, n, Add)))
    ensures Books(SharedAfter(pc, sh, Add), d, n)
  {
    assert sh.word % MSB == c.added && (sh.word + 1) % WORD == sh.word + 1;
  }

  function StageTally(c: Tally, stage: Stage): Tally {
    match stage
    case Enter => c.(entered := c.entered + 1)
    case Merged => c.(ranDone := c.ranDone + 1)
    case UserDoneRan => c.(closed := c.closed + 1)
  }

  lemma StageBooks(sh: Shared, c: Tally, n: nat, stage: Stage)
    requires Books(sh, c, n) && Ordered(StageTally(c, stage))
    ensures Books(CompleterStep(sh, stage), StageTally(c, stage), n)
  {}

  lemma CompleteBooks(pc: SubPc, sh: Shared, c: Tally, d: Tally, n: nat)
    requires pc.Completing? && Books(sh, c, n) && Ordered(d)
    requires Plus(d, One(pc)) == Plus(c, One(SubAfter(pc, sh, n, Complete)))
    ensures Books(SharedAfter(pc, sh, Complete), d, n)
  {
    assert d == StageTally(c, pc.stage);
    StageBooks(sh, c, n, pc.stage);
  }

  lemma CountBooks(pc: SubPc, sh: Shared, c: Tally, d: Tally, n: nat)
    requires pc.Counting? && Books(sh, c, n)
    requires Plus(d, One(pc)) == Plus(c, One(SubAfter(pc, sh, n, Count)))
    ensures Books(SharedAfter(pc, sh, Count), d, n)
  {
    if pc.failed { assert d == c.(failed := c.failed + 1); } else { assert d == c; }
  }

  lemma NotifyBooks(pc: SubPc, sh: Shared, c: Tally, d: Tally, n: nat)
    requires pc.Notifying? && Books(sh, c, n)
    requires Plus(d, One(pc)) == Plus(c, One(SubAfter(pc, sh, n, Notify)))
    ensures Books(SharedAfter(pc, sh, Notify), d, n)
  {
    assert d == c.(notifying := d.notifying);
  }

  lemma SubBooks(pc: SubPc, sh: Shared, st: SubStep, c: Tally, d: Tally, n: nat)
    requires SubEnabled(pc, st) && Books(sh, c, n) && Ordered(d)
    requires Added(pc) == 0 ==> c.added < n
    requires Plus(d, One(pc)) == Plus(c, One(SubAfter(pc, sh, n, st)))
    ensures Books(SharedAfter(pc, sh, st), d, n)
  {
    match st
    case Add => AddBooks(pc, sh, c, d, n);
    case Complete => CompleteBooks(pc, sh, c, d, n);
    case Count => CountBooks(pc, sh, c, d, n);
    case Notify => NotifyBooks(pc, sh, c, d, n);
    case _ => assert d == c;
  }

  lemma MainCompleteBooks(sh: Shared, c: Tally, n: nat)
    requires sh.main.MainCompleting? && Books(sh, c, n)
    ensures Books(MainAfter(sh, n, MainComplete), c, n)
  {}

  lemma MainBooks(sh: Shared, st: MainStep, c: Tally, n: nat)
    requires MainEnabled(sh, st) && Books(sh, c, n)
    ensures Books(MainAfter(sh, n, st), c, n)
  {
    if st.MainComplete? { MainCompleteBooks(sh, c, n); } else { assert sh.word % MSB == c.added; }
  }

  lemma LaunchedStep(s: State, st: Step)
    requires Launched(s) && Enabled(s, st)
    ensures Launched(Apply(s, st))
  {}

  lemma LaunchTally(subs: seq<SubPc>, i: nat)
    requires i < |subs| && subs[i].Unlaunched?
    ensures TallyOf(subs[i := InFlight]) == TallyOf(subs)
  {
    TallyUpdate(subs, i, InFlight);
  }

  lemma SubsBooks(subs: seq<SubPc>, sh: Shared, i: nat, st: SubStep)
    requires i < |subs| && SubEnabled(subs[i], st) && Books(sh, TallyOf(subs), |subs|)
    ensures Books(SharedAfter(subs[i], sh, st), TallyOf(subs[i := SubAfter(subs[i], sh, |subs|, st)]), |subs|)
  {
    var pc := SubAfter(subs[i], sh, |subs|, st);
    TallyUpdate(subs, i, pc);
    TallyOrdered(subs[i := pc]);
    if Added(subs[i]) == 0 { TallyMissing(subs, i); }
    SubBooks(subs[i], sh, st, TallyOf(subs), TallyOf(subs[i := pc]), |subs|);
  }

  lemma StepInv(s: State, st: Step)
    requires Inv(s) && Enabled(s, st)
    ensures Inv(Apply(s, st))
  {
    LaunchedStep(s, st);
    match st
    case Launch => LaunchTally(s.subs, s.launched);
    case OfSub(i, sub) => SubsBooks(s.subs, s.sh, i, sub);
    case OfMain(m) => MainBooks(s.sh, m, TallyOf(s.subs), |s.subs|);
  }

  lemma {:induction false} RunInv(s: State, steps: seq<Step>, t: State)
    requires Inv(s) && Runs(s, steps, t)
    ensures Inv(t) && |t.subs| == |s.subs| && t.sh.failLimit == s.sh.failLimit
    decreases |steps|
  {
    if steps != [] {
      StepInv(s, steps[0]);
      RunInv(Apply(s, steps[0]), steps[1..], t);
    }
  }

  lemma {:induction false} Reached(n: nat, failLimit: nat, steps: seq<Step>, t: State)
    requires 1 <= failLimit <= n < MSB
    requires Runs(Init(n, failLimit), steps, t)
    ensures Inv(t) && |t.subs| == n && t.sh.failLimit == failLimit && Ordered(TallyOf(t.subs))
  {
    InitInv(n, failLimit);
    RunInv(Init(n, failLimit), steps, t);
    TallyOrdered(t.subs);
  }

  /**
   * At most one party ever runs OnComplete, and only after every sub call added itself and
   * the main call ran; by then _current_fail is the number of failed sub calls. The others
   * are cancelled by at most one sub call, exactly when fail_limit failures were counted.
   */
  lemma {:induction false} AtMostOneCompletion(n: nat, failLimit: nat, steps: seq<Step>, t: State)
    requires 1 <= failLimit <= n < MSB
    requires Runs(Init(n, failLimit), steps, t)
    ensures t.sh.closes <= t.sh.userDones <= t.sh.completions <= 1
    ensures t.sh.completions == 1 ==> TallyOf(t.subs).added == n && MainOred(t.sh.main)
    ensures t.sh.fails == TallyOf(t.subs).failed
    ensures t.sh.broadcasts <= 1 && (t.sh.broadcasts == 1 <==> t.sh.fails >= failLimit)
  {
    Reached(n, failLimit, steps, t);
  }

  /**
   * In no reachable state is a step that dereferences the object enabled after the object
   * was destroyed: the object may go away at any moment after OnComplete ran user code.
   */
  lemma {:induction false} NoUseAfterFree(n: nat, failLimit: nat, steps: seq<Step>, t: State, next: Step)
    requires 1 <= failLimit <= n < MSB
    requires Runs(Init(n, failLimit), steps, t)
    requires Enabled(t, next) && Touches(t, next)
    ensures !t.sh.freed
  {
    Reached(n, failLimit, steps, t);
    match next
    case Launch => TallyMissing(t.subs, t.launched);
    case OfSub(i, sub) =>
      if sub.Complete? {
        SumBelow(t.subs, RanDone, Chosen, i);
      } else {
        TallyMissing(t.subs, i);
      }
    case OfMain(_) =>
  }

  // ---- progress ----

  /** Only the environment's optional steps (timeout, cancel, destruction) remain. */
  ghost predicate Quiescent(s: State) {
    forall st :: Enabled(s, st) ==> st.OfMain? && (st.m.Raise? || st.m.Free?)
  }

  lemma {:induction false} SubsDone(s: State)
    requires Launched(s) && Quiescent(s)
    ensures forall k :: 0 <= k < |s.subs| ==> s.subs[k].Finished?
  {
    assert !Enabled(s, Launch);
    forall k | 0 <= k < |s.subs| ensures s.subs[k].Finished? {
      assert !Enabled(s, OfSub(k, Return(false))) && !Enabled(s, OfSub(k, Count)) && !Enabled(s, OfSub(k, CancelOne));
      assert !Enabled(s, OfSub(k, Save)) && !Enabled(s, OfSub(k, Add));
      assert !Enabled(s, OfSub(k, Notify)) && !Enabled(s, OfSub(k, Complete));
    }
  }

  lemma {:induction false} MainDone(s: State)
    requires Quiescent(s)
    ensures s.sh.main.Idle? || s.sh.main.MainFinished?
  {
    assert !Enabled(s, OfMain(MainLoad(0))) && !Enabled(s, OfMain(MainCancelOne)) && !Enabled(s, OfMain(MainSave));
    assert !Enabled(s, OfMain(Or)) && !Enabled(s, OfMain(MainComplete));
  }

  /** No run gets stuck: where nothing is left to do the RPC completed exactly once. */
  lemma {:induction false} QuiescentMeansCompleted(n: nat, failLimit: nat, steps: seq<Step>, t: State)
    requires 1 <= failLimit <= n < MSB
    requires Runs(Init(n, failLimit), steps, t)
    requires Quiescent(t)
    ensures t.sh.completions == 1 && t.sh.userDones == 1 && t.sh.closes == 1 && t.sh.id.Destroyed?
  {
    Reached(n, failLimit, steps, t);
    SubsDone(t);
    MainDone(t);
    TallyFinished(t.subs);
  }

  // ---- every run is finite ----

  function StageRank(st: Stage): nat {
    match st case Enter => 3 case Merged => 2 case UserDoneRan => 1
  }

  function Rank(pc: SubPc, n: nat): nat {
    match pc
    case Unlaunched => n + 12
    case InFlight => n + 11
    case Counting(_) => n + 10
    case Cancelling(k) => (if k <= n then n - k else 0) + 8
    case Saving(_) => 7
    case Adding(_) => 6
    case Notifying(_) => 1
    case Completing(_, st) => StageRank(st)
    case Finished(_, _) => 0
  }

  function MainRank(m: MainPc, n: nat): nat {
    match m
    case Idle => n + 9
    case Entered(_) => n + 8
    case MainCancelling(k) => (if k <= n then n - k else 0) + 6
    case MainSaving => 5
    case Oring => 4
    case MainCompleting(st) => StageRank(st)
    case MainFinished(_) => 0
  }

  function Measure(s: State): nat {
    var n := |s.subs|;
    Sum(s.subs, pc => Rank(pc, n)) + MainRank(s.sh.main, n) + Bit(!s.sh.freed)
  }

  lemma SubRankDown(pc: SubPc, sh: Shared, n: nat, st: SubStep)
    requires SubEnabled(pc, st) && (sh.id.Unlocked? ==> sh.main.Idle?)
    ensures Rank(SubAfter(pc, sh, n, st), n) < Rank(pc, n)
    ensures MainRank(SharedAfter(pc, sh, st).main, n) <= MainRank(sh.main, n)
    ensures SharedAfter(pc, sh, st).freed == sh.freed
  {}

  lemma MainRankDown(sh: Shared, n: nat, st: MainStep)
    requires MainEnabled(sh, st) && (sh.id.Unlocked? ==> sh.main.Idle?)
    ensures var t := MainAfter(sh, n, st);
      MainRank(t.main, n) + Bit(!t.freed) < MainRank(sh.main, n) + Bit(!sh.freed)
  {}

  lemma StepDecreases(s: State, st: Step)
    requires Inv(s) && Enabled(s, st)
    ensures Measure(Apply(s, st)) < Measure(s)
  {
    var n := |s.subs|;
    var f := pc => Rank(pc, n);
    match st
    case Launch =>
      SumUpdate(s.subs, s.launched, InFlight, f);
    case OfSub(i, sub) =>
      SubRankDown(s.subs[i], s.sh, n, sub);
      SumUpdate(s.subs, i, SubAfter(s.subs[i], s.sh, n, sub), f);
    case OfMain(m) => MainRankDown(s.sh, n, m);
  }

  lemma {:induction false} RunsAreBounded(s: State, steps: seq<Step>, t: State)
    requires Inv(s) && Runs(s, steps, t)
    ensures |steps| + Measure(t) <= Measure(s)
    decreases |steps|
  {
    if steps != [] {
      StepInv(s, steps[0]);
      StepDecreases(s, steps[0]);
      RunsAreBounded(Apply(s, steps[0]), steps[1..], t);
    }
  }

  /**
   * Whatever the interleaving, a run has at most (n + 12) * n + n + 10 steps; with
   * QuiescentMeansCompleted this is termination with exactly one completion.
   */
  lemma {:induction false} RunLength(n: nat, failLimit: nat, steps: seq<Step>, t: State)
    requires 1 <= failLimit <= n < MSB
    requires Runs(Init(n, failLimit), steps, t)
    ensures |steps| <= (n + 12) * n + n + 10
  {
    var s := Init(n, failLimit);
    InitInv(n, failLimit);
    RunsAreBounded(s, steps, t);
    SumAll(s.subs, pc => Rank(pc, n), n + 12);
  }
}

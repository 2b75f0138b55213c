/**
 * Calls racing through the circuit breaker (brpc/brpc/circuit_breaker.cpp): every load, addition and
 * exchange of the counters of the first window, of _broken and of _isolated_times is one step of one
 * thread; steps interleave freely. Relaxed loads of a counter may be stale. What the averages say
 * about a call outside the first window is arbitrary.
 */
module CircuitBreakerRaces {
  import opened CircuitBreaker

  /** One window: the two counters, how many calls were judged by count and how many by the averages, and
      the verdicts on the errors among the former, by thread, in the order of their additions. */
  datatype Window = Window(samples: nat, errors: nat, judged: nat, averaged: nat, verdicts: seq<(nat, bool)>)

  /** Where a call is inside OnCallEnd; short tells which window it is asking. */
  datatype Pc =
    | Entered
    | Loading(short: bool)      // about to load the number of samples
    | Adding(short: bool)       // about to add to it
    | Counting(short: bool)     // judged by count: about to add to the errors
    | Marking                   // about to exchange _broken
    | Noting                    // about to add to _isolated_times
    | Answered(ok: bool)

  /** episodes: how often the exchange broke a closed breaker; reopened: how often a reset closed it. */
  datatype State = State(codes: seq<int>, pcs: seq<Pc>, long: Window, short: Window,
                         broken: bool, times: nat, episodes: nat, reopened: nat)

  datatype Step =
    | Enter(code: int) | Test(i: nat)
    | Load(i: nat, seen: nat, healthy: bool) | Add(i: nat, healthy: bool) | Count(i: nat)
    | Mark(i: nat) | Note(i: nat)
    | Clear(short: bool)        // Reset of one window
    | Reopen                    // the last store of Reset

  const EMPTY := Window(0, 0, 0, 0, [])
  const INIT := State([], [], EMPTY, EMPTY, false, 0, 0, 0)

  /** The windows' sizes and tolerated errors. */
  datatype Sizes = Sizes(long: Config, short: Config)

  function Asked(s: State, short: bool): Window { if short then s.short else s.long }

  function SizeOf(z: Sizes, short: bool): Config { if short then z.short else z.long }

  predicate At(s: State, i: nat) { i < |s.pcs| && i < |s.codes| }

  predicate Enabled(s: State, st: Step) {
    match st
    case Enter(_) => true
    case Test(i) => At(s, i) && s.pcs[i].Entered?
    case Load(i, seen, _) => At(s, i) && s.pcs[i].Loading? && seen <= Asked(s, s.pcs[i].short).samples
    case Add(i, _) => At(s, i) && s.pcs[i].Adding?
    case Count(i) => At(s, i) && s.pcs[i].Counting?
    case Mark(i) => At(s, i) && s.pcs[i].Marking?
    case Note(i) => At(s, i) && s.pcs[i].Noting?
    case Clear(_) => true
    case Reopen => true
  }

  /** The call goes on with a window's verdict: the long window first, the short one only if it agrees. */
  function Judge(ok: bool, short: bool): Pc {
    if !ok then Marking else if short then Answered(true) else Loading(true)
  }

  function Moves(s: State, i: nat, pc: Pc): State
    requires i < |s.pcs|
  {
    s.(pcs := s.pcs[i := pc])
  }

  function Updates(s: State, short: bool, w: Window): State { if short then s.(short := w) else s.(long := w) }

  function Sampled(w: Window, size: nat): Window {
    if w.samples < size then w.(samples := w.samples + 1, judged := w.judged + 1)
    else w.(samples := w.samples + 1, averaged := w.averaged + 1)
  }

  function Counted(w: Window, i: nat, tolerated: nat): Window {
    w.(errors := w.errors + 1, verdicts := w.verdicts + [(i, w.errors < tolerated)])
  }

  function Apply(z: Sizes, s: State, st: Step): State
    requires Enabled(s, st)
  {
    match st
    case Enter(code) => s.(codes := s.codes + [code], pcs := s.pcs + [Entered])
    case Test(i) =>
      Moves(s, i, if s.codes[i] == ELIMIT then Answered(true) else if s.broken then Answered(false) else Loading(false))
    case Load(i, seen, healthy) =>
      var short := s.pcs[i].short;
      if seen < SizeOf(z, short).window then Moves(s, i, Adding(short))
      else
        var w := Asked(s, short);
        Moves(Updates(s, short, w.(averaged := w.averaged + 1)), i, Judge(healthy, short))
    case Add(i, healthy) =>
      var short := s.pcs[i].short;
      var w, size := Asked(s, short), SizeOf(z, short).window;
      Moves(Updates(s, short, Sampled(w, size)), i,
            if w.samples >= size then Judge(healthy, short)
            else if s.codes[i] != 0 then Counting(short)
            else Judge(true, short))
    case Count(i) =>
      var short := s.pcs[i].short;
      var w, tolerated := Asked(s, short), Tolerated(SizeOf(z, short));
      Moves(Updates(s, short, Counted(w, i, tolerated)), i, Judge(w.errors < tolerated, short))
    case Mark(i) =>
      if s.broken then Moves(s, i, Answered(false))
      else Moves(s.(broken := true, episodes := s.episodes + 1), i, Noting)
    case Note(i) => Moves(s.(times := s.times + 1), i, Answered(false))
    case Clear(short) =>
      var w := Asked(s, short);
      if w.samples < SizeOf(z, short).window then Updates(s, short, w.(samples := 0, errors := 0)) else s
    case Reopen => s.(broken := false, reopened := s.reopened + if s.broken then 1 else 0)
  }

  predicate Runs(z: Sizes, s: State, steps: seq<Step>, t: State)
    decreases |steps|
  {
    if steps == [] then s == t else Enabled(s, steps[0]) && Runs(z, Apply(z, s, steps[0]), steps[1..], t)
  }

  predicate NoClear(steps: seq<Step>) { forall k :: 0 <= k < |steps| ==> !steps[k].Clear? }

  predicate NoReopen(steps: seq<Step>) { forall k :: 0 <= k < |steps| ==> !steps[k].Reopen? }

  // ---- judging by count ----

  function Min(a: nat, b: nat): nat { if a < b then a else b }

  /** At most window calls are judged by count, and of their errors exactly the first ones accepted. */
  predicate WindowOk(w: Window, c: Config) {
    && w.judged == Min(w.samples, c.window) && |w.verdicts| == w.errors
    && (w.averaged > 0 ==> w.samples >= c.window)
    && forall k :: 0 <= k < |w.verdicts| ==> w.verdicts[k].1 == (k < Tolerated(c))
  }

  /** The call will answer false, or has. */
  predicate Refused(pc: Pc) { pc.Marking? || pc.Noting? || pc == Answered(false) }

  /** Whoever was refused by count is refused. */
  predicate RefusedOk(w: Window, pcs: seq<Pc>) {
    forall k :: 0 <= k < |w.verdicts| && !w.verdicts[k].1 ==> w.verdicts[k].0 < |pcs| && Refused(pcs[w.verdicts[k].0])
  }

  predicate CountOk(z: Sizes, s: State) {
    && WindowOk(s.long, z.long) && WindowOk(s.short, z.short)
    && RefusedOk(s.long, s.pcs) && RefusedOk(s.short, s.pcs)
  }

  lemma {:induction false} RefusedMoves(w: Window, pcs: seq<Pc>, i: nat, pc: Pc)
    requires RefusedOk(w, pcs) && i < |pcs| && (Refused(pcs[i]) ==> Refused(pc))
    ensures RefusedOk(w, pcs[i := pc])
  {}

  lemma {:induction false} CountedOk(w: Window, c: Config, pcs: seq<Pc>, i: nat, short: bool)
    requires WindowOk(w, c) && RefusedOk(w, pcs) && i < |pcs| && !Refused(pcs[i])
    ensures WindowOk(Counted(w, i, Tolerated(c)), c)
    ensures RefusedOk(Counted(w, i, Tolerated(c)), pcs[i := Judge(w.errors < Tolerated(c), short)])
  {}

  /** A step of a call moves that call only. */
  lemma {:induction false} OneMoves(z: Sizes, s: State, st: Step)
    requires Enabled(s, st) && !st.Enter? && !st.Clear? && !st.Reopen?
    ensures |Apply(z, s, st).pcs| == |s.pcs| && Apply(z, s, st).pcs == s.pcs[st.i := Apply(z, s, st).pcs[st.i]]
  {}

  lemma {:induction false} CountedStep(z: Sizes, s: State, st: Step)
    requires CountOk(z, s) && Enabled(s, st) && st.Count?
    ensures CountOk(z, Apply(z, s, st))
  {
    var i, short := st.i, s.pcs[st.i].short;
    OneMoves(z, s, st);
    CountedOk(Asked(s, short), SizeOf(z, short), s.pcs, i, short);
    RefusedMoves(Asked(s, !short), s.pcs, i, Apply(z, s, st).pcs[i]);
  }

  /** All other steps of a call leave the verdicts as they are. */
  lemma {:induction false} WindowsStay(z: Sizes, s: State, st: Step)
    requires CountOk(z, s) && Enabled(s, st) && !st.Enter? && !st.Clear? && !st.Reopen? && !st.Count?
    ensures var t := Apply(z, s, st);
      && WindowOk(t.long, z.long) && WindowOk(t.short, z.short)
      && t.long.verdicts == s.long.verdicts && t.short.verdicts == s.short.verdicts
  {}

  lemma {:induction false} RefusedStay(z: Sizes, s: State, st: Step)
    requires Enabled(s, st) && !st.Enter? && !st.Clear? && !st.Reopen? && !st.Count?
    ensures Refused(s.pcs[st.i]) ==> Refused(Apply(z, s, st).pcs[st.i])
  {}

  lemma {:induction false} CountStep(z: Sizes, s: State, st: Step)
    requires CountOk(z, s) && Enabled(s, st) && !st.Clear?
    ensures CountOk(z, Apply(z, s, st))
  {
    if st.Count? {
      CountedStep(z, s, st);
    } else if !st.Enter? && !st.Reopen? {
      var pc := Apply(z, s, st).pcs[st.i];
      OneMoves(z, s, st);
      WindowsStay(z, s, st);
      RefusedStay(z, s, st);
      RefusedMoves(s.long, s.pcs, st.i, pc);
      RefusedMoves(s.short, s.pcs, st.i, pc);
    }
  }

  lemma {:induction false} CountRun(z: Sizes, s: State, steps: seq<Step>, t: State)
    requires CountOk(z, s) && Runs(z, s, steps, t) && NoClear(steps)
    ensures CountOk(z, t)
    decreases |steps|
  {
    if steps != [] {
      CountStep(z, s, steps[0]);
      CountRun(z, Apply(z, s, steps[0]), steps[1..], t);
    }
  }

  /**
   * Until a window is cleared, under any interleaving: the calls judged by count are the first
   * window_size additions, the averages judge only after these, the k-th error among them is accepted
   * iff k is below the tolerated share, and whoever was refused answers false.
   */
  lemma {:induction false} FirstWindowRaces(z: Sizes, steps: seq<Step>, t: State, short: bool)
    requires Runs(z, INIT, steps, t) && NoClear(steps)
    ensures var w, c := Asked(t, short), SizeOf(z, short);
      && w.judged == Min(w.samples, c.window) && |w.verdicts| == w.errors
      && (w.averaged > 0 ==> w.judged == c.window)
      && (forall k :: 0 <= k < |w.verdicts| ==> w.verdicts[k].1 == (k < Tolerated(c)))
      && (forall k :: 0 <= k < |w.verdicts| && !w.verdicts[k].1 && w.verdicts[k].0 < |t.pcs| && t.pcs[w.verdicts[k].0].Answered?
            ==> !t.pcs[w.verdicts[k].0].ok)
  {
    CountRun(z, INIT, steps, t);
  }

  // ---- after the breaker broke ----

  /** The call has not looked at _broken yet, or was answered by it. */
  predicate Late(pc: Pc, code: int) { pc.Entered? || (pc.Answered? && pc.ok == (code == ELIMIT)) }

  predicate LateAt(s: State, i: nat) { At(s, i) && Late(s.pcs[i], s.codes[i]) }

  lemma {:induction false} LateStep(z: Sizes, s: State, st: Step, i: nat)
    requires s.broken && |s.codes| == |s.pcs| && Enabled(s, st) && !st.Reopen? && (i < |s.pcs| ==> LateAt(s, i))
    ensures var t := Apply(z, s, st);
      t.broken && |t.codes| == |t.pcs| && |s.pcs| <= |t.pcs| && (i < |t.pcs| ==> LateAt(t, i))
  {}

  /**
   * From a moment when the breaker is broken until it is reopened: calls that had not passed the test
   * of _broken, and all calls that come later, answer true iff they ended with ELIMIT.
   */
  lemma {:induction false} NoLateRecovery(z: Sizes, s: State, steps: seq<Step>, t: State, i: nat)
    requires s.broken && |s.codes| == |s.pcs| && Runs(z, s, steps, t) && NoReopen(steps)
    requires i < |s.pcs| ==> s.pcs[i].Entered?
    ensures t.broken && |t.codes| == |t.pcs|
    ensures i < |t.pcs| && t.pcs[i].Answered? ==> (t.pcs[i].ok <==> t.codes[i] == ELIMIT)
  {
    LateRun(z, s, steps, t, i);
  }

  lemma {:induction false} LateRun(z: Sizes, s: State, steps: seq<Step>, t: State, i: nat)
    requires s.broken && |s.codes| == |s.pcs| && Runs(z, s, steps, t) && NoReopen(steps) && (i < |s.pcs| ==> LateAt(s, i))
    ensures t.broken && |t.codes| == |t.pcs| && (i < |t.pcs| ==> LateAt(t, i))
    decreases |steps|
  {
    if steps != [] {
      LateStep(z, s, steps[0], i);
      LateRun(z, Apply(z, s, steps[0]), steps[1..], t, i);
    }
  }

  /** What call i, a success past the test, can still do after call j broke the breaker. */
  function Overtaken(z: Sizes, s: State, i: nat, j: nat): seq<Step> {
    [Mark(j), Note(j), Load(i, s.short.samples, true)] + if s.short.samples < z.short.window then [Add(i, true)] else []
  }

  /** A call already past the test may still answer true after another one was answered false. */
  lemma {:induction false} PassedMayAnswerTrue(z: Sizes, s: State, i: nat, j: nat) returns (t: State)
    requires At(s, i) && At(s, j) && s.pcs[i] == Loading(true) && s.pcs[j] == Marking && s.codes[i] == 0 && !s.broken
    ensures Runs(z, s, Overtaken(z, s, i, j), t) && At(t, i) && At(t, j)
    ensures t.broken && t.pcs[j] == Answered(false) && t.pcs[i] == Answered(true)
  {
    var steps := Overtaken(z, s, i, j);
    var a := Apply(z, s, Mark(j));
    var b := Apply(z, a, Note(j));
    var c := Apply(z, b, steps[2]);
    t := if s.short.samples < z.short.window then Apply(z, c, Add(i, true)) else c;
    assert Runs(z, c, steps[3..], t);
    assert steps[2..][1..] == steps[3..] && steps[1..][1..] == steps[2..];
    assert Runs(z, b, steps[2..], t);
    assert Runs(z, a, steps[1..], t);
  }

  // ---- counting the episodes ----

  function Noters(pcs: seq<Pc>): nat {
    if pcs == [] then 0 else Noters(pcs[..|pcs| - 1]) + if pcs[|pcs| - 1].Noting? then 1 else 0
  }

  lemma {:induction false} NotersMove(pcs: seq<Pc>, i: nat, pc: Pc)
    requires i < |pcs|
    ensures Noters(pcs[i := pc]) + (if pcs[i].Noting? then 1 else 0) == Noters(pcs) + if pc.Noting? then 1 else 0
    decreases |pcs|
  {
    var n, u := |pcs| - 1, pcs[i := pc];
    if i == n {
      assert u[..n] == pcs[..n];
    } else {
      assert u[..n] == pcs[..n][i := pc];
      NotersMove(pcs[..n], i, pc);
    }
  }

  predicate EpisodesOk(s: State) {
    && s.times + Noters(s.pcs) == s.episodes && s.episodes == s.reopened + (if s.broken then 1 else 0)
  }

  /** Only marking begins an episode, and only noting counts one. */
  lemma {:induction false} MarkOrNote(z: Sizes, s: State, st: Step)
    requires Enabled(s, st) && !st.Enter? && !st.Clear? && !st.Reopen?
    ensures var t := Apply(z, s, st); var began := st.Mark? && !s.broken;
      && t.reopened == s.reopened && t.broken == (s.broken || began)
      && t.episodes == s.episodes + (if began then 1 else 0) && t.times == s.times + (if st.Note? then 1 else 0)
      && s.pcs[st.i].Noting? == st.Note? && t.pcs[st.i].Noting? == began
  {}

  lemma {:induction false} EpisodesMove(z: Sizes, s: State, st: Step)
    requires EpisodesOk(s) && Enabled(s, st) && !st.Enter? && !st.Clear? && !st.Reopen?
    ensures EpisodesOk(Apply(z, s, st))
  {
    OneMoves(z, s, st);
    MarkOrNote(z, s, st);
    NotersMove(s.pcs, st.i, Apply(z, s, st).pcs[st.i]);
  }

  lemma {:induction false} EpisodesStep(z: Sizes, s: State, st: Step)
    requires EpisodesOk(s) && Enabled(s, st)
    ensures EpisodesOk(Apply(z, s, st))
  {
    if st.Enter? {
      assert (s.pcs + [Entered])[..|s.pcs|] == s.pcs;
    } else if !st.Clear? && !st.Reopen? {
      EpisodesMove(z, s, st);
    }
  }

  /**
   * Under any interleaving of calls and resets, every episode of being broken is counted once in
   * _isolated_times, by the one call whose exchange began it; there is one more episode than reopenings
   * iff the breaker is broken.
   */
  lemma {:induction false} EpisodesCounted(z: Sizes, s: State, steps: seq<Step>, t: State)
    requires EpisodesOk(s) && Runs(z, s, steps, t)
    ensures EpisodesOk(t)
    decreases |steps|
  {
    if steps != [] {
      EpisodesStep(z, s, steps[0]);
      EpisodesCounted(z, Apply(z, s, steps[0]), steps[1..], t);
    }
  }
}

/**
 * The work stealing queue of the scheduler (brpc/bthread/work_stealing_queue.h): one owner pushes and
 * pops at the bottom, any number of thieves steal at the top. Every atomic load, store and
 * compare-exchange is one step; steps interleave freely. The loads of _top that are not preceded by a
 * fence may return any earlier value, and so may the first load of _bottom by a thief. Capacities are
 * powers of two, so masking an index is taking its remainder. pop() reads the item in the step that
 * loads _top: only the owner itself stores into the buffer.
 */
module WorkStealing {
  import opened Bytes

  type Item = nat

  /** The owner inside push() or pop(). */
  datatype Owner =
    | Free
    | Writing(x: Item)        // push: not full, about to store the item
    | Publishing(x: Item)     // push: about to store _bottom
    | Lowering                // pop: about to store _bottom - 1
    | Lowered                 // pop: about to load _top behind the fence
    | Competing(x: Item)      // pop: one item left, about to compare-exchange
    | Restoring               // pop: about to store the old _bottom

  /** A thief inside steal(). */
  datatype Thief =
    | Away
    | Loaded(t: nat)
    | Looping(t: nat)         // about to load _bottom behind the fence
    | Passed(t: nat)          // about to read the item
    | Ready(t: nat, x: Item)  // about to compare-exchange

  datatype Shared = Shared(buf: seq<Item>, top: nat, bottom: nat, owner: Owner)

  /** pushed: items whose push returned true; taken: items returned by pop or steal. */
  datatype State = State(sh: Shared, thieves: seq<Thief>, pushed: seq<Item>, taken: seq<Item>)

  datatype Step =
    | Push(x: Item, seen: nat) | Write | Publish
    | Pop(seen: nat) | Lower | Load | Compete | Restore
    | Steal(i: nat, seen: nat) | Peek(i: nat, seen: nat) | Check(i: nat) | Read(i: nat) | Exchange(i: nat)

  function Init(cap: nat, n: nat): State {
    State(Shared(seq(cap, _ => 0), 1, 1, Free), seq(n, _ => Away), [], [])
  }

  predicate Enabled(s: State, st: Step) {
    match st
    case Push(_, seen) => s.sh.owner.Free? && seen <= s.sh.top
    case Write => s.sh.owner.Writing?
    case Publish => s.sh.owner.Publishing?
    case Pop(seen) => s.sh.owner.Free? && seen <= s.sh.top
    case Lower => s.sh.owner.Lowering?
    case Load => s.sh.owner.Lowered?
    case Compete => s.sh.owner.Competing?
    case Restore => s.sh.owner.Restoring?
    case Steal(i, seen) => i < |s.thieves| && s.thieves[i].Away? && seen <= s.sh.top
    case Peek(i, _) => i < |s.thieves| && s.thieves[i].Loaded?
    case Check(i) => i < |s.thieves| && s.thieves[i].Looping?
    case Read(i) => i < |s.thieves| && s.thieves[i].Passed?
    case Exchange(i) => i < |s.thieves| && s.thieves[i].Ready?
  }

  predicate OfOwner(st: Step) {
    st.Push? || st.Write? || st.Publish? || st.Pop? || st.Lower? || st.Load? || st.Compete? || st.Restore?
  }

  function At(sh: Shared, p: nat): Item
    requires sh.buf != []
  {
    sh.buf[p % |sh.buf|]
  }

  function OwnerStep(sh: Shared, st: Step): Shared
    requires sh.buf != [] && OfOwner(st)
    requires Enabled(State(sh, [], [], []), st)
  {
    var cap := |sh.buf|;
    match st
    case Push(x, seen) => if sh.bottom >= seen + cap then sh else sh.(owner := Writing(x))
    case Write => sh.(buf := sh.buf[sh.bottom % cap := sh.owner.x], owner := Publishing(sh.owner.x))
    case Publish => sh.(bottom := sh.bottom + 1, owner := Free)
    case Pop(seen) => if seen >= sh.bottom then sh else sh.(owner := Lowering)
    case Lower => sh.(bottom := if sh.bottom == 0 then 0 else sh.bottom - 1, owner := Lowered)
    case Load =>
      if sh.top > sh.bottom then sh.(owner := Restoring)
      else if sh.top < sh.bottom then sh.(owner := Free)
      else sh.(owner := Competing(At(sh, sh.bottom)))
    case Compete => if sh.top == sh.bottom then sh.(top := sh.top + 1, owner := Restoring) else sh.(owner := Restoring)
    case Restore => sh.(bottom := sh.bottom + 1, owner := Free)
  }

  /** The item an owner's step takes out of the queue. */
  function OwnerTakes(sh: Shared, st: Step): seq<Item>
    requires sh.buf != []
  {
    if st.Load? && sh.top < sh.bottom then [At(sh, sh.bottom)]
    else if st.Compete? && sh.owner.Competing? && sh.top == sh.bottom then [sh.owner.x]
    else []
  }

  function ThiefStep(sh: Shared, th: Thief, st: Step): Thief
    requires sh.buf != [] && !OfOwner(st)
  {
    match st
    case Steal(_, seen) => Loaded(seen)
    case Peek(_, seen) => if th.Loaded? && th.t < seen then Looping(th.t) else Away
    case Check(_) => if th.Looping? && th.t < sh.bottom then Passed(th.t) else Away
    case Read(_) => if th.Passed? then Ready(th.t, At(sh, th.t)) else Away
    case Exchange(_) => if th.Ready? && sh.top != th.t then Looping(sh.top) else Away
  }

  predicate Wins(sh: Shared, th: Thief, st: Step) { st.Exchange? && th.Ready? && sh.top == th.t }

  /** Who acts in a step of a thief. */
  function Who(st: Step): nat
    requires !OfOwner(st)
  {
    match st
    case Steal(i, _) => i
    case Peek(i, _) => i
    case Check(i) => i
    case Read(i) => i
    case Exchange(i) => i
  }

  function Apply(s: State, st: Step): (t: State)
    requires s.sh.buf != [] && Enabled(s, st)
    ensures t.sh.buf != [] && |t.thieves| == |s.thieves|
  {
    if OfOwner(st) then
      State(OwnerStep(s.sh, st), s.thieves,
            if st.Publish? then s.pushed + [s.sh.owner.x] else s.pushed, s.taken + OwnerTakes(s.sh, st))
    else
      var th := s.thieves[Who(st)];
      var thieves := s.thieves[Who(st) := ThiefStep(s.sh, th, st)];
      if Wins(s.sh, th, st) then s.(sh := s.sh.(top := s.sh.top + 1), thieves := thieves, taken := s.taken + [th.x])
      else s.(thieves := thieves)
  }

  predicate Runs(s: State, steps: seq<Step>, t: State)
    requires s.sh.buf != []
    decreases |steps|
  {
    if steps == [] then s == t else Enabled(s, steps[0]) && Runs(Apply(s, steps[0]), steps[1..], t)
  }

  // ---- what the queue holds ----

  /** One past the last item: a pop that lowered _bottom has not taken anything yet. */
  function End(sh: Shared): nat {
    if sh.owner.Lowered? || sh.owner.Competing? || sh.owner.Restoring? then sh.bottom + 1 else sh.bottom
  }

  function Content(buf: seq<Item>, top: nat, end: nat): seq<Item>
    requires buf != [] && top <= end
  {
    seq(end - top, i requires 0 <= i < end - top => buf[(top + i) % |buf|])
  }

  predicate SharedOk(sh: Shared) {
    var cap := |sh.buf|;
    && cap > 0 && sh.top <= End(sh) <= sh.top + cap
    && (sh.owner.Writing? || sh.owner.Publishing? ==> sh.bottom < sh.top + cap)
    && (sh.owner.Publishing? ==> At(sh, sh.bottom) == sh.owner.x)
    && (sh.owner.Lowering? ==> sh.bottom > 0)
    && (sh.owner.Competing? ==> sh.top >= sh.bottom && At(sh, sh.bottom) == sh.owner.x)
    && (sh.owner.Restoring? ==> sh.top == sh.bottom + 1)
  }

  /** A thief that still can win holds the first item. */
  predicate ThiefOk(sh: Shared, th: Thief)
    requires sh.buf != []
  {
    match th
    case Away => true
    case Loaded(t) => t <= sh.top
    case Looping(t) => t <= sh.top
    case Passed(t) => t <= sh.top && (t == sh.top ==> t < End(sh))
    case Ready(t, x) => t <= sh.top && (t == sh.top ==> t < End(sh) && x == At(sh, t))
  }

  // ---- arithmetic of the ring ----

  /** Positions that share a slot are a whole capacity apart. */
  lemma {:induction false} SameSlot(a: nat, b: nat, cap: nat)
    requires cap > 0 && a < b && a % cap == b % cap
    ensures b >= a + cap
  {
    var q := b / cap - a / cap;
    assert b - a == q * cap;
    if q >= 1 { AtLeast(q, cap); } else { AtLeast(1 - q, cap); }
  }

  lemma {:induction false} ItemStays(buf: seq<Item>, p: nat, end: nat, x: Item)
    requires buf != [] && p < end < p + |buf|
    ensures buf[end % |buf| := x][p % |buf|] == buf[p % |buf|]
  {
    if p % |buf| == end % |buf| { SameSlot(p, end, |buf|); }
  }

  /** Storing behind the end does not touch the content. */
  lemma {:induction false} WriteBehind(buf: seq<Item>, top: nat, end: nat, x: Item)
    requires buf != [] && top <= end < top + |buf|
    ensures Content(buf[end % |buf| := x], top, end) == Content(buf, top, end)
  {
    var a, b := Content(buf[end % |buf| := x], top, end), Content(buf, top, end);
    forall i | 0 <= i < |a| ensures a[i] == b[i] { ItemStays(buf, top + i, end, x); }
  }

  lemma {:induction false} ContentEnds(buf: seq<Item>, top: nat, end: nat)
    requires buf != [] && top <= end
    ensures Content(buf, top, end + 1) == Content(buf, top, end) + [buf[end % |buf|]]
    ensures Content(buf, top, end + 1) == [buf[top % |buf|]] + Content(buf, top + 1, end + 1)
  {}

  function Items(sh: Shared): seq<Item>
    requires SharedOk(sh)
  {
    Content(sh.buf, sh.top, End(sh))
  }

  // ---- the owner ----

  lemma {:induction false} OwnerKeeps(sh: Shared, st: Step)
    requires SharedOk(sh) && OfOwner(st) && Enabled(State(sh, [], [], []), st)
    ensures SharedOk(OwnerStep(sh, st)) && |OwnerStep(sh, st).buf| == |sh.buf|
  {}

  lemma {:induction false} OwnerKeepsThief(sh: Shared, st: Step, th: Thief)
    requires SharedOk(sh) && OfOwner(st) && Enabled(State(sh, [], [], []), st) && ThiefOk(sh, th)
    ensures ThiefOk(OwnerStep(sh, st), th)
  {
    if st.Write? && th.Ready? && th.t == sh.top { ItemStays(sh.buf, th.t, sh.bottom, sh.owner.x); }
  }

  /**
   * Every step of the owner is an operation of a double-ended queue or none: publishing appends the
   * item, a successful pop removes the last one, all other steps leave the items as they are.
   */
  lemma {:induction false} OwnerRefines(sh: Shared, st: Step)
    requires SharedOk(sh) && OfOwner(st) && Enabled(State(sh, [], [], []), st)
    ensures SharedOk(OwnerStep(sh, st))
    ensures var next := Items(OwnerStep(sh, st));
      if st.Publish? then next == Items(sh) + [sh.owner.x] else Items(sh) == next + OwnerTakes(sh, st)
  {
    OwnerKeeps(sh, st);
    var cap := |sh.buf|;
    match st
    case Write => WriteBehind(sh.buf, sh.top, sh.bottom, sh.owner.x);
    case Publish => ContentEnds(sh.buf, sh.top, sh.bottom);
    case Load => if sh.top <= sh.bottom { ContentEnds(sh.buf, sh.top, sh.bottom); }
    case Compete => if sh.top == sh.bottom { ContentEnds(sh.buf, sh.top, sh.bottom); }
    case _ =>
  }

  // ---- the thieves ----

  function Taken(sh: Shared): Shared { sh.(top := sh.top + 1) }

  /** A thief that wins takes the first item, and the owner's bookkeeping survives it. */
  lemma {:induction false} WinRefines(sh: Shared, th: Thief)
    requires SharedOk(sh) && ThiefOk(sh, th) && th.Ready? && th.t == sh.top
    ensures SharedOk(Taken(sh)) && Items(sh) == [th.x] + Items(Taken(sh))
  {
    ContentEnds(sh.buf, sh.top, End(sh) - 1);
  }

  lemma {:induction false} WinKeepsThief(sh: Shared, th: Thief)
    requires SharedOk(sh) && ThiefOk(sh, th)
    ensures ThiefOk(Taken(sh), th)
  {}

  // ---- all together ----

  predicate ThievesOk(sh: Shared, thieves: seq<Thief>)
    requires sh.buf != []
  {
    forall i :: 0 <= i < |thieves| ==> ThiefOk(sh, thieves[i])
  }

  /** What was pushed is taken or still there, each item as often as it was pushed. */
  predicate Books(pushed: seq<Item>, taken: seq<Item>, items: seq<Item>) {
    multiset(pushed) == multiset(taken) + multiset(items)
  }

  predicate Inv(s: State) {
    SharedOk(s.sh) && ThievesOk(s.sh, s.thieves) && Books(s.pushed, s.taken, Items(s.sh))
  }

  lemma {:induction false} OwnerKeepsThieves(sh: Shared, st: Step, thieves: seq<Thief>)
    requires SharedOk(sh) && OfOwner(st) && Enabled(State(sh, [], [], []), st) && ThievesOk(sh, thieves)
    ensures ThievesOk(OwnerStep(sh, st), thieves)
  {
    forall i | 0 <= i < |thieves| ensures ThiefOk(OwnerStep(sh, st), thieves[i]) {
      OwnerKeepsThief(sh, st, thieves[i]);
    }
  }

  lemma {:induction false} WinKeepsThieves(sh: Shared, thieves: seq<Thief>)
    requires SharedOk(sh) && ThievesOk(sh, thieves)
    ensures ThievesOk(Taken(sh), thieves)
  {
    forall i | 0 <= i < |thieves| ensures ThiefOk(Taken(sh), thieves[i]) {
      WinKeepsThief(sh, thieves[i]);
    }
  }

  lemma {:induction false} OneLeaves(sh: Shared, thieves: seq<Thief>, k: nat)
    requires sh.buf != [] && ThievesOk(sh, thieves) && k < |thieves|
    ensures ThievesOk(sh, thieves[k := Away])
  {}

  lemma {:induction false} ThiefKeeps(sh: Shared, thieves: seq<Thief>, st: Step)
    requires SharedOk(sh) && ThievesOk(sh, thieves) && !OfOwner(st) && Enabled(State(sh, thieves, [], []), st)
    ensures ThievesOk(sh, thieves[Who(st) := ThiefStep(sh, thieves[Who(st)], st)])
  {}

  lemma {:induction false} BooksTake(pushed: seq<Item>, taken: seq<Item>, x: seq<Item>, items: seq<Item>, rest: seq<Item>)
    requires Books(pushed, taken, items) && (items == rest + x || items == x + rest)
    ensures Books(pushed, taken + x, rest)
  {}

  lemma {:induction false} BooksPush(pushed: seq<Item>, taken: seq<Item>, x: Item, items: seq<Item>)
    requires Books(pushed, taken, items)
    ensures Books(pushed + [x], taken, items + [x])
  {}

  lemma {:induction false} OwnerStepInv(s: State, st: Step)
    requires Inv(s) && Enabled(s, st) && OfOwner(st)
    ensures Inv(Apply(s, st))
  {
    OwnerKeepsThieves(s.sh, st, s.thieves);
    OwnerRefines(s.sh, st);
    var next := Items(OwnerStep(s.sh, st));
    if st.Publish? {
      BooksPush(s.pushed, s.taken, s.sh.owner.x, Items(s.sh));
      assert s.taken + [] == s.taken;
    } else {
      BooksTake(s.pushed, s.taken, OwnerTakes(s.sh, st), Items(s.sh), next);
    }
  }

  lemma {:induction false} ThiefStepInv(s: State, st: Step)
    requires Inv(s) && Enabled(s, st) && !OfOwner(st)
    ensures Inv(Apply(s, st))
  {
    var th := s.thieves[Who(st)];
    if Wins(s.sh, th, st) {
      WinRefines(s.sh, th);
      WinKeepsThieves(s.sh, s.thieves);
      OneLeaves(Taken(s.sh), s.thieves, Who(st));
      BooksTake(s.pushed, s.taken, [th.x], Items(s.sh), Items(Taken(s.sh)));
    } else {
      ThiefKeeps(s.sh, s.thieves, st);
    }
  }

  lemma {:induction false} RunInv(s: State, steps: seq<Step>, t: State)
    requires Inv(s) && Runs(s, steps, t)
    ensures Inv(t)
    decreases |steps|
  {
    if steps != [] {
      if OfOwner(steps[0]) { OwnerStepInv(s, steps[0]); } else { ThiefStepInv(s, steps[0]); }
      RunInv(Apply(s, steps[0]), steps[1..], t);
    }
  }

  /**
   * With one owner and any number of thieves, under any interleaving: every pushed item is taken at
   * most once, and when the owner is out of the queue and the queue is empty, all were taken.
   */
  lemma {:induction false} TakenExactlyOnce(cap: nat, n: nat, steps: seq<Step>, t: State)
    requires cap > 0 && Runs(Init(cap, n), steps, t)
    ensures multiset(t.taken) <= multiset(t.pushed)
    ensures t.sh.owner.Free? && t.sh.top >= t.sh.bottom ==> multiset(t.taken) == multiset(t.pushed)
  {
    assert Items(Init(cap, n).sh) == [];
    RunInv(Init(cap, n), steps, t);
    if t.sh.owner.Free? && t.sh.top >= t.sh.bottom { assert Items(t.sh) == []; }
  }

  /** The owner's steps after which pop() answers false. */
  predicate PopFails(sh: Shared, st: Step)
    requires sh.buf != [] && OfOwner(st) && Enabled(State(sh, [], [], []), st)
  {
    || (st.Pop? && OwnerStep(sh, st).owner.Free?)
    || (st.Load? && OwnerStep(sh, st).owner.Restoring?)
    || (st.Compete? && OwnerTakes(sh, st) == [])
  }

  /** pop() answers false only if the queue is empty at the step that decides it. */
  lemma {:induction false} PopFailsOnEmpty(cap: nat, n: nat, steps: seq<Step>, t: State, st: Step)
    requires cap > 0 && Runs(Init(cap, n), steps, t) && t.sh.buf != [] && OfOwner(st) && Enabled(t, st)
    requires PopFails(t.sh, st)
    ensures SharedOk(t.sh) && Items(t.sh) == []
  {
    assert Items(Init(cap, n).sh) == [];
    RunInv(Init(cap, n), steps, t);
  }

  /** The operations of a double-ended queue. */
  datatype Op = Nothing | PushLast(x: Item) | PopLast(x: Item) | StealFirst(x: Item)

  predicate Performs(op: Op, before: seq<Item>, after: seq<Item>) {
    match op
    case Nothing => after == before
    case PushLast(x) => after == before + [x]
    case PopLast(x) => before == after + [x]
    case StealFirst(x) => before == [x] + after
  }

  function Pushes(op: Op): seq<Item> { if op.PushLast? then [op.x] else [] }

  function Takes(op: Op): seq<Item> { if op.PopLast? || op.StealFirst? then [op.x] else [] }

  function OpOf(s: State, st: Step): Op
    requires s.sh.buf != [] && Enabled(s, st)
  {
    if OfOwner(st) then
      if st.Publish? then PushLast(s.sh.owner.x)
      else if OwnerTakes(s.sh, st) != [] then PopLast(OwnerTakes(s.sh, st)[0])
      else Nothing
    else if Wins(s.sh, s.thieves[Who(st)], st) then StealFirst(s.thieves[Who(st)].x)
    else Nothing
  }

  predicate Atomic(op: Op, s: State, t: State)
    requires SharedOk(s.sh) && SharedOk(t.sh)
  {
    && Performs(op, Items(s.sh), Items(t.sh))
    && t.pushed == s.pushed + Pushes(op) && t.taken == s.taken + Takes(op)
  }

  lemma {:induction false} OwnerIsAtomic(s: State, st: Step)
    requires SharedOk(s.sh) && Enabled(s, st) && OfOwner(st)
    ensures SharedOk(Apply(s, st).sh) && Atomic(OpOf(s, st), s, Apply(s, st))
  {
    OwnerRefines(s.sh, st);
    assert s.taken + [] == s.taken && s.pushed + [] == s.pushed;
  }

  lemma {:induction false} ThiefIsAtomic(s: State, st: Step)
    requires SharedOk(s.sh) && ThievesOk(s.sh, s.thieves) && Enabled(s, st) && !OfOwner(st)
    ensures SharedOk(Apply(s, st).sh) && Atomic(OpOf(s, st), s, Apply(s, st))
  {
    var th := s.thieves[Who(st)];
    if Wins(s.sh, th, st) { WinRefines(s.sh, th); }
    assert s.taken + [] == s.taken && s.pushed + [] == s.pushed;
  }

  /** In every run, every step is one atomic operation of a double-ended queue, or none. */
  lemma {:induction false} EveryStepIsAtomic(cap: nat, n: nat, steps: seq<Step>, s: State, st: Step)
    requires cap > 0 && Runs(Init(cap, n), steps, s) && s.sh.buf != [] && Enabled(s, st)
    ensures SharedOk(s.sh) && SharedOk(Apply(s, st).sh) && Atomic(OpOf(s, st), s, Apply(s, st))
  {
    assert Items(Init(cap, n).sh) == [];
    RunInv(Init(cap, n), steps, s);
    if OfOwner(st) { OwnerIsAtomic(s, st); } else { ThiefIsAtomic(s, st); }
  }

  // ---- when an operation is refused ----

  lemma {:induction false} Reached(cap: nat, n: nat, steps: seq<Step>, s: State)
    requires cap > 0 && Runs(Init(cap, n), steps, s)
    ensures Inv(s) && |s.sh.buf| == cap
  {
    assert Items(Init(cap, n).sh) == [];
    RunInv(Init(cap, n), steps, s);
    CapRun(Init(cap, n), steps, s);
  }

  lemma {:induction false} CapRun(s: State, steps: seq<Step>, t: State)
    requires s.sh.buf != [] && Runs(s, steps, t)
    ensures |t.sh.buf| == |s.sh.buf| && |t.thieves| == |s.thieves|
    decreases |steps|
  {
    if steps != [] { CapRun(Apply(s, steps[0]), steps[1..], t); }
  }

  /** A push is refused when the queue is full; one that saw the current _top, only then. */
  lemma {:induction false} PushRefusedExactly(cap: nat, n: nat, steps: seq<Step>, s: State, x: Item, seen: nat)
    requires cap > 0 && Runs(Init(cap, n), steps, s) && Enabled(s, Push(x, seen))
    ensures Inv(s) && |Items(s.sh)| <= cap
    ensures var refused := Apply(s, Push(x, seen)) == s;
      && (!refused ==> Apply(s, Push(x, seen)).sh == s.sh.(owner := Writing(x)))
      && (|Items(s.sh)| == cap ==> refused)
      && (refused && seen == s.sh.top ==> |Items(s.sh)| == cap)
  {
    Reached(cap, n, steps, s);
    assert s.taken + [] == s.taken;
  }

  /** Between lowering and restoring _bottom. */
  predicate Popping(o: Owner) { o.Lowered? || o.Competing? || o.Restoring? }

  /** A thief looks at the current _bottom: at its second load, or at its first one if that is not stale. */
  predicate Looks(sh: Shared, st: Step) { st.Check? || (st.Peek? && st.seen == sh.bottom) }

  /** A thief that looks at _bottom leaves only an empty queue, or the last item to a pop in progress. */
  lemma {:induction false} ThiefLeavesExactly(cap: nat, n: nat, steps: seq<Step>, s: State, st: Step)
    requires cap > 0 && Runs(Init(cap, n), steps, s) && s.sh.buf != [] && Enabled(s, st) && Looks(s.sh, st)
    ensures Inv(s)
    ensures Apply(s, st).thieves[Who(st)].Away? ==>
      Items(s.sh) == [] || (|Items(s.sh)| == 1 && Popping(s.sh.owner))
    ensures Items(s.sh) == [] && s.thieves[Who(st)].t == s.sh.top ==> Apply(s, st).thieves[Who(st)].Away?
  {
    Reached(cap, n, steps, s);
  }

  /**
   * At the compare-exchange a thief takes the first item and leaves, unless somebody else took one
   * since it loaded _top; then it tries again. It never leaves empty-handed.
   */
  lemma {:induction false} ExchangeTakesOrRetries(cap: nat, n: nat, steps: seq<Step>, s: State, i: nat)
    requires cap > 0 && Runs(Init(cap, n), steps, s) && s.sh.buf != [] && Enabled(s, Exchange(i))
    ensures Inv(s) && var u := Apply(s, Exchange(i));
      if s.thieves[i].t == s.sh.top then
        Items(s.sh) != [] && u.thieves[i].Away? && u.taken == s.taken + [Items(s.sh)[0]]
      else
        s.thieves[i].t < s.sh.top && u.thieves[i] == Looping(s.sh.top) && u.taken == s.taken
  {
    Reached(cap, n, steps, s);
    if s.thieves[i].t == s.sh.top { WinRefines(s.sh, s.thieves[i]); }
  }

  // ---- an operation that nobody disturbs ----

  lemma {:induction false} Prepend(s: State, st: Step, steps: seq<Step>, t: State)
    requires s.sh.buf != [] && Enabled(s, st) && Runs(Apply(s, st), steps, t)
    ensures Runs(s, [st] + steps, t)
  {
    assert ([st] + steps)[1..] == steps;
  }

  predicate AllAway(thieves: seq<Thief>) { forall i :: 0 <= i < |thieves| ==> thieves[i].Away? }

  predicate Idle(sh: Shared, items: seq<Item>) { SharedOk(sh) && sh.owner.Free? && Items(sh) == items }

  /** The queue holds the items, and nobody is inside it. */
  predicate Quiet(s: State, items: seq<Item>) { Idle(s.sh, items) && AllAway(s.thieves) }

  lemma {:induction false} OwnerApplies(s: State, st: Step)
    requires s.sh.buf != [] && Enabled(s, st) && OfOwner(st) && !st.Publish?
    ensures Apply(s, st) == s.(sh := OwnerStep(s.sh, st), taken := s.taken + OwnerTakes(s.sh, st))
  {}

  lemma {:induction false} QuietMove(s: State, st: Step)
    requires s.sh.buf != [] && Enabled(s, st) && OfOwner(st) && !st.Publish? && OwnerTakes(s.sh, st) == []
    ensures Apply(s, st) == s.(sh := OwnerStep(s.sh, st))
  {
    assert s.taken + [] == s.taken;
  }

  lemma {:induction false} PushShared(sh: Shared, items: seq<Item>, x: Item)
    requires Idle(sh, items) && |items| < |sh.buf|
    ensures var a := OwnerStep(sh, Push(x, sh.top));
      && SharedOk(a) && a.owner == Writing(x) && Items(a) == items
  {
    OwnerRefines(sh, Push(x, sh.top));
  }

  lemma {:induction false} WriteShared(sh: Shared, items: seq<Item>)
    requires SharedOk(sh) && sh.owner.Writing? && Items(sh) == items
    ensures var b := OwnerStep(sh, Write); SharedOk(b) && b.owner == Publishing(sh.owner.x) && Items(b) == items
  {
    OwnerRefines(sh, Write);
  }

  lemma {:induction false} PublishShared(sh: Shared, items: seq<Item>)
    requires SharedOk(sh) && sh.owner.Publishing? && Items(sh) == items
    ensures Idle(OwnerStep(sh, Publish), items + [sh.owner.x])
  {
    OwnerRefines(sh, Publish);
  }

  lemma {:induction false} PushAlone(s: State, items: seq<Item>, x: Item) returns (t: State)
    requires Quiet(s, items) && |items| < |s.sh.buf|
    ensures Runs(s, [Push(x, s.sh.top), Write, Publish], t)
    ensures Quiet(t, items + [x]) && t.pushed == s.pushed + [x] && t.taken == s.taken
  {
    var push := Push(x, s.sh.top);
    PushShared(s.sh, items, x);
    QuietMove(s, push);
    var u := s.(sh := OwnerStep(s.sh, push));
    WriteShared(u.sh, items);
    QuietMove(u, Write);
    var v := u.(sh := OwnerStep(u.sh, Write));
    PublishShared(v.sh, items);
    t := Apply(v, Publish);
    assert v.taken + [] == v.taken;
    Prepend(v, Publish, [], t);
    Prepend(u, Write, [Publish], t);
    Prepend(s, push, [Write, Publish], t);
  }

  lemma {:induction false} LowerShared(sh: Shared, items: seq<Item>)
    requires Idle(sh, items) && items != []
    ensures var a := OwnerStep(sh, Pop(sh.top)); var b := OwnerStep(a, Lower);
      a.owner.Lowering? && SharedOk(b) && b.owner.Lowered? && Items(b) == items
  {
    OwnerRefines(sh, Pop(sh.top));
    OwnerRefines(OwnerStep(sh, Pop(sh.top)), Lower);
  }

  /** pop() until _bottom is lowered. */
  lemma {:induction false} LowerAlone(s: State, items: seq<Item>) returns (t: State)
    requires Idle(s.sh, items) && items != []
    ensures Runs(s, [Pop(s.sh.top), Lower], t)
    ensures SharedOk(t.sh) && t.sh.owner.Lowered? && Items(t.sh) == items && t == s.(sh := t.sh)
  {
    var pop := Pop(s.sh.top);
    LowerShared(s.sh, items);
    QuietMove(s, pop);
    var u := s.(sh := OwnerStep(s.sh, pop));
    QuietMove(u, Lower);
    t := u.(sh := OwnerStep(u.sh, Lower));
    Prepend(u, Lower, [], t);
    Prepend(s, pop, [Lower], t);
  }

  /** Behind the fence: the last item is taken at once unless it is the only one. */
  lemma {:induction false} LoadShared(sh: Shared, items: seq<Item>)
    requires SharedOk(sh) && sh.owner.Lowered? && Items(sh) == items && items != []
    ensures var b := OwnerStep(sh, Load);
      if |items| == 1 then SharedOk(b) && b.owner.Competing? && Items(b) == items && OwnerTakes(sh, Load) == []
      else Idle(b, items[..|items| - 1]) && OwnerTakes(sh, Load) == [items[|items| - 1]]
  {
    OwnerRefines(sh, Load);
  }

  lemma {:induction false} CompeteShared(sh: Shared, items: seq<Item>)
    requires SharedOk(sh) && sh.owner.Competing? && Items(sh) == items && |items| == 1
    ensures var a := OwnerStep(sh, Compete);
      SharedOk(a) && a.owner.Restoring? && Items(a) == [] && OwnerTakes(sh, Compete) == items
  {
    OwnerRefines(sh, Compete);
  }

  lemma {:induction false} RestoreShared(sh: Shared, items: seq<Item>)
    requires SharedOk(sh) && sh.owner.Restoring? && Items(sh) == items
    ensures Idle(OwnerStep(sh, Restore), items)
  {
    OwnerRefines(sh, Restore);
  }

  /** The owner about to compete for the only item. */
  lemma {:induction false} CompeteAlone(s: State, items: seq<Item>) returns (t: State)
    requires SharedOk(s.sh) && s.sh.owner.Competing? && Items(s.sh) == items && |items| == 1
    ensures Runs(s, [Compete, Restore], t)
    ensures Idle(t.sh, []) && t == s.(sh := t.sh, taken := s.taken + items)
  {
    CompeteShared(s.sh, items);
    OwnerApplies(s, Compete);
    var u := s.(sh := OwnerStep(s.sh, Compete), taken := s.taken + items);
    RestoreShared(u.sh, []);
    QuietMove(u, Restore);
    t := u.(sh := OwnerStep(u.sh, Restore));
    Prepend(u, Restore, [], t);
    Prepend(s, Compete, [Restore], t);
  }

  lemma {:induction false} RunsOn(s: State, a: seq<Step>, u: State, b: seq<Step>, t: State)
    requires s.sh.buf != [] && Runs(s, a, u) && u.sh.buf != [] && Runs(u, b, t)
    ensures Runs(s, a + b, t)
    decreases |a|
  {
    if a == [] {
      assert a + b == b;
    } else {
      RunsOn(Apply(s, a[0]), a[1..], u, b, t);
      assert (a + b)[1..] == a[1..] + b;
    }
  }

  /** From the fence on. */
  lemma {:induction false} LoadAlone(s: State, items: seq<Item>) returns (steps: seq<Step>, t: State)
    requires SharedOk(s.sh) && s.sh.owner.Lowered? && Items(s.sh) == items && items != []
    ensures Runs(s, steps, t)
    ensures Idle(t.sh, items[..|items| - 1]) && t == s.(sh := t.sh, taken := s.taken + [items[|items| - 1]])
  {
    LoadShared(s.sh, items);
    OwnerApplies(s, Load);
    if |items| == 1 {
      QuietMove(s, Load);
      t := CompeteAlone(Apply(s, Load), items);
      assert items == [items[|items| - 1]] && items[..|items| - 1] == [];
      Prepend(s, Load, [Compete, Restore], t);
      steps := [Load] + [Compete, Restore];
    } else {
      t := Apply(s, Load);
      Prepend(s, Load, [], t);
      steps := [Load] + [];
    }
  }

  lemma {:induction false} PopAlone(s: State, items: seq<Item>) returns (steps: seq<Step>, t: State)
    requires Quiet(s, items) && items != []
    ensures Runs(s, steps, t)
    ensures Quiet(t, items[..|items| - 1]) && t.pushed == s.pushed && t.taken == s.taken + [items[|items| - 1]]
  {
    var u := LowerAlone(s, items);
    steps, t := LoadAlone(u, items);
    RunsOn(s, [Pop(s.sh.top), Lower], u, steps, t);
    steps := [Pop(s.sh.top), Lower] + steps;
  }

  /** One thief moved, nothing else. */
  function Moved(s: State, i: nat, th: Thief): State
    requires i < |s.thieves|
  {
    s.(thieves := s.thieves[i := th])
  }

  lemma {:induction false} ThiefMoves(s: State, st: Step)
    requires s.sh.buf != [] && Enabled(s, st) && !OfOwner(st) && !st.Exchange?
    ensures Apply(s, st) == Moved(s, Who(st), ThiefStep(s.sh, s.thieves[Who(st)], st))
  {}

  lemma {:induction false} MovedTwice(s: State, i: nat, a: Thief, b: Thief)
    requires i < |s.thieves|
    ensures Moved(Moved(s, i, a), i, b) == Moved(s, i, b) && Moved(s, i, a).thieves[i] == a
  {
    assert s.thieves[i := a][i := b] == s.thieves[i := b];
  }

  /** steal() up to its loop. */
  lemma {:induction false} LoopAlone(s: State, i: nat)
    requires s.sh.buf != [] && i < |s.thieves| && s.thieves[i].Away? && s.sh.top < s.sh.bottom
    ensures Runs(s, [Steal(i, s.sh.top), Peek(i, s.sh.bottom)], Moved(s, i, Looping(s.sh.top)))
  {
    var top, first, second := s.sh.top, Steal(i, s.sh.top), Peek(i, s.sh.bottom);
    ThiefMoves(s, first);
    var u := Moved(s, i, Loaded(top));
    MovedTwice(s, i, Loaded(top), Looping(top));
    ThiefMoves(u, second);
    Prepend(u, second, [], Moved(s, i, Looping(top)));
    Prepend(s, first, [second], Moved(s, i, Looping(top)));
  }

  lemma {:induction false} ReadAlone(s: State, i: nat)
    requires s.sh.buf != [] && i < |s.thieves| && s.thieves[i] == Looping(s.sh.top) && s.sh.top < s.sh.bottom
    ensures Runs(s, [Check(i), Read(i)], Moved(s, i, Ready(s.sh.top, At(s.sh, s.sh.top))))
  {
    var top, last := s.sh.top, Ready(s.sh.top, At(s.sh, s.sh.top));
    ThiefMoves(s, Check(i));
    var u := Moved(s, i, Passed(top));
    MovedTwice(s, i, Passed(top), last);
    ThiefMoves(u, Read(i));
    Prepend(u, Read(i), [], Moved(s, i, last));
    Prepend(s, Check(i), [Read(i)], Moved(s, i, last));
  }

  /** steal() until its compare-exchange: the shared words are as before. */
  lemma {:induction false} ReadyAlone(s: State, i: nat) returns (steps: seq<Step>, t: State)
    requires s.sh.buf != [] && i < |s.thieves| && s.thieves[i].Away? && s.sh.top < s.sh.bottom
    ensures Runs(s, steps, t) && t == Moved(s, i, Ready(s.sh.top, At(s.sh, s.sh.top)))
  {
    var u := Moved(s, i, Looping(s.sh.top));
    LoopAlone(s, i);
    ReadAlone(u, i);
    t := Moved(s, i, Ready(s.sh.top, At(s.sh, s.sh.top)));
    MovedTwice(s, i, Looping(s.sh.top), Ready(s.sh.top, At(s.sh, s.sh.top)));
    steps := [Steal(i, s.sh.top), Peek(i, s.sh.bottom)] + [Check(i), Read(i)];
    RunsOn(s, [Steal(i, s.sh.top), Peek(i, s.sh.bottom)], u, [Check(i), Read(i)], t);
  }

  lemma {:induction false} StealShared(sh: Shared, items: seq<Item>)
    requires Idle(sh, items) && items != []
    ensures Idle(Taken(sh), items[1..]) && At(sh, sh.top) == items[0] && sh.top < sh.bottom
  {
    WinRefines(sh, Ready(sh.top, At(sh, sh.top)));
  }

  lemma {:induction false} WinApplies(s: State, i: nat)
    requires s.sh.buf != [] && i < |s.thieves| && s.thieves[i].Ready? && s.thieves[i].t == s.sh.top
    ensures Apply(s, Exchange(i)) == Moved(s, i, Away).(sh := Taken(s.sh), taken := s.taken + [s.thieves[i].x])
  {}

  lemma {:induction false} StealAlone(s: State, items: seq<Item>, i: nat) returns (steps: seq<Step>, t: State)
    requires Quiet(s, items) && items != [] && i < |s.thieves|
    ensures Runs(s, steps, t)
    ensures Quiet(t, items[1..]) && t.pushed == s.pushed && t.taken == s.taken + [items[0]]
  {
    StealShared(s.sh, items);
    var before, u := ReadyAlone(s, i);
    t := Apply(u, Exchange(i));
    WinApplies(u, i);
    Prepend(u, Exchange(i), [], t);
    RunsOn(s, before, u, [Exchange(i)], t);
    steps := before + [Exchange(i)];
  }

  /** Whole calls, and what a bounded double-ended queue does on them. */
  datatype Call = ToPush(x: Item) | ToPop | ToSteal(i: nat)

  function Left(items: seq<Item>, c: Call, cap: nat): seq<Item> {
    match c
    case ToPush(x) => if |items| < cap then items + [x] else items
    case ToPop => if items == [] then [] else items[..|items| - 1]
    case ToSteal(_) => if items == [] then [] else items[1..]
  }

  /** What pop and steal answer; nothing if they answer false. */
  function Given(items: seq<Item>, c: Call): seq<Item> {
    if c.ToPush? || items == [] then [] else if c.ToPop? then [items[|items| - 1]] else [items[0]]
  }

  function Stored(items: seq<Item>, c: Call, cap: nat): seq<Item> {
    if c.ToPush? && |items| < cap then [c.x] else []
  }

  lemma {:induction false} StealRefused(s: State, i: nat) returns (steps: seq<Step>, t: State)
    requires Quiet(s, []) && i < |s.thieves|
    ensures Runs(s, steps, t) && Quiet(t, []) && t.pushed == s.pushed && t.taken == s.taken
  {
    var top, first, second := s.sh.top, Steal(i, s.sh.top), Peek(i, s.sh.bottom);
    ThiefMoves(s, first);
    var u := Moved(s, i, Loaded(top));
    MovedTwice(s, i, Loaded(top), Away);
    ThiefMoves(u, second);
    t := Moved(s, i, Away);
    Prepend(u, second, [], t);
    Prepend(s, first, [second], t);
    steps := [first] + [second];
  }

  lemma {:induction false} RefusedShared(sh: Shared, items: seq<Item>, st: Step)
    requires Idle(sh, items) && (st.Push? || st.Pop?) && st.seen == sh.top
    requires if st.Push? then |items| >= |sh.buf| else items == []
    ensures OwnerStep(sh, st) == sh
  {}

  /** The calls that answer false. */
  lemma {:induction false} RefusedAlone(s: State, items: seq<Item>, c: Call) returns (steps: seq<Step>, t: State)
    requires Quiet(s, items) && (c.ToSteal? ==> c.i < |s.thieves|)
    requires if c.ToPush? then |items| >= |s.sh.buf| else items == []
    ensures Runs(s, steps, t) && Quiet(t, items) && t.pushed == s.pushed && t.taken == s.taken
  {
    if c.ToSteal? {
      steps, t := StealRefused(s, c.i);
    } else {
      var st := if c.ToPush? then Push(c.x, s.sh.top) else Pop(s.sh.top);
      RefusedShared(s.sh, items, st);
      QuietMove(s, st);
      t := s;
      Prepend(s, st, [], t);
      steps := [st] + [];
    }
  }

  lemma {:induction false} CallAlone(s: State, items: seq<Item>, c: Call) returns (steps: seq<Step>, t: State)
    requires Quiet(s, items) && (c.ToSteal? ==> c.i < |s.thieves|)
    ensures Runs(s, steps, t) && Quiet(t, Left(items, c, |s.sh.buf|))
    ensures t.pushed == s.pushed + Stored(items, c, |s.sh.buf|) && t.taken == s.taken + Given(items, c)
  {
    if if c.ToPush? then |items| >= |s.sh.buf| else items == [] {
      steps, t := RefusedAlone(s, items, c);
    } else if c.ToPush? {
      steps := [Push(c.x, s.sh.top), Write, Publish];
      t := PushAlone(s, items, c.x);
    } else if c.ToSteal? {
      steps, t := StealAlone(s, items, c.i);
    } else {
      steps, t := PopAlone(s, items);
    }
  }

  predicate CallsOk(calls: seq<Call>, n: nat) {
    forall k :: 0 <= k < |calls| && calls[k].ToSteal? ==> calls[k].i < n
  }

  /** The items left and the items given after all calls, one after the other. */
  function AllLeft(items: seq<Item>, calls: seq<Call>, cap: nat): seq<Item>
    decreases |calls|
  {
    if calls == [] then items else AllLeft(Left(items, calls[0], cap), calls[1..], cap)
  }

  function AllGiven(items: seq<Item>, calls: seq<Call>, cap: nat): seq<Item>
    decreases |calls|
  {
    if calls == [] then [] else Given(items, calls[0]) + AllGiven(Left(items, calls[0], cap), calls[1..], cap)
  }

  lemma {:induction false} TakesOn(s: State, a: seq<Step>, u: State, b: seq<Step>, t: State, x: seq<Item>, y: seq<Item>)
    requires s.sh.buf != [] && Runs(s, a, u) && u.sh.buf != [] && Runs(u, b, t)
    requires u.taken == s.taken + x && t.taken == u.taken + y
    ensures Runs(s, a + b, t) && t.taken == s.taken + (x + y)
  {
    RunsOn(s, a, u, b, t);
    assert (s.taken + x) + y == s.taken + (x + y);
  }

  /** One call as CallAlone has it, with the capacity and the number of thieves. */
  lemma {:induction false} OneCall(s: State, items: seq<Item>, c: Call, cap: nat, n: nat)
    returns (steps: seq<Step>, t: State)
    requires Quiet(s, items) && |s.sh.buf| == cap && |s.thieves| == n && (c.ToSteal? ==> c.i < n)
    ensures Runs(s, steps, t) && Quiet(t, Left(items, c, cap)) && |t.sh.buf| == cap && |t.thieves| == n
    ensures t.taken == s.taken + Given(items, c)
  {
    steps, t := CallAlone(s, items, c);
    CapRun(s, steps, t);
  }

  /** Called one after the other, push, pop and steal are those of a bounded double-ended queue. */
  lemma {:induction false} CallsAreADeque(s: State, items: seq<Item>, calls: seq<Call>, cap: nat, n: nat)
    returns (steps: seq<Step>, t: State)
    requires Quiet(s, items) && |s.sh.buf| == cap && |s.thieves| == n && CallsOk(calls, n)
    ensures Runs(s, steps, t) && Quiet(t, AllLeft(items, calls, cap)) && t.taken == s.taken + AllGiven(items, calls, cap)
    decreases |calls|
  {
    if calls == [] {
      return [], s;
    }
    var first, u := OneCall(s, items, calls[0], cap, n);
    var rest;
    rest, t := CallsAreADeque(u, Left(items, calls[0], cap), calls[1..], cap, n);
    TakesOn(s, first, u, rest, t, Given(items, calls[0]), AllGiven(Left(items, calls[0], cap), calls[1..], cap));
    steps := first + rest;
  }

  /** In particular from the start on. */
  lemma {:induction false} QueueIsADeque(cap: nat, n: nat, calls: seq<Call>) returns (steps: seq<Step>, t: State)
    requires cap > 0 && CallsOk(calls, n)
    ensures Runs(Init(cap, n), steps, t) && Quiet(t, AllLeft([], calls, cap)) && t.taken == AllGiven([], calls, cap)
  {
    assert Items(Init(cap, n).sh) == [];
    steps, t := CallsAreADeque(Init(cap, n), [], calls, cap, n);
  }
}

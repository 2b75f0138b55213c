/**
 * The wait-free write queue of a socket (brpc/brpc/socket.cpp). Any number of threads push requests by
 * exchanging _write_head; whoever finds it NULL has the right to write. The holder writes, releases
 * what was written, and fetches newer requests by reversing the list behind _write_head.
 *
 * Requests are numbered in the order of their exchanges, and thread i is the one that pushed request i
 * together with the KeepWrite thread it starts. Every access to shared memory is one step; steps
 * interleave freely. A gathered write is a series of steps, one for each buffer: only the holder
 * changes the links between the requests it writes. How much the descriptor takes, and whether
 * connecting, writing or waiting fails, is arbitrary.
 */
module SocketWrite {
  import opened Bytes
  import opened Options

  datatype Next = Unconnected | Null | To(i: nat)

  /** sent: how many bytes the descriptor took; oks and fails: how often it was returned as such. */
  datatype Req = Req(data: bytes, next: Next, sent: nat, oks: nat, fails: nat)

  datatype Pc =
    | Linking(prev: Option<nat>)                         // about to store the link
    | Top(req: nat, tail: Option<nat>)                   // start of the loop of KeepWrite
    | Writing(req: nat, at: nat, tail: Option<nat>)
    | Written(req: nat, tail: Option<nat>)               // releasing what was written
    | Seeking(req: nat, at: nat)                         // looking for the tail
    | Checking(req: nat, last: nat, failing: bool)       // about to compare-exchange _write_head
    | Reversing(req: nat, last: nat, p: nat, q: Next, h: nat, failing: bool)
    | Joining(req: nat, last: nat, q: Next, h: nat, failing: bool)
    | Failing(req: nat)                                  // releasing all requests but the last as failed
    | Gone

  /** closing: requests that ended a turn and are about to be returned, and how. checks: CHECKs fired. */
  datatype State = State(reqs: seq<Req>, pcs: seq<Pc>, head: Option<nat>, closing: map<nat, bool>,
                         wire: bytes, checks: nat)

  datatype Step =
    | Exchange(data: bytes)
    | Link(i: nat)
    | Begin(i: nat) | Put(i: nat, n: nat) | MoveOn(i: nat) | Stop(i: nat) | Skip(i: nat) | Seek(i: nat)
    | Fail(i: nat) | FailOne(i: nat)
    | Compare(i: nat, keep: bool)
    | Reverse(i: nat) | Join(i: nat, keep: bool)
    | Close(r: nat)

  const INIT := State([], [], None, map[], [], 0)

  predicate Full(r: Req) { r.sent == |r.data| }

  /** The request is written and not the last one of its list. */
  predicate CanSkip(reqs: seq<Req>, r: nat) { r < |reqs| && reqs[r].next.To? && Full(reqs[r]) }

  predicate At(s: State, i: nat) { i < |s.pcs| && i < |s.reqs| }

  predicate Enabled(s: State, st: Step) {
    match st
    case Exchange(_) => true
    case Link(i) => At(s, i) && s.pcs[i].Linking?
    case Begin(i) => At(s, i) && s.pcs[i].Top? && s.pcs[i].req < |s.reqs|
    case Put(i, n) =>
      && At(s, i) && s.pcs[i].Writing? && s.pcs[i].at < |s.reqs|
      && s.reqs[s.pcs[i].at].sent + n <= |s.reqs[s.pcs[i].at].data|
    case MoveOn(i) => At(s, i) && s.pcs[i].Writing? && CanSkip(s.reqs, s.pcs[i].at)
    case Stop(i) => At(s, i) && s.pcs[i].Writing?
    case Skip(i) => At(s, i) && s.pcs[i].Written? && CanSkip(s.reqs, s.pcs[i].req)
    case Seek(i) =>
      && At(s, i)
      && ((s.pcs[i].Written? && !CanSkip(s.reqs, s.pcs[i].req)) || (s.pcs[i].Seeking? && s.pcs[i].at < |s.reqs|))
    case Fail(i) => At(s, i) && (s.pcs[i].Top? || s.pcs[i].Writing? || s.pcs[i].Written?)
    case FailOne(i) => At(s, i) && s.pcs[i].Failing? && s.pcs[i].req < |s.reqs|
    case Compare(i, _) => At(s, i) && s.pcs[i].Checking? && s.pcs[i].last < |s.reqs|
    case Reverse(i) =>
      At(s, i) && s.pcs[i].Reversing? && s.pcs[i].p < |s.reqs| && !s.reqs[s.pcs[i].p].next.Unconnected?
    case Join(i, _) => At(s, i) && s.pcs[i].Joining? && s.pcs[i].last < |s.reqs|
    case Close(r) => r in s.closing && r < |s.reqs|
  }

  function Links(reqs: seq<Req>, k: nat, next: Next): seq<Req>
    requires k < |reqs|
  {
    reqs[k := reqs[k].(next := next)]
  }

  function Returns(reqs: seq<Req>, k: nat, ok: bool): seq<Req>
    requires k < |reqs|
  {
    reqs[k := if ok then reqs[k].(oks := reqs[k].oks + 1) else reqs[k].(fails := reqs[k].fails + 1)]
  }

  /** After the list was joined, or nothing was new: KeepWrite remembers the tail, StartWrite does not. */
  function Again(req: nat, tail: nat, failing: bool, keep: bool): Pc {
    if failing then Failing(req) else Top(req, if keep then Some(tail) else None)
  }

  function Moves(s: State, i: nat, pc: Pc): State
    requires At(s, i)
  {
    s.(pcs := s.pcs[i := pc])
  }

  function ExchangeStep(s: State, data: bytes): State {
    s.(reqs := s.reqs + [Req(data, Unconnected, 0, 0, 0)], pcs := s.pcs + [Linking(s.head)], head := Some(|s.reqs|))
  }

  function LinkStep(s: State, i: nat): State
    requires At(s, i) && s.pcs[i].Linking?
  {
    var prev := s.pcs[i].prev;
    Moves(s.(reqs := Links(s.reqs, i, if prev.Some? then To(prev.value) else Null)), i,
          if prev.Some? then Gone else Top(i, None))
  }

  /** Returns the first request of the list and goes on at pc. */
  function ReturnStep(s: State, i: nat, r: nat, ok: bool, pc: Pc): State
    requires At(s, i) && r < |s.reqs|
  {
    Moves(s.(reqs := Returns(s.reqs, r, ok)), i, pc)
  }

  function BeginStep(s: State, i: nat): State
    requires At(s, i) && s.pcs[i].Top? && s.pcs[i].req < |s.reqs|
  {
    var r, tail := s.pcs[i].req, s.pcs[i].tail;
    if CanSkip(s.reqs, r)
    then ReturnStep(s, i, r, true, Writing(s.reqs[r].next.i, s.reqs[r].next.i, tail))
    else Moves(s, i, Writing(r, r, tail))
  }

  function PutStep(s: State, k: nat, n: nat): State
    requires k < |s.reqs| && s.reqs[k].sent + n <= |s.reqs[k].data|
  {
    var r := s.reqs[k];
    s.(reqs := s.reqs[k := r.(sent := r.sent + n)], wire := s.wire + r.data[r.sent..r.sent + n])
  }

  function SeekStep(s: State, i: nat): State
    requires At(s, i) && (s.pcs[i].Written? || (s.pcs[i].Seeking? && s.pcs[i].at < |s.reqs|))
  {
    var pc := s.pcs[i];
    if pc.Written? then
      Moves(s, i, if pc.tail.Some? then Checking(pc.req, pc.tail.value, false) else Seeking(pc.req, pc.req))
    else if s.reqs[pc.at].next.To? then Moves(s, i, Seeking(pc.req, s.reqs[pc.at].next.i))
    else Moves(s, i, Checking(pc.req, pc.at, false))
  }

  function FailOneStep(s: State, i: nat): State
    requires At(s, i) && s.pcs[i].Failing? && s.pcs[i].req < |s.reqs|
  {
    var r := s.pcs[i].req;
    if s.reqs[r].next.To?
    then ReturnStep(s, i, r, false, Failing(s.reqs[r].next.i))
    else Moves(s, i, Checking(r, r, true))
  }

  /** IsWriteComplete up to the compare-exchange. A link or head that must not be counts as a fired CHECK. */
  function CompareStep(s: State, i: nat, keep: bool): State
    requires At(s, i) && s.pcs[i].Checking? && s.pcs[i].last < |s.reqs|
  {
    var pc := s.pcs[i];
    if s.reqs[pc.last].next != Null || s.head.None? then s.(checks := s.checks + 1)
    else if s.head != Some(pc.last) then
      Moves(s, i, Reversing(pc.req, pc.last, s.head.value, Null, s.head.value, pc.failing))
    else if pc.failing || (pc.req == pc.last && Full(s.reqs[pc.last])) then
      Moves(s.(head := None, closing := s.closing[pc.req := !pc.failing]), i, Gone)
    else Moves(s, i, Again(pc.req, pc.last, false, keep))
  }

  function ReverseStep(s: State, i: nat): State
    requires At(s, i) && s.pcs[i].Reversing? && s.pcs[i].p < |s.reqs| && !s.reqs[s.pcs[i].p].next.Unconnected?
  {
    var pc := s.pcs[i];
    var next := s.reqs[pc.p].next;
    if next == Null then s.(checks := s.checks + 1)
    else
      Moves(s.(reqs := Links(s.reqs, pc.p, pc.q)), i,
            if next.i == pc.last then Joining(pc.req, pc.last, To(pc.p), pc.h, pc.failing)
            else Reversing(pc.req, pc.last, next.i, To(pc.p), pc.h, pc.failing))
  }

  function JoinStep(s: State, i: nat, keep: bool): State
    requires At(s, i) && s.pcs[i].Joining? && s.pcs[i].last < |s.reqs|
  {
    var pc := s.pcs[i];
    Moves(s.(reqs := Links(s.reqs, pc.last, pc.q)), i, Again(pc.req, pc.h, pc.failing, keep))
  }

  function CloseStep(s: State, r: nat): State
    requires r in s.closing && r < |s.reqs|
  {
    s.(reqs := Returns(s.reqs, r, s.closing[r]), closing := s.closing - {r})
  }

  function Apply(s: State, st: Step): State
    requires Enabled(s, st)
  {
    match st
    case Exchange(data) => ExchangeStep(s, data)
    case Link(i) => LinkStep(s, i)
    case Begin(i) => BeginStep(s, i)
    case Put(i, n) => PutStep(s, s.pcs[i].at, n)
    case MoveOn(i) => Moves(s, i, Writing(s.pcs[i].req, s.reqs[s.pcs[i].at].next.i, s.pcs[i].tail))
    case Stop(i) => Moves(s, i, Written(s.pcs[i].req, s.pcs[i].tail))
    case Skip(i) => ReturnStep(s, i, s.pcs[i].req, true, Written(s.reqs[s.pcs[i].req].next.i, s.pcs[i].tail))
    case Seek(i) => SeekStep(s, i)
    case Fail(i) => Moves(s, i, Failing(s.pcs[i].req))
    case FailOne(i) => FailOneStep(s, i)
    case Compare(i, keep) => CompareStep(s, i, keep)
    case Reverse(i) => ReverseStep(s, i)
    case Join(i, keep) => JoinStep(s, i, keep)
    case Close(r) => CloseStep(s, r)
  }

  predicate Runs(s: State, steps: seq<Step>, t: State)
    decreases |steps|
  {
    if steps == [] then s == t else Enabled(s, steps[0]) && Runs(Apply(s, steps[0]), steps[1..], t)
  }

  // ---- who holds the right to write, and for which requests ----

  /** The thread has the right to write. */
  predicate Holds(pc: Pc) { !pc.Gone? && !(pc.Linking? && pc.prev.Some?) }

  /** The holder, and the last request of its list. */
  datatype Turn = Nobody | Turn(i: nat, end: nat)

  /** lo..end is the holder's list, p + 1..h what it has reversed already. */
  datatype Window = Window(lo: nat, end: nat, p: nat, h: nat)

  function WindowOf(pcs: seq<Pc>, w: Turn): Window
    requires w.Turn? ==> w.i < |pcs|
  {
    if w.Nobody? then Window(|pcs|, |pcs|, |pcs|, |pcs|) else HolderWindow(pcs[w.i], w.i, w.end)
  }

  function HolderWindow(pc: Pc, i: nat, end: nat): Window {
    var lo := if pc.Linking? || pc.Gone? then i else pc.req;
    if pc.Reversing? then Window(lo, end, pc.p, pc.h)
    else if pc.Joining? then Window(lo, end, end, pc.h)
    else Window(lo, end, end, end)
  }

  /** The link of request k, whose thread is at pc. */
  function Linked(pc: Pc, k: nat, w: Window): Next {
    if k < w.end then To(k + 1)
    else if k == w.end then if pc.Linking? then Unconnected else Null
    else if k <= w.p || k > w.h then if pc.Linking? || k == 0 then Unconnected else To(k - 1)
    else if k < w.h then To(k + 1)
    else Null
  }

  predicate LinkOk(pc: Pc, k: nat, w: Window) {
    pc.Linking? && pc.prev.Some? ==> pc.prev.value + 1 == k && k > w.end && (k <= w.p || k > w.h)
  }

  /** Before lo every request was returned once, or is about to be; success means that all was written. */
  predicate ReturnOk(r: Req, k: nat, closing: map<nat, bool>, lo: nat) {
    && r.oks + r.fails == (if k < lo && k !in closing then 1 else 0)
    && (k in closing ==> k < lo)
    && (r.oks > 0 || (k in closing && closing[k]) ==> Full(r))
  }

  predicate NodeOk(r: Req, pc: Pc, k: nat, closing: map<nat, bool>, w: Window) {
    && r.sent <= |r.data|
    && (k >= w.lo ==> r.next == Linked(pc, k, w))
    && LinkOk(pc, k, w)
    && ReturnOk(r, k, closing, w.lo)
  }

  /** The holder's own variables. */
  predicate HolderOk(pc: Pc, i: nat, end: nat, n: nat) {
    && Holds(pc) && end < n
    && match pc {
         case Linking(_) => end == i
         case Top(req, tail) => req <= end && (tail.Some? ==> tail.value == end)
         case Writing(req, at, tail) => req <= at <= end && (tail.Some? ==> tail.value == end)
         case Written(req, tail) => req <= end && (tail.Some? ==> tail.value == end)
         case Seeking(req, at) => req <= at <= end
         case Checking(req, last, failing) => req <= end == last && (failing ==> req == end)
         case Reversing(req, last, p, q, h, failing) =>
           && req <= end == last < p <= h < n && (failing ==> req == end)
           && q == (if p == h then Null else To(p + 1))
         case Joining(req, last, q, h, failing) =>
           req <= end == last < h < n && (failing ==> req == end) && q == To(end + 1)
         case Failing(req) => req <= end
         case Gone => false
       }
  }

  /** At most one thread holds the right, and somebody does iff _write_head is set. */
  predicate TurnOk(pcs: seq<Pc>, head: Option<nat>, w: Turn) {
    && (w.Nobody? ==> head == None)
    && (w.Turn? ==> w.i < |pcs| && head == Some(|pcs| - 1) && HolderOk(pcs[w.i], w.i, w.end, |pcs|))
    && (forall i :: 0 <= i < |pcs| && Holds(pcs[i]) ==> w.Turn? && w.i == i)
  }

  predicate NodeAt(reqs: seq<Req>, pcs: seq<Pc>, closing: map<nat, bool>, w: Window, k: nat)
    requires |pcs| == |reqs|
  {
    k < |reqs| ==> NodeOk(reqs[k], pcs[k], k, closing, w)
  }

  ghost predicate NodesOk(reqs: seq<Req>, pcs: seq<Pc>, closing: map<nat, bool>, w: Window) {
    && |pcs| == |reqs| && (forall k :: k in closing ==> k < |reqs|)
    && forall k: nat :: NodeAt(reqs, pcs, closing, w, k)
  }

  /** From lo on bytes were taken in order. */
  ghost predicate InOrder(reqs: seq<Req>, lo: nat) { forall i: nat, j: nat :: OrderAt(reqs, lo, i, j) }

  predicate OrderAt(reqs: seq<Req>, lo: nat, i: nat, j: nat) {
    lo <= i < j < |reqs| && reqs[j].sent > 0 ==> Full(reqs[i])
  }

  /** The holder writes only behind what is full, and has released all that is before it checks. */
  predicate CursorOk(reqs: seq<Req>, pc: Pc) {
    && (pc.Writing? ==> forall k :: pc.req <= k < pc.at && k < |reqs| ==> Full(reqs[k]))
    && (pc.Seeking? || (pc.Checking? && !pc.failing) ==> !CanSkip(reqs, pc.req))
  }

  function WireOf(reqs: seq<Req>): bytes {
    if reqs == [] then []
    else
      var r := reqs[|reqs| - 1];
      WireOf(reqs[..|reqs| - 1]) + if r.sent <= |r.data| then r.data[..r.sent] else r.data
  }

  ghost predicate DataOk(reqs: seq<Req>, wire: bytes, lo: nat) { wire == WireOf(reqs) && InOrder(reqs, lo) }

  ghost predicate Inv(s: State, w: Turn) {
    && |s.pcs| == |s.reqs| && s.checks == 0 && TurnOk(s.pcs, s.head, w)
    && NodesOk(s.reqs, s.pcs, s.closing, WindowOf(s.pcs, w))
    && DataOk(s.reqs, s.wire, WindowOf(s.pcs, w).lo) && (w.Turn? ==> CursorOk(s.reqs, s.pcs[w.i]))
  }

  /** Whose turn it is after a step. */
  function TurnAfter(s: State, w: Turn, st: Step): Turn
    requires Enabled(s, st)
  {
    match st
    case Exchange(_) => if s.head.None? then Turn(|s.reqs|, |s.reqs|) else w
    case Compare(i, keep) => if CompareStep(s, i, keep).head.None? then Nobody else w
    case Join(i, _) => Turn(i, s.pcs[i].h)
    case _ => w
  }

  // ---- the wire ----

  lemma {:induction false} WireSame(a: seq<Req>, b: seq<Req>)
    requires |a| == |b| && forall k :: 0 <= k < |a| ==> a[k].data == b[k].data && a[k].sent == b[k].sent
    ensures WireOf(a) == WireOf(b)
    decreases |a|
  {
    if a != [] { WireSame(a[..|a| - 1], b[..|b| - 1]); }
  }

  /** Nothing was sent behind the first n requests. */
  lemma {:induction false} WireEnds(reqs: seq<Req>, n: nat)
    requires n <= |reqs| && forall k :: n <= k < |reqs| ==> reqs[k].sent == 0
    ensures WireOf(reqs) == WireOf(reqs[..n])
    decreases |reqs|
  {
    if n == |reqs| {
      assert reqs[..n] == reqs;
    } else {
      var init := reqs[..|reqs| - 1];
      WireEnds(init, n);
      assert init[..n] == reqs[..n];
    }
  }

  lemma {:induction false} Further(x: bytes, data: bytes, i: nat, j: nat)
    requires i <= j <= |data|
    ensures x + data[..j] == x + data[..i] + data[i..j]
  {}

  /** More of request k, behind which nothing was sent. */
  lemma {:induction false} WirePutSome(reqs: seq<Req>, k: nat, n: nat)
    requires k < |reqs| && reqs[k].sent + n <= |reqs[k].data|
    requires forall j :: k < j < |reqs| ==> reqs[j].sent == 0
    ensures var r := reqs[k];
      WireOf(reqs[k := r.(sent := r.sent + n)]) == WireOf(reqs) + r.data[r.sent..r.sent + n]
  {
    var r := reqs[k];
    var t := reqs[k := r.(sent := r.sent + n)];
    WireEnds(reqs, k + 1);
    WireEnds(t, k + 1);
    WireLast(reqs, k);
    WireLast(t, k);
    assert t[..k] == reqs[..k];
    Further(WireOf(reqs[..k]), r.data, r.sent, r.sent + n);
  }

  lemma {:induction false} WirePut(reqs: seq<Req>, k: nat, n: nat)
    requires k < |reqs| && reqs[k].sent + n <= |reqs[k].data|
    requires n > 0 ==> forall j :: k < j < |reqs| ==> reqs[j].sent == 0
    ensures var r := reqs[k];
      WireOf(reqs[k := r.(sent := r.sent + n)]) == WireOf(reqs) + r.data[r.sent..r.sent + n]
  {
    if n == 0 {
      WireSame(reqs, reqs[k := reqs[k].(sent := reqs[k].sent + n)]);
      Further(WireOf(reqs), [], 0, 0);
    } else {
      WirePutSome(reqs, k, n);
    }
  }

  lemma {:induction false} WireLast(reqs: seq<Req>, k: nat)
    requires k < |reqs| && reqs[k].sent <= |reqs[k].data|
    ensures WireOf(reqs[..k + 1]) == WireOf(reqs[..k]) + reqs[k].data[..reqs[k].sent]
  {
    assert reqs[..k + 1][..k] == reqs[..k];
  }

  // ---- what changes with one request or one thread ----

  predicate SameData(a: seq<Req>, b: seq<Req>) {
    |a| == |b| && forall k :: 0 <= k < |a| ==> a[k].data == b[k].data && a[k].sent == b[k].sent
  }

  lemma {:induction false} SameDataOk(a: seq<Req>, b: seq<Req>, wire: bytes, lo: nat, lo2: nat)
    requires SameData(a, b) && DataOk(a, wire, lo) && lo <= lo2
    ensures DataOk(b, wire, lo2)
  {
    WireSame(a, b);
    forall i: nat, j: nat ensures OrderAt(b, lo2, i, j) { assert OrderAt(a, lo, i, j); }
  }

  /** The holder goes on with pc. */
  lemma {:induction false} TurnMoves(pcs: seq<Pc>, head: Option<nat>, w: Turn, pc: Pc, end: nat)
    requires TurnOk(pcs, head, w) && w.Turn? && HolderOk(pc, w.i, end, |pcs|)
    ensures TurnOk(pcs[w.i := pc], head, Turn(w.i, end))
  {}

  lemma {:induction false} NodesMove(reqs: seq<Req>, pcs: seq<Pc>, closing: map<nat, bool>, w: Window, i: nat, pc: Pc)
    requires NodesOk(reqs, pcs, closing, w) && i < |pcs| && !pcs[i].Linking? && !pc.Linking?
    ensures NodesOk(reqs, pcs[i := pc], closing, w)
  {
    var pcs2 := pcs[i := pc];
    forall k: nat ensures NodeAt(reqs, pcs2, closing, w, k) {
      assert NodeAt(reqs, pcs, closing, w, k);
    }
  }

  lemma {:induction false} NodesReturn(reqs: seq<Req>, pcs: seq<Pc>, closing: map<nat, bool>, w: Window, ok: bool)
    requires NodesOk(reqs, pcs, closing, w) && w.lo < |reqs| && (ok ==> Full(reqs[w.lo]))
    ensures NodesOk(Returns(reqs, w.lo, ok), pcs, closing, w.(lo := w.lo + 1))
    ensures SameData(reqs, Returns(reqs, w.lo, ok))
  {
    var reqs2, w2 := Returns(reqs, w.lo, ok), w.(lo := w.lo + 1);
    forall k: nat ensures NodeAt(reqs2, pcs, closing, w2, k) {
      assert NodeAt(reqs, pcs, closing, w, k);
    }
  }

  lemma {:induction false} ReturnedOk(reqs: seq<Req>, pcs: seq<Pc>, closing: map<nat, bool>, wire: bytes, w: Window, ok: bool)
    requires NodesOk(reqs, pcs, closing, w) && DataOk(reqs, wire, w.lo) && w.lo < |reqs| && (ok ==> Full(reqs[w.lo]))
    ensures NodesOk(Returns(reqs, w.lo, ok), pcs, closing, w.(lo := w.lo + 1))
    ensures DataOk(Returns(reqs, w.lo, ok), wire, w.lo + 1)
  {
    NodesReturn(reqs, pcs, closing, w, ok);
    SameDataOk(reqs, Returns(reqs, w.lo, ok), wire, w.lo, w.lo + 1);
  }

  lemma {:induction false} NodesClose(reqs: seq<Req>, pcs: seq<Pc>, closing: map<nat, bool>, w: Window, r: nat)
    requires NodesOk(reqs, pcs, closing, w) && r in closing && r < |reqs|
    ensures NodesOk(Returns(reqs, r, closing[r]), pcs, closing - {r}, w)
    ensures SameData(reqs, Returns(reqs, r, closing[r]))
  {
    var reqs2, closing2 := Returns(reqs, r, closing[r]), closing - {r};
    forall k: nat ensures NodeAt(reqs2, pcs, closing2, w, k) {
      assert NodeAt(reqs, pcs, closing, w, k);
    }
  }

  lemma {:induction false} NodesExchange(reqs: seq<Req>, pcs: seq<Pc>, closing: map<nat, bool>, w: Window, r: Req)
    requires NodesOk(reqs, pcs, closing, w) && r.next.Unconnected? && r.sent == r.oks == r.fails == 0
    requires w.lo <= w.end <= w.p <= w.h && w.h < |reqs|
    ensures NodesOk(reqs + [r], pcs + [Linking(Some(|reqs| - 1))], closing, w)
  {
    var reqs2, pcs2 := reqs + [r], pcs + [Linking(Some(|reqs| - 1))];
    forall k: nat ensures NodeAt(reqs2, pcs2, closing, w, k) {
      assert NodeAt(reqs, pcs, closing, w, k);
    }
  }

  lemma {:induction false} NodesStart(reqs: seq<Req>, pcs: seq<Pc>, closing: map<nat, bool>, r: Req)
    requires NodesOk(reqs, pcs, closing, Window(|pcs|, |pcs|, |pcs|, |pcs|))
    requires r.next.Unconnected? && r.sent == r.oks == r.fails == 0
    ensures NodesOk(reqs + [r], pcs + [Linking(None)], closing, Window(|pcs|, |pcs|, |pcs|, |pcs|))
  {
    var w := Window(|pcs|, |pcs|, |pcs|, |pcs|);
    var reqs2, pcs2 := reqs + [r], pcs + [Linking(None)];
    forall k: nat ensures NodeAt(reqs2, pcs2, closing, w, k) {
      assert NodeAt(reqs, pcs, closing, w, k);
    }
  }

  lemma {:induction false} NodesLink(reqs: seq<Req>, pcs: seq<Pc>, closing: map<nat, bool>, w: Window, i: nat, pc: Pc)
    requires NodesOk(reqs, pcs, closing, w) && i < |pcs| && pcs[i].Linking? && !pc.Linking?
    requires pcs[i].prev.None? ==> i == w.end
    ensures var prev := pcs[i].prev;
      NodesOk(Links(reqs, i, if prev.Some? then To(prev.value) else Null), pcs[i := pc], closing, w)
  {
    var prev := pcs[i].prev;
    var next := if prev.Some? then To(prev.value) else Null;
    var reqs2, pcs2 := Links(reqs, i, next), pcs[i := pc];
    forall k: nat ensures NodeAt(reqs2, pcs2, closing, w, k) {
      assert NodeAt(reqs, pcs, closing, w, k);
    }
  }

  lemma {:induction false} NodesReverse(reqs: seq<Req>, pcs: seq<Pc>, closing: map<nat, bool>, w: Window)
    requires NodesOk(reqs, pcs, closing, w) && w.lo <= w.end < w.p <= w.h < |reqs| && !pcs[w.p].Linking?
    ensures NodesOk(Links(reqs, w.p, if w.p == w.h then Null else To(w.p + 1)), pcs, closing, w.(p := w.p - 1))
  {
    var next := if w.p == w.h then Null else To(w.p + 1);
    var reqs2, w2 := Links(reqs, w.p, next), w.(p := w.p - 1);
    forall k: nat ensures NodeAt(reqs2, pcs, closing, w2, k) {
      assert NodeAt(reqs, pcs, closing, w, k);
    }
  }

  lemma {:induction false} NodesJoin(reqs: seq<Req>, pcs: seq<Pc>, closing: map<nat, bool>, w: Window)
    requires NodesOk(reqs, pcs, closing, w) && w.lo <= w.end == w.p < w.h < |reqs| && !pcs[w.h].Linking?
    ensures NodesOk(Links(reqs, w.end, To(w.end + 1)), pcs, closing, Window(w.lo, w.h, w.h, w.h))
  {
    var reqs2, w2 := Links(reqs, w.end, To(w.end + 1)), Window(w.lo, w.h, w.h, w.h);
    forall k: nat ensures NodeAt(reqs2, pcs, closing, w2, k) {
      assert NodeAt(reqs, pcs, closing, w, k);
    }
  }

  lemma {:induction false} NodesFinish(reqs: seq<Req>, pcs: seq<Pc>, closing: map<nat, bool>, r: nat, ok: bool)
    requires NodesOk(reqs, pcs, closing, Window(r, r, r, r)) && r + 1 == |reqs| && (ok ==> Full(reqs[r]))
    ensures NodesOk(reqs, pcs, closing[r := ok], Window(r + 1, r + 1, r + 1, r + 1))
  {
    var closing2, w2 := closing[r := ok], Window(r + 1, r + 1, r + 1, r + 1);
    forall k: nat ensures NodeAt(reqs, pcs, closing2, w2, k) {
      assert NodeAt(reqs, pcs, closing, Window(r, r, r, r), k);
    }
  }

  // ---- the steps ----

  lemma {:induction false} HolderIs(s: State, w: Turn, i: nat)
    requires Inv(s, w) && i < |s.pcs| && Holds(s.pcs[i])
    ensures w.Turn? && w.i == i && HolderOk(s.pcs[i], i, w.end, |s.pcs|) && s.head == Some(|s.pcs| - 1)
  {}

  lemma {:induction false} TurnExchange(pcs: seq<Pc>, head: Option<nat>, w: Turn)
    requires TurnOk(pcs, head, w)
    ensures TurnOk(pcs + [Linking(head)], Some(|pcs|), if w.Nobody? then Turn(|pcs|, |pcs|) else w)
  {}

  lemma {:induction false} DataExchange(reqs: seq<Req>, wire: bytes, lo: nat, r: Req)
    requires DataOk(reqs, wire, lo) && r.sent == 0
    ensures DataOk(reqs + [r], wire, lo)
  {
    var all := reqs + [r];
    assert all[..|reqs|] == reqs;
    forall i: nat, j: nat ensures OrderAt(all, lo, i, j) { assert OrderAt(reqs, lo, i, j); }
  }

  lemma {:induction false} ExchangeInv(s: State, w: Turn, data: bytes)
    requires Inv(s, w)
    ensures Inv(ExchangeStep(s, data), if s.head.None? then Turn(|s.reqs|, |s.reqs|) else w)
  {
    var r := Req(data, Unconnected, 0, 0, 0);
    TurnExchange(s.pcs, s.head, w);
    DataExchange(s.reqs, s.wire, WindowOf(s.pcs, w).lo, r);
    if w.Nobody? {
      NodesStart(s.reqs, s.pcs, s.closing, r);
    } else {
      NodesExchange(s.reqs, s.pcs, s.closing, WindowOf(s.pcs, w), r);
    }
  }

  lemma {:induction false} TurnLinks(pcs: seq<Pc>, head: Option<nat>, w: Turn, i: nat)
    requires TurnOk(pcs, head, w) && i < |pcs| && pcs[i].Linking?
    ensures TurnOk(pcs[i := if pcs[i].prev.Some? then Gone else Top(i, None)], head, w)
  {
    if pcs[i].prev.None? { assert Holds(pcs[i]); } else { assert w.Turn? ==> Holds(pcs[w.i]); }
  }

  /** A thread about to link is none of the holder's requests. */
  lemma {:induction false} LinkedBehind(s: State, w: Turn, i: nat)
    requires Inv(s, w) && w.Turn? && i < |s.pcs| && s.pcs[i].Linking? && i != w.i
    ensures s.pcs[i].prev.Some? && i > w.end
  {
    assert NodeAt(s.reqs, s.pcs, s.closing, WindowOf(s.pcs, w), i);
    if Holds(s.pcs[i]) { HolderIs(s, w, i); }
  }

  lemma {:induction false} LinkInv(s: State, w: Turn, i: nat)
    requires Inv(s, w) && i < |s.pcs| && s.pcs[i].Linking?
    ensures Inv(LinkStep(s, i), w)
  {
    var prev, win := s.pcs[i].prev, WindowOf(s.pcs, w);
    TurnLinks(s.pcs, s.head, w, i);
    assert NodeAt(s.reqs, s.pcs, s.closing, win, i);
    if w.Turn? && i != w.i { LinkedBehind(s, w, i); }
    NodesLink(s.reqs, s.pcs, s.closing, win, i, if prev.Some? then Gone else Top(i, None));
    SameDataOk(s.reqs, Links(s.reqs, i, if prev.Some? then To(prev.value) else Null), s.wire, win.lo, win.lo);
  }

  /** The holder's list is all it has got. */
  predicate Plain(pc: Pc) {
    pc.Top? || pc.Writing? || pc.Written? || pc.Seeking? || pc.Checking? || pc.Failing?
  }

  /** The first request is returned and the holder goes on behind it. */
  lemma {:induction false} ReturnInv(s: State, w: Turn, i: nat, r: nat, ok: bool, pc: Pc)
    requires Inv(s, w) && w.Turn? && w.i == i && Plain(s.pcs[i]) && Plain(pc)
    requires s.pcs[i].req == r && r < |s.reqs| && pc.req == r + 1 && HolderOk(pc, i, w.end, |s.pcs|)
    requires (ok ==> Full(s.reqs[r])) && (pc.Writing? ==> pc.req == pc.at) && !pc.Seeking? && !pc.Checking?
    ensures Inv(ReturnStep(s, i, r, ok, pc), w)
  {
    var reqs := Returns(s.reqs, r, ok);
    var win := Window(r, w.end, w.end, w.end);
    assert WindowOf(s.pcs, w) == win && HolderWindow(pc, i, w.end) == win.(lo := r + 1);
    TurnMoves(s.pcs, s.head, w, pc, w.end);
    ReturnedOk(s.reqs, s.pcs, s.closing, s.wire, win, ok);
    NodesMove(reqs, s.pcs, s.closing, win.(lo := r + 1), i, pc);
  }

  /** Only the holder's variables change. */
  lemma {:induction false} MoveInv(s: State, w: Turn, i: nat, pc: Pc)
    requires Inv(s, w) && w.Turn? && w.i == i && Plain(s.pcs[i]) && Plain(pc)
    requires pc.req == s.pcs[i].req && HolderOk(pc, i, w.end, |s.pcs|) && CursorOk(s.reqs, pc)
    ensures Inv(Moves(s, i, pc), w)
  {
    TurnMoves(s.pcs, s.head, w, pc, w.end);
    NodesMove(s.reqs, s.pcs, s.closing, WindowOf(s.pcs, w), i, pc);
  }

  /** The link of a request of the holder's. */
  lemma {:induction false} OwnLink(s: State, w: Turn, k: nat)
    requires Inv(s, w) && w.Turn? && !s.pcs[w.i].Linking? && s.pcs[w.i].req <= k <= w.end
    ensures k < |s.reqs| && s.reqs[k].next == if k == w.end then Null else To(k + 1)
  {
    assert NodeAt(s.reqs, s.pcs, s.closing, WindowOf(s.pcs, w), k);
  }

  lemma {:induction false} BeginInv(s: State, w: Turn, i: nat)
    requires Inv(s, w) && i < |s.pcs| && s.pcs[i].Top? && s.pcs[i].req < |s.reqs|
    ensures Inv(BeginStep(s, i), w)
  {
    HolderIs(s, w, i);
    var pc := s.pcs[i];
    OwnLink(s, w, pc.req);
    if CanSkip(s.reqs, pc.req) {
      ReturnInv(s, w, i, pc.req, true, Writing(pc.req + 1, pc.req + 1, pc.tail));
    } else {
      MoveInv(s, w, i, Writing(pc.req, pc.req, pc.tail));
    }
  }

  lemma {:induction false} SkipInv(s: State, w: Turn, i: nat)
    requires Inv(s, w) && i < |s.pcs| && s.pcs[i].Written? && CanSkip(s.reqs, s.pcs[i].req)
    ensures Inv(ReturnStep(s, i, s.pcs[i].req, true, Written(s.reqs[s.pcs[i].req].next.i, s.pcs[i].tail)), w)
  {
    HolderIs(s, w, i);
    OwnLink(s, w, s.pcs[i].req);
    ReturnInv(s, w, i, s.pcs[i].req, true, Written(s.pcs[i].req + 1, s.pcs[i].tail));
  }

  lemma {:induction false} FailInv(s: State, w: Turn, i: nat)
    requires Inv(s, w) && i < |s.pcs| && (s.pcs[i].Top? || s.pcs[i].Writing? || s.pcs[i].Written?)
    ensures Inv(Moves(s, i, Failing(s.pcs[i].req)), w)
  {
    HolderIs(s, w, i);
    MoveInv(s, w, i, Failing(s.pcs[i].req));
  }

  lemma {:induction false} FailOneInv(s: State, w: Turn, i: nat)
    requires Inv(s, w) && i < |s.pcs| && s.pcs[i].Failing? && s.pcs[i].req < |s.reqs|
    ensures Inv(FailOneStep(s, i), w)
  {
    HolderIs(s, w, i);
    var r := s.pcs[i].req;
    OwnLink(s, w, r);
    if r < w.end { ReturnInv(s, w, i, r, false, Failing(r + 1)); } else { MoveInv(s, w, i, Checking(r, r, true)); }
  }

  lemma {:induction false} NodesPut(reqs: seq<Req>, pcs: seq<Pc>, closing: map<nat, bool>, w: Window, i: nat, n: nat)
    requires NodesOk(reqs, pcs, closing, w) && w.lo <= i < |reqs| && reqs[i].sent + n <= |reqs[i].data|
    ensures NodesOk(reqs[i := reqs[i].(sent := reqs[i].sent + n)], pcs, closing, w)
  {
    var reqs2 := reqs[i := reqs[i].(sent := reqs[i].sent + n)];
    forall k: nat ensures NodeAt(reqs2, pcs, closing, w, k) {
      assert NodeAt(reqs, pcs, closing, w, k);
    }
  }

  lemma {:induction false} DataPut(reqs: seq<Req>, wire: bytes, lo: nat, k: nat, n: nat)
    requires DataOk(reqs, wire, lo) && lo <= k < |reqs| && reqs[k].sent + n <= |reqs[k].data|
    requires forall i :: lo <= i < k ==> Full(reqs[i])
    ensures var r := reqs[k];
      DataOk(reqs[k := r.(sent := r.sent + n)], wire + r.data[r.sent..r.sent + n], lo)
  {
    var t := reqs[k := reqs[k].(sent := reqs[k].sent + n)];
    forall j | k < j < |reqs| ensures n > 0 ==> reqs[j].sent == 0 { assert OrderAt(reqs, lo, k, j); }
    WirePut(reqs, k, n);
    forall i: nat, j: nat ensures OrderAt(t, lo, i, j) { assert OrderAt(reqs, lo, i, j); }
  }

  lemma {:induction false} PutInv(s: State, w: Turn, i: nat, n: nat)
    requires Inv(s, w) && i < |s.pcs| && s.pcs[i].Writing? && s.pcs[i].at < |s.reqs|
    requires s.reqs[s.pcs[i].at].sent + n <= |s.reqs[s.pcs[i].at].data|
    ensures Inv(PutStep(s, s.pcs[i].at, n), w)
  {
    HolderIs(s, w, i);
    var win := WindowOf(s.pcs, w);
    NodesPut(s.reqs, s.pcs, s.closing, win, s.pcs[i].at, n);
    DataPut(s.reqs, s.wire, win.lo, s.pcs[i].at, n);
  }

  lemma {:induction false} MoveOnInv(s: State, w: Turn, i: nat)
    requires Inv(s, w) && i < |s.pcs| && s.pcs[i].Writing? && CanSkip(s.reqs, s.pcs[i].at)
    ensures Inv(Moves(s, i, Writing(s.pcs[i].req, s.reqs[s.pcs[i].at].next.i, s.pcs[i].tail)), w)
  {
    HolderIs(s, w, i);
    OwnLink(s, w, s.pcs[i].at);
    MoveInv(s, w, i, Writing(s.pcs[i].req, s.pcs[i].at + 1, s.pcs[i].tail));
  }

  lemma {:induction false} StopInv(s: State, w: Turn, i: nat)
    requires Inv(s, w) && i < |s.pcs| && s.pcs[i].Writing?
    ensures Inv(Moves(s, i, Written(s.pcs[i].req, s.pcs[i].tail)), w)
  {
    HolderIs(s, w, i);
    MoveInv(s, w, i, Written(s.pcs[i].req, s.pcs[i].tail));
  }

  lemma {:induction false} SeekInv(s: State, w: Turn, i: nat)
    requires Inv(s, w) && i < |s.pcs|
    requires (s.pcs[i].Written? && !CanSkip(s.reqs, s.pcs[i].req)) || (s.pcs[i].Seeking? && s.pcs[i].at < |s.reqs|)
    ensures Inv(SeekStep(s, i), w)
  {
    HolderIs(s, w, i);
    var pc := s.pcs[i];
    if pc.Written? {
      MoveInv(s, w, i, if pc.tail.Some? then Checking(pc.req, pc.tail.value, false) else Seeking(pc.req, pc.req));
    } else {
      OwnLink(s, w, pc.at);
      MoveInv(s, w, i, if pc.at < w.end then Seeking(pc.req, pc.at + 1) else Checking(pc.req, pc.at, false));
    }
  }

  /** The turn ends: nothing was pushed behind the last request. */
  lemma {:induction false} FinishInv(s: State, w: Turn, i: nat)
    requires Inv(s, w) && w.Turn? && w.i == i && s.pcs[i].Checking? && s.head == Some(s.pcs[i].last)
    requires s.pcs[i].req == s.pcs[i].last && (!s.pcs[i].failing ==> Full(s.reqs[s.pcs[i].last]))
    ensures Inv(Moves(s.(head := None, closing := s.closing[s.pcs[i].req := !s.pcs[i].failing]), i, Gone), Nobody)
  {
    var r, ok := s.pcs[i].req, !s.pcs[i].failing;
    NodesMove(s.reqs, s.pcs, s.closing, WindowOf(s.pcs, w), i, Gone);
    NodesFinish(s.reqs, s.pcs[i := Gone], s.closing, r, ok);
    SameDataOk(s.reqs, s.reqs, s.wire, r, r + 1);
  }

  lemma {:induction false} CompareInv(s: State, w: Turn, i: nat, keep: bool)
    requires Inv(s, w) && i < |s.pcs| && s.pcs[i].Checking? && s.pcs[i].last < |s.reqs|
    ensures var t := CompareStep(s, i, keep); Inv(t, if t.head.None? then Nobody else w)
  {
    HolderIs(s, w, i);
    var pc := s.pcs[i];
    OwnLink(s, w, pc.last);
    if s.head != Some(pc.last) {
      StartReverseInv(s, w, i);
    } else if pc.failing || (pc.req == pc.last && Full(s.reqs[pc.last])) {
      FinishInv(s, w, i);
    } else {
      MoveInv(s, w, i, Again(pc.req, pc.last, false, keep));
    }
  }

  lemma {:induction false} NodesFetch(reqs: seq<Req>, pcs: seq<Pc>, closing: map<nat, bool>, lo: nat, end: nat, h: nat)
    requires NodesOk(reqs, pcs, closing, Window(lo, end, end, end)) && end < h
    ensures NodesOk(reqs, pcs, closing, Window(lo, end, h, h))
  {
    var w2 := Window(lo, end, h, h);
    forall k: nat ensures NodeAt(reqs, pcs, closing, w2, k) {
      assert NodeAt(reqs, pcs, closing, Window(lo, end, end, end), k);
    }
  }

  lemma {:induction false} StartReverseInv(s: State, w: Turn, i: nat)
    requires Inv(s, w) && w.Turn? && w.i == i && s.pcs[i].Checking? && s.head != Some(s.pcs[i].last)
    ensures var pc, h := s.pcs[i], |s.pcs| - 1;
      Inv(Moves(s, i, Reversing(pc.req, pc.last, h, Null, h, pc.failing)), w)
  {
    var pc, h := s.pcs[i], |s.pcs| - 1;
    var pc2 := Reversing(pc.req, pc.last, h, Null, h, pc.failing);
    TurnMoves(s.pcs, s.head, w, pc2, w.end);
    NodesFetch(s.reqs, s.pcs, s.closing, pc.req, w.end, h);
    NodesMove(s.reqs, s.pcs, s.closing, Window(pc.req, w.end, h, h), i, pc2);
  }

  /** The holder changed the link of request k and goes on with pc. */
  lemma {:induction false} RelinkInv(s: State, w: Turn, i: nat, k: nat, next: Next, pc: Pc, end: nat)
    requires Inv(s, w) && w.Turn? && w.i == i && !s.pcs[i].Linking? && k < |s.reqs|
    requires HolderOk(pc, i, end, |s.pcs|) && !pc.Linking? && !pc.Writing? && !pc.Seeking? && !pc.Checking?
    requires HolderWindow(pc, i, end).lo == WindowOf(s.pcs, w).lo
    requires NodesOk(Links(s.reqs, k, next), s.pcs, s.closing, HolderWindow(pc, i, end))
    ensures Inv(Moves(s.(reqs := Links(s.reqs, k, next)), i, pc), Turn(i, end))
  {
    var lo := WindowOf(s.pcs, w).lo;
    TurnMoves(s.pcs, s.head, w, pc, end);
    NodesMove(Links(s.reqs, k, next), s.pcs, s.closing, HolderWindow(pc, i, end), i, pc);
    SameDataOk(s.reqs, Links(s.reqs, k, next), s.wire, lo, lo);
  }

  /** A request being reversed links to the one pushed before it. */
  lemma {:induction false} PushedLink(s: State, w: Turn, i: nat)
    requires Inv(s, w) && w.Turn? && w.i == i && s.pcs[i].Reversing? && s.pcs[i].p < |s.reqs|
    ensures s.reqs[s.pcs[i].p].next.Unconnected? <==> s.pcs[s.pcs[i].p].Linking?
    ensures !s.reqs[s.pcs[i].p].next.Unconnected? ==> s.reqs[s.pcs[i].p].next == To(s.pcs[i].p - 1)
  {
    var k := s.pcs[i].p;
    assert NodeAt(s.reqs, s.pcs, s.closing, WindowOf(s.pcs, w), k);
  }

  lemma {:induction false} ReverseOne(s: State, w: Turn, i: nat)
    requires Inv(s, w) && w.Turn? && w.i == i && s.pcs[i].Reversing? && s.pcs[i].p - 1 > s.pcs[i].last
    requires s.pcs[i].p < |s.pcs| && !s.pcs[s.pcs[i].p].Linking?
    ensures var pc := s.pcs[i];
      Inv(Moves(s.(reqs := Links(s.reqs, pc.p, pc.q)), i,
                Reversing(pc.req, pc.last, pc.p - 1, To(pc.p), pc.h, pc.failing)), w)
  {
    var pc := s.pcs[i];
    NodesReverse(s.reqs, s.pcs, s.closing, WindowOf(s.pcs, w));
    RelinkInv(s, w, i, pc.p, pc.q, Reversing(pc.req, pc.last, pc.p - 1, To(pc.p), pc.h, pc.failing), w.end);
  }

  lemma {:induction false} ReverseLast(s: State, w: Turn, i: nat)
    requires Inv(s, w) && w.Turn? && w.i == i && s.pcs[i].Reversing? && s.pcs[i].p - 1 == s.pcs[i].last
    requires s.pcs[i].p < |s.pcs| && !s.pcs[s.pcs[i].p].Linking?
    ensures var pc := s.pcs[i];
      Inv(Moves(s.(reqs := Links(s.reqs, pc.p, pc.q)), i,
                Joining(pc.req, pc.last, To(pc.p), pc.h, pc.failing)), w)
  {
    var pc := s.pcs[i];
    NodesReverse(s.reqs, s.pcs, s.closing, WindowOf(s.pcs, w));
    RelinkInv(s, w, i, pc.p, pc.q, Joining(pc.req, pc.last, To(pc.p), pc.h, pc.failing), w.end);
  }

  lemma {:induction false} ReverseInv(s: State, w: Turn, i: nat)
    requires Inv(s, w) && i < |s.pcs| && s.pcs[i].Reversing? && s.pcs[i].p < |s.reqs|
    requires !s.reqs[s.pcs[i].p].next.Unconnected?
    ensures Inv(ReverseStep(s, i), w)
  {
    HolderIs(s, w, i);
    PushedLink(s, w, i);
    if s.pcs[i].p - 1 == s.pcs[i].last { ReverseLast(s, w, i); } else { ReverseOne(s, w, i); }
  }

  lemma {:induction false} LinkedAlready(s: State, w: Turn, k: nat)
    requires Inv(s, w) && w.Turn? && s.pcs[w.i].Joining? && k == s.pcs[w.i].h
    ensures !s.pcs[k].Linking?
  {
    assert NodeAt(s.reqs, s.pcs, s.closing, WindowOf(s.pcs, w), k);
    if Holds(s.pcs[k]) { HolderIs(s, w, k); }
  }

  lemma {:induction false} JoinInv(s: State, w: Turn, i: nat, keep: bool)
    requires Inv(s, w) && i < |s.pcs| && s.pcs[i].Joining? && s.pcs[i].last < |s.reqs|
    ensures Inv(JoinStep(s, i, keep), Turn(i, s.pcs[i].h))
  {
    HolderIs(s, w, i);
    var pc := s.pcs[i];
    LinkedAlready(s, w, pc.h);
    NodesJoin(s.reqs, s.pcs, s.closing, WindowOf(s.pcs, w));
    RelinkInv(s, w, i, pc.last, pc.q, Again(pc.req, pc.h, pc.failing, keep), pc.h);
  }

  lemma {:induction false} CloseInv(s: State, w: Turn, r: nat)
    requires Inv(s, w) && r in s.closing && r < |s.reqs|
    ensures Inv(CloseStep(s, r), w)
  {
    var win := WindowOf(s.pcs, w);
    NodesClose(s.reqs, s.pcs, s.closing, win, r);
    SameDataOk(s.reqs, Returns(s.reqs, r, s.closing[r]), s.wire, win.lo, win.lo);
  }

  lemma {:induction false} StepInv(s: State, w: Turn, st: Step)
    requires Inv(s, w) && Enabled(s, st)
    ensures Inv(Apply(s, st), TurnAfter(s, w, st))
  {
    match st
    case Exchange(data) => ExchangeInv(s, w, data);
    case Link(i) => LinkInv(s, w, i);
    case Begin(i) => BeginInv(s, w, i);
    case Put(i, n) => PutInv(s, w, i, n);
    case MoveOn(i) => MoveOnInv(s, w, i);
    case Stop(i) => StopInv(s, w, i);
    case Skip(i) => SkipInv(s, w, i);
    case Seek(i) => SeekInv(s, w, i);
    case Fail(i) => FailInv(s, w, i);
    case FailOne(i) => FailOneInv(s, w, i);
    case Compare(i, keep) => CompareInv(s, w, i, keep);
    case Reverse(i) => ReverseInv(s, w, i);
    case Join(i, keep) => JoinInv(s, w, i, keep);
    case Close(r) => CloseInv(s, w, r);
  }

  function TurnOf(s: State, w: Turn, steps: seq<Step>, t: State): Turn
    requires Runs(s, steps, t)
    decreases |steps|
  {
    if steps == [] then w else TurnOf(Apply(s, steps[0]), TurnAfter(s, w, steps[0]), steps[1..], t)
  }

  lemma {:induction false} RunInv(s: State, w: Turn, steps: seq<Step>, t: State)
    requires Inv(s, w) && Runs(s, steps, t)
    ensures Inv(t, TurnOf(s, w, steps, t))
    decreases |steps|
  {
    if steps != [] {
      StepInv(s, w, steps[0]);
      RunInv(Apply(s, steps[0]), TurnAfter(s, w, steps[0]), steps[1..], t);
    }
  }

  // ---- what holds in every run ----

  /** At most one thread at a time has the right to write, and no CHECK fires. */
  lemma {:induction false} OneWriter(steps: seq<Step>, t: State, i: nat, j: nat)
    requires Runs(INIT, steps, t) && i < |t.pcs| && j < |t.pcs| && Holds(t.pcs[i]) && Holds(t.pcs[j])
    ensures i == j && t.head.Some?
  {
    RunInv(INIT, Nobody, steps, t);
  }

  lemma {:induction false} ChecksHold(steps: seq<Step>, t: State)
    requires Runs(INIT, steps, t)
    ensures t.checks == 0
  {
    RunInv(INIT, Nobody, steps, t);
  }

  /** The request was given up, or is about to be returned as given up. */
  predicate GivenUp(s: State, k: nat)
    requires k < |s.reqs|
  {
    s.reqs[k].fails > 0 || (k in s.closing && !s.closing[k])
  }

  lemma {:induction false} PastIsFull(s: State, w: Turn, i: nat)
    requires Inv(s, w) && i < |s.reqs| && i < WindowOf(s.pcs, w).lo
    ensures Full(s.reqs[i]) || GivenUp(s, i)
  {
    assert NodeAt(s.reqs, s.pcs, s.closing, WindowOf(s.pcs, w), i);
  }

  /**
   * The wire is, in the order of the exchanges, the beginning of every request's data, once each. A
   * request that was not written completely before a later one was given up.
   */
  lemma {:induction false} WireInOrder(steps: seq<Step>, t: State)
    requires Runs(INIT, steps, t)
    ensures t.wire == WireOf(t.reqs) && forall k :: 0 <= k < |t.reqs| ==> t.reqs[k].sent <= |t.reqs[k].data|
    ensures forall i, j :: 0 <= i < j < |t.reqs| && t.reqs[j].sent > 0 ==> Full(t.reqs[i]) || GivenUp(t, i)
  {
    RunInv(INIT, Nobody, steps, t);
    var w := TurnOf(INIT, Nobody, steps, t);
    var win := WindowOf(t.pcs, w);
    forall k | 0 <= k < |t.reqs| ensures t.reqs[k].sent <= |t.reqs[k].data| {
      assert NodeAt(t.reqs, t.pcs, t.closing, win, k);
    }
    forall i, j | 0 <= i < j < |t.reqs| && t.reqs[j].sent > 0 ensures Full(t.reqs[i]) || GivenUp(t, i) {
      if i < win.lo { PastIsFull(t, w, i); } else { assert OrderAt(t.reqs, win.lo, i, j); }
    }
  }

  /** Each request is returned at most once, and as written only if all of it is on the wire. */
  lemma {:induction false} ReturnedOnce(steps: seq<Step>, t: State, k: nat)
    requires Runs(INIT, steps, t) && k < |t.reqs|
    ensures t.reqs[k].oks + t.reqs[k].fails <= 1 && (t.reqs[k].oks > 0 ==> Full(t.reqs[k]))
  {
    RunInv(INIT, Nobody, steps, t);
    assert NodeAt(t.reqs, t.pcs, t.closing, WindowOf(t.pcs, TurnOf(INIT, Nobody, steps, t)), k);
  }

  /** A step that can be taken while somebody has the right to write. */
  function Progress(s: State, w: Turn): Step
    requires w.Turn? && w.i < |s.pcs| && |s.pcs| == |s.reqs|
  {
    match s.pcs[w.i]
    case Linking(_) => Link(w.i)
    case Top(_, _) => Begin(w.i)
    case Writing(_, _, _) => Stop(w.i)
    case Written(req, _) => if CanSkip(s.reqs, req) then Skip(w.i) else Seek(w.i)
    case Seeking(_, _) => Seek(w.i)
    case Checking(_, _, _) => Compare(w.i, true)
    case Reversing(_, _, p, _, _, _) => if p < |s.pcs| && s.pcs[p].Linking? then Link(p) else Reverse(w.i)
    case Joining(_, _, _, _, _) => Join(w.i, true)
    case Failing(_) => FailOne(w.i)
    case Gone => Stop(w.i)
  }

  /** Waiting for a link never blocks: whoever has the right can go on, or the awaited thread can. */
  lemma {:induction false} NeverStuck(s: State, w: Turn)
    requires Inv(s, w) && w.Turn?
    ensures Enabled(s, Progress(s, w))
  {
    HolderIs(s, w, w.i);
    if s.pcs[w.i].Reversing? { PushedLink(s, w, w.i); }
  }

  /** No thread can take a step before another request comes. */
  ghost predicate Quiescent(s: State) { forall st :: Enabled(s, st) ==> st.Exchange? }

  lemma {:induction false} IdleReturned(s: State, k: nat)
    requires Inv(s, Nobody) && k < |s.reqs| && k !in s.closing
    ensures s.reqs[k].oks + s.reqs[k].fails == 1 && (s.reqs[k].oks > 0 ==> Full(s.reqs[k]))
  {
    assert NodeAt(s.reqs, s.pcs, s.closing, WindowOf(s.pcs, Nobody), k);
  }

  /**
   * When nothing is left to do, _write_head is NULL, every request was returned exactly once, and if
   * none was given up, the wire is all data in the order of the exchanges.
   */
  lemma {:induction false} QuiescentMeansReturned(steps: seq<Step>, t: State)
    requires Runs(INIT, steps, t) && Quiescent(t)
    ensures t.head == None && forall k :: 0 <= k < |t.reqs| ==> t.reqs[k].oks + t.reqs[k].fails == 1
    ensures (forall k :: 0 <= k < |t.reqs| ==> t.reqs[k].fails == 0) ==> t.wire == AllData(t.reqs)
  {
    RunInv(INIT, Nobody, steps, t);
    var w := TurnOf(INIT, Nobody, steps, t);
    if w.Turn? {
      NeverStuck(t, w);
      assert false;
    }
    forall k | 0 <= k < |t.reqs| ensures t.reqs[k].oks + t.reqs[k].fails == 1 && (t.reqs[k].oks > 0 ==> Full(t.reqs[k])) {
      assert !Enabled(t, Close(k));
      IdleReturned(t, k);
    }
    if forall k :: 0 <= k < |t.reqs| ==> t.reqs[k].fails == 0 { FullWire(t.reqs); }
  }

  function AllData(reqs: seq<Req>): bytes {
    if reqs == [] then [] else AllData(reqs[..|reqs| - 1]) + reqs[|reqs| - 1].data
  }

  lemma {:induction false} FullWire(reqs: seq<Req>)
    requires forall k :: 0 <= k < |reqs| ==> Full(reqs[k])
    ensures WireOf(reqs) == AllData(reqs)
    decreases |reqs|
  {
    if reqs != [] {
      FullWire(reqs[..|reqs| - 1]);
      var r := reqs[|reqs| - 1];
      assert r.data[..r.sent] == r.data;
    }
  }

  /** The requests a step reads or writes. */
  function Touches(s: State, st: Step): set<nat>
    requires Enabled(s, st)
  {
    match st
    case Exchange(_) => {}
    case Link(i) => {i}
    case Begin(i) => {s.pcs[i].req}
    case Put(i, _) => {s.pcs[i].at}
    case MoveOn(i) => {s.pcs[i].at}
    case Stop(_) => {}
    case Skip(i) => {s.pcs[i].req}
    case Seek(i) => if s.pcs[i].Written? then {s.pcs[i].req} else {s.pcs[i].at}
    case Fail(_) => {}
    case FailOne(i) => {s.pcs[i].req}
    case Compare(i, _) => {s.pcs[i].last}
    case Reverse(i) => {s.pcs[i].p}
    case Join(i, _) => {s.pcs[i].last}
    case Close(r) => {r}
  }

  lemma {:induction false} NotReturned(s: State, w: Turn, k: nat)
    requires Inv(s, w) && k < |s.reqs| && (k in s.closing || k >= WindowOf(s.pcs, w).lo)
    ensures s.reqs[k].oks + s.reqs[k].fails == 0
  {
    assert NodeAt(s.reqs, s.pcs, s.closing, WindowOf(s.pcs, w), k);
  }

  /** A thread that has not linked its request yet: nobody passed it. */
  lemma {:induction false} UnlinkedIsNew(s: State, w: Turn, i: nat)
    requires Inv(s, w) && i < |s.pcs| && s.pcs[i].Linking?
    ensures i >= WindowOf(s.pcs, w).lo
  {
    assert NodeAt(s.reqs, s.pcs, s.closing, WindowOf(s.pcs, w), i);
    if Holds(s.pcs[i]) { HolderIs(s, w, i); }
  }

  lemma {:induction false} TouchesOwn(s: State, w: Turn, st: Step, k: nat)
    requires Inv(s, w) && Enabled(s, st) && k in Touches(s, st) && !st.Link? && !st.Close?
    ensures WindowOf(s.pcs, w).lo <= k < |s.reqs|
  {
    HolderIs(s, w, st.i);
  }

  /** No step touches a request that was returned: its memory may be in use for another one. */
  lemma {:induction false} NoUseAfterReturn(steps: seq<Step>, t: State, st: Step, k: nat)
    requires Runs(INIT, steps, t) && Enabled(t, st) && k in Touches(t, st)
    ensures k < |t.reqs| && t.reqs[k].oks + t.reqs[k].fails == 0
  {
    RunInv(INIT, Nobody, steps, t);
    var w := TurnOf(INIT, Nobody, steps, t);
    if st.Link? { UnlinkedIsNew(t, w, k); } else if !st.Close? { TouchesOwn(t, w, st, k); }
    NotReturned(t, w, k);
  }
}

/**
 * Cutting messages from a socket and handing them to processing
 * (brpc/brpc/input_messenger.cpp). What the protocols' parse and verify functions answer, and
 * whether a bthread could be started, are parameters.
 */
module InputMessenger {
  import opened Options

  // ---- choosing the protocol ----

  type Message = nat

  /** What a parse function answers; a message may be absent (the Process step is skipped). */
  datatype Answer = TryOthers | NotEnoughData | Critical | Cut(msg: Option<Message>)

  const BAIDU_STD := 1
  const STREAMING_RPC := 2

  /** Handlers in the order given, skipping those without a parse function and `skip`. */
  function Order(handlers: seq<bool>, skip: int, n: nat): seq<nat>
    requires n <= |handlers|
  {
    if n == 0 then []
    else
      var rest := Order(handlers, skip, n - 1);
      if n - 1 == skip || !handlers[n - 1] then rest else rest + [n - 1]
  }

  /** The first handler that does not pass the data on to others. */
  function First(parse: nat -> Answer, order: seq<nat>): Option<nat> {
    if order == [] then None
    else
      var n := |order| - 1;
      var f := First(parse, order[..n]);
      if f.Some? then f else if parse(order[n]) != TryOthers then Some(order[n]) else None
  }

  predicate Usable(handlers: seq<bool>, i: int) { 0 <= i < |handlers| && handlers[i] }

  /** The handlers a server-side socket tries: the one that worked last, then the others. */
  function Tried(handlers: seq<bool>, preferred: int): seq<nat> {
    (if Usable(handlers, preferred) then [preferred] else []) + Order(handlers, preferred, |handlers|)
  }

  lemma {:induction false} FirstConcat(parse: nat -> Answer, a: seq<nat>, b: seq<nat>)
    ensures First(parse, a + b) == if First(parse, a).Some? then First(parse, a) else First(parse, b)
    decreases |b|
  {
    if b == [] {
      assert a + b == a;
    } else {
      assert (a + b)[..|a + b| - 1] == a + b[..|b| - 1];
      FirstConcat(parse, a, b[..|b| - 1]);
    }
  }

  /** The i-th is the first that does not pass the data on. */
  predicate FirstAt(parse: nat -> Answer, order: seq<nat>, i: nat) {
    && i < |order| && parse(order[i]) != TryOthers
    && forall j :: 0 <= j < i ==> parse(order[j]) == TryOthers
  }

  lemma {:induction false} FirstMeaning(parse: nat -> Answer, order: seq<nat>)
    ensures First(parse, order).None? ==> forall i :: 0 <= i < |order| ==> parse(order[i]) == TryOthers
    ensures First(parse, order).Some? ==> exists i: nat :: FirstAt(parse, order, i) && order[i] == First(parse, order).value
    decreases |order|
  {
    if order != [] {
      var n := |order| - 1;
      var init := order[..n];
      assert forall j :: 0 <= j < n ==> order[j] == init[j];
      FirstMeaning(parse, init);
      if First(parse, init).Some? {
        var i: nat :| FirstAt(parse, init, i) && init[i] == First(parse, init).value;
        assert FirstAt(parse, order, i);
      } else if First(parse, order).Some? {
        assert FirstAt(parse, order, n);
      }
    }
  }

  /** Adding handlers behind does not change which one answers first. */
  lemma {:induction false} FirstStays(parse: nat -> Answer, handlers: seq<bool>, skip: int, m: nat, n: nat)
    requires m <= n <= |handlers| && First(parse, Order(handlers, skip, m)).Some?
    ensures First(parse, Order(handlers, skip, n)) == First(parse, Order(handlers, skip, m))
    decreases n
  {
    if m < n {
      FirstStays(parse, handlers, skip, m, n - 1);
      if n - 1 != skip && handlers[n - 1] { FirstConcat(parse, Order(handlers, skip, n - 1), [n - 1]); }
    }
  }

  /** All handlers before n pass the data on. */
  predicate AllPass(parse: nat -> Answer, handlers: seq<bool>, skip: int, n: nat)
    requires n <= |handlers|
  {
    forall j :: 0 <= j < n && j != skip && handlers[j] ==> parse(j) == TryOthers
  }

  lemma {:induction false} PassedAll(parse: nat -> Answer, handlers: seq<bool>, skip: int, n: nat)
    requires n <= |handlers| && AllPass(parse, handlers, skip, n)
    ensures First(parse, Order(handlers, skip, n)) == None
    decreases n
  {
    if n > 0 {
      PassedAll(parse, handlers, skip, n - 1);
      if n - 1 != skip && handlers[n - 1] { FirstConcat(parse, Order(handlers, skip, n - 1), [n - 1]); }
    }
  }

  /** All before i pass: if i does not, it is the first of all. */
  lemma {:induction false} FirstAnswers(parse: nat -> Answer, handlers: seq<bool>, skip: int, i: nat)
    requires i < |handlers| && i != skip && handlers[i]
    requires AllPass(parse, handlers, skip, i) && parse(i) != TryOthers
    ensures First(parse, Order(handlers, skip, |handlers|)) == Some(i)
  {
    PassedAll(parse, handlers, skip, i);
    FirstConcat(parse, Order(handlers, skip, i), [i]);
    assert First(parse, Order(handlers, skip, i + 1)) == Some(i);
    FirstStays(parse, handlers, skip, i + 1, |handlers|);
  }

  /** Complete or incomplete messages make the protocol the preferred one. */
  predicate Accepts(r: Answer) { r.Cut? || r.NotEnoughData? }

  function AnswerOf(parse: nat -> Answer, f: Option<nat>): Answer { if f.Some? then parse(f.value) else TryOthers }

  function Chosen(parse: nat -> Answer, f: Option<nat>): Option<nat> {
    if Accepts(AnswerOf(parse, f)) then f else None
  }

  /** The protocol a client's answer comes from: its own, or streaming_rpc when baidu_std passes. */
  function ClientIndex(parse: nat -> Answer, preferred: nat): nat {
    if parse(preferred) == TryOthers && preferred == BAIDU_STD then STREAMING_RPC else preferred
  }

  /** A client has no other protocols: if the answer passes, the data is wrong. */
  function ClientAnswer(parse: nat -> Answer, preferred: nat, hello: bool): Answer {
    if hello && parse(preferred) == TryOthers then TryOthers
    else if parse(ClientIndex(parse, preferred)) == TryOthers then Critical
    else parse(ClientIndex(parse, preferred))
  }

  /** What remains of a socket for this purpose. */
  class Socket {
    var preferred: int
    var context: bool          // a parsing context is set
    const createdByConnect: bool

    constructor (preferred: int, createdByConnect: bool)
      ensures this.preferred == preferred && this.createdByConnect == createdByConnect && !context
    {
      this.preferred, this.createdByConnect, this.context := preferred, createdByConnect, false;
    }

    /** The first part of CutInputMessage; stop says that the answer is final. */
    method TryPreferred(handlers: seq<bool>, parse: nat -> Answer, hello: bool)
      returns (stop: bool, r: Answer, index: Option<nat>)
      requires Usable(handlers, preferred)
      requires createdByConnect && preferred == BAIDU_STD ==> Usable(handlers, STREAMING_RPC)
      modifies this
      ensures index == if stop && Accepts(r) then Some(preferred) else None
      ensures index.Some? ==> Usable(handlers, preferred) && r == parse(preferred)
      ensures parse(old(preferred)) != TryOthers ==> stop && r == parse(old(preferred)) && preferred == old(preferred)
      ensures parse(old(preferred)) == TryOthers ==> stop == (hello || createdByConnect)
      ensures parse(old(preferred)) == TryOthers && hello ==> r == TryOthers
      ensures !stop ==> preferred == -1
      ensures createdByConnect ==> r == ClientAnswer(parse, old(preferred), hello)
      ensures createdByConnect && Accepts(r) ==> preferred == ClientIndex(parse, old(preferred))
    {
      var cur := preferred;
      index := None;
      while true
        invariant cur == preferred || (createdByConnect && preferred == BAIDU_STD && cur == STREAMING_RPC)
        invariant cur != preferred ==> parse(preferred) == TryOthers && !hello
        invariant Usable(handlers, cur) && preferred == old(preferred) && index == None
        decreases cur == preferred
      {
        r := parse(cur);
        if Accepts(r) {
          preferred, index := cur, Some(cur);
          return true, r, index;
        } else if r != TryOthers || hello {
          return true, r, None;
        }
        if createdByConnect {
          if cur == BAIDU_STD {
            cur := STREAMING_RPC;
            continue;
          }
          return true, Critical, None;
        }
        break;
      }
      context := false;
      preferred, stop := -1, false;
    }

    /** The loop over all handlers but the one tried already. */
    method TryEach(handlers: seq<bool>, parse: nat -> Answer, tried: int) returns (r: Answer, index: Option<nat>)
      modifies this
      ensures var f := First(parse, Order(handlers, tried, |handlers|)); r == AnswerOf(parse, f) && index == Chosen(parse, f)
      ensures preferred == if index.Some? then index.value else old(preferred)
      ensures index.Some? ==> Usable(handlers, index.value)
    {
      for i := 0 to |handlers|
        invariant AllPass(parse, handlers, tried, i) && preferred == old(preferred)
      {
        if i == tried || !handlers[i] { continue; }
        r := parse(i);
        if r != TryOthers { FirstAnswers(parse, handlers, tried, i); }
        if Accepts(r) {
          preferred := i;
          return r, Some(i);
        } else if r.Critical? {
          return r, None;
        }
        context := false;
      }
      PassedAll(parse, handlers, tried, |handlers|);
      return TryOthers, None;
    }

    /**
     * CutInputMessage. `hello` says that the buffer starts with an RDMA greeting this socket does
     * not understand.
     */
    method CutInputMessage(handlers: seq<bool>, parse: nat -> Answer, hello: bool) returns (r: Answer, index: Option<nat>)
      requires createdByConnect && preferred == BAIDU_STD ==> Usable(handlers, STREAMING_RPC)
      modifies this
      ensures index.Some? <==> Accepts(r)
      ensures index.Some? ==> Usable(handlers, index.value) && r == parse(index.value) && preferred == index.value
      // a server tries all handlers, the preferred one first
      ensures !createdByConnect && !(hello && Usable(handlers, old(preferred)) && parse(old(preferred)) == TryOthers) ==>
        var f := First(parse, Tried(handlers, old(preferred)));
        r == AnswerOf(parse, f) && index == Chosen(parse, f)
      // a client only its own protocol, or streaming_rpc instead of baidu_std
      ensures createdByConnect && Usable(handlers, old(preferred)) ==>
        && r == ClientAnswer(parse, old(preferred), hello)
        && index == if Accepts(r) then Some(ClientIndex(parse, old(preferred))) else None
    {
      var tried := preferred;
      if Usable(handlers, tried) {
        FirstConcat(parse, [tried], Order(handlers, tried, |handlers|));
        assert [tried][..0] == [];
        var stop;
        stop, r, index := TryPreferred(handlers, parse, hello);
        if stop { return; }
      } else {
        assert Tried(handlers, tried) == Order(handlers, tried, |handlers|);
      }
      r, index := TryEach(handlers, parse, tried);
    }
  }

  // ---- handing messages to processing ----

  /** How a message's protocol treats it: `Lost` means that another message was verified before. */
  datatype Verify = NoVerify | Passed | Rejected | Lost

  /** One round of the loop: what CutInputMessage said and what then holds for the message. */
  datatype Round = Round(cut: Answer, hasProcess: bool, verify: Verify, progressive: bool)

  /** The round hands over a message. */
  predicate Accepted(r: Round) {
    r.cut.Cut? && r.cut.msg.Some? && r.hasProcess && r.verify != Rejected
  }

  /** The round parses a message that is never processed. */
  predicate Dropped(r: Round) {
    r.cut.Cut? && r.cut.msg.Some? && !Accepted(r)
  }

  /** The round makes the socket fail and ends the loop. */
  predicate Fatal(r: Round) {
    r.cut.TryOthers? || r.cut.Critical? || (Dropped(r) && r.hasProcess)
  }

  predicate Last(r: Round) { Fatal(r) || r.cut.NotEnoughData? }

  function HandedBy(r: Round): seq<Message> { if Accepted(r) then [r.cut.msg.value] else [] }

  function DestroyedBy(r: Round): seq<Message> { if Dropped(r) then [r.cut.msg.value] else [] }

  /** Messages handed over by the rounds, in parse order. */
  function Handed(rs: seq<Round>): seq<Message> { After([], rs, HandedBy) }

  function Destroyed(rs: seq<Round>): seq<Message> { After([], rs, DestroyedBy) }

  /** What `each` says of each round, behind `before`. */
  function After(before: seq<Message>, rs: seq<Round>, each: Round -> seq<Message>): seq<Message> {
    if rs == [] then before else After(before, rs[..|rs| - 1], each) + each(rs[|rs| - 1])
  }

  lemma {:induction false} AfterAppends(before: seq<Message>, rs: seq<Round>, each: Round -> seq<Message>)
    ensures After(before, rs, each) == before + After([], rs, each)
    decreases |rs|
  {
    if rs != [] { AfterAppends(before, rs[..|rs| - 1], each); }
  }

  /** The rounds that are run: up to the first that ends the loop. */
  function Count(rs: seq<Round>): (n: nat)
    ensures n <= |rs|
  {
    if rs == [] then 0 else if Last(rs[0]) then 1 else 1 + Count(rs[1..])
  }

  /** They are all that come before a last one, and the first last one if there is any. */
  lemma {:induction false} CountIs(rs: seq<Round>, n: nat)
    requires n <= |rs| && forall i :: 0 <= i < n ==> !Last(rs[i])
    ensures n < |rs| && Last(rs[n]) ==> Count(rs) == n + 1
    ensures n == |rs| ==> Count(rs) == n
    decreases |rs|
  {
    if n > 0 {
      CountIs(rs[1..], n - 1);
    }
  }

  /** One return of DoRead: data, end of file, nothing more for now (unless new events came), EINTR
      or an error. */
  datatype Read = Data(rs: seq<Round>) | Eof(rs: seq<Round>) | Again(newEvents: bool) | Interrupted | ReadError

  function RoundsOf(r: Read): seq<Round> { if r.Data? || r.Eof? then r.rs[..Count(r.rs)] else [] }

  /** OnNewMessages does not read again. */
  predicate Ends(r: Read) {
    match r
    case Data(rs) => !Survives(rs)
    case Again(newEvents) => !newEvents
    case Interrupted => false
    case _ => true
  }

  /** The rounds run while a socket is readable. */
  function Rounds(input: seq<Read>): seq<Round> {
    if input == [] then []
    else RoundsOf(input[0]) + if Ends(input[0]) then [] else Rounds(input[1..])
  }

  /** No round of this call makes the socket fail. */
  predicate Survives(rs: seq<Round>) { !(Count(rs) > 0 && Fatal(rs[Count(rs) - 1])) }

  lemma {:induction false} HandedConcat(a: seq<Round>, b: seq<Round>)
    ensures Handed(a + b) == Handed(a) + Handed(b)
    decreases |b|
  {
    if b == [] {
      assert a + b == a;
    } else {
      var init := b[..|b| - 1];
      assert (a + b)[..|a + b| - 1] == a + init;
      HandedConcat(a, init);
      assert (Handed(a) + Handed(init)) + HandedBy(b[|b| - 1]) == Handed(a) + (Handed(init) + HandedBy(b[|b| - 1]));
    }
  }

  lemma {:induction false} Regroup(a: seq<Message>, b: seq<Message>, c: seq<Message>)
    ensures (a + b) + c == a + (b + c)
  {}

  function OptSeq(m: Option<Message>): seq<Message> { if m.Some? then [m.value] else [] }

  class Messenger {
    var held: Option<Message>      // InputMessageClosure::_msg
    var done: seq<Message>         // handed to a bthread or run in place, in this order
    var destroyed: seq<Message>
    var failed: bool               // SetFailed was called on the socket
    var unflushed: nat             // bthreads started without signal
    const starts: Message -> bool  // whether a bthread can be started for the message

    constructor (starts: Message -> bool)
      ensures held == None && done == [] && destroyed == [] && !failed && unflushed == 0
    {
      this.starts := starts;
      held, done, destroyed, failed, unflushed := None, [], [], false, 0;
    }

    method QueueMessage(m: Option<Message>)
      modifies this`done, this`unflushed
      ensures done == old(done) + OptSeq(m)
    {
      if m.None? { return; }
      done := done + [m.value];
      if starts(m.value) { unflushed := unflushed + 1; }
    }

    /** InputMessageClosure::reset */
    method Reset(m: Option<Message>)
      modifies this`done, this`held
      ensures done == old(done) + OptSeq(old(held)) && held == m
    {
      if held.Some? { done := done + [held.value]; }
      held := m;
    }

    /** One round of the loop of ProcessNewMessage. */
    method RunRound(r: Round) returns (stop: bool, ok: bool)
      modifies this
      ensures done + OptSeq(held) == old(done) + OptSeq(old(held)) + HandedBy(r)
      ensures destroyed == old(destroyed) + DestroyedBy(r)
      ensures stop == Last(r) && ok == !Fatal(r) && failed == (old(failed) || !ok)
    {
      stop, ok := true, true;
      if r.cut.NotEnoughData? { return; }
      if !r.cut.Cut? {
        failed := true;
        return true, false;
      }
      if r.cut.msg.None? { return false, true; }
      QueueMessage(held);
      held := None;
      if !r.hasProcess {
        destroyed := destroyed + [r.cut.msg.value];
        return false, true;
      }
      if r.verify == Rejected {
        destroyed := destroyed + [r.cut.msg.value];
        failed := true;
        return true, false;
      }
      if !r.progressive {
        Reset(r.cut.msg);
      } else {
        QueueMessage(r.cut.msg);
        unflushed := 0;
      }
      return false, true;
    }

    /**
     * ProcessNewMessage over what the rounds bring; when they end, data is not enough. Every
     * accepted message is handed over once and in order, the last one possibly still held.
     */
    method ProcessNewMessage(rs: seq<Round>) returns (ok: bool)
      modifies this
      ensures var run := rs[..Count(rs)];
        && done + OptSeq(held) == old(done) + OptSeq(old(held)) + Handed(run)
        && destroyed == old(destroyed) + Destroyed(run)
      ensures ok == Survives(rs)
      ensures failed == (old(failed) || !ok)
      ensures ok ==> unflushed == 0
    {
      ghost var was, lost := done + OptSeq(held), destroyed;
      for n := 0 to |rs|
        invariant failed == old(failed) && forall i :: 0 <= i < n ==> !Last(rs[i])
        invariant done + OptSeq(held) == After(was, rs[..n], HandedBy)
        invariant destroyed == After(lost, rs[..n], DestroyedBy)
      {
        assert rs[..n + 1][..n] == rs[..n];
        var stop;
        stop, ok := RunRound(rs[n]);
        if stop {
          CountIs(rs, n);
          AfterAppends(was, rs[..n + 1], HandedBy);
          AfterAppends(lost, rs[..n + 1], DestroyedBy);
          if ok { unflushed := 0; }
          return;
        }
      }
      CountIs(rs, |rs|);
      AfterAppends(was, rs[..|rs|], HandedBy);
      AfterAppends(lost, rs[..|rs|], DestroyedBy);
      unflushed := 0;
      return true;
    }

    /**
     * OnNewMessages with a fresh closure: whichever way it returns, every message accepted by the
     * rounds it ran has been handed over exactly once and in parse order, the last one in place by
     * the closure's destructor.
     */
    method OnNewMessages(input: seq<Read>)
      requires held == None
      modifies this
      ensures held == None && done == old(done) + Handed(Rounds(input))
    {
      ghost var goal := done + Handed(Rounds(input));
      assert input[0..] == input;
      for n := 0 to |input|
        invariant (done + OptSeq(held)) + Handed(Rounds(input[n..])) == goal
      {
        assert input[n..][1..] == input[n + 1..];
        HandedConcat(RoundsOf(input[n]), if Ends(input[n]) then [] else Rounds(input[n + 1..]));
        ghost var before := done + OptSeq(held);
        var stop := RunRead(input[n]);
        Regroup(before, Handed(RoundsOf(input[n])), Handed(if Ends(input[n]) then [] else Rounds(input[n + 1..])));
        if stop { break; }
      }
      Reset(None);
    }

    /** One turn of the loop of OnNewMessages. */
    method RunRead(r: Read) returns (stop: bool)
      modifies this
      ensures done + OptSeq(held) == old(done) + OptSeq(old(held)) + Handed(RoundsOf(r))
      ensures stop == Ends(r)
    {
      match r
      case Data(rs) =>
        var ok := ProcessNewMessage(rs);
        stop := !ok;
      case Eof(rs) =>
        var _ := ProcessNewMessage(rs);
        stop := true;
      case Again(newEvents) => stop := !newEvents;
      case Interrupted => stop := false;
      case ReadError =>
        failed := true;
        stop := true;
    }
  }
}

/**
 * Stopping a server's acceptor (brpc/brpc/acceptor.cpp): StopAccept, Join, the accepting thread,
 * sockets failing and being recycled, in any interleaving. A socket is recycled once its additional
 * reference was dropped (it failed, was closed idle or was released) and the accepting thread does
 * not hold it; the listening socket is recycled once it failed and the accepting thread left it.
 */
module Acceptor {
  import opened Options

  type Id = nat

  datatype Status = Ready | Running | Stopping

  /** The fields guarded by _map_mutex. */
  datatype Guarded = Guarded(status: Status, listenedFd: int, conns: set<Id>)

  /** OnNewConnectionsUntilEAGAIN: after Create, after AddressFailedAsWell, after the insertion. */
  datatype Accepting = Idle | Created(id: Id) | Addressed(id: Id) | Inserted(id: Id, running: bool)

  /** StopAccept: before SetFailed on the listener, before listing, closing what was listed. */
  datatype Stopper = NotStopped | FailListener | List | Closing(ids: set<Id>) | Stopped

  datatype Joiner = NotJoining | Waiting | Returned

  /** All sockets ever created, those without additional reference, those recycled. */
  datatype Sockets = Sockets(created: set<Id>, dropped: set<Id>, recycled: set<Id>)

  datatype State = State(g: Guarded, a: Accepting, stop: Stopper, join: Joiner, s: Sockets,
                         listenerFailed: bool, listenerRecycled: bool)

  // ---- sections under the lock ----

  /** Always inserted, whether the acceptor runs or not. */
  function InsertSection(g: Guarded, id: Id): (Guarded, bool) {
    (g.(conns := g.conns + {id}), g.status == Running)
  }

  function StopSection(g: Guarded): (Guarded, bool) {
    if g.status != Running then (g, false) else (g.(status := Stopping), true)
  }

  /** None is the listening socket. */
  function RecycleSection(g: Guarded, sock: Option<Id>): Guarded {
    match sock
    case None => g.(listenedFd := -1)
    case Some(id) => g.(conns := g.conns - {id})
  }

  /** The condition Join waits for. */
  predicate Drained(g: Guarded) { !(g.listenedFd > 0 || g.conns != {}) }

  // ---- the machine ----

  datatype Step =
    | Accept(id: Id)
    | Address
    | Insert
    | Discard               // fail the socket unless the acceptor was running, let go of it
    | Drop(id: Id)
    | Recycle(id: Id)
    | RecycleListener
    | StopAccept
    | StopListener
    | ListConnections
    | Close(id: Id)
    | CloseDone
    | Join
    | Wake

  function Init(fd: int): State {
    State(Guarded(Running, fd, {}), Idle, NotStopped, NotJoining, Sockets({}, {}, {}), false, false)
  }

  predicate Holds(a: Accepting, id: Id) { (a.Addressed? || a.Inserted?) && a.id == id }

  predicate Enabled(s: State, st: Step) {
    match st
    case Accept(id) => s.a.Idle? && !s.listenerRecycled && id !in s.s.created
    case Address => s.a.Created?
    case Insert => s.a.Addressed?
    case Discard => s.a.Inserted?
    case Drop(id) => id in s.s.created
    case Recycle(id) => id in s.s.dropped && id !in s.s.recycled && !Holds(s.a, id)
    case RecycleListener => s.listenerFailed && !s.listenerRecycled && s.a.Idle?
    case StopAccept => s.stop.NotStopped? && s.g.status == Running
    case StopListener => s.stop.FailListener?
    case ListConnections => s.stop.List?
    case Close(id) => s.stop.Closing? && id in s.stop.ids
    case CloseDone => s.stop.Closing? && s.stop.ids == {}
    case Join => s.join.NotJoining?
    case Wake => s.join.Waiting? && Drained(s.g)
  }

  function Apply(s: State, st: Step): State
    requires Enabled(s, st)
  {
    match st
    case Accept(id) => s.(s := s.s.(created := s.s.created + {id}), a := Created(id))
    case Address => s.(a := if s.a.id in s.s.recycled then Idle else Addressed(s.a.id))
    case Insert =>
      var (g, running) := InsertSection(s.g, s.a.id);
      s.(g := g, a := Inserted(s.a.id, running))
    case Discard => s.(a := Idle, s := if s.a.running then s.s else s.s.(dropped := s.s.dropped + {s.a.id}))
    case Drop(id) => s.(s := s.s.(dropped := s.s.dropped + {id}))
    case Recycle(id) => s.(g := RecycleSection(s.g, Some(id)), s := s.s.(recycled := s.s.recycled + {id}))
    case RecycleListener => s.(g := RecycleSection(s.g, None), listenerRecycled := true)
    case StopAccept => s.(g := StopSection(s.g).0, stop := FailListener)
    case StopListener => s.(listenerFailed := true, stop := List)
    case ListConnections => s.(stop := Closing(s.g.conns))
    case Close(id) => s.(s := s.s.(dropped := s.s.dropped + {id}), stop := Closing(s.stop.ids - {id}))
    case CloseDone => s.(stop := Stopped)
    case Join => s.(join := if s.g.status == Ready then Returned else Waiting)
    case Wake => s.(join := Returned, g := s.g.(status := Ready))
  }

  predicate Runs(s: State, steps: seq<Step>, t: State)
    decreases |steps|
  {
    if steps == [] then s == t else Enabled(s, steps[0]) && Runs(Apply(s, steps[0]), steps[1..], t)
  }

  // ---- invariant ----

  /** A connection that StopAccept or its inserting thread still has to close. */
  predicate Pending(s: State, id: Id) {
    (s.stop.Closing? && id in s.stop.ids) || s.a == Inserted(id, false)
  }

  predicate AfterListing(stop: Stopper) { stop.Closing? || stop.Stopped? }

  predicate SocketsOk(s: State) {
    && s.s.recycled <= s.s.dropped <= s.s.created
    && s.g.conns <= s.s.created - s.s.recycled
    && (!s.a.Idle? ==> s.a.id in s.s.created)
    && (s.a.Addressed? || s.a.Inserted? ==> s.a.id !in s.s.recycled)
    && (s.a.Inserted? ==> s.a.id in s.g.conns)
    && (s.a.Created? || s.a.Addressed? ==> s.a.id !in s.g.conns)
    && (s.stop.Closing? ==> s.stop.ids <= s.s.created)
    && forall id :: id in s.s.created ==>
         id in s.g.conns || id in s.s.recycled || s.a == Created(id) || s.a == Addressed(id)
  }

  predicate StopOk(s: State) {
    && (s.stop.NotStopped? ==> !s.listenerFailed)
    && (s.stop.FailListener? || s.stop.List? || AfterListing(s.stop) ==> s.g.status != Running)
    && (s.stop.List? || AfterListing(s.stop) ==> s.listenerFailed)
    && (AfterListing(s.stop) && s.a.Inserted? && s.a.running ==> s.a.id in s.s.dropped || Pending(s, s.a.id))
    && (AfterListing(s.stop) ==> forall id :: id in s.g.conns ==> id in s.s.dropped || Pending(s, id))
  }

  predicate ListenerOk(s: State, fd: int) {
    && s.g.listenedFd == (if s.listenerRecycled then -1 else fd)
    && (s.listenerRecycled ==> s.listenerFailed && s.a.Idle?)
  }

  /** The acceptor runs until it is stopped, or until a Join that did not wait for that has returned. */
  predicate StatusOk(s: State, fd: int) {
    && (s.g.status == Running <==> s.stop.NotStopped? && !s.join.Returned?)
    && (fd > 0 && s.join.Returned? ==> !s.stop.NotStopped?)
  }

  predicate Inv(s: State, fd: int) { SocketsOk(s) && StopOk(s) && ListenerOk(s, fd) && StatusOk(s, fd) }

  lemma SocketsStep(s: State, st: Step)
    requires SocketsOk(s) && Enabled(s, st)
    ensures SocketsOk(Apply(s, st))
  {}

  lemma StopStep(s: State, st: Step)
    requires SocketsOk(s) && StopOk(s) && Enabled(s, st)
    ensures StopOk(Apply(s, st))
  {}

  lemma ListenerStep(s: State, st: Step, fd: int)
    requires ListenerOk(s, fd) && StopOk(s) && Enabled(s, st)
    ensures ListenerOk(Apply(s, st), fd)
  {}

  lemma StatusStep(s: State, st: Step, fd: int)
    requires StatusOk(s, fd) && ListenerOk(s, fd) && StopOk(s) && Enabled(s, st)
    ensures StatusOk(Apply(s, st), fd)
  {}

  lemma {:induction false} StepInv(s: State, st: Step, fd: int)
    requires Inv(s, fd) && Enabled(s, st)
    ensures Inv(Apply(s, st), fd)
  {
    SocketsStep(s, st);
    StopStep(s, st);
    ListenerStep(s, st, fd);
    StatusStep(s, st, fd);
  }

  lemma {:induction false} RunInv(s: State, steps: seq<Step>, t: State, fd: int)
    requires Inv(s, fd) && Runs(s, steps, t)
    ensures Inv(t, fd)
    decreases |steps|
  {
    if steps != [] {
      StepInv(s, steps[0], fd);
      RunInv(Apply(s, steps[0]), steps[1..], t, fd);
    }
  }

  // ---- theorems ----

  /**
   * Once StopAccept has closed what it listed, every connection in the map lost its additional
   * reference, or its inserting thread saw that the acceptor stopped and is about to fail it.
   */
  lemma {:induction false} StoppedClosesAll(fd: int, steps: seq<Step>, t: State, id: Id)
    requires Runs(Init(fd), steps, t) && t.stop.Stopped? && id in t.g.conns
    ensures id in t.s.dropped || t.a == Inserted(id, false)
  {
    RunInv(Init(fd), steps, t, fd);
  }

  /** A stopped acceptor is never stuck: until all is recycled, some socket can be. */
  lemma {:induction false} StoppedMakesProgress(fd: int, steps: seq<Step>, t: State)
    requires Runs(Init(fd), steps, t) && t.stop.Stopped? && t.a.Idle?
    requires t.g.conns != {} || !t.listenerRecycled
    ensures Enabled(t, RecycleListener) || exists id :: Enabled(t, Recycle(id))
  {
    RunInv(Init(fd), steps, t, fd);
    if t.listenerRecycled {
      var id :| id in t.g.conns;
      assert Enabled(t, Recycle(id));
    }
  }

  /**
   * An inserted connection is kept if and only if stopping has not begun; on descriptor 0 a Join that
   * already returned also ends the accepting.
   */
  lemma {:induction false} InsertAnswersExactly(fd: int, steps: seq<Step>, s: State)
    requires Runs(Init(fd), steps, s) && Enabled(s, Insert)
    ensures var kept := s.stop.NotStopped? && (fd <= 0 ==> !s.join.Returned?);
      && Apply(s, Insert).a == Inserted(s.a.id, kept)
      && (s.a.id in Apply(Apply(s, Insert), Discard).s.dropped <==> !kept || s.a.id in s.s.dropped)
  {
    RunInv(Init(fd), steps, s, fd);
  }

  /** No socket failed and none was closed idle. */
  predicate NoDrop(steps: seq<Step>) {
    forall i :: 0 <= i < |steps| ==> !steps[i].Drop?
  }

  /** Before StopAccept, the accepting thread holds nothing it was told to fail. */
  predicate AllKept(s: State) {
    s.stop.NotStopped? ==> s.s.dropped == {} && (s.a.Inserted? ==> s.a.running)
  }

  lemma {:induction false} KeptRun(s: State, steps: seq<Step>, t: State, fd: int)
    requires fd > 0 && Inv(s, fd) && AllKept(s) && NoDrop(steps) && Runs(s, steps, t)
    ensures AllKept(t)
    decreases |steps|
  {
    if steps != [] {
      StepInv(s, steps[0], fd);
      assert !steps[0].Drop?;
      KeptRun(Apply(s, steps[0]), steps[1..], t, fd);
    }
  }

  /** Until it is stopped, the acceptor itself closes no connection, and each one accepted is in the map. */
  lemma {:induction false} RunningClosesNothing(fd: int, steps: seq<Step>, t: State)
    requires fd > 0 && NoDrop(steps) && Runs(Init(fd), steps, t) && t.stop.NotStopped?
    ensures t.s.dropped == {} && t.s.recycled == {}
    ensures t.g.conns == t.s.created - (if t.a.Created? || t.a.Addressed? then {t.a.id} else {})
  {
    RunInv(Init(fd), steps, t, fd);
    KeptRun(Init(fd), steps, t, fd);
  }

  /** What Join promises: nothing of the acceptor is left, and nothing can come back. */
  predicate AllGone(s: State) {
    s.listenerRecycled && s.a.Idle? && s.g.conns == {} && s.s.created == s.s.recycled
  }

  lemma {:induction false} GoneForGood(s: State, steps: seq<Step>, t: State)
    requires AllGone(s) && SocketsOk(s) && Runs(s, steps, t)
    ensures t.g.conns == {} && t.s == s.s && t.a.Idle?
    decreases |steps|
  {
    if steps != [] {
      SocketsStep(s, steps[0]);
      var u := Apply(s, steps[0]);
      assert AllGone(u) && u.s.created == s.s.created && u.s.recycled == s.s.recycled;
      GoneForGood(u, steps[1..], t);
    }
  }

  /** With a listening descriptor above 0, Join returns only when all is gone. */
  lemma {:induction false} JoinWaits(fd: int, steps: seq<Step>, t: State)
    requires fd > 0 && Runs(Init(fd), steps, t) && Enabled(t, Wake)
    ensures AllGone(t)
  {
    RunInv(Init(fd), steps, t, fd);
    DrainedIsGone(t, fd);
  }

  lemma {:induction false} DrainedIsGone(s: State, fd: int)
    requires Inv(s, fd) && fd > 0 && Drained(s.g)
    ensures AllGone(s)
  {
    assert s.s.created == s.s.recycled;
  }

  ghost predicate JoinSafe(fd: int) {
    forall steps, t :: Runs(Init(fd), steps, t) && Enabled(t, Wake) ==> AllGone(t)
  }

  lemma {:induction false} OneStep(s: State, st: Step)
    requires Enabled(s, st)
    ensures Runs(s, [st], Apply(s, st))
  {
    assert [st][1..] == [];
  }

  /** Join tests for a descriptor above 0, so it is safe for every descriptor but 0. */
  lemma {:induction false} JoinSafeExactly(fd: int)
    requires fd >= 0
    ensures JoinSafe(fd) <==> fd > 0
  {
    if fd > 0 {
      forall steps, t | Runs(Init(fd), steps, t) && Enabled(t, Wake) ensures AllGone(t) {
        JoinWaits(fd, steps, t);
      }
    } else {
      var t := Apply(Init(0), Join);
      OneStep(Init(0), Join);
      assert Enabled(t, Wake) && !AllGone(t);
    }
  }

  /** On descriptor 0 a connection can be accepted after Join returned. */
  lemma {:induction false} JoinTooEarly()
    ensures exists steps, t :: Runs(Init(0), steps, t) && t.join.Returned? && t.g.conns != {}
  {
    var s1 := Apply(Init(0), Join);
    var s2 := Apply(s1, Wake);
    var s3 := Apply(s2, Accept(7));
    var s4 := Apply(s3, Address);
    var s5 := Apply(s4, Insert);
    OneStep(s4, Insert);
    Prepend(s3, Address, [Insert], s5);
    Prepend(s2, Accept(7), [Address, Insert], s5);
    Prepend(s1, Wake, [Accept(7), Address, Insert], s5);
    Prepend(Init(0), Join, [Wake, Accept(7), Address, Insert], s5);
    assert 7 in s5.g.conns;
  }

  lemma {:induction false} Prepend(s: State, st: Step, steps: seq<Step>, t: State)
    requires Enabled(s, st) && Runs(Apply(s, st), steps, t)
    ensures Runs(s, [st] + steps, t)
  {
    assert ([st] + steps)[1..] == steps;
  }

  /**
   * The object: each method is a section guarded by the mutex. The ghost state has all parties; every
   * section is a step of it and keeps the protocol's invariant.
   */
  class AcceptorObject {
    var status: Status
    var listenedFd: int
    var conns: set<Id>
    ghost var st: State
    ghost var fd: int

    function Model(): Guarded
      reads this
    {
      Guarded(status, listenedFd, conns)
    }

    ghost predicate Valid()
      reads this
    {
      Inv(st, fd) && st.g == Model()
    }

    constructor ()
      ensures status == Ready && conns == {}
    {
      status, listenedFd, conns := Ready, -1, {};
    }

    /** A negative descriptor, SSL that is forced without a context, an acceptor in use, and a thread or
        socket that cannot be created are refused; otherwise the protocol starts. */
    method StartAccept(listened: int, sslContext: bool, forceSsl: bool, created: bool) returns (ok: bool)
      requires conns == {}
      modifies this
      ensures ok == (listened >= 0 && (sslContext || !forceSsl) && old(status) == Ready && created)
      ensures ok ==> Valid() && fd == listened && st == Init(listened)
      ensures !ok ==> Model() == old(Model())
    {
      if listened < 0 { return false; }
      if !sslContext && forceSsl { return false; }
      if status != Ready { return false; }
      if !created { return false; }
      listenedFd, status := listened, Running;
      fd, st := listened, Init(listened);
      return true;
    }

    /** Whoever inserts is told to fail the new connection if and only if stopping has begun. */
    method InsertConnection(id: Id) returns (running: bool)
      requires Valid() && st.a == Addressed(id)
      modifies this
      ensures Valid() && st == Apply(old(st), Insert) && id in conns
      ensures running <==> st.stop.NotStopped? && !st.join.Returned?
      ensures AfterListing(st.stop) ==> !running
      ensures fd > 0 ==> (running <==> st.stop.NotStopped?)
      ensures !running ==> Pending(st, id)
    {
      StepInv(st, Insert, fd);
      running := status == Running;
      conns := conns + {id};
      st := Apply(st, Insert);
    }

    /** Only a running acceptor starts stopping, and none runs afterwards. */
    method BeginStop() returns (go: bool)
      requires Valid() && st.stop.NotStopped?
      modifies this
      ensures Valid() && status != Running && go == (old(status) == Running)
      ensures st == if go then Apply(old(st), StopAccept) else old(st)
    {
      if status != Running { return false; }
      StepInv(st, StopAccept, fd);
      status := Stopping;
      st := Apply(st, StopAccept);
      return true;
    }

    /** A recycled socket leaves the map and never comes back into it. */
    method BeforeRecycle(sock: Option<Id>)
      requires Valid() && Enabled(st, RecycleStep(sock))
      modifies this
      ensures Valid() && st == Apply(old(st), RecycleStep(sock))
      ensures sock.Some? ==> sock.value !in conns && sock.value in st.s.recycled
      ensures sock.None? ==> listenedFd == -1 && st.a.Idle?
    {
      StepInv(st, RecycleStep(sock), fd);
      match sock {
        case None => listenedFd := -1;
        case Some(id) => conns := conns - {id};
      }
      st := Apply(st, RecycleStep(sock));
    }

    /** Join's test: on a descriptor above 0 a yes means that all is gone, on 0 only that the map is empty. */
    method MayReturn() returns (yes: bool)
      requires Valid()
      ensures yes && fd > 0 ==> AllGone(st)
      ensures fd > 0 && AllGone(st) ==> yes
      ensures fd == 0 ==> (yes <==> conns == {})
    {
      yes := !(listenedFd > 0 || conns != {});
      if yes && fd > 0 { DrainedIsGone(st, fd); }
    }
  }

  function RecycleStep(sock: Option<Id>): Step { if sock.Some? then Recycle(sock.value) else RecycleListener }
}

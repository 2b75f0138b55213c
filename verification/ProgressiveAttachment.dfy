/**
 * Many writers racing with one flusher (brpc/brpc/progressive_attachment.cpp). Every section
 * guarded by the mutex and every socket write is one step of the machine; the class at the end
 * holds the guarded sections as methods on the fields they update.
 */
module Progressive {
  import opened Bytes
  import opened ChunkedBody
  import opened Options

  const MAX_TRY := 3

  datatype RpcState = RpcRunning | RpcSucceed | RpcFailed

  /** The fields guarded by _mutex. */
  datatype Guarded = Guarded(buf: bytes, pause: bool, rpc: RpcState)

  /** Construction parameters: the flag limiting the buffer and the HTTP version. */
  datatype Params = Params(limit: nat, before11: bool)

  datatype Verdict = NoData | Buffered | Overcrowded | WriteDirectly | Canceled

  /** Write up to the release of the lock; empty data is ignored. */
  function WriteSection(p: Params, g: Guarded, data: bytes): (Guarded, Verdict) {
    if data == [] then (g, NoData)
    else match g.rpc
    case RpcRunning =>
      if |g.buf| >= p.limit || g.pause then (g, Overcrowded)
      else (g.(buf := g.buf + Chunk(data, p.before11)), Buffered)
    case RpcSucceed => (g, WriteDirectly)
    case RpcFailed => (g, Canceled)
  }

  datatype Flushed = Leave | Send(copied: bytes, ntry: nat)

  /** One iteration of MarkRPCAsDone up to the release of the lock. */
  function FlushSection(g: Guarded, ntry: nat, permanentError: bool, rpcFailed: bool): (Guarded, Flushed) {
    if g.buf == [] || permanentError || rpcFailed then
      (Guarded([], false, if rpcFailed then RpcFailed else RpcSucceed), Leave)
    else (Guarded([], g.pause || ntry + 1 > MAX_TRY, g.rpc), Send(g.buf, ntry + 1))
  }

  datatype Pc = NotCalled | AtLock | Writing(copied: bytes) | Returned

  /** MarkRPCAsDone and its local variables. */
  datatype Flusher = Flusher(pc: Pc, ntry: nat, permanentError: bool, rpcFailed: bool, locks: nat, writes: nat)

  /** The socket: what reached it, whether it broke, whether the destructor ran and wrote LAST. */
  datatype Net = Net(wire: bytes, broken: bool, closed: bool, ended: bool)

  /** accepted: data of successful Writes in order; the first `sent` reached the wire, the buffer
      starts at `base`; `dropped` says that accepted data was thrown away. */
  datatype History = History(accepted: seq<bytes>, sent: nat, base: nat, dropped: bool)

  datatype State = State(g: Guarded, f: Flusher, net: Net, direct: seq<bytes>, h: History)

  datatype Sending = Ok | Reject | Break

  datatype Step =
    | Write(data: bytes)
    | DirectWrite(i: nat, how: Sending)   // a writer that saw RPC_SUCCEED
    | MarkDone(failed: bool)
    | FlushLock
    | FlushWrite(ok: bool)
    | SocketBreaks
    | Destroy

  const INIT := State(Guarded([], false, RpcRunning), Flusher(NotCalled, 0, false, false, 0, 0),
                      Net([], false, false, false), [], History([], 0, 0, false))

  predicate Enabled(s: State, st: Step) {
    match st
    case Write(_) => !s.net.closed
    case DirectWrite(i, how) => i < |s.direct| && !s.net.closed && (how.Ok? ==> !s.net.broken)
    case MarkDone(_) => s.f.pc.NotCalled?
    case FlushLock => s.f.pc.AtLock?
    case FlushWrite(ok) => s.f.pc.Writing? && (ok ==> !s.net.broken)
    case SocketBreaks => true
    case Destroy => s.f.pc.Returned? && s.direct == [] && !s.net.closed
  }

  function Remove(s: seq<bytes>, i: nat): seq<bytes>
    requires i < |s|
  {
    s[..i] + s[i + 1..]
  }

  function Apply(p: Params, s: State, st: Step): State
    requires Enabled(s, st)
  {
    match st
    case Write(data) =>
      var (g, v) := WriteSection(p, s.g, data);
      if v.Buffered? then s.(g := g, h := s.h.(accepted := s.h.accepted + [data]))
      else if v.WriteDirectly? then s.(direct := s.direct + [data])
      else s
    case DirectWrite(i, how) =>
      var t := s.(direct := Remove(s.direct, i));
      (match how
       case Ok =>
         var n := |s.h.accepted| + 1;
         t.(net := s.net.(wire := s.net.wire + Chunk(s.direct[i], p.before11)),
            h := s.h.(accepted := s.h.accepted + [s.direct[i]], sent := n, base := n))
       case Reject => t
       case Break => t.(net := s.net.(broken := true)))
    case MarkDone(failed) => s.(f := s.f.(pc := AtLock, rpcFailed := failed))
    case FlushLock =>
      var (g, r) := FlushSection(s.g, s.f.ntry, s.f.permanentError, s.f.rpcFailed);
      var f := s.f.(locks := s.f.locks + 1);
      if r.Leave? then s.(g := g, f := f.(pc := Returned), h := s.h.(dropped := s.h.dropped || s.g.buf != []))
      else s.(g := g, f := f.(pc := Writing(r.copied), ntry := r.ntry), h := s.h.(base := |s.h.accepted|))
    case FlushWrite(ok) =>
      var f := s.f.(pc := AtLock, writes := s.f.writes + 1);
      if ok then s.(f := f, net := s.net.(wire := s.net.wire + s.f.pc.copied), h := s.h.(sent := s.h.base))
      else s.(f := f.(permanentError := true), net := s.net.(broken := true), h := s.h.(dropped := true))
    case SocketBreaks => s.(net := s.net.(broken := true))
    case Destroy =>
      var ends := s.g.rpc.RpcSucceed? && !p.before11 && !s.net.broken;
      s.(net := s.net.(closed := true, ended := ends, wire := if ends then s.net.wire + LAST else s.net.wire))
  }

  predicate Runs(p: Params, s: State, steps: seq<Step>, t: State)
    decreases |steps|
  {
    if steps == [] then s == t
    else Enabled(s, steps[0]) && Runs(p, Apply(p, s, steps[0]), steps[1..], t)
  }

  // ---- the flusher ----

  /** Counters of the flusher and what its pause flag guarantees. */
  predicate FlusherOk(g: Guarded, f: Flusher) {
    && (g.rpc.RpcRunning? <==> !f.pc.Returned?)
    && (!g.rpc.RpcRunning? ==> g.buf == [] && !g.pause)
    && (g.pause ==> g.buf == [])
    && f.ntry <= MAX_TRY + 1
    && (g.rpc.RpcRunning? ==> (g.pause <==> f.ntry == MAX_TRY + 1))
    && f.writes == (if f.pc.Writing? then f.ntry - 1 else f.ntry)
    && f.locks == (if f.pc.Returned? then f.ntry + 1 else f.ntry)
    && (f.pc.NotCalled? ==> f.ntry == 0)
    && (f.pc.Writing? ==> !f.rpcFailed && !f.permanentError && f.pc.copied != [])
    && (f.pc.Returned? ==> (g.rpc.RpcFailed? <==> f.rpcFailed))
  }

  lemma FlusherStep(p: Params, s: State, st: Step)
    requires FlusherOk(s.g, s.f) && Enabled(s, st)
    ensures FlusherOk(Apply(p, s, st).g, Apply(p, s, st).f)
  {}

  lemma {:induction false} FlusherRun(p: Params, s: State, steps: seq<Step>, t: State)
    requires FlusherOk(s.g, s.f) && Runs(p, s, steps, t)
    ensures FlusherOk(t.g, t.f)
    decreases |steps|
  {
    if steps != [] {
      FlusherStep(p, s, steps[0]);
      FlusherRun(p, Apply(p, s, steps[0]), steps[1..], t);
    }
  }

  /**
   * Whatever the writers do, MarkRPCAsDone takes the lock at most five times and writes at most
   * four times; with the fourth swap the pause flag keeps the buffer empty, so the next time it
   * takes the lock it returns. Once it returned, the buffer is empty and stays so.
   */
  lemma {:induction false} FlusherFinishes(p: Params, steps: seq<Step>, t: State)
    requires Runs(p, INIT, steps, t)
    ensures t.f.locks <= 5 && t.f.writes <= 4
    ensures t.f.writes == 4 && t.f.pc.AtLock? ==> Apply(p, t, FlushLock).f.pc.Returned?
    ensures t.f.pc.Returned? <==> !t.g.rpc.RpcRunning?
    ensures t.f.pc.Returned? ==> t.g.buf == [] && !t.g.pause
  {
    FlusherRun(p, INIT, steps, t);
  }

  // ---- the bytes ----

  lemma {:induction false} ChunksSplit(a: seq<bytes>, i: nat, j: nat, x: bool)
    requires i <= j <= |a|
    ensures Chunks(a[..j], x) == Chunks(a[..i], x) + Chunks(a[i..j], x)
    ensures Chunks(a, x) == Chunks(a[..j], x) + Chunks(a[j..], x)
  {
    assert a[..i] + a[i..j] == a[..j] && a[..j] + a[j..] == a;
    ChunksConcat(a[..i], a[i..j], x);
    ChunksConcat(a[..j], a[j..], x);
  }

  function InFlight(f: Flusher): bytes { if f.pc.Writing? then f.pc.copied else [] }

  /** The first `sent` accepted chunks in order, followed by LAST once the destructor wrote it. */
  predicate Wire(p: Params, net: Net, h: History)
    requires h.sent <= |h.accepted|
  {
    && (!net.ended ==> net.wire == Chunks(h.accepted[..h.sent], p.before11))
    && (net.ended ==> net.wire == Chunks(h.accepted[..h.sent], p.before11) + LAST)
  }

  /** accepted data splits into sent, in flight (unless dropped) and buffered. */
  predicate BytesOk(p: Params, g: Guarded, f: Flusher, net: Net, h: History) {
    && h.sent <= h.base <= |h.accepted|
    && Wire(p, net, h)
    && (net.ended ==> net.closed && !p.before11 && !h.dropped)
    && (net.closed ==> f.pc.Returned?)
    && (g.rpc.RpcRunning? ==> g.buf == Chunks(h.accepted[h.base..], p.before11))
    && (!h.dropped ==> InFlight(f) == Chunks(h.accepted[h.sent..h.base], p.before11))
    && (!h.dropped && !f.pc.Writing? ==> h.sent == h.base)
    && (!h.dropped && !g.rpc.RpcRunning? ==> h.base == |h.accepted|)
    && (h.dropped && g.rpc.RpcRunning? ==> f.permanentError)
    && (h.dropped ==> net.broken || g.rpc.RpcFailed?)
    && (f.permanentError ==> net.broken && h.dropped)
    && (f.pc.Writing? ==> !h.dropped)
  }

  lemma {:induction false} ChunksGrow(a: seq<bytes>, k: nat, data: bytes, x: bool)
    requires k <= |a|
    ensures Chunks((a + [data])[k..], x) == Chunks(a[k..], x) + Chunk(data, x)
  {
    var all := (a + [data])[k..];
    assert all[..|all| - 1] == a[k..] && all[|all| - 1] == data;
  }

  lemma {:induction false} EarlierStays(a: seq<bytes>, i: nat, k: nat, data: bytes)
    requires i <= k <= |a|
    ensures (a + [data])[..i] == a[..i] && (a + [data])[i..k] == a[i..k]
  {}

  lemma {:induction false} BufferedBytes(p: Params, s: State, data: bytes)
    requires FlusherOk(s.g, s.f) && BytesOk(p, s.g, s.f, s.net, s.h) && s.g.rpc.RpcRunning?
    ensures var h := s.h.(accepted := s.h.accepted + [data]);
      BytesOk(p, s.g.(buf := s.g.buf + Chunk(data, p.before11)), s.f, s.net, h)
  {
    EarlierStays(s.h.accepted, s.h.sent, s.h.base, data);
    ChunksGrow(s.h.accepted, s.h.base, data, p.before11);
  }

  lemma WriteBytes(p: Params, s: State, data: bytes)
    requires FlusherOk(s.g, s.f) && BytesOk(p, s.g, s.f, s.net, s.h) && Enabled(s, Write(data))
    ensures var t := Apply(p, s, Write(data)); BytesOk(p, t.g, t.f, t.net, t.h)
  {
    if s.g.rpc.RpcRunning? { BufferedBytes(p, s, data); }
  }

  lemma DirectBytes(p: Params, s: State, i: nat)
    requires FlusherOk(s.g, s.f) && BytesOk(p, s.g, s.f, s.net, s.h) && Enabled(s, DirectWrite(i, Ok))
    requires s.g.rpc.RpcSucceed?
    ensures var t := Apply(p, s, DirectWrite(i, Ok)); BytesOk(p, t.g, t.f, t.net, t.h)
  {
    var a, d := s.h.accepted, s.direct[i];
    assert a[..s.h.sent] == a;
    var b: seq<bytes> := a + [d];
    assert b[..|b|] == b && b[..|b| - 1] == a;
    assert |b[|b|..]| == 0;
  }

  predicate NonEmpty(ds: seq<bytes>) { forall i :: 0 <= i < |ds| ==> ds[i] != [] }

  lemma {:induction false} SomeChunks(ds: seq<bytes>, x: bool)
    requires NonEmpty(ds) && ds != []
    ensures Chunks(ds, x) != []
  {
    assert ds[|ds| - 1] != [];
  }

  lemma FlushLockBytes(p: Params, s: State)
    requires FlusherOk(s.g, s.f) && BytesOk(p, s.g, s.f, s.net, s.h) && NonEmpty(s.h.accepted)
    requires Enabled(s, FlushLock)
    ensures var t := Apply(p, s, FlushLock); BytesOk(p, t.g, t.f, t.net, t.h)
  {
    var a, b := s.h.accepted, s.h.base;
    assert |a[|a|..]| == 0;
    assert a[b..|a|] == a[b..];
    if a[b..] != [] { SomeChunks(a[b..], p.before11); }
  }

  lemma FlushWriteBytes(p: Params, s: State, ok: bool)
    requires FlusherOk(s.g, s.f) && BytesOk(p, s.g, s.f, s.net, s.h) && Enabled(s, FlushWrite(ok))
    ensures var t := Apply(p, s, FlushWrite(ok)); BytesOk(p, t.g, t.f, t.net, t.h)
  {
    ChunksSplit(s.h.accepted, s.h.sent, s.h.base, p.before11);
    assert |s.h.accepted[s.h.base..s.h.base]| == 0;
  }

  /** Writers about to write to the socket saw RPC_SUCCEED; none is left when the object dies. */
  predicate DirectOk(s: State) {
    && NonEmpty(s.direct) && NonEmpty(s.h.accepted)
    && (s.direct != [] ==> s.g.rpc.RpcSucceed?)
    && (s.net.closed ==> s.direct == [])
  }

  predicate Inv(p: Params, s: State) {
    FlusherOk(s.g, s.f) && BytesOk(p, s.g, s.f, s.net, s.h) && DirectOk(s)
  }

  lemma DirectStep(p: Params, s: State, st: Step)
    requires FlusherOk(s.g, s.f) && DirectOk(s) && Enabled(s, st)
    ensures DirectOk(Apply(p, s, st))
  {}

  lemma BytesStep(p: Params, s: State, st: Step)
    requires Inv(p, s) && Enabled(s, st)
    ensures var t := Apply(p, s, st); BytesOk(p, t.g, t.f, t.net, t.h)
  {
    match st
    case Write(data) => WriteBytes(p, s, data);
    case DirectWrite(i, how) => if how.Ok? { DirectBytes(p, s, i); }
    case FlushLock => FlushLockBytes(p, s);
    case FlushWrite(ok) => FlushWriteBytes(p, s, ok);
    case _ =>
  }

  lemma {:induction false} StepInv(p: Params, s: State, st: Step)
    requires Inv(p, s) && Enabled(s, st)
    ensures Inv(p, Apply(p, s, st))
  {
    FlusherStep(p, s, st);
    DirectStep(p, s, st);
    BytesStep(p, s, st);
  }

  lemma {:induction false} RunInv(p: Params, s: State, steps: seq<Step>, t: State)
    requires Inv(p, s) && Runs(p, s, steps, t)
    ensures Inv(p, t)
    decreases |steps|
  {
    if steps != [] {
      StepInv(p, s, steps[0]);
      RunInv(p, Apply(p, s, steps[0]), steps[1..], t);
    }
  }

  /**
   * In every run, whatever fails: the wire holds the chunks of the first `sent` accepted writes in
   * order, each once, followed by the terminating chunk iff the destructor wrote it.
   */
  lemma {:induction false} WireIsPrefix(p: Params, steps: seq<Step>, t: State)
    requires Runs(p, INIT, steps, t)
    ensures t.h.sent <= |t.h.accepted| && Wire(p, t.net, t.h)
    ensures t.net.ended ==> t.h.sent == |t.h.accepted|
  {
    RunInv(p, INIT, steps, t);
  }

  /** As long as nothing was thrown away, wire, bytes in flight and buffer are the accepted chunks. */
  lemma {:induction false} NothingLost(p: Params, steps: seq<Step>, t: State)
    requires Runs(p, INIT, steps, t) && !t.h.dropped && !t.net.closed
    ensures t.net.wire + InFlight(t.f) + t.g.buf == Chunks(t.h.accepted, p.before11)
  {
    RunInv(p, INIT, steps, t);
    ChunksSplit(t.h.accepted, t.h.sent, t.h.base, p.before11);
  }

  /** Data is thrown away only if the socket broke or the RPC failed. */
  lemma {:induction false} DroppedOnlyOnFailure(p: Params, steps: seq<Step>, t: State)
    requires Runs(p, INIT, steps, t) && t.h.dropped
    ensures t.net.broken || t.f.rpcFailed
  {
    RunInv(p, INIT, steps, t);
  }

  /** What the destructor CHECKs holds whenever it can run, and when it ends the body. */
  lemma {:induction false} DestructorChecks(p: Params, steps: seq<Step>, t: State)
    requires Runs(p, INIT, steps, t) && Enabled(t, Destroy)
    ensures !t.g.rpc.RpcRunning? && t.g.buf == []
    ensures Apply(p, t, Destroy).net.ended <==> !t.f.rpcFailed && !p.before11 && !t.net.broken
  {
    RunInv(p, INIT, steps, t);
  }

  /** A body that was ended decodes to exactly the accepted data, in order. */
  lemma {:induction false} EndedBodyDecodes(p: Params, steps: seq<Step>, t: State)
    requires Runs(p, INIT, steps, t) && t.net.ended && Sized(t.h.accepted)
    ensures DecodeBody(t.net.wire) == Some((Flat(t.h.accepted), []))
  {
    WireIsPrefix(p, steps, t);
    RunInv(p, INIT, steps, t);
    assert t.h.accepted[..t.h.sent] == t.h.accepted;
    BodyReadsBack(t.h.accepted, []);
    var c := Chunks(t.h.accepted, false);
    assert c + LAST + [] == c + LAST;
  }

  // ---- what the callers are told ----

  /** The answer Write must give, by what the flusher did so far. */
  function Answer(p: Params, s: State): Verdict {
    if s.f.pc.Returned? then if s.f.rpcFailed then Canceled else WriteDirectly
    else if |s.g.buf| < p.limit && s.f.ntry <= MAX_TRY then Buffered
    else Overcrowded
  }

  lemma {:induction false} WriteAnswer(p: Params, s: State, data: bytes)
    requires Inv(p, s) && data != []
    ensures WriteSection(p, s.g, data).1 == Answer(p, s)
  {}

  /**
   * In every run: until the flusher returned, data is buffered iff the buffer is below its limit and the
   * flusher has not taken the buffer more than three times, and refused as overcrowded otherwise; after
   * that it goes to the socket directly iff the RPC did not fail, and is refused as cancelled otherwise.
   */
  lemma {:induction false} WriteAnswersExactly(p: Params, steps: seq<Step>, t: State, data: bytes)
    requires Runs(p, INIT, steps, t) && data != [] && !t.net.closed
    ensures WriteSection(p, t.g, data).1 == Answer(p, t)
    ensures var u := Apply(p, t, Write(data));
      && u.f == t.f && u.net == t.net
      && u.h.accepted == t.h.accepted + (if Answer(p, t) == Buffered then [data] else [])
      && u.direct == t.direct + (if Answer(p, t) == WriteDirectly then [data] else [])
      && u.g.buf == t.g.buf + (if Answer(p, t) == Buffered then Chunk(data, p.before11) else [])
  {
    RunInv(p, INIT, steps, t);
    WriteAnswer(p, t, data);
    assert t.h.accepted + [] == t.h.accepted && t.direct + [] == t.direct && t.g.buf + [] == t.g.buf;
  }

  predicate WriteFailed(steps: seq<Step>) { exists k :: 0 <= k < |steps| && steps[k] == FlushWrite(false) }

  lemma {:induction false} ErrorRun(p: Params, s: State, steps: seq<Step>, t: State)
    requires Runs(p, s, steps, t)
    ensures t.f.permanentError <==> s.f.permanentError || WriteFailed(steps)
    decreases |steps|
  {
    if steps != [] {
      ErrorRun(p, Apply(p, s, steps[0]), steps[1..], t);
      assert WriteFailed(steps) <==> steps[0] == FlushWrite(false) || WriteFailed(steps[1..]) by {
        if WriteFailed(steps[1..]) {
          var k :| 0 <= k < |steps[1..]| && steps[1..][k] == FlushWrite(false);
          assert steps[k + 1] == FlushWrite(false);
        }
        if WriteFailed(steps) && steps[0] != FlushWrite(false) {
          var k :| 0 <= k < |steps| && steps[k] == FlushWrite(false);
          assert steps[1..][k - 1] == FlushWrite(false);
        }
      }
    }
  }

  /** In every run the flusher returns, when it holds the lock, iff nothing is buffered, one of its writes
      failed or the RPC failed; otherwise it writes all that is buffered. */
  lemma {:induction false} FlusherLeavesExactly(p: Params, steps: seq<Step>, t: State)
    requires Runs(p, INIT, steps, t) && t.f.pc.AtLock?
    ensures var u := Apply(p, t, FlushLock); var leaves := t.g.buf == [] || WriteFailed(steps) || t.f.rpcFailed;
      u.f.pc == (if leaves then Returned else Writing(t.g.buf)) && u.g.buf == []
  {
    ErrorRun(p, INIT, steps, t);
  }

  /** What a step tells a caller of Write was taken: data buffered, or taken by the socket directly. */
  function Told(p: Params, s: State, st: Step): seq<bytes>
    requires Enabled(s, st)
  {
    match st
    case Write(data) => if data != [] && Answer(p, s) == Buffered then [data] else []
    case DirectWrite(i, how) => if how.Ok? then [s.direct[i]] else []
    case _ => []
  }

  /** All that callers were told was taken, in order. */
  function Acknowledged(p: Params, s: State, steps: seq<Step>): seq<bytes>
    decreases |steps|
  {
    if steps == [] || !Enabled(s, steps[0]) then []
    else Told(p, s, steps[0]) + Acknowledged(p, Apply(p, s, steps[0]), steps[1..])
  }

  lemma {:induction false} AcknowledgedStep(p: Params, s: State, st: Step)
    requires Inv(p, s) && Enabled(s, st)
    ensures Apply(p, s, st).h.accepted == s.h.accepted + Told(p, s, st)
  {
    assert s.h.accepted + [] == s.h.accepted;
    if st.Write? && st.data != [] { WriteAnswer(p, s, st.data); }
  }

  lemma {:induction false} Reassociate(a: seq<bytes>, b: seq<bytes>, c: seq<bytes>)
    ensures a + b + c == a + (b + c)
  {}

  lemma {:induction false} AcknowledgedRun(p: Params, s: State, steps: seq<Step>, t: State)
    requires Inv(p, s) && Runs(p, s, steps, t)
    ensures t.h.accepted == s.h.accepted + Acknowledged(p, s, steps)
    decreases |steps|
  {
    if steps != [] {
      AcknowledgedStep(p, s, steps[0]);
      StepInv(p, s, steps[0]);
      AcknowledgedRun(p, Apply(p, s, steps[0]), steps[1..], t);
      Reassociate(s.h.accepted, Told(p, s, steps[0]), Acknowledged(p, Apply(p, s, steps[0]), steps[1..]));
    }
  }

  /** In every run the accepted data is exactly what the callers were told was taken. */
  lemma {:induction false} AcceptedIsAcknowledged(p: Params, steps: seq<Step>, t: State)
    requires Runs(p, INIT, steps, t)
    ensures t.h.accepted == Acknowledged(p, INIT, steps)
  {
    AcknowledgedRun(p, INIT, steps, t);
    assert [] + Acknowledged(p, INIT, steps) == Acknowledged(p, INIT, steps);
  }

  /**
   * The object: each method is one section of the code guarded by the mutex. The ghost state has all
   * parties; every section is a step of it and keeps the protocol's invariant.
   */
  class Attachment {
    const p: Params
    var savedBuf: bytes
    var pause: bool
    var rpcState: RpcState
    ghost var st: State

    function Model(): Guarded
      reads this
    {
      Guarded(savedBuf, pause, rpcState)
    }

    ghost predicate Valid()
      reads this
    {
      Inv(p, st) && st.g == Model()
    }

    constructor (p: Params)
      ensures Valid() && this.p == p && st == INIT
    {
      this.p, this.st := p, INIT;
      savedBuf, pause, rpcState := [], false, RpcRunning;
    }

    /** Accepted data is chunked behind everything accepted before; otherwise nothing is buffered. */
    method Write(data: bytes) returns (v: Verdict)
      requires Valid() && !st.net.closed
      modifies this
      ensures Valid() && st == Apply(p, old(st), Step.Write(data))
      ensures v == if data == [] then NoData else Answer(p, old(st))
      ensures v == Buffered ==> st.h.accepted == old(st).h.accepted + [data] && savedBuf == old(savedBuf) + Chunk(data, p.before11)
      ensures v == WriteDirectly ==> old(savedBuf) == [] && st.direct == old(st).direct + [data]
      ensures v == NoData || v == Overcrowded || v == Canceled ==> st == old(st)
    {
      StepInv(p, st, Step.Write(data));
      if data != [] { WriteAnswer(p, st, data); }
      st := Apply(p, st, Step.Write(data));
      if data == [] { return NoData; }
      if rpcState == RpcRunning {
        if |savedBuf| >= p.limit || pause { return Overcrowded; }
        savedBuf := AppendAsChunk(savedBuf, data, p.before11);
        return Buffered;
      }
      return if rpcState == RpcSucceed then WriteDirectly else Canceled;
    }

    /**
     * One iteration of MarkRPCAsDone: what it takes out to send is everything accepted and not yet
     * sent, at most four times; what it leaves behind when it returns is an empty buffer.
     */
    method Flush(ntry: nat, permanentError: bool, rpcFailed: bool) returns (r: Flushed)
      requires Valid() && st.f.pc.AtLock?
      requires ntry == st.f.ntry && permanentError == st.f.permanentError && rpcFailed == st.f.rpcFailed
      modifies this
      ensures Valid() && st == Apply(p, old(st), FlushLock) && savedBuf == []
      ensures r.Send? ==> r.ntry == ntry + 1 <= MAX_TRY + 1 && r.copied == Chunks(st.h.accepted[st.h.sent..], p.before11)
      ensures r.Leave? ==> st.f.pc.Returned? && rpcState != RpcRunning && !pause
    {
      StepInv(p, st, FlushLock);
      st := Apply(p, st, FlushLock);
      if savedBuf == [] || permanentError || rpcFailed {
        savedBuf, pause := [], false;
        rpcState := if rpcFailed then RpcFailed else RpcSucceed;
        return Leave;
      }
      if ntry + 1 > MAX_TRY { pause := true; }
      r := Send(savedBuf, ntry + 1);
      savedBuf := [];
      assert st.h.accepted[st.h.sent..st.h.base] == st.h.accepted[st.h.sent..];
    }
  }
}

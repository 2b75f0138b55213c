/**
 * Requests of the memcache binary protocol (brpc/brpc/memcache.cpp): the builders append one frame
 * each, merging and parsing append several; the buffer always holds as many frames as counted.
 */
module Memcache {
  import opened Bytes
  import opened Options

  const MAGIC: byte := 0x80
  const HEADER := 24
  const UINT32 := 0x1_0000_0000

  const FLUSH: byte := 8
  const VERSION: byte := 11
  const TOUCH: byte := 0x1c

  datatype Request = Request(command: byte, extras: bytes, key: bytes, value: bytes, cas: nat)

  function Body(r: Request): bytes { r.extras + r.key + r.value }

  /** Magic, command, key length, extras length, data type, vbucket, body length, opaque, cas. */
  function Header(command: byte, keyLength: nat, extrasLength: byte, bodyLength: nat, cas: nat): (h: bytes)
    ensures |h| == HEADER
  {
    [MAGIC, command] + BigEndian(keyLength, 2) + [extrasLength, 0, 0, 0] + BigEndian(bodyLength, 4) +
    [0, 0, 0, 0] + BigEndian(cas, 8)
  }

  function Frame(r: Request): bytes
    requires |r.extras| < 256
  {
    Header(r.command, |r.key|, |r.extras|, |Body(r)|, r.cas) + Body(r)
  }

  // ---- the frame walk ----

  /** The body length of the frame s starts with. */
  function BodyLength(s: bytes): nat
    requires |s| >= HEADER
  {
    FromBigEndian(s[8..12])
  }

  predicate FrameAt(s: bytes) { |s| >= HEADER && s[0] == MAGIC && |s| >= HEADER + BodyLength(s) }

  /** What follows the first frame. */
  function Rest(s: bytes): bytes
    requires FrameAt(s)
  {
    s[HEADER + BodyLength(s)..]
  }

  function Plus(o: Option<nat>, n: nat): Option<nat> { if o.Some? then Some(o.value + n) else None }

  /** How many pieces s consists of, when `size` gives the length of the first one (0: none). */
  function Pieces(size: bytes -> nat, s: bytes): Option<nat>
    decreases |s|
  {
    if s == [] then Some(0)
    else if !(0 < size(s) <= |s|) then None
    else Plus(Pieces(size, s[size(s)..]), 1)
  }

  /** What follows a complete piece does not change its length. */
  ghost predicate Stable(size: bytes -> nat) {
    forall a, b :: 0 < size(a) <= |a| ==> size(a + b) == size(a)
  }

  lemma {:induction false} PiecesConcat(size: bytes -> nat, a: bytes, b: bytes)
    requires Stable(size) && Pieces(size, a).Some?
    ensures Pieces(size, a + b) == Plus(Pieces(size, b), Pieces(size, a).value)
    decreases |a|
  {
    if a == [] {
      assert a + b == b;
    } else {
      var k := size(a);
      assert size(a + b) == k;
      assert (a + b)[k..] == a[k..] + b;
      PiecesConcat(size, a[k..], b);
    }
  }

  function FrameSize(s: bytes): nat { if FrameAt(s) then HEADER + BodyLength(s) else 0 }

  lemma {:induction false} FrameSizeStable()
    ensures Stable(FrameSize)
  {
    forall a: bytes, b: bytes | 0 < FrameSize(a) <= |a| ensures FrameSize(a + b) == FrameSize(a) {
      assert (a + b)[8..12] == a[8..12];
    }
  }

  /** How many frames s consists of. */
  function Walk(s: bytes): Option<nat> { Pieces(FrameSize, s) }

  lemma {:induction false} WalkConcat(a: bytes, b: bytes)
    requires Walk(a).Some?
    ensures Walk(a + b) == Plus(Walk(b), Walk(a).value)
  {
    FrameSizeStable();
    PiecesConcat(FrameSize, a, b);
  }

  lemma {:induction false} HeaderReads(command: byte, keyLength: nat, extrasLength: byte, bodyLength: nat, cas: nat, t: bytes)
    ensures var s := Header(command, keyLength, extrasLength, bodyLength, cas) + t;
      && s[0] == MAGIC && s[1] == command && s[2..4] == BigEndian(keyLength, 2) && s[4] == extrasLength
      && s[8..12] == BigEndian(bodyLength, 4) && s[16..24] == BigEndian(cas, 8) && s[HEADER..] == t
  {}

  lemma {:induction false} FrameReads(r: Request, t: bytes)
    requires |r.extras| < 256
    ensures var s := Frame(r) + t;
      && |s| >= HEADER && s[0] == MAGIC && s[1] == r.command && s[2..4] == BigEndian(|r.key|, 2) && s[4] == |r.extras|
      && s[8..12] == BigEndian(|Body(r)|, 4) && s[16..24] == BigEndian(r.cas, 8) && s[HEADER..] == Body(r) + t
  {
    var h := Header(r.command, |r.key|, |r.extras|, |Body(r)|, r.cas);
    assert (h + Body(r)) + t == h + (Body(r) + t);
    HeaderReads(r.command, |r.key|, |r.extras|, |Body(r)|, r.cas, Body(r) + t);
  }

  lemma {:induction false} FrameLength(r: Request, t: bytes)
    requires |r.extras| < 256
    ensures var s := Frame(r) + t;
      && |s| == HEADER + |Body(r)| + |t| && s[0] == MAGIC
      && BodyLength(s) == |Body(r)| % UINT32 && s[HEADER..] == Body(r) + t
  {
    FrameReads(r, t);
    PowValues();
    BigEndianWraps(|Body(r)|, 4);
  }

  lemma {:induction false} WrapFits(n: nat)
    ensures n % UINT32 <= n && (n % UINT32 == n <==> n < UINT32)
  {}

  lemma {:induction false} SizeOfFrame(r: Request)
    requires |r.extras| < 256
    ensures Frame(r) != [] && (FrameSize(Frame(r)) == |Frame(r)| <==> |Body(r)| < UINT32)
  {
    var s := Frame(r);
    assert s + [] == s;
    FrameLength(r, []);
    WrapFits(|Body(r)|);
  }

  /** A frame is one frame iff its body fits the length field. */
  lemma {:induction false} OneFrame(r: Request)
    requires |r.extras| < 256
    ensures Walk(Frame(r)) == Some(1) <==> |Body(r)| < UINT32
  {
    SizeOfFrame(r);
    OnePiece(FrameSize, Frame(r));
  }

  lemma {:induction false} OnePiece(size: bytes -> nat, s: bytes)
    requires s != []
    ensures Pieces(size, s) == Some(1) <==> size(s) == |s|
  {
    if 0 < size(s) <= |s| { assert size(s) == |s| <==> s[size(s)..] == []; }
  }

  // ---- reading frames back ----

  /** Lengths fit their fields. */
  predicate Fits(r: Request) {
    |r.extras| < 256 && |r.key| < 65536 && |Body(r)| < UINT32 && r.cas < 0x1_0000_0000_0000_0000
  }

  /** The request in the first frame. */
  function Decode(s: bytes): Option<Request>
    requires FrameAt(s)
  {
    var extras, key := s[4], FromBigEndian(s[2..4]);
    if extras + key > BodyLength(s) then None
    else
      var body := s[HEADER..HEADER + BodyLength(s)];
      Some(Request(s[1], body[..extras], body[extras..extras + key], body[extras + key..], FromBigEndian(s[16..24])))
  }

  function DecodeAll(s: bytes): Option<seq<Request>>
    decreases |s|
  {
    if s == [] then Some([])
    else if !FrameAt(s) || Decode(s).None? then None
    else match DecodeAll(Rest(s))
      case None => None
      case Some(rs) => Some([Decode(s).value] + rs)
  }

  predicate AllFit(rs: seq<Request>) { forall i :: 0 <= i < |rs| ==> Fits(rs[i]) }

  /** Extras are at most 20 bytes in all builders. */
  predicate Built(rs: seq<Request>) { forall i :: 0 <= i < |rs| ==> |rs[i].extras| < 256 }

  function Frames(rs: seq<Request>): bytes
    requires Built(rs)
  {
    if rs == [] then [] else Frame(rs[0]) + Frames(rs[1..])
  }

  lemma {:induction false} FrameDecodes(r: Request, t: bytes)
    requires Fits(r)
    ensures var s := Frame(r) + t; FrameAt(s) && Decode(s) == Some(r) && Rest(s) == t
  {
    var s, n := Frame(r) + t, |Body(r)|;
    FrameLength(r, t);
    assert s[HEADER..][..n] == Body(r) && s[HEADER..][n..] == t;
    assert s[HEADER..HEADER + n] == Body(r) && s[HEADER + n..] == t;
    FieldsDecode(r, t);
    BodySplits(r);
  }

  /** Whatever follows: a built frame is read back iff its lengths fit their fields. */
  lemma {:induction false} FrameDecodesExactly(r: Request, t: bytes)
    requires |r.extras| < 256
    ensures var s := Frame(r) + t; FrameAt(s) && Decode(s) == Some(r) <==> Fits(r)
  {
    var s := Frame(r) + t;
    if Fits(r) {
      FrameDecodes(r, t);
    } else if FrameAt(s) && Decode(s).Some? {
      CutFields(r, t);
    }
  }

  /** Body length, key length and cas are read modulo their widths. */
  lemma {:induction false} CutFields(r: Request, t: bytes)
    requires |r.extras| < 256 && FrameAt(Frame(r) + t) && Decode(Frame(r) + t).Some?
    ensures var d := Decode(Frame(r) + t).value;
      && |Body(d)| == |Body(r)| % UINT32 && |d.key| == |r.key| % 65536
      && d.cas == r.cas % 0x1_0000_0000_0000_0000
  {
    FrameLength(r, t);
    FrameReads(r, t);
    PowValues();
    BigEndianWraps(|r.key|, 2);
    BigEndianWraps(r.cas, 8);
  }

  lemma {:induction false} FieldsDecode(r: Request, t: bytes)
    requires Fits(r)
    ensures var s := Frame(r) + t;
      && |s| >= HEADER && s[1] == r.command && s[4] == |r.extras|
      && FromBigEndian(s[2..4]) == |r.key| && FromBigEndian(s[16..24]) == r.cas
  {
    PowValues();
    BigEndianRoundTrip(|r.key|, 2);
    BigEndianRoundTrip(r.cas, 8);
    FrameReads(r, t);
  }

  lemma {:induction false} BodySplits(r: Request)
    ensures var b, e, k := Body(r), |r.extras|, |r.key|;
      b[..e] == r.extras && b[e..e + k] == r.key && b[e + k..] == r.value
  {}

  /** Built requests are read back, the same and in order with nothing left over, iff all their lengths
      fit; then the walk counts them. */
  lemma {:induction false} FramesDecode(rs: seq<Request>)
    requires Built(rs)
    ensures DecodeAll(Frames(rs)) == Some(rs) <==> AllFit(rs)
    ensures AllFit(rs) ==> Walk(Frames(rs)) == Some(|rs|)
    decreases |rs|
  {
    if rs != [] {
      var tail := rs[1..];
      FrameDecodesExactly(rs[0], Frames(tail));
      FramesDecode(tail);
      FirstFits(rs);
      if Fits(rs[0]) { FirstDecodes(rs); }
    }
  }

  lemma {:induction false} FirstFits(rs: seq<Request>)
    requires rs != []
    ensures AllFit(rs) <==> Fits(rs[0]) && AllFit(rs[1..])
  {
    var tail := rs[1..];
    if Fits(rs[0]) && AllFit(tail) {
      forall i | 0 <= i < |rs| ensures Fits(rs[i]) { if i > 0 { assert Fits(tail[i - 1]); } }
    }
  }

  lemma {:induction false} FirstDecodes(rs: seq<Request>)
    requires Built(rs) && rs != [] && Fits(rs[0])
    ensures DecodeAll(Frames(rs)) == Some(rs) <==> DecodeAll(Frames(rs[1..])) == Some(rs[1..])
    ensures Walk(Frames(rs)) == Plus(Walk(Frames(rs[1..])), 1)
  {
    FrameDecodes(rs[0], Frames(rs[1..]));
    assert [rs[0]] + rs[1..] == rs;
    if DecodeAll(Frames(rs[1..])).Some? {
      var ds := DecodeAll(Frames(rs[1..])).value;
      assert ([rs[0]] + ds)[1..] == ds;
    }
  }

  // ---- any history of a request ----

  /** How a request came about: builder calls, merges of other requests, parsed bytes. */
  datatype History = New | Build(h: History, r: Request) | Merged(h: History, from: History) | Parsed(h: History, s: bytes)

  predicate Allowed(h: History) {
    match h
    case New => true
    case Build(g, r) => Allowed(g) && |r.extras| < 256 && |Body(r)| < UINT32
    case Merged(g, from) => Allowed(g) && Allowed(from)
    case Parsed(g, s) => Allowed(g)
  }

  /** Buffer and pipelined count. */
  function Result(h: History): (bytes, nat)
    requires Allowed(h)
  {
    match h
    case New => ([], 0)
    case Build(g, r) => (Result(g).0 + Frame(r), Result(g).1 + 1)
    case Merged(g, from) => (Result(g).0 + Result(from).0, Result(g).1 + Result(from).1)
    case Parsed(g, s) => if Walk(s).Some? then (Result(g).0 + s, Result(g).1 + Walk(s).value) else Result(g)
  }

  lemma {:induction false} OneMoreFrame(buf: bytes, count: nat, r: Request)
    requires |r.extras| < 256
    ensures Walk(buf) == Some(count) && |Body(r)| < UINT32 ==> Walk(buf + Frame(r)) == Some(count + 1)
  {
    OneFrame(r);
    if Walk(buf).Some? { WalkConcat(buf, Frame(r)); }
  }

  lemma {:induction false} JoinedFrames(a: bytes, m: nat, b: bytes, n: nat)
    requires Walk(a) == Some(m) && Walk(b) == Some(n)
    ensures Walk(a + b) == Some(m + n)
  {
    WalkConcat(a, b);
  }

  /** After any history the walk succeeds, ends at the end of the buffer and counts all requests. */
  lemma {:induction false} EveryHistoryWalks(h: History)
    requires Allowed(h)
    ensures Walk(Result(h).0) == Some(Result(h).1)
    decreases h
  {
    if !h.New? {
      var g := h.h;
      EveryHistoryWalks(g);
      var (buf, count) := Result(g);
      match h
      case Build(_, r) => OneMoreFrame(buf, count, r);
      case Merged(_, from) =>
        EveryHistoryWalks(from);
        JoinedFrames(buf, count, Result(from).0, Result(from).1);
      case Parsed(_, s) => if Walk(s).Some? { JoinedFrames(buf, count, s, Walk(s).value); }
    }
  }

  // ---- the object ----

  predicate Appended(buf: bytes, count: nat, buf': bytes, count': nat, r: Request)
    requires |r.extras| < 256
  {
    buf' == buf + Frame(r) && count' == count + 1
  }

  lemma {:induction false} Regroup(b: bytes, h: bytes, e: bytes, k: bytes, v: bytes)
    ensures b + h + e + k + v == b + (h + (e + k + v))
  {}

  /** The loop of MergePartialFromCodedStream. */
  method CountFrames(s: bytes) returns (ok: bool, n: nat)
    ensures ok == Walk(s).Some? && (ok ==> n == Walk(s).value)
  {
    var tmp := s;
    n := 0;
    while tmp != []
      invariant Plus(Walk(tmp), n) == Walk(s)
      decreases |tmp|
    {
      if |tmp| < HEADER { return false, 0; }
      if tmp[0] != MAGIC { return false, 0; }
      var length := BodyLength(tmp);
      if |tmp| < HEADER + length { return false, 0; }
      tmp := tmp[HEADER + length..];
      n := n + 1;
    }
    ok := true;
  }

  class MemcacheRequest {
    var buf: bytes
    var count: nat

    /** The frame walk over the buffer succeeds and counts exactly the pipelined requests. */
    ghost predicate Valid()
      reads this
    {
      Walk(buf) == Some(count)
    }

    constructor ()
      ensures Valid() && buf == [] && count == 0
    {
      buf, count := [], 0;
    }

    method Clear()
      modifies this
      ensures Valid() && buf == [] && count == 0
    {
      buf, count := [], 0;
    }

    /** What every builder does: a header with the lengths of what follows it. */
    method AppendFrame(r: Request)
      requires |r.extras| < 256
      modifies this
      ensures Appended(old(buf), old(count), buf, count, r)
      ensures old(Valid()) && |Body(r)| < UINT32 ==> Valid()
    {
      OneMoreFrame(buf, count, r);
      var header := Header(r.command, |r.key|, |r.extras|, |r.extras| + |r.key| + |r.value|, r.cas);
      Regroup(buf, header, r.extras, r.key, r.value);
      buf := buf + header;
      buf := buf + r.extras;
      buf := buf + r.key;
      buf := buf + r.value;
      count := count + 1;
    }

    method GetOrDelete(command: byte, key: bytes)
      modifies this
      ensures Appended(old(buf), old(count), buf, count, Request(command, [], key, [], 0))
      ensures old(Valid()) && |key| < UINT32 ==> Valid()
    {
      AppendFrame(Request(command, [], key, [], 0));
    }

    method Flush(timeout: nat)
      modifies this
      ensures Appended(old(buf), old(count), buf, count,
                       Request(FLUSH, if timeout == 0 then [] else BigEndian(timeout, 4), [], [], 0))
      ensures old(Valid()) ==> Valid()
    {
      AppendFrame(Request(FLUSH, if timeout == 0 then [] else BigEndian(timeout, 4), [], [], 0));
    }

    method Store(command: byte, key: bytes, value: bytes, flags: nat, exptime: nat, cas: nat)
      modifies this
      ensures Appended(old(buf), old(count), buf, count,
                       Request(command, BigEndian(flags, 4) + BigEndian(exptime, 4), key, value, cas))
      ensures old(Valid()) && 8 + |key| + |value| < UINT32 ==> Valid()
    {
      AppendFrame(Request(command, BigEndian(flags, 4) + BigEndian(exptime, 4), key, value, cas));
    }

    method Counter(command: byte, key: bytes, delta: nat, initial: nat, exptime: nat)
      modifies this
      ensures Appended(old(buf), old(count), buf, count,
                       Request(command, BigEndian(delta, 8) + BigEndian(initial, 8) + BigEndian(exptime, 4), key, [], 0))
      ensures old(Valid()) && 20 + |key| < UINT32 ==> Valid()
    {
      AppendFrame(Request(command, BigEndian(delta, 8) + BigEndian(initial, 8) + BigEndian(exptime, 4), key, [], 0));
    }

    method Touch(key: bytes, exptime: nat)
      modifies this
      ensures Appended(old(buf), old(count), buf, count, Request(TOUCH, BigEndian(exptime, 4), key, [], 0))
      ensures old(Valid()) && 4 + |key| < UINT32 ==> Valid()
    {
      AppendFrame(Request(TOUCH, BigEndian(exptime, 4), key, [], 0));
    }

    method Version()
      modifies this
      ensures Appended(old(buf), old(count), buf, count, Request(VERSION, [], [], [], 0))
      ensures old(Valid()) ==> Valid()
    {
      AppendFrame(Request(VERSION, [], [], [], 0));
    }

    method MergeFrom(from: MemcacheRequest)
      requires from != this
      modifies this
      ensures buf == old(buf) + from.buf && count == old(count) + from.count
      ensures old(Valid()) && from.Valid() ==> Valid()
    {
      if Valid() && from.Valid() { JoinedFrames(buf, count, from.buf, from.count); }
      buf := buf + from.buf;
      count := count + from.count;
    }

    /** Takes the bytes iff they are whole frames, and changes nothing otherwise. */
    method MergePartialFromCodedStream(blocks: seq<bytes>) returns (ok: bool)
      modifies this
      ensures old(Valid()) ==> Valid()
      ensures ok == Walk(Joined(blocks)).Some?
      ensures ok ==> buf == old(buf) + Joined(blocks) && count == old(count) + Walk(Joined(blocks)).value
      ensures !ok ==> buf == old(buf) && count == old(count)
    {
      var saved: bytes := [];
      for i := 0 to |blocks|
        invariant saved == Joined(blocks[..i])
      {
        assert blocks[..i + 1][..i] == blocks[..i];
        saved := saved + blocks[i];
      }
      assert blocks[..|blocks|] == blocks;
      var n;
      ok, n := CountFrames(saved);
      if !ok { return; }
      if Walk(buf) == Some(count) { JoinedFrames(buf, count, saved, n); }
      buf := buf + saved;
      count := count + n;
    }
  }

  function Joined(blocks: seq<bytes>): bytes {
    if blocks == [] then [] else Joined(blocks[..|blocks| - 1]) + blocks[|blocks| - 1]
  }
}

/**
 * The calls a user makes on a memcache request (brpc/brpc/memcache.cpp) with the numbers of the binary
 * protocol (brpc/brpc/policy/memcache_binary_header.h), and how a server reads them.
 */
module MemcacheCommands {
  import opened Bytes
  import opened Memcache
  import opened Options

  datatype Storing = Set | Add | Replace | Append | Prepend

  datatype Command =
    | Get(key: bytes)
    | Delete(key: bytes)
    | Flush(timeout: nat)
    | Store(how: Storing, key: bytes, value: bytes, flags: nat, exptime: nat, cas: nat)
    | Count(up: bool, key: bytes, delta: nat, initial: nat, exptime: nat)
    | Touch(key: bytes, exptime: nat)
    | Version

  function StoreCode(how: Storing): byte {
    match how
    case Set => 0x01
    case Add => 0x02
    case Replace => 0x03
    case Append => 0x0e
    case Prepend => 0x0f
  }

  /** An empty value is neither appended nor prepended. */
  predicate Refused(c: Command) { c.Store? && (c.how.Append? || c.how.Prepend?) && c.value == [] }

  /** The request each call builds. */
  function RequestOf(c: Command): (r: Request)
    ensures |r.extras| <= 20
  {
    match c
    case Get(key) => Request(0x00, [], key, [], 0)
    case Delete(key) => Request(0x04, [], key, [], 0)
    case Flush(timeout) => Request(FLUSH, if timeout == 0 then [] else BigEndian(timeout, 4), [], [], 0)
    case Store(how, key, value, flags, exptime, cas) =>
      Request(StoreCode(how), BigEndian(flags, 4) + BigEndian(exptime, 4), key, value, cas)
    case Count(up, key, delta, initial, exptime) =>
      Request(if up then 0x05 else 0x06, BigEndian(delta, 8) + BigEndian(initial, 8) + BigEndian(exptime, 4), key, [], 0)
    case Touch(key, exptime) => Request(TOUCH, BigEndian(exptime, 4), key, [], 0)
    case Version => Request(VERSION, [], [], [], 0)
  }

  // ---- the server's side ----

  function Unsigned32(s: bytes, at: nat): nat
    requires |s| >= at + 4
  {
    0x1000000 * (s[at] as int) + 0x10000 * (s[at + 1] as int) + 0x100 * (s[at + 2] as int) + s[at + 3]
  }

  function Unsigned64(s: bytes, at: nat): nat
    requires |s| >= at + 8
  {
    0x1_0000_0000 * Unsigned32(s, at) + Unsigned32(s, at + 4)
  }

  /** What a request asks for, by the tables of the protocol. */
  function Meaning(r: Request): Option<Command> {
    var e, n := r.extras, |r.extras|;
    match r.command
    case 0x00 => if n == 0 && r.value == [] then Some(Get(r.key)) else None
    case 0x01 => Stored(Set, r)
    case 0x02 => Stored(Add, r)
    case 0x03 => Stored(Replace, r)
    case 0x04 => if n == 0 && r.value == [] then Some(Delete(r.key)) else None
    case 0x05 => Counted(true, r)
    case 0x06 => Counted(false, r)
    case 0x08 =>
      if r.key + r.value != [] then None
      else if n == 0 then Some(Flush(0)) else if n == 4 then Some(Flush(Unsigned32(e, 0))) else None
    case 0x0b => if n == 0 && r.key + r.value == [] then Some(Version) else None
    case 0x0e => Stored(Append, r)
    case 0x0f => Stored(Prepend, r)
    case 0x1c => if n == 4 && r.value == [] then Some(Touch(r.key, Unsigned32(e, 0))) else None
    case _ => None
  }

  function Stored(how: Storing, r: Request): Option<Command> {
    if |r.extras| != 8 then None
    else Some(Store(how, r.key, r.value, Unsigned32(r.extras, 0), Unsigned32(r.extras, 4), r.cas))
  }

  function Counted(up: bool, r: Request): Option<Command> {
    if |r.extras| != 20 || r.value != [] then None
    else Some(Count(up, r.key, Unsigned64(r.extras, 0), Unsigned64(r.extras, 8), Unsigned32(r.extras, 16)))
  }

  // ---- the two sides agree ----

  lemma {:induction false} Digits(n: nat)
    ensures BigEndian(n, 1) == [n % 256] && BigEndian(n, 2) == [n / 0x100 % 256, n % 256]
    ensures BigEndian(n, 4) == [n / 0x1000000 % 256, n / 0x10000 % 256, n / 0x100 % 256, n % 256]
  {
    assert BigEndian(n / 0x1000000, 1) == BigEndian(n / 0x1000000 / 256, 0) + [n / 0x1000000 % 256];
    assert BigEndian(n / 0x10000, 2) == BigEndian(n / 0x1000000, 1) + [n / 0x10000 % 256];
    assert BigEndian(n / 0x100, 3) == BigEndian(n / 0x10000, 2) + [n / 0x100 % 256];
    assert BigEndian(n, 4) == BigEndian(n / 0x100, 3) + [n % 256];
  }

  lemma {:induction false} Value32(s: bytes, at: nat)
    requires |s| >= at + 4
    ensures Unsigned32(s, at) == FromBigEndian(s[at..at + 4])
  {
    var d := s[at..at + 4];
    var a, b, c := d[..1], d[..2], d[..3];
    assert a[..0] == [] && FromBigEndian(a) == a[0];
    assert b[..1] == a && FromBigEndian(b) == FromBigEndian(a) * 256 + b[1];
    assert c[..2] == b && FromBigEndian(c) == FromBigEndian(b) * 256 + c[2];
    assert d[..3] == c && FromBigEndian(d) == FromBigEndian(c) * 256 + d[3];
  }

  /** Four bytes hold the remainder by 2^32. */
  lemma {:induction false} Wrapped32(n: nat, s: bytes, at: nat)
    requires |s| >= at + 4 && s[at..at + 4] == BigEndian(n, 4)
    ensures Unsigned32(s, at) == n % 0x1_0000_0000
  {
    Value32(s, at);
    BigEndianWraps(n, 4);
    PowValues();
  }

  lemma {:induction false} Digits32(n: nat, s: bytes, at: nat)
    requires n < 0x1_0000_0000 && |s| >= at + 4 && s[at..at + 4] == BigEndian(n, 4)
    ensures Unsigned32(s, at) == n
  {
    Wrapped32(n, s, at);
  }

  /** Eight bytes are the high four and the low four. */
  lemma {:induction false} Halves(n: nat)
    ensures BigEndian(n, 8) == BigEndian(n / 0x1_0000_0000, 4) + BigEndian(n, 4)
  {
    var a := n / 256;
    var b := a / 256;
    var c := b / 256;
    var d := c / 256;
    assert BigEndian(a, 7) == BigEndian(b, 6) + [a % 256] && BigEndian(a, 3) == BigEndian(b, 2) + [a % 256];
    assert BigEndian(b, 6) == BigEndian(c, 5) + [b % 256] && BigEndian(b, 2) == BigEndian(c, 1) + [b % 256];
    assert BigEndian(c, 5) == BigEndian(d, 4) + [c % 256] && BigEndian(c, 1) == BigEndian(d, 0) + [c % 256];
    assert d == n / 0x1_0000_0000;
  }

  lemma {:induction false} Digits64(n: nat, s: bytes, at: nat)
    requires n < 0x1_0000_0000_0000_0000 && |s| >= at + 8 && s[at..at + 8] == BigEndian(n, 8)
    ensures Unsigned64(s, at) == n
  {
    var high := n / 0x1_0000_0000;
    Halves(n);
    assert s[at..at + 4] == s[at..at + 8][..4] == BigEndian(high, 4);
    assert s[at + 4..at + 8] == s[at..at + 8][4..] == BigEndian(n, 4);
    Digits32(high, s, at);
    Wrapped32(n, s, at + 4);
  }

  /** The first sixteen bytes of a frame, one by one. */
  lemma {:induction false} HeaderBytes(command: byte, k: nat, extras: byte, n: nat, cas: nat)
    ensures Header(command, k, extras, n, cas) ==
      [0x80, command, k / 0x100 % 256, k % 256, extras, 0, 0, 0] +
      [n / 0x1000000 % 256, n / 0x10000 % 256, n / 0x100 % 256, n % 256, 0, 0, 0, 0] + BigEndian(cas, 8)
  {
    Digits(k);
    Digits(n);
  }

  /** The numbers are of the types the calls take them in. */
  predicate Sized(c: Command) {
    && (c.Flush? ==> c.timeout < 0x1_0000_0000)
    && (c.Store? ==> c.flags < 0x1_0000_0000 && c.exptime < 0x1_0000_0000)
    && (c.Count? ==> c.delta < 0x1_0000_0000_0000_0000 && c.initial < 0x1_0000_0000_0000_0000)
    && (c.Count? || c.Touch? ==> c.exptime < 0x1_0000_0000)
  }

  lemma {:induction false} CountMeans(c: Command)
    requires c.Count? && Sized(c)
    ensures Counted(c.up, RequestOf(c)) == Some(c)
  {
    var e := RequestOf(c).extras;
    assert e[0..8] == BigEndian(c.delta, 8) && e[8..16] == BigEndian(c.initial, 8);
    assert e[16..20] == BigEndian(c.exptime, 4);
    Digits64(c.delta, e, 0);
    Digits64(c.initial, e, 8);
    Digits32(c.exptime, e, 16);
  }

  lemma {:induction false} StoreMeans(c: Command)
    requires c.Store? && Sized(c)
    ensures Stored(c.how, RequestOf(c)) == Some(c)
  {
    var e := RequestOf(c).extras;
    assert e[0..4] == BigEndian(c.flags, 4) && e[4..8] == BigEndian(c.exptime, 4);
    Digits32(c.flags, e, 0);
    Digits32(c.exptime, e, 4);
  }

  /** By the numbers of the protocol, the request of a call asks for that call. */
  lemma {:induction false} RequestMeans(c: Command)
    requires Sized(c)
    ensures Meaning(RequestOf(c)) == Some(c)
  {
    match c
    case Store(_, _, _, _, _, _) => StoreMeans(c);
    case Count(_, _, _, _, _) => CountMeans(c);
    case Touch(_, exptime) => Digits32(exptime, BigEndian(exptime, 4), 0);
    case Flush(timeout) => Digits32(timeout, BigEndian(timeout, 4), 0);
    case _ =>
  }

  // ---- whole requests ----

  function Requests(cs: seq<Command>): (rs: seq<Request>)
    ensures |rs| == |cs| && Built(rs)
  {
    if cs == [] then [] else [RequestOf(cs[0])] + Requests(cs[1..])
  }

  function Meanings(rs: seq<Request>): Option<seq<Command>> {
    if rs == [] then Some([])
    else if Meaning(rs[0]).None? || Meanings(rs[1..]).None? then None
    else Some([Meaning(rs[0]).value] + Meanings(rs[1..]).value)
  }

  predicate AllSized(cs: seq<Command>) { forall i :: 0 <= i < |cs| ==> Sized(cs[i]) }

  lemma {:induction false} RequestsMean(cs: seq<Command>)
    requires AllSized(cs)
    ensures Meanings(Requests(cs)) == Some(cs)
  {
    if cs != [] {
      RequestMeans(cs[0]);
      RequestsMean(cs[1..]);
      assert Requests(cs)[1..] == Requests(cs[1..]);
      assert cs == [cs[0]] + cs[1..];
    }
  }

  /** Any calls whose lengths fit are read from the buffer as those calls, in order, and counted. */
  lemma {:induction false} CallsAreRead(cs: seq<Command>)
    requires AllSized(cs) && AllFit(Requests(cs))
    ensures DecodeAll(Frames(Requests(cs))).Some? && Meanings(DecodeAll(Frames(Requests(cs))).value) == Some(cs)
    ensures Walk(Frames(Requests(cs))) == Some(|cs|)
  {
    FramesDecode(Requests(cs));
    RequestsMean(cs);
  }

  /** One call on the request object; only appending or prepending nothing is refused. */
  method Issue(req: MemcacheRequest, c: Command) returns (ok: bool)
    modifies req
    ensures ok == !Refused(c)
    ensures ok ==> Appended(old(req.buf), old(req.count), req.buf, req.count, RequestOf(c))
    ensures !ok ==> req.buf == old(req.buf) && req.count == old(req.count)
    ensures old(req.Valid()) && |Body(RequestOf(c))| < UINT32 ==> req.Valid()
  {
    ok := true;
    match c
    case Get(key) => req.GetOrDelete(0x00, key);
    case Delete(key) => req.GetOrDelete(0x04, key);
    case Flush(timeout) => req.Flush(timeout);
    case Store(how, key, value, flags, exptime, cas) =>
      if (how.Append? || how.Prepend?) && value == [] { return false; }
      req.Store(StoreCode(how), key, value, flags, exptime, cas);
    case Count(up, key, delta, initial, exptime) => req.Counter(if up then 0x05 else 0x06, key, delta, initial, exptime);
    case Touch(key, exptime) => req.Touch(key, exptime);
    case Version => req.Version();
  }
}

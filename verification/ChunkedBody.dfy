/**
 * The chunked transfer coding written by ProgressiveAttachment
 * (brpc/brpc/progressive_attachment.cpp) and read back by section 4.1 of RFC 7230.
 */
module ChunkedBody {
  import opened Bytes
  import opened Options

  const CR: byte := 13
  const LF: byte := 10
  const CRLF: bytes := [13, 10]
  const UINT32 := 0x1_0000_0000

  // ---- hexadecimal ----

  function ToHex(d: nat): byte
    requires d < 16
  {
    if d < 10 then 48 + d else 55 + d
  }

  predicate IsHex(b: byte) { 48 <= b <= 57 || 65 <= b <= 70 || 97 <= b <= 102 }

  function HexVal(b: byte): (v: nat)
    requires IsHex(b)
    ensures v < 16
  {
    if b <= 57 then b - 48 else if b <= 70 then b - 55 else b - 87
  }

  function Hex(n: nat): (r: bytes)
    ensures r != [] && forall i :: 0 <= i < |r| ==> IsHex(r[i])
  {
    if n < 16 then [ToHex(n)] else Hex(n / 16) + [ToHex(n % 16)]
  }

  /** Value of hex digits read after `acc`. */
  function Val(s: bytes, acc: nat): nat
    requires forall i :: 0 <= i < |s| ==> IsHex(s[i])
  {
    if s == [] then acc else Val(s[..|s| - 1], acc) * 16 + HexVal(s[|s| - 1])
  }

  lemma {:induction false} ValHex(n: nat)
    ensures Val(Hex(n), 0) == n
  {
    if n < 16 {
      assert Hex(n)[..0] == [];
    } else {
      ValHex(n / 16);
      assert Hex(n)[..|Hex(n)| - 1] == Hex(n / 16);
    }
  }

  // ---- writing ----

  /** What AppendChunkHead appends: for size 0 the digit is lost. */
  function ChunkHead(size: nat): bytes { (if size == 0 then [] else Hex(size)) + CRLF }

  /** AppendAsChunk; the size is passed on as 32 bits. */
  function Chunk(data: bytes, before11: bool): bytes {
    if before11 then data else ChunkHead(|data| % UINT32) + data + CRLF
  }

  function Chunks(ds: seq<bytes>, before11: bool): bytes {
    if ds == [] then [] else Chunks(ds[..|ds| - 1], before11) + Chunk(ds[|ds| - 1], before11)
  }

  function Flat(ds: seq<bytes>): bytes {
    if ds == [] then [] else Flat(ds[..|ds| - 1]) + ds[|ds| - 1]
  }

  /** 2^32 divided by 16^k. */
  function Limit(k: nat): nat {
    if k == 0 then UINT32 else if k == 1 then 0x1000_0000 else if k == 2 then 0x100_0000
    else if k == 3 then 0x10_0000 else if k == 4 then 0x1_0000 else if k == 5 then 0x1000
    else if k == 6 then 0x100 else if k == 7 then 0x10 else if k == 8 then 1 else 0
  }

  lemma {:induction false} LimitStep(n: nat, k: nat)
    requires 0 < n < Limit(k)
    ensures k <= 7 && n / 16 < Limit(k + 1)
  {}

  /** One more digit in front of those already written. */
  lemma {:induction false} HexStep(n: nat, tail: bytes)
    ensures Hex(n) + tail == (if n < 16 then [] else Hex(n / 16)) + ([ToHex(n % 16)] + tail)
  {}

  /** Writes one digit in front of those already written. */
  method PutDigit(tmp: array<byte>, i: nat, d: byte, ghost digits: bytes)
    requires tmp.Length == 32 && i < 30 && tmp[i + 1..30] == digits
    modifies tmp
    ensures tmp[i..30] == [d] + digits && tmp[30] == old(tmp[30]) && tmp[31] == old(tmp[31])
  {
    tmp[i] := d;
    assert tmp[i + 1..30] == digits;
  }

  /** The loop of AppendChunkHead: digits are filled backwards, from index 29 on. */
  method FillDigits(tmp: array<byte>, size: nat) returns (i: int)
    requires tmp.Length == 32 && 0 < size < UINT32
    modifies tmp
    ensures -1 <= i <= 29 && tmp[i + 1..30] == Hex(size)
    ensures tmp[30] == old(tmp[30]) && tmp[31] == old(tmp[31])
  {
    i := 29;
    var rest := size;
    ghost var digits: bytes := [];
    while i >= 0
      invariant 21 <= i <= 29 && 0 < rest < Limit(29 - i)
      invariant tmp[30] == old(tmp[30]) && tmp[31] == old(tmp[31])
      invariant tmp[i + 1..30] == digits && Hex(size) == Hex(rest) + digits
    {
      var up := rest / 16;
      HexStep(rest, digits);
      LimitStep(rest, 29 - i);
      PutDigit(tmp, i, ToHex(rest - up * 16), digits);
      digits := [ToHex(rest % 16)] + digits;
      rest := up;
      i := i - 1;
      if rest == 0 { break; }
    }
  }

  lemma {:induction false} EndsInCrlf(s: bytes, k: nat)
    requires |s| == 32 && k <= 30 && s[30] == CR && s[31] == LF
    ensures s[k..] == s[k..30] + CRLF
  {}

  method AppendChunkHead(buf: bytes, size: nat) returns (r: bytes)
    requires size < UINT32
    ensures r == buf + ChunkHead(size)
  {
    var tmp := new byte[32];
    var i := 32;
    i := i - 1; tmp[i] := LF;
    i := i - 1; tmp[i] := CR;
    if size == 0 {
      i := i - 1; tmp[i] := 48;
    } else {
      i := FillDigits(tmp, size);
      EndsInCrlf(tmp[..], i + 1);
      assert tmp[..][i + 1..30] == tmp[i + 1..30] && tmp[..][i + 1..] == tmp[i + 1..];
    }
    r := buf + tmp[i + 1..];
  }

  method AppendAsChunk(buf: bytes, data: bytes, before11: bool) returns (r: bytes)
    ensures r == buf + Chunk(data, before11)
  {
    if !before11 {
      r := AppendChunkHead(buf, |data| % UINT32);
      r := r + data;
      r := r + CRLF;
    } else {
      r := buf + data;
    }
  }

  // ---- reading, section 4.1 of RFC 7230 without extensions and trailers ----

  function ParseHex(s: bytes, acc: nat): (r: (nat, bytes))
    ensures |r.1| <= |s|
  {
    if s == [] || !IsHex(s[0]) then (acc, s) else ParseHex(s[1..], acc * 16 + HexVal(s[0]))
  }

  /** One chunk: its data and what follows. */
  function DecodeChunk(s: bytes): (r: Option<(bytes, bytes)>)
    ensures r.Some? ==> |r.value.1| < |s|
  {
    if s == [] || !IsHex(s[0]) then None
    else
      var (n, t) := ParseHex(s, 0);
      if |t| < 4 + n || t[..2] != CRLF || t[2 + n..4 + n] != CRLF then None
      else Some((t[2..2 + n], t[4 + n..]))
  }

  /** A whole body, ended by a chunk of size zero. */
  function DecodeBody(s: bytes): Option<(bytes, bytes)>
    decreases |s|
  {
    match DecodeChunk(s)
    case None => None
    case Some((data, rest)) =>
      if data == [] then Some(([], rest))
      else match DecodeBody(rest)
        case None => None
        case Some((more, tail)) => Some((data + more, tail))
  }

  lemma {:induction false} ParseDigits(a: bytes, t: bytes, acc: nat)
    requires forall i :: 0 <= i < |a| ==> IsHex(a[i])
    ensures ParseHex(a + t, acc) == ParseHex(t, Val(a, acc))
    decreases |a|
  {
    if a == [] {
      assert a + t == t;
    } else {
      var init, d := a[..|a| - 1], a[|a| - 1];
      assert a + t == init + ([d] + t);
      ParseDigits(init, [d] + t, acc);
      assert ([d] + t)[1..] == t;
    }
  }

  lemma {:induction false} DecodeSized(n: nat, data: bytes, t: bytes)
    requires |data| == n
    ensures DecodeChunk(Hex(n) + CRLF + data + CRLF + t) == Some((data, t))
  {
    var r := CRLF + data + CRLF + t;
    var s := Hex(n) + r;
    assert s == Hex(n) + CRLF + data + CRLF + t;
    ParseDigits(Hex(n), r, 0);
    ValHex(n);
    assert s[0] == Hex(n)[0];
    assert r[0] == CR && ParseHex(r, n) == (n, r);
    ChunkSlices(data, t);
  }

  lemma {:induction false} ChunkSlices(data: bytes, t: bytes)
    ensures var r, n := CRLF + data + CRLF + t, |data|;
      |r| >= 4 + n && r[..2] == CRLF && r[2 + n..4 + n] == CRLF && r[2..2 + n] == data && r[4 + n..] == t
  {}

  /** A written chunk reads back iff it has between 1 and 2^32 - 1 bytes. */
  lemma {:induction false} ChunkReadsBack(data: bytes, t: bytes)
    ensures DecodeChunk(Chunk(data, false) + t) == Some((data, t)) <==> 1 <= |data| < UINT32
  {
    var m := |data| % UINT32;
    if m == 0 {
      assert (Chunk(data, false) + t)[0] == CR;
    } else {
      ChunkParts(data, t);
      if |data| < UINT32 { DecodeSized(m, data, t); } else { DecodeShort(m, data, t); }
    }
  }

  lemma {:induction false} ChunkParts(data: bytes, t: bytes)
    requires |data| % UINT32 != 0
    ensures Chunk(data, false) + t == Hex(|data| % UINT32) + CRLF + data + CRLF + t
  {}

  /** A chunk whose size was cut is not read back. */
  lemma {:induction false} DecodeShort(n: nat, data: bytes, t: bytes)
    requires n < |data|
    ensures DecodeChunk(Hex(n) + CRLF + data + CRLF + t) != Some((data, t))
  {
    var r := CRLF + data + CRLF + t;
    assert Hex(n) + r == Hex(n) + CRLF + data + CRLF + t;
    ParseDigits(Hex(n), r, 0);
    ValHex(n);
    assert r[0] == CR && ParseHex(r, n) == (n, r);
  }

  /** The terminating chunk written by the destructor. */
  const LAST: bytes := [48, 13, 10, 13, 10]

  lemma {:induction false} LastReads(t: bytes)
    ensures DecodeBody(LAST + t) == Some(([], t))
  {
    assert LAST + t == Hex(0) + CRLF + [] + CRLF + t;
    DecodeSized(0, [], t);
  }

  lemma {:induction false} Regroup(a: bytes, b: bytes, c: bytes)
    ensures (a + b) + c == a + (b + c)
  {}

  lemma {:induction false} ChunksLast(ds: seq<bytes>, x: bool)
    requires ds != []
    ensures Chunks(ds, x) == Chunks(ds[..|ds| - 1], x) + Chunk(ds[|ds| - 1], x)
  {}

  lemma {:induction false} ChunksConcat(a: seq<bytes>, b: seq<bytes>, x: bool)
    ensures Chunks(a + b, x) == Chunks(a, x) + Chunks(b, x)
    decreases |b|
  {
    if b == [] {
      assert a + b == a;
    } else {
      var init, d := b[..|b| - 1], b[|b| - 1];
      assert (a + b)[..|a + b| - 1] == a + init && (a + b)[|a + b| - 1] == d;
      ChunksConcat(a, init, x);
      ChunksLast(a + b, x);
      ChunksLast(b, x);
      Regroup(Chunks(a, x), Chunks(init, x), Chunk(d, x));
    }
  }

  lemma {:induction false} ChunksOne(d: bytes, b: bool)
    ensures Chunks([d], b) == Chunk(d, b)
  {
    var one: seq<bytes> := [d];
    assert |one[..0]| == 0;
    assert [] + Chunk(d, b) == Chunk(d, b);
  }

  lemma {:induction false} ChunksFront(ds: seq<bytes>, b: bool)
    requires ds != []
    ensures Chunks(ds, b) == Chunk(ds[0], b) + Chunks(ds[1..], b)
  {
    assert [ds[0]] + ds[1..] == ds;
    ChunksConcat([ds[0]], ds[1..], b);
    ChunksOne(ds[0], b);
  }

  lemma {:induction false} FlatFront(ds: seq<bytes>)
    requires ds != []
    ensures Flat(ds) == ds[0] + Flat(ds[1..])
    decreases |ds|
  {
    var tail := ds[1..];
    if tail == [] {
      assert ds[..0] == [];
    } else {
      var init, mid, d := ds[..|ds| - 1], tail[..|tail| - 1], ds[|ds| - 1];
      assert init[1..] == mid && init[0] == ds[0] && tail[|tail| - 1] == d;
      FlatFront(init);
      assert Flat(tail) == Flat(mid) + d;
      assert (ds[0] + Flat(mid)) + d == ds[0] + (Flat(mid) + d);
    }
  }

  predicate Sized(ds: seq<bytes>) { forall i :: 0 <= i < |ds| ==> 1 <= |ds[i]| < UINT32 }

  /** A body of chunks decodes to the concatenation of their data. */
  lemma {:induction false} BodyReadsBack(ds: seq<bytes>, t: bytes)
    requires Sized(ds)
    ensures DecodeBody(Chunks(ds, false) + LAST + t) == Some((Flat(ds), t))
    decreases |ds|
  {
    if ds == [] {
      LastReads(t);
      assert Chunks(ds, false) + LAST + t == LAST + t;
    } else {
      ChunksFront(ds, false);
      FlatFront(ds);
      var more := Chunks(ds[1..], false) + LAST + t;
      assert Chunks(ds, false) + LAST + t == Chunk(ds[0], false) + more;
      ChunkReadsBack(ds[0], more);
      BodyReadsBack(ds[1..], t);
    }
  }
}

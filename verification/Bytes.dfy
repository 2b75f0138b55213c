/** Bytes and big-endian integers. */
module Bytes {
  type byte = x: int | 0 <= x < 256
  type bytes = seq<byte>

  /** n in `len` bytes, most significant first; higher digits are cut off. */
  function BigEndian(n: nat, len: nat): (r: bytes)
    ensures |r| == len
  {
    if len == 0 then [] else BigEndian(n / 256, len - 1) + [n % 256]
  }

  function FromBigEndian(s: bytes): nat
  {
    if s == [] then 0 else FromBigEndian(s[..|s| - 1]) * 256 + s[|s| - 1]
  }

  function Pow256(len: nat): (r: nat) ensures r > 0 { if len == 0 then 1 else 256 * Pow256(len - 1) }

  lemma {:induction false} BigEndianRoundTrip(n: nat, len: nat)
    requires n < Pow256(len)
    ensures FromBigEndian(BigEndian(n, len)) == n
  {
    if len > 0 {
      BigEndianRoundTrip(n / 256, len - 1);
      assert BigEndian(n, len)[..len - 1] == BigEndian(n / 256, len - 1);
    }
  }

  lemma {:induction false} AtLeast(k: int, m: nat)
    requires k >= 1
    ensures k * m >= m
  {
    assert (k - 1) * m >= 0;
  }

  lemma {:induction false} SameRemainder(m: nat, c: int, r: nat, q: int, t: nat)
    requires c * m + r == q * m + t && r < m && t < m
    ensures r == t
  {
    assert (c - q) * m == t - r && (q - c) * m == r - t;
    if c > q {
      AtLeast(c - q, m);
    } else if q > c {
      AtLeast(q - c, m);
    }
  }

  lemma {:induction false} ModUnique(n: nat, m: nat, c: nat, r: nat)
    requires n == c * m + r && r < m
    ensures n % m == r
  {
    SameRemainder(m, c, r, n / m, n % m);
  }

  lemma {:induction false} ModSplit(n: nat, p: nat)
    requires p > 0
    ensures (n / 256 % p) * 256 + n % 256 == n % (256 * p)
  {
    var a, b := n / 256, n % 256;
    var c, d := a / p, a % p;
    assert n == 256 * (c * p + d) + b == c * (256 * p) + (d * 256 + b);
    ModUnique(n, 256 * p, c, d * 256 + b);
  }

  /** What is read back is what fits. */
  lemma {:induction false} BigEndianWraps(n: nat, len: nat)
    ensures FromBigEndian(BigEndian(n, len)) == n % Pow256(len)
  {
    if len > 0 {
      BigEndianWraps(n / 256, len - 1);
      assert BigEndian(n, len)[..len - 1] == BigEndian(n / 256, len - 1);
      ModSplit(n, Pow256(len - 1));
    }
  }

  lemma PowValues()
    ensures Pow256(1) == 0x100 && Pow256(2) == 0x1_0000 && Pow256(4) == 0x1_0000_0000
    ensures Pow256(8) == 0x1_0000_0000_0000_0000
  {
    assert Pow256(3) == 0x100_0000 && Pow256(4) == 0x1_0000_0000;
    assert Pow256(5) == 0x100_0000_0000 && Pow256(6) == 0x1_0000_0000_0000;
    assert Pow256(7) == 0x100_0000_0000_0000;
  }
}

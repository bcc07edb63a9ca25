/** 64-bit words as naturals: Go's shift and bitwise or, and big-endian bytes. */
module Words {
  const TWO_32: nat := 0x1_0000_0000
  const TWO_64: nat := 0x1_0000_0000_0000_0000

  function Pow2(k: nat): (r: nat)
    ensures r > 0
  {
    if k == 0 then 1 else 2 * Pow2(k - 1)
  }

  /** Bitwise or. */
  function Or(a: nat, b: nat): nat {
    if a == 0 && b == 0 then 0
    else 2 * Or(a / 2, b / 2) + (if a % 2 == 1 || b % 2 == 1 then 1 else 0)
  }

  /** a << k on uint64: bits shifted out at the top are lost. */
  function Shl(a: nat, k: nat): nat {
    (a * Pow2(k)) % TWO_64
  }

  lemma {:induction false} OrZero(a: nat)
    ensures Or(a, 0) == a
  {
    if a > 0 {
      OrZero(a / 2);
    }
  }

  /** Or-ing a field into free low bits is addition. */
  lemma {:induction false} OrLow(high: nat, low: nat, k: nat)
    requires low < Pow2(k)
    ensures Or(high * Pow2(k), low) == high * Pow2(k) + low
  {
    if k == 0 {
      OrZero(high);
    } else {
      var h := high * Pow2(k - 1);
      assert high * Pow2(k) == 2 * h;
      OrLow(high, low / 2, k - 1);
      assert (2 * h) / 2 == h && (2 * h) % 2 == 0;
    }
  }

  type Byte = b: nat | b < 256

  function BigEndian(v: nat, n: nat): (bs: seq<Byte>)
    ensures |bs| == n
  {
    if n == 0 then [] else BigEndian(v / 256, n - 1) + [v % 256]
  }

  function FromBigEndian(bs: seq<Byte>): nat {
    if bs == [] then 0 else 256 * FromBigEndian(bs[..|bs| - 1]) + bs[|bs| - 1]
  }

  function Pow256(n: nat): (r: nat)
    ensures r > 0
  {
    if n == 0 then 1 else 256 * Pow256(n - 1)
  }

  lemma {:induction false} BytesRoundTrip(v: nat, n: nat)
    requires v < Pow256(n)
    ensures FromBigEndian(BigEndian(v, n)) == v
  {
    if n > 0 {
      BytesRoundTrip(v / 256, n - 1);
      assert BigEndian(v, n)[..n - 1] == BigEndian(v / 256, n - 1);
    }
  }

  lemma {:induction false} FromBytesBound(bs: seq<Byte>)
    ensures FromBigEndian(bs) < Pow256(|bs|)
  {
    if bs != [] {
      FromBytesBound(bs[..|bs| - 1]);
    }
  }

  lemma {:induction false} FromBytesSplit(a: seq<Byte>, b: seq<Byte>)
    ensures FromBigEndian(a + b) == FromBigEndian(a) * Pow256(|b|) + FromBigEndian(b)
  {
    if b == [] {
      assert a + b == a;
    } else {
      var b' := b[..|b| - 1];
      assert (a + b)[..|a + b| - 1] == a + b';
      FromBytesSplit(a, b');
      assert 256 * (FromBigEndian(a) * Pow256(|b'|)) == FromBigEndian(a) * Pow256(|b|);
    }
  }

  lemma {:induction false} ToBytesSplit(high: nat, low: nat, n: nat, m: nat)
    requires low < Pow256(m)
    ensures BigEndian(high * Pow256(m) + low, n + m) == BigEndian(high, n) + BigEndian(low, m)
  {
    if m > 0 {
      var h := high * Pow256(m - 1);
      assert high * Pow256(m) == 256 * h;
      assert (256 * h + low) / 256 == h + low / 256 && (256 * h + low) % 256 == low % 256;
      ToBytesSplit(high, low / 256, n, m - 1);
    }
  }

  lemma FourBytes()
    ensures Pow256(4) == TWO_32 && Pow256(8) == TWO_64
  {
  }
}

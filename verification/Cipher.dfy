/** The 64-bit block cipher behind the ids.  xtea is not in the repository; every key of it is a
    network of this shape (64 half rounds), so what is proved for all round functions holds for it. */
module Cipher {
  import opened Words

  type Half = h: nat | h < TWO_32

  /** Half round `i` adds round(i, other half) to one half, even rounds to the left one. */
  datatype Block = Block(rounds: nat, round: (nat, nat) -> nat)

  function EncryptFrom(k: Block, i: nat, v0: Half, v1: Half): (Half, Half)
    requires i <= k.rounds
    decreases k.rounds - i
  {
    if i == k.rounds then (v0, v1)
    else if i % 2 == 0 then EncryptFrom(k, i + 1, (v0 + k.round(i, v1)) % TWO_32, v1)
    else EncryptFrom(k, i + 1, v0, (v1 + k.round(i, v0)) % TWO_32)
  }

  /** The first `i` half rounds undone. */
  function DecryptTo(k: Block, i: nat, v0: Half, v1: Half): (Half, Half) {
    if i == 0 then (v0, v1)
    else if (i - 1) % 2 == 0 then DecryptTo(k, i - 1, (v0 - k.round(i - 1, v1)) % TWO_32, v1)
    else DecryptTo(k, i - 1, v0, (v1 - k.round(i - 1, v0)) % TWO_32)
  }

  /** Adding and subtracting modulo 2^32 cancel. */
  lemma WrapCancels(v: Half, d: nat)
    ensures ((v + d) % TWO_32 - d) % TWO_32 == v
  {
  }

  lemma {:induction false} DecryptUndoes(k: Block, i: nat, v0: Half, v1: Half)
    requires i <= k.rounds
    ensures var (w0, w1) := EncryptFrom(k, i, v0, v1);
            DecryptTo(k, k.rounds, w0, w1) == DecryptTo(k, i, v0, v1)
    decreases k.rounds - i
  {
    if i < k.rounds {
      if i % 2 == 0 {
        WrapCancels(v0, k.round(i, v1));
        DecryptUndoes(k, i + 1, (v0 + k.round(i, v1)) % TWO_32, v1);
      } else {
        WrapCancels(v1, k.round(i, v0));
        DecryptUndoes(k, i + 1, v0, (v1 + k.round(i, v0)) % TWO_32);
      }
    }
  }

  /** Block.Encrypt on an 8-byte buffer. */
  function Encrypt(k: Block, buf: seq<Byte>): (out: seq<Byte>)
    requires |buf| == 8
    ensures |out| == 8
  {
    FourBytes();
    FromBytesBound(buf[..4]);
    FromBytesBound(buf[4..]);
    var (w0, w1) := EncryptFrom(k, 0, FromBigEndian(buf[..4]), FromBigEndian(buf[4..]));
    BigEndian(w0, 4) + BigEndian(w1, 4)
  }

  /** What NewID does to a plain id: to bytes, encrypt in place, back to a word. */
  function Scramble(k: Block, v: nat): nat {
    FromBigEndian(Encrypt(k, BigEndian(v, 8)))
  }

  /** The inverse on words. */
  function Unscramble(k: Block, w: nat): nat
    requires w < TWO_64
  {
    var (v0, v1) := DecryptTo(k, k.rounds, w / TWO_32, w % TWO_32);
    v0 * TWO_32 + v1
  }

  lemma EightBytes(v0: Half, v1: Half)
    ensures var bs := BigEndian(v0 * TWO_32 + v1, 8);
            && bs == BigEndian(v0, 4) + BigEndian(v1, 4)
            && FromBigEndian(bs[..4]) == v0 && FromBigEndian(bs[4..]) == v1
            && FromBigEndian(bs) == v0 * TWO_32 + v1
  {
    FourBytes();
    ToBytesSplit(v0, v1, 4, 4);
    BytesRoundTrip(v0, 4);
    BytesRoundTrip(v1, 4);
    FromBytesSplit(BigEndian(v0, 4), BigEndian(v1, 4));
    var bs := BigEndian(v0 * TWO_32 + v1, 8);
    assert bs[..4] == BigEndian(v0, 4) && bs[4..] == BigEndian(v1, 4);
  }

  /** Through its byte buffer the cipher works on the two halves of the word. */
  lemma ScrambleHalves(k: Block, v0: Half, v1: Half)
    ensures var (w0, w1) := EncryptFrom(k, 0, v0, v1);
            Scramble(k, v0 * TWO_32 + v1) == w0 * TWO_32 + w1
  {
    EightBytes(v0, v1);
    var (w0, w1) := EncryptFrom(k, 0, v0, v1);
    EightBytes(w0, w1);
  }

  lemma Halves(v0: Half, v1: Half)
    ensures var v := v0 * TWO_32 + v1;
            v < TWO_64 && v / TWO_32 == v0 && v % TWO_32 == v1
  {
  }

  lemma FromHalves(v: nat)
    requires v < TWO_64
    ensures v / TWO_32 < TWO_32 && v == (v / TWO_32) * TWO_32 + v % TWO_32
  {
  }

  /** Scrambling is invertible on 64-bit words, so it never merges two ids. */
  lemma ScrambleInvertible(k: Block, v: nat)
    requires v < TWO_64
    ensures Scramble(k, v) < TWO_64 && Unscramble(k, Scramble(k, v)) == v
  {
    FromHalves(v);
    var v0: Half, v1: Half := v / TWO_32, v % TWO_32;
    ScrambleHalves(k, v0, v1);
    var (w0, w1) := EncryptFrom(k, 0, v0, v1);
    Halves(w0, w1);
    DecryptUndoes(k, 0, v0, v1);
    assert Unscramble(k, w0 * TWO_32 + w1) == v0 * TWO_32 + v1;
  }

  lemma ScrambleInjective(k: Block, v: nat, w: nat)
    requires v < TWO_64 && w < TWO_64 && Scramble(k, v) == Scramble(k, w)
    ensures v == w
  {
    ScrambleInvertible(k, v);
    ScrambleInvertible(k, w);
  }
}

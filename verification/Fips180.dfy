// SHA-1 as FIPS 180-4 defines it: the functions of section 4.1.1, the
// constants of section 4.2.1, the padding of section 5.1.1, the parsing of
// section 5.2.1, the initial value of section 5.3.1 and the computation of
// section 6.1.2.  Words are 32-bit vectors, so `+` is addition modulo 2^32.
module Fips180 {

  type Word = bv32
  type Byte = bv8

  datatype Vars = Vars(a: Word, b: Word, c: Word, d: Word, e: Word)

  // ---- Sections 4.1.1 and 4.2.1: functions and constants ----

  function Ch(x: Word, y: Word, z: Word): Word {
    (x & y) ^ (!x & z)
  }

  function Parity(x: Word, y: Word, z: Word): Word {
    x ^ y ^ z
  }

  function Maj(x: Word, y: Word, z: Word): Word {
    (x & y) ^ (x & z) ^ (y & z)
  }

  function F(t: nat, x: Word, y: Word, z: Word): Word
    requires t < 80
  {
    if t < 20 then Ch(x, y, z)
    else if t < 40 then Parity(x, y, z)
    else if t < 60 then Maj(x, y, z)
    else Parity(x, y, z)
  }

  function K(t: nat): Word
    requires t < 80
  {
    if t < 20 then 0x5a827999
    else if t < 40 then 0x6ed9eba1
    else if t < 60 then 0x8f1bbcdc
    else 0xca62c1d6
  }

  // ---- Section 6.1.2: one message block ----

  function ScheduleWord(p: Word, q: Word, r: Word, s: Word): Word {
    (p ^ q ^ r ^ s).RotateLeft(1)
  }

  function Schedule(m: seq<Word>, t: nat): Word
    requires |m| == 16
  {
    if t < 16 then m[t]
    else ScheduleWord(Schedule(m, t - 3), Schedule(m, t - 8), Schedule(m, t - 14), Schedule(m, t - 16))
  }

  function Sum(p: Word, q: Word, r: Word, s: Word, t: Word): Word {
    p + q + r + s + t
  }

  function Round(v: Vars, t: nat, w: Word): Vars
    requires t < 80
  {
    var T := Sum(v.a.RotateLeft(5), F(t, v.b, v.c, v.d), v.e, K(t), w);
    Vars(T, v.a, v.b.RotateLeft(30), v.c, v.d)
  }

  /** The working variables after the first t rounds. */
  function Rounds(h: Vars, m: seq<Word>, t: nat): Vars
    requires |m| == 16 && t <= 80
  {
    if t == 0 then h else Round(Rounds(h, m, t - 1), t - 1, Schedule(m, t - 1))
  }

  function Add(x: Word, y: Word): Word {
    x + y
  }

  function AddVars(x: Vars, y: Vars): Vars {
    Vars(Add(x.a, y.a), Add(x.b, y.b), Add(x.c, y.c), Add(x.d, y.d), Add(x.e, y.e))
  }

  // The 80 rounds are written as five for each word of the block.
  function Block(h: Vars, m: seq<Word>): Vars
    requires |m| == 16
  {
    AddVars(h, Rounds(h, m, 5 * |m|))
  }

  const H0 := Vars(0x67452301, 0xefcdab89, 0x98badcfe, 0x10325476, 0xc3d2e1f0)

  /** The hash value H(i) after the first i blocks of a parsed message. */
  function HashValue(words: seq<Word>, i: nat): Vars
    requires 16 * i <= |words|
  {
    if i == 0 then H0 else Block(HashValue(words, i - 1), words[16 * (i - 1)..16 * i])
  }

  // ---- Sections 5.1.1 and 5.2.1: padding and parsing ----

  function BytesOfWord(w: Word): (b: seq<Byte>)
    ensures |b| == 4
  {
    [((w >> 24) & 0xff) as Byte, ((w >> 16) & 0xff) as Byte, ((w >> 8) & 0xff) as Byte, (w & 0xff) as Byte]
  }

  /** Four bytes as one word, the most significant byte first. */
  function WordOfBytes(b0: Byte, b1: Byte, b2: Byte, b3: Byte): Word {
    ((((((b0 as Word) << 8) | (b1 as Word)) << 8) | (b2 as Word)) << 8) | (b3 as Word)
  }

  function Parse(bytes: seq<Byte>): (words: seq<Word>)
    ensures 4 * |words| <= |bytes| < 4 * |words| + 4
    ensures forall j :: 0 <= j < |words| ==>
      words[j] == WordOfBytes(bytes[4 * j], bytes[4 * j + 1], bytes[4 * j + 2], bytes[4 * j + 3])
  {
    seq(|bytes| / 4, j requires 0 <= j < |bytes| / 4 =>
      WordOfBytes(bytes[4 * j], bytes[4 * j + 1], bytes[4 * j + 2], bytes[4 * j + 3]))
  }

  /** How many 64-byte blocks hold n bytes, the byte 0x80 and an 8-byte length. */
  function BlockCount(n: nat): (c: nat)
    ensures n + 9 <= 64 * c < n + 73
  {
    (n + 72) / 64
  }

  /** How many zero bytes follow the byte 0x80 that ends a message of n bytes. */
  function ZeroCount(n: nat): (k: nat)
    ensures k < 64
  {
    64 * BlockCount(n) - n - 9
  }

  /** The k of section 5.1.1: the least solution of l + 1 + k = 448 modulo 512, here in bytes. */
  lemma PaddingIsLeast(n: nat, k: nat)
    requires (n + 1 + k) % 64 == 56
    ensures (n + 1 + ZeroCount(n)) % 64 == 56 && ZeroCount(n) <= k
  {
    var b := BlockCount(n);
    assert n + 1 + ZeroCount(n) == 64 * (b - 1) + 56;
    var q := (n + 1 + k) / 64;
    assert n + 1 + k == 64 * q + 56;
  }

  function Zeros(n: nat): (z: seq<Byte>)
    ensures |z| == n && forall i :: 0 <= i < n ==> z[i] == 0
  {
    seq(n, _ => 0)
  }

  /** The message, the bit 1, the fewest zeros, and a 64-bit block given as two words. */
  function PadWith(msg: seq<Byte>, high: Word, low: Word): (p: seq<Byte>)
    ensures |p| == |msg| + 1 + ZeroCount(|msg|) + 8 && |p| == 64 * BlockCount(|msg|)
  {
    msg + [0x80] + Zeros(ZeroCount(|msg|)) + BytesOfWord(high) + BytesOfWord(low)
  }

  /** The length of a message in bits, as the 64-bit block of section 5.1.1. */
  function LengthHigh(n: nat): Word
    requires n < 0x2000_0000_0000_0000
  {
    (8 * n / 0x1_0000_0000) as Word
  }

  function LengthLow(n: nat): Word {
    (8 * n % 0x1_0000_0000) as Word
  }

  function Pad(msg: seq<Byte>): seq<Byte>
    requires |msg| < 0x2000_0000_0000_0000
  {
    PadWith(msg, LengthHigh(|msg|), LengthLow(|msg|))
  }

  // ---- The digest ----

  function DigestOf(v: Vars): (d: seq<Byte>)
    ensures |d| == 20
  {
    BytesOfWord(v.a) + BytesOfWord(v.b) + BytesOfWord(v.c) + BytesOfWord(v.d) + BytesOfWord(v.e)
  }

  function HashPadded(padded: seq<Byte>): (d: seq<Byte>)
    ensures |d| == 20
  {
    DigestOf(HashValue(Parse(padded), |padded| / 64))
  }

  function Sha1(msg: seq<Byte>): (d: seq<Byte>)
    requires |msg| < 0x2000_0000_0000_0000
    ensures |d| == 20
  {
    HashPadded(Pad(msg))
  }
}

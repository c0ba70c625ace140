// The SHA-1 of the update packer: sha1Shift, sha1PartHash and hashSha1, proved
// against the functional definition of FIPS 180-4 in module Fips180.
module Packer {
  import opened Fips180

  // ---- One block ----

  /** The source's rotation; a shift by 0 or 32 would be undefined there. */
  function Sha1Shift(v: Word, shift: nat): Word
    requires 0 < shift < 32
  {
    (v << shift) | (v >> (32 - shift))
  }

  /** The word by which the macro _shiftshiftswap extends the schedule. */
  function ExtensionWord(p: Word, q: Word, r: Word, s: Word): Word {
    Sha1Shift(p ^ q ^ r ^ s, 1)
  }

  lemma ExtensionIsScheduleWord(p: Word, q: Word, r: Word, s: Word)
    ensures ExtensionWord(p, q, r, s) == ScheduleWord(p, q, r, s)
  {
    hide Sha1Shift;
    ShiftIsRotation(p ^ q ^ r ^ s);
  }

  lemma ShiftIsRotation(v: Word)
    ensures Sha1Shift(v, 1) == v.RotateLeft(1)
    ensures Sha1Shift(v, 5) == v.RotateLeft(5)
    ensures Sha1Shift(v, 30) == v.RotateLeft(30)
  {
  }

  /** The source writes Ch and Maj with `|` where the standard has `^`. */
  function ChOr(b: Word, c: Word, d: Word): Word {
    (b & c) | (!b & d)
  }

  function MajOr(b: Word, c: Word, d: Word): Word {
    (b & c) | (b & d) | (c & d)
  }

  function Xor3(b: Word, c: Word, d: Word): Word {
    b ^ c ^ d
  }

  lemma ChOrIsCh(b: Word, c: Word, d: Word)
    ensures ChOr(b, c, d) == Ch(b, c, d)
  {
    assert (b & c) | (!b & d) == (b & c) ^ (!b & d);
  }

  lemma MajOrIsMaj(b: Word, c: Word, d: Word)
    ensures MajOr(b, c, d) == Maj(b, c, d)
  {
    assert (b & c) | (b & d) | (c & d) == (b & c) ^ (b & d) ^ (c & d);
  }

  /** Each of the five round loops uses the function that the standard prescribes. */
  lemma RoundFunctions(t: nat, b: Word, c: Word, d: Word)
    requires t < 80
    ensures t < 20 ==> ChOr(b, c, d) == F(t, b, c, d)
    ensures 20 <= t < 40 || 60 <= t ==> Xor3(b, c, d) == F(t, b, c, d)
    ensures 40 <= t < 60 ==> MajOr(b, c, d) == F(t, b, c, d)
  {
    hide Ch, Maj, ChOr, MajOr;
    ChOrIsCh(b, c, d);
    MajOrIsMaj(b, c, d);
  }

  /** The body of the macro _shiftswap(f, v), on the five working variables. */
  function ShiftSwap(v: Vars, f: Word, k: Word, w: Word): Vars {
    Vars(Sum(Sha1Shift(v.a, 5), f, v.e, k, w), v.a, Sha1Shift(v.b, 30), v.c, v.d)
  }

  lemma SameVars(x: Vars, y: Vars)
    requires x.a == y.a && x.b == y.b && x.c == y.c && x.d == y.d && x.e == y.e
    ensures x == y
  {
  }

  lemma SameSum(v: Vars, t: nat, f: Word, w: Word)
    requires t < 80 && f == F(t, v.b, v.c, v.d)
    ensures ShiftSwap(v, f, K(t), w).a == Round(v, t, w).a
  {
    hide F, K, Sum, Sha1Shift;
    ShiftIsRotation(v.a);
  }

  lemma SameRotation(v: Vars, t: nat, f: Word, w: Word)
    requires t < 80 && f == F(t, v.b, v.c, v.d)
    ensures ShiftSwap(v, f, K(t), w).c == Round(v, t, w).c
  {
    hide F, K, Sum, Sha1Shift;
    ShiftIsRotation(v.b);
  }

  lemma SameMoves(v: Vars, t: nat, f: Word, w: Word)
    requires t < 80
    ensures var x, y := ShiftSwap(v, f, K(t), w), Round(v, t, w); x.b == y.b && x.d == y.d && x.e == y.e
  {
    hide F, K, Sum, Sha1Shift;
  }

  lemma ShiftSwapIsRound(v: Vars, t: nat, f: Word, w: Word)
    requires t < 80 && f == F(t, v.b, v.c, v.d)
    ensures ShiftSwap(v, f, K(t), w) == Round(v, t, w)
  {
    hide F, K, ShiftSwap, Round;
    SameSum(v, t, f, w);
    SameRotation(v, t, f, w);
    SameMoves(v, t, f, w);
    SameVars(ShiftSwap(v, f, K(t), w), Round(v, t, w));
  }

  function VarsOf(sha: seq<Word>): Vars
    requires |sha| == 5
  {
    Vars(sha[0], sha[1], sha[2], sha[3], sha[4])
  }

  /** The words of the schedule that temp holds once the given round is reached. */
  ghost predicate Scheduled(temp: seq<Word>, m: seq<Word>, round: nat)
    requires |temp| == 80 && |m| == 16
  {
    round <= 80 && forall j :: 0 <= j < 16 || 16 <= j < round ==> temp[j] == Schedule(m, j)
  }

  /** The statement that extends the schedule in place at the start of a later round. */
  method ExtendSchedule(temp: array<Word>, round: nat, ghost m: seq<Word>)
    requires temp.Length == 80 && |m| == 16 && 16 <= round < 80
    requires Scheduled(temp[..], m, round)
    modifies temp
    ensures Scheduled(temp[..], m, round + 1)
  {
    hide ExtensionWord, ScheduleWord;
    ExtensionIsScheduleWord(temp[round - 3], temp[round - 8], temp[round - 14], temp[round - 16]);
    ghost var before := temp[..];
    assert before[round - 3] == Schedule(m, round - 3) && before[round - 8] == Schedule(m, round - 8);
    assert before[round - 14] == Schedule(m, round - 14) && before[round - 16] == Schedule(m, round - 16);
    temp[round] := ExtensionWord(temp[round - 3], temp[round - 8], temp[round - 14], temp[round - 16]);
    assert temp[..] == before[round := Schedule(m, round)];
  }

  lemma FirstWords(temp: seq<Word>, m: seq<Word>)
    requires |temp| == 80 && m == temp[..16]
    ensures Scheduled(temp, m, 0) && Scheduled(temp, m, 16)
  {
    assert forall j :: 0 <= j < 16 ==> temp[j] == m[j];
  }

  /** One round whose schedule word is already in place: the macro's effect is the standard's round. */
  lemma OneRound(h: Vars, m: seq<Word>, v: Vars, round: nat, f: Word, temp: seq<Word>)
    requires |m| == 16 && |temp| == 80 && round < 80
    requires v == Rounds(h, m, round) && f == F(round, v.b, v.c, v.d)
    requires temp[round] == Schedule(m, round)
    ensures ShiftSwap(v, f, K(round), temp[round]) == Rounds(h, m, round + 1)
  {
    hide F, Round, ShiftSwap, Schedule, K;
    ShiftSwapIsRound(v, round, f, temp[round]);
  }

  method Sha1PartHash(sha: array<Word>, temp: array<Word>)
    requires sha.Length == 5 && temp.Length == 80 && sha != temp
    modifies sha, temp
    ensures VarsOf(sha[..]) == Block(old(VarsOf(sha[..])), old(temp[..16]))
  {
    hide F, Rounds, ShiftSwap, Schedule, ChOr, MajOr, Xor3, Ch, Maj, Parity;
    ghost var m := temp[..16];
    ghost var h := VarsOf(sha[..]);
    FirstWords(temp[..], m);
    var v := Vars(sha[0], sha[1], sha[2], sha[3], sha[4]);
    var round := 0;
    RoundsStart(h, m);

    while round < 16
      invariant 0 <= round <= 16 && Scheduled(temp[..], m, 16) && sha[..] == old(sha[..])
      invariant v == Rounds(h, m, round)
    {
      RoundFunctions(round, v.b, v.c, v.d);
      OneRound(h, m, v, round, ChOr(v.b, v.c, v.d), temp[..]);
      v := ShiftSwap(v, ChOr(v.b, v.c, v.d), 0x5a827999, temp[round]);
      round := round + 1;
    }
    while round < 20
      invariant 16 <= round <= 20 && Scheduled(temp[..], m, round) && sha[..] == old(sha[..])
      invariant v == Rounds(h, m, round)
    {
      ExtendSchedule(temp, round, m);
      RoundFunctions(round, v.b, v.c, v.d);
      OneRound(h, m, v, round, ChOr(v.b, v.c, v.d), temp[..]);
      v := ShiftSwap(v, ChOr(v.b, v.c, v.d), 0x5a827999, temp[round]);
      round := round + 1;
    }
    while round < 40
      invariant 20 <= round <= 40 && Scheduled(temp[..], m, round) && sha[..] == old(sha[..])
      invariant v == Rounds(h, m, round)
    {
      ExtendSchedule(temp, round, m);
      RoundFunctions(round, v.b, v.c, v.d);
      OneRound(h, m, v, round, Xor3(v.b, v.c, v.d), temp[..]);
      v := ShiftSwap(v, Xor3(v.b, v.c, v.d), 0x6ed9eba1, temp[round]);
      round := round + 1;
    }
    while round < 60
      invariant 40 <= round <= 60 && Scheduled(temp[..], m, round) && sha[..] == old(sha[..])
      invariant v == Rounds(h, m, round)
    {
      ExtendSchedule(temp, round, m);
      RoundFunctions(round, v.b, v.c, v.d);
      OneRound(h, m, v, round, MajOr(v.b, v.c, v.d), temp[..]);
      v := ShiftSwap(v, MajOr(v.b, v.c, v.d), 0x8f1bbcdc, temp[round]);
      round := round + 1;
    }
    while round < 80
      invariant 60 <= round <= 80 && Scheduled(temp[..], m, round) && sha[..] == old(sha[..])
      invariant v == Rounds(h, m, round)
    {
      ExtendSchedule(temp, round, m);
      RoundFunctions(round, v.b, v.c, v.d);
      OneRound(h, m, v, round, Xor3(v.b, v.c, v.d), temp[..]);
      v := ShiftSwap(v, Xor3(v.b, v.c, v.d), 0xca62c1d6, temp[round]);
      round := round + 1;
    }

    AddInPlace(sha, v);
  }

  lemma RoundsStart(h: Vars, m: seq<Word>)
    requires |m| == 16
    ensures Rounds(h, m, 0) == h
  {
  }

  method AddInPlace(sha: array<Word>, v: Vars)
    requires sha.Length == 5
    modifies sha
    ensures VarsOf(sha[..]) == AddVars(old(VarsOf(sha[..])), v)
  {
    hide Add;
    sha[0] := Add(sha[0], v.a);
    sha[1] := Add(sha[1], v.b);
    sha[2] := Add(sha[2], v.c);
    sha[3] := Add(sha[3], v.d);
    sha[4] := Add(sha[4], v.e);
  }

  // ---- The whole message ----

  /** Byte i of a message tail that is followed by zeros. */
  function ByteAt(t: seq<Byte>, i: nat): Byte {
    if i < |t| then t[i] else 0
  }

  function ZeroExtendedWord(t: seq<Byte>, w: nat): Word {
    WordOfBytes(ByteAt(t, 4 * w), ByteAt(t, 4 * w + 1), ByteAt(t, 4 * w + 2), ByteAt(t, 4 * w + 3))
  }

  /** A byte shifted left by (3 - position) * 8 bits, to its place inside a big-endian word. */
  function PlacedByte(b: Byte, position: nat): Word
    requires position < 4
  {
    match position
    case 0 => (b as Word) << 24
    case 1 => (b as Word) << 16
    case 2 => (b as Word) << 8
    case 3 => b as Word
  }

  lemma OrByte0(b: Byte)
    ensures WordOfBytes(0, 0, 0, 0) | PlacedByte(b, 0) == WordOfBytes(b, 0, 0, 0)
  {
  }

  lemma OrByte1(p: Byte, b: Byte)
    ensures WordOfBytes(p, 0, 0, 0) | PlacedByte(b, 1) == WordOfBytes(p, b, 0, 0)
  {
  }

  lemma OrByte2(p: Byte, q: Byte, b: Byte)
    ensures WordOfBytes(p, q, 0, 0) | PlacedByte(b, 2) == WordOfBytes(p, q, b, 0)
  {
  }

  lemma OrByte3(p: Byte, q: Byte, r: Byte, b: Byte)
    ensures WordOfBytes(p, q, r, 0) | PlacedByte(b, 3) == WordOfBytes(p, q, r, b)
  {
  }

  /** The word that the inner loop of hashSha1 assembles. */
  function BigEndianWord(b0: Byte, b1: Byte, b2: Byte, b3: Byte): Word {
    (b3 as Word) | ((b2 as Word) << 8) | ((b1 as Word) << 16) | ((b0 as Word) << 24)
  }

  lemma BigEndian(b0: Byte, b1: Byte, b2: Byte, b3: Byte)
    ensures BigEndianWord(b0, b1, b2, b3) == WordOfBytes(b0, b1, b2, b3)
  {
  }

  lemma ZeroWord()
    ensures WordOfBytes(0, 0, 0, 0) == 0
  {
  }

  lemma WordRoundTrip(w: Word)
    ensures var b := BytesOfWord(w); WordOfBytes(b[0], b[1], b[2], b[3]) == w
  {
  }

  ghost predicate HoldsTail(temp: seq<Word>, t: seq<Byte>)
    requires |temp| == 80
  {
    forall w :: 0 <= w < 16 ==> temp[w] == ZeroExtendedWord(t, w)
  }

  lemma PlaceInWord(t: seq<Byte>, b: Byte, w: nat, r: nat)
    requires |t| == 4 * w + r && r < 4
    ensures ZeroExtendedWord(t, w) | PlacedByte(b, r) == ZeroExtendedWord(t + [b], w)
  {
    hide WordOfBytes, PlacedByte;
    if r == 0 { OrByte0(b); }
    if r == 1 { OrByte1(t[4 * w], b); }
    if r == 2 { OrByte2(t[4 * w], t[4 * w + 1], b); }
    if r == 3 { OrByte3(t[4 * w], t[4 * w + 1], t[4 * w + 2], b); }
  }

  lemma OtherWords(t: seq<Byte>, b: Byte, w: nat)
    requires 4 * w + 4 <= |t| || |t| < 4 * w
    ensures ZeroExtendedWord(t, w) == ZeroExtendedWord(t + [b], w)
  {
    hide WordOfBytes;
  }

  /** The statement `temp[last >> 2] |= byte << ((3 - (last & 3)) << 3)`. */
  method OrByteInto(temp: array<Word>, last: nat, b: Byte, ghost t: seq<Byte>)
    requires temp.Length == 80 && |t| == last < 64 && HoldsTail(temp[..], t)
    modifies temp
    ensures HoldsTail(temp[..], t + [b])
  {
    hide ZeroExtendedWord, PlacedByte;
    ghost var before := temp[..];
    var w, r := last / 4, last % 4;
    PlaceInWord(t, b, w, r);
    temp[w] := temp[w] | PlacedByte(b, r);
    forall v | 0 <= v < 16 ensures temp[v] == ZeroExtendedWord(t + [b], v) {
      assert before[v] == ZeroExtendedWord(t, v);
      if v != w {
        OtherWords(t, b, v);
      }
    }
  }

  /** The source's memset over the sixteen message words. */
  method ClearWords(temp: array<Word>)
    requires temp.Length == 80
    modifies temp
    ensures HoldsTail(temp[..], []) && forall w :: 0 <= w < 16 ==> temp[w] == 0
  {
    hide WordOfBytes;
    forall w | 0 <= w < 16 {
      temp[w] := 0;
    }
    ZeroWord();
  }

  /** The inner loop that loads one full block of the message. */
  method LoadBlock(data: array<Byte>, block: nat, temp: array<Word>)
    requires block + 64 <= data.Length && temp.Length == 80
    modifies temp
    ensures forall w :: 0 <= w < 16 ==> temp[w] == WordOfBytes(data[block + 4 * w], data[block + 4 * w + 1],
                                                               data[block + 4 * w + 2], data[block + 4 * w + 3])
  {
    hide WordOfBytes, BigEndianWord;
    var i, at := 0, block;
    while at < block + 64
      invariant 0 <= i <= 16 && at == block + 4 * i
      invariant forall w :: 0 <= w < i ==> temp[w] == WordOfBytes(data[block + 4 * w], data[block + 4 * w + 1],
                                                                 data[block + 4 * w + 2], data[block + 4 * w + 3])
    {
      BigEndian(data[at], data[at + 1], data[at + 2], data[at + 3]);
      temp[i] := BigEndianWord(data[at], data[at + 1], data[at + 2], data[at + 3]);
      i := i + 1;
      at := at + 4;
    }
  }

  // ---- Where the words of the padded message come from ----

  lemma PaddedByte(msg: seq<Byte>, high: Word, low: Word, n: nat, i: nat)
    requires 64 * n <= |msg| && 64 * n + i < |PadWith(msg, high, low)| - 8
    ensures PadWith(msg, high, low)[64 * n + i] == ByteAt(msg[64 * n..] + [0x80], i)
  {
    hide BytesOfWord;
  }

  lemma PaddedWord(msg: seq<Byte>, high: Word, low: Word, n: nat, w: nat)
    requires 64 * n <= |msg| && 64 * n + 4 * w + 4 <= |PadWith(msg, high, low)| - 8
    ensures var p := PadWith(msg, high, low);
      16 * n + w < |Parse(p)| && Parse(p)[16 * n + w] == ZeroExtendedWord(msg[64 * n..] + [0x80], w)
  {
    hide WordOfBytes, ByteAt, PadWith;
    PaddedByte(msg, high, low, n, 4 * w);
    PaddedByte(msg, high, low, n, 4 * w + 1);
    PaddedByte(msg, high, low, n, 4 * w + 2);
    PaddedByte(msg, high, low, n, 4 * w + 3);
  }

  lemma LengthWords(msg: seq<Byte>, high: Word, low: Word, last: nat)
    requires 4 * last + 8 == |PadWith(msg, high, low)|
    ensures Parse(PadWith(msg, high, low))[last] == high
    ensures Parse(PadWith(msg, high, low))[last + 1] == low
  {
    hide WordOfBytes, BytesOfWord, ZeroCount;
    var p := PadWith(msg, high, low);
    WordRoundTrip(high);
    WordRoundTrip(low);
    assert p[4 * last..] == BytesOfWord(high) + BytesOfWord(low);
  }

  lemma FullBlock(msg: seq<Byte>, high: Word, low: Word, n: nat, block: seq<Word>)
    requires 64 * n + 64 <= |msg| && |block| == 16
    requires forall w :: 0 <= w < 16 ==> block[w] == WordOfBytes(msg[64 * n + 4 * w], msg[64 * n + 4 * w + 1],
                                                                 msg[64 * n + 4 * w + 2], msg[64 * n + 4 * w + 3])
    ensures var words := Parse(PadWith(msg, high, low)); 16 * (n + 1) <= |words| && words[16 * n..16 * (n + 1)] == block
  {
    hide WordOfBytes, ByteAt;
    var words := Parse(PadWith(msg, high, low));
    forall w | 0 <= w < 16 ensures words[16 * n + w] == block[w] {
      PaddedWord(msg, high, low, n, w);
      TailOfFullBlock(msg[64 * n..] + [0x80], msg, n, w);
    }
  }

  lemma TailOfFullBlock(t: seq<Byte>, msg: seq<Byte>, n: nat, w: nat)
    requires 64 * n + 64 <= |msg| && w < 16 && t == msg[64 * n..] + [0x80]
    ensures ZeroExtendedWord(t, w) == WordOfBytes(msg[64 * n + 4 * w], msg[64 * n + 4 * w + 1],
                                                  msg[64 * n + 4 * w + 2], msg[64 * n + 4 * w + 3])
  {
    hide WordOfBytes;
  }

  /** A tail of 56 bytes or more fills one block; the length goes to a block of its own. */
  lemma LongTail(msg: seq<Byte>, high: Word, low: Word, n: nat)
    requires 64 * n + 56 <= |msg| < 64 * n + 64
    ensures |PadWith(msg, high, low)| == 64 * (n + 2)
    ensures var block := Parse(PadWith(msg, high, low))[16 * n..16 * (n + 1)];
      forall w :: 0 <= w < 16 ==> block[w] == ZeroExtendedWord(msg[64 * n..] + [0x80], w)
  {
    hide WordOfBytes, ZeroExtendedWord, PadWith;
    PaddedLength(msg, high, low, n, 2);
    var block := Parse(PadWith(msg, high, low))[16 * n..16 * (n + 1)];
    forall w | 0 <= w < 16 ensures block[w] == ZeroExtendedWord(msg[64 * n..] + [0x80], w) {
      PaddedWord(msg, high, low, n, w);
    }
  }

  lemma LengthBlock(msg: seq<Byte>, high: Word, low: Word, n: nat)
    requires 64 * n + 56 <= |msg| < 64 * n + 64
    ensures |PadWith(msg, high, low)| == 64 * (n + 2)
    ensures var block := Parse(PadWith(msg, high, low))[16 * (n + 1)..16 * (n + 2)];
      (forall w :: 0 <= w < 14 ==> block[w] == 0) && block[14] == high && block[15] == low
  {
    hide WordOfBytes, ZeroExtendedWord, PadWith;
    PaddedLength(msg, high, low, n, 2);
    var block := Parse(PadWith(msg, high, low))[16 * (n + 1)..16 * (n + 2)];
    forall w | 0 <= w < 14 ensures block[w] == 0 {
      PaddedWord(msg, high, low, n, 16 + w);
      BeyondTail(msg[64 * n..] + [0x80], 16 + w);
    }
    LengthWords(msg, high, low, 16 * (n + 1) + 14);
  }

  lemma ShortTail(msg: seq<Byte>, high: Word, low: Word, n: nat)
    requires 64 * n <= |msg| < 64 * n + 56
    ensures |PadWith(msg, high, low)| == 64 * (n + 1)
    ensures var block := Parse(PadWith(msg, high, low))[16 * n..16 * (n + 1)];
      (forall w :: 0 <= w < 14 ==> block[w] == ZeroExtendedWord(msg[64 * n..] + [0x80], w))
      && block[14] == high && block[15] == low
  {
    hide WordOfBytes, ZeroExtendedWord, PadWith;
    PaddedLength(msg, high, low, n, 1);
    var block := Parse(PadWith(msg, high, low))[16 * n..16 * (n + 1)];
    forall w | 0 <= w < 14 ensures block[w] == ZeroExtendedWord(msg[64 * n..] + [0x80], w) {
      PaddedWord(msg, high, low, n, w);
    }
    LengthWords(msg, high, low, 16 * n + 14);
  }

  lemma PaddedLength(msg: seq<Byte>, high: Word, low: Word, n: nat, blocks: nat)
    requires 64 * n <= |msg| < 64 * n + 64
    requires blocks == if |msg| < 64 * n + 56 then 1 else 2
    ensures |PadWith(msg, high, low)| == 64 * (n + blocks)
  {
    hide BytesOfWord;
  }

  lemma BeyondTail(t: seq<Byte>, w: nat)
    requires |t| <= 4 * w
    ensures ZeroExtendedWord(t, w) == 0
  {
    hide WordOfBytes;
    ZeroWord();
  }

  lemma HashStep(words: seq<Word>, n: nat, h: Vars, block: seq<Word>)
    requires 16 * (n + 1) <= |words| && h == HashValue(words, n)
    requires block == words[16 * n..16 * (n + 1)]
    ensures Block(h, block) == HashValue(words, n + 1)
  {
    hide Block;
  }

  /** A word shifted right by 8 * k bits and cut to its low byte. */
  function ByteOf(w: Word, k: nat): Byte
    requires k < 4
  {
    match k
    case 0 => (w & 0xff) as Byte
    case 1 => ((w >> 8) & 0xff) as Byte
    case 2 => ((w >> 16) & 0xff) as Byte
    case 3 => ((w >> 24) & 0xff) as Byte
  }

  /** Byte i of the digest, as the final loop computes it from the five words. */
  function DigestByte(w: Word, i: nat): Byte {
    ByteOf(w, (3 - i) % 4)
  }

  ghost predicate HoldsDigest(sha: seq<Word>, d: seq<Byte>) {
    |sha| == 5 && |d| == 20 && forall j :: 0 <= j < 20 ==> d[j] == DigestByte(sha[j / 4], j)
  }

  lemma DigestPart(sha: seq<Word>, d: seq<Byte>, q: nat)
    requires HoldsDigest(sha, d) && q < 5
    ensures d[4 * q..4 * q + 4] == BytesOfWord(sha[q])
  {
    var w := sha[q];
    assert d[4 * q] == ByteOf(w, 3) by { hide ByteOf; }
    assert d[4 * q + 1] == ByteOf(w, 2) by { hide ByteOf; assert (4 * q + 1) / 4 == q; }
    assert d[4 * q + 2] == ByteOf(w, 1) by { hide ByteOf; assert (4 * q + 2) / 4 == q; }
    assert d[4 * q + 3] == ByteOf(w, 0) by { hide ByteOf; assert (4 * q + 3) / 4 == q; }
  }

  lemma DigestIsWritten(sha: seq<Word>, d: seq<Byte>)
    requires |sha| == 5 && |d| == 20 && HoldsDigest(sha, d)
    ensures d == DigestOf(VarsOf(sha))
  {
    hide HoldsDigest, BytesOfWord;
    DigestPart(sha, d, 0);
    DigestPart(sha, d, 1);
    DigestPart(sha, d, 2);
    DigestPart(sha, d, 3);
    DigestPart(sha, d, 4);
    assert d == d[0..4] + d[4..8] + d[8..12] + d[12..16] + d[16..20];
  }

  method WriteDigest(sha: array<Word>, dest: array<Byte>)
    requires sha.Length == 5 && dest.Length >= 20
    modifies dest
    ensures dest[..20] == DigestOf(VarsOf(sha[..]))
    ensures dest[20..] == old(dest[20..])
  {
    hide DigestByte, BytesOfWord, DigestOf;
    var i := 19;
    while i >= 0
      invariant -1 <= i <= 19 && dest[20..] == old(dest[20..])
      invariant forall j :: i < j < 20 ==> dest[j] == DigestByte(sha[j / 4], j)
    {
      dest[i] := DigestByte(sha[i / 4], i);
      i := i - 1;
    }
    DigestIsWritten(sha[..], dest[..20]);
  }

  /** The loop that ORs the last bytes of the message, and the bit 1 after them, into place. */
  method LoadTail(data: array<Byte>, block: nat, temp: array<Word>)
    requires block <= data.Length < block + 64 && temp.Length == 80
    modifies temp
    ensures HoldsTail(temp[..], data[block..] + [0x80])
  {
    hide HoldsTail;
    ClearWords(temp);
    var end, last := data.Length - block, 0;
    assert data[block..block] == [];
    while last < end
      invariant 0 <= last <= end && HoldsTail(temp[..], data[block..block + last])
    {
      OrByteInto(temp, last, data[last + block], data[block..block + last]);
      assert data[block..block + last] + [data[last + block]] == data[block..block + (last + 1)];
      last := last + 1;
    }
    assert data[block..block + last] == data[block..];
    OrByteInto(temp, last, 0x80, data[block..]);
  }

  /** One step of the outer hash: the sixteen loaded words are block n of the padded message. */
  method HashBlock(sha: array<Word>, temp: array<Word>, ghost words: seq<Word>, ghost n: nat)
    requires sha.Length == 5 && temp.Length == 80 && sha != temp
    requires 16 * (n + 1) <= |words| && temp[..16] == words[16 * n..16 * (n + 1)]
    requires VarsOf(sha[..]) == HashValue(words, n)
    modifies sha, temp
    ensures VarsOf(sha[..]) == HashValue(words, n + 1)
  {
    hide Block;
    HashStep(words, n, VarsOf(sha[..]), temp[..16]);
    Sha1PartHash(sha, temp);
  }

  /** What temp holds for a long tail is block n of the padded message. */
  lemma LongTailBlock(msg: seq<Byte>, low: Word, n: nat, tail: seq<Word>)
    requires 64 * n + 56 <= |msg| < 64 * n + 64 && |tail| == 80
    requires HoldsTail(tail, msg[64 * n..] + [0x80])
    ensures var words := Parse(PadWith(msg, 0, low));
      |words| == 16 * (n + 2) && tail[..16] == words[16 * n..16 * (n + 1)]
  {
    hide WordOfBytes, PadWith, ZeroExtendedWord;
    LongTail(msg, 0, low, n);
  }

  /** Cleared and with the length put in, temp then is block n + 1. */
  lemma LengthOnlyBlock(msg: seq<Byte>, low: Word, n: nat, temp: seq<Word>)
    requires 64 * n + 56 <= |msg| < 64 * n + 64 && |temp| == 80
    requires (forall w :: 0 <= w < 15 ==> temp[w] == 0) && temp[15] == low
    ensures var words := Parse(PadWith(msg, 0, low));
      |words| == 16 * (n + 2) && temp[..16] == words[16 * (n + 1)..16 * (n + 2)]
  {
    hide WordOfBytes, PadWith, ZeroExtendedWord;
    LengthBlock(msg, 0, low, n);
  }

  /** A short tail and the length share block n. */
  lemma ShortTailBlock(msg: seq<Byte>, low: Word, n: nat, tail: seq<Word>)
    requires 64 * n <= |msg| < 64 * n + 56 && |tail| == 80
    requires HoldsTail(tail, msg[64 * n..] + [0x80])
    ensures var words := Parse(PadWith(msg, 0, low));
      |words| == 16 * (n + 1) && tail[15 := low][..16] == words[16 * n..16 * (n + 1)]
  {
    hide WordOfBytes, PadWith, ZeroExtendedWord;
    ShortTail(msg, 0, low, n);
    LastWordsClear(tail, msg[64 * n..] + [0x80]);
  }

  /** From the last full block on: the tail, the length, and the last one or two blocks. */
  method HashTail(data: array<Byte>, block: nat, sha: array<Word>, temp: array<Word>, ghost words: seq<Word>,
      ghost n: nat)
    requires block == 64 * n <= data.Length < block + 64
    requires sha.Length == 5 && temp.Length == 80 && sha != temp
    requires words == Parse(PadWith(data[..], 0, LengthLow(data.Length)))
    requires 16 * n <= |words| && VarsOf(sha[..]) == HashValue(words, n)
    modifies sha, temp
    ensures |words| == 16 * BlockCount(data.Length) && VarsOf(sha[..]) == HashValue(words, BlockCount(data.Length))
  {
    hide HashValue, WordOfBytes, PadWith, LengthLow, ZeroExtendedWord, HoldsTail, Parse, VarsOf;
    ghost var msg, low := data[..], LengthLow(data.Length);
    LoadTail(data, block, temp);
    assert data[block..] == msg[64 * n..];
    ghost var tail := temp[..];
    if data.Length - block >= 56 {
      LongTailBlock(msg, low, n, tail);
      HashBlock(sha, temp, words, n);
      ClearWords(temp);
      temp[15] := LengthLow(data.Length);
      LengthOnlyBlock(msg, low, n, temp[..]);
      HashBlock(sha, temp, words, n + 1);
    } else {
      ShortTailBlock(msg, low, n, tail);
      temp[15] := LengthLow(data.Length);
      assert temp[..] == tail[15 := low];
      HashBlock(sha, temp, words, n);
    }
  }

  /** The loop over the full blocks of the message. */
  method HashFullBlocks(data: array<Byte>, sha: array<Word>, temp: array<Word>, ghost words: seq<Word>)
      returns (block: nat, ghost n: nat)
    requires sha.Length == 5 && temp.Length == 80 && sha != temp
    requires words == Parse(PadWith(data[..], 0, LengthLow(data.Length)))
    requires VarsOf(sha[..]) == HashValue(words, 0)
    modifies sha, temp
    ensures block == 64 * n <= data.Length < block + 64
    ensures 16 * n <= |words| && VarsOf(sha[..]) == HashValue(words, n)
  {
    hide HashValue, WordOfBytes, PadWith, LengthLow;
    block, n := 0, 0;
    while block + 64 <= data.Length
      invariant block == 64 * n <= data.Length && 16 * n <= |words|
      invariant VarsOf(sha[..]) == HashValue(words, n)
    {
      LoadBlock(data, block, temp);
      FullBlock(data[..], 0, LengthLow(data.Length), n, temp[..16]);
      HashBlock(sha, temp, words, n);
      block := block + 64;
      n := n + 1;
    }
  }

  /**
   * For every buffer on which the source's 32-bit block counter does not wrap,
   * the digest is that of the message padded with the low 32 bits of its bit
   * length; below 2^29 bytes that is exactly the SHA-1 of FIPS 180-4.
   */
  method HashSha1(data: array<Byte>, dest: array<Byte>)
    requires data.Length < 0xFFFF_FFC0 && dest.Length >= 20
    modifies dest
    ensures dest[..20] == HashPadded(PadWith(old(data[..]), 0, LengthLow(data.Length)))
    ensures data.Length < 0x2000_0000 ==> dest[..20] == Sha1(old(data[..]))
    ensures dest[20..] == old(dest[20..])
  {
    hide Block, WordOfBytes, DigestOf, PadWith, LengthLow;
    ghost var msg := data[..];
    ghost var words := Parse(PadWith(msg, 0, LengthLow(|msg|)));
    var temp := new Word[80];
    var sha := new Word[5];
    sha[0], sha[1], sha[2], sha[3], sha[4] := 0x67452301, 0xefcdab89, 0x98badcfe, 0x10325476, 0xc3d2e1f0;
    var block, n := HashFullBlocks(data, sha, temp, words);
    HashTail(data, block, sha, temp, words, n);
    WriteDigest(sha, dest);
    FitsLength(msg);
  }

  lemma LastWordsClear(temp: seq<Word>, t: seq<Byte>)
    requires |temp| == 80 && |t| <= 56 && HoldsTail(temp, t)
    ensures temp[14] == 0 && temp[15] == 0
  {
    hide ZeroExtendedWord;
    BeyondTail(t, 14);
    BeyondTail(t, 15);
  }

  /** The high word of the length can be read back from the padded message. */
  lemma PaddingShowsHigh(msg: seq<Byte>, high: Word, low: Word)
    ensures var p := PadWith(msg, high, low); p[|p| - 8..|p| - 4] == BytesOfWord(high)
  {
    var front := msg + [0x80] + Zeros(ZeroCount(|msg|));
    assert PadWith(msg, high, low) == front + BytesOfWord(high) + BytesOfWord(low);
    hide PadWith, BytesOfWord, Zeros, ZeroCount;
  }

  lemma HighIsZero(high: Word)
    ensures BytesOfWord(high) == BytesOfWord(0) ==> high == 0
  {
    WordRoundTrip(high);
    WordRoundTrip(0);
    hide WordOfBytes, BytesOfWord;
  }

  /**
   * The message as the source pads it is the standard's padded message exactly
   * below 2^29 bytes; from there on the length that it writes is another.
   */
  lemma FitsLength(msg: seq<Byte>)
    requires |msg| < 0xFFFF_FFC0
    ensures LengthHigh(|msg|) == 0 <==> |msg| < 0x2000_0000
    ensures Pad(msg) == PadWith(msg, 0, LengthLow(|msg|)) <==> |msg| < 0x2000_0000
    ensures |msg| < 0x2000_0000 ==> Sha1(msg) == HashPadded(PadWith(msg, 0, LengthLow(|msg|)))
  {
    PaddingShowsHigh(msg, LengthHigh(|msg|), LengthLow(|msg|));
    PaddingShowsHigh(msg, 0, LengthLow(|msg|));
    HighIsZero(LengthHigh(|msg|));
    hide PadWith, LengthLow, HashPadded, BytesOfWord;
  }
}

// The rolling 64-bit hash of api_hash.h, which the client sends so that the
// server may answer "not modified", and the hashes of api_hash.cpp built on it.
module ApiHash {

  type Hash = bv64

  // ---- The three xor-shifts of HashUpdate and their inverses ----

  function XorRight21(h: Hash): Hash { h ^ (h >> 21) }
  function XorLeft35(h: Hash): Hash { h ^ (h << 35) }
  function XorRight4(h: Hash): Hash { h ^ (h >> 4) }

  function UndoRight21(h: Hash): Hash {
    var d := h ^ (h >> 21);
    d ^ (d >> 42)
  }

  function UndoRight4(h: Hash): Hash {
    var a := h ^ (h >> 4);
    var b := a ^ (a >> 8);
    var c := b ^ (b >> 16);
    c ^ (c >> 32)
  }

  // Each inverse law is proved first with one side written out, so that the
  // solver's rewriting decides it, and then for the named functions.
  lemma UndoesRight21(h: Hash)
    ensures UndoRight21(h ^ (h >> 21)) == h
  {
  }

  lemma RedoesRight21(h: Hash)
    ensures XorRight21(var d := h ^ (h >> 21); d ^ (d >> 42)) == h
  {
  }

  lemma Right21Inverse(h: Hash)
    ensures UndoRight21(XorRight21(h)) == h
  {
    hide UndoRight21;
    UndoesRight21(h);
  }

  lemma Right21InverseBack(h: Hash)
    ensures XorRight21(UndoRight21(h)) == h
  {
    hide XorRight21;
    RedoesRight21(h);
  }

  // The left shift is by more than half of the word, so it undoes itself.
  lemma Left35Inverse(h: Hash)
    ensures XorLeft35(XorLeft35(h)) == h
  {
    assert XorLeft35(h ^ (h << 35)) == h;
  }

  lemma UndoesRight4(h: Hash)
    ensures UndoRight4(h ^ (h >> 4)) == h
  {
  }

  lemma RedoesRight4(h: Hash)
    ensures XorRight4(var a := h ^ (h >> 4); var b := a ^ (a >> 8); var c := b ^ (b >> 16); c ^ (c >> 32)) == h
  {
  }

  lemma Right4Inverse(h: Hash)
    ensures UndoRight4(XorRight4(h)) == h
  {
    hide UndoRight4;
    UndoesRight4(h);
  }

  lemma Right4InverseBack(h: Hash)
    ensures XorRight4(UndoRight4(h)) == h
  {
    hide XorRight4;
    RedoesRight4(h);
  }

  // ---- The update step ----

  function Mix(h: Hash): Hash {
    XorRight4(XorLeft35(XorRight21(h)))
  }

  function Unmix(h: Hash): Hash {
    UndoRight21(XorLeft35(UndoRight4(h)))
  }

  function Plus(x: Hash, y: Hash): Hash { x + y }
  function Minus(x: Hash, y: Hash): Hash { x - y }

  function Updated(already: Hash, value: Hash): Hash {
    Plus(Mix(already), value)
  }

  /** The mixing step loses nothing: it is a bijection on the 64-bit states. */
  lemma MixIsBijective(h: Hash)
    ensures Unmix(Mix(h)) == h && Mix(Unmix(h)) == h
  {
    hide XorRight21, XorLeft35, XorRight4, UndoRight21, UndoRight4;
    Right21Inverse(h);
    Left35Inverse(XorRight21(h));
    Right4Inverse(XorLeft35(XorRight21(h)));
    Right4InverseBack(h);
    Left35Inverse(UndoRight4(h));
    Right21InverseBack(XorLeft35(UndoRight4(h)));
  }

  function Xor(a: Hash, b: Hash): Hash { a ^ b }

  lemma XorIs(a: Hash, b: Hash)
    ensures Xor(a, b) == a ^ b
  {
  }

  lemma ShiftsAre(h: Hash)
    ensures XorRight21(h) == h ^ (h >> 21)
    ensures XorLeft35(h) == h ^ (h << 35)
    ensures XorRight4(h) == h ^ (h >> 4)
  {
  }

  lemma Right21OfXor(a: Hash, b: Hash)
    ensures XorRight21(a ^ b) == Xor(a ^ (a >> 21), b ^ (b >> 21))
  {
  }

  lemma Left35OfXor(a: Hash, b: Hash)
    ensures XorLeft35(a ^ b) == Xor(a ^ (a << 35), b ^ (b << 35))
  {
  }

  lemma Right4OfXor(a: Hash, b: Hash)
    ensures XorRight4(a ^ b) == Xor(a ^ (a >> 4), b ^ (b >> 4))
  {
  }

  lemma ShiftsAreLinear(a: Hash, b: Hash)
    ensures XorRight21(Xor(a, b)) == Xor(XorRight21(a), XorRight21(b))
    ensures XorLeft35(Xor(a, b)) == Xor(XorLeft35(a), XorLeft35(b))
    ensures XorRight4(Xor(a, b)) == Xor(XorRight4(a), XorRight4(b))
  {
    hide XorRight21, XorLeft35, XorRight4, Xor;
    XorIs(a, b);
    ShiftsAre(a);
    ShiftsAre(b);
    Right21OfXor(a, b);
    Left35OfXor(a, b);
    Right4OfXor(a, b);
  }

  /**
   * Each bit of the state is mixed by itself: the lowest goes on to bits 35 and 31 as well,
   * the highest to bits 59, 42 and 38.
   */
  lemma MixIsLinear(a: Hash, b: Hash)
    ensures Mix(Xor(a, b)) == Xor(Mix(a), Mix(b))
    ensures Mix(1) == 0x8_8000_0001 && Mix(0x8000_0000_0000_0000) == 0x8800_0440_0000_0000
  {
    SingleBits();
    hide XorRight21, XorLeft35, XorRight4, Xor;
    ShiftsAreLinear(a, b);
    ShiftsAreLinear(XorRight21(a), XorRight21(b));
    ShiftsAreLinear(XorLeft35(XorRight21(a)), XorLeft35(XorRight21(b)));
  }

  lemma SingleBits()
    ensures Mix(1) == 0x8_8000_0001 && Mix(0x8000_0000_0000_0000) == 0x8800_0440_0000_0000
  {
  }

  lemma MinusOfSum(x: Hash, y: Hash)
    ensures Minus(x + y, y) == x && Minus(x + y, x) == y
  {
  }

  lemma PlusOfDifference(x: Hash, y: Hash)
    ensures Plus(x - y, y) == x && Plus(x, y - x) == y
  {
  }

  lemma PlusMinus(x: Hash, y: Hash)
    ensures Minus(Plus(x, y), y) == x && Minus(Plus(x, y), x) == y
  {
    hide Minus;
    MinusOfSum(x, y);
  }

  lemma MinusPlus(x: Hash, y: Hash)
    ensures Plus(Minus(x, y), y) == x && Plus(x, Minus(y, x)) == y
  {
    hide Plus;
    PlusOfDifference(x, y);
  }

  /** For a fixed value the step is a bijection on states, for a fixed state one on values. */
  lemma UpdateIsBijective(h: Hash, v: Hash)
    ensures Unmix(Minus(Updated(h, v), v)) == h && Updated(Unmix(Minus(h, v)), v) == h
    ensures Minus(Updated(h, v), Mix(h)) == v && Updated(h, Minus(v, Mix(h))) == v
  {
    hide Mix, Unmix, Plus, Minus;
    PlusMinus(Mix(h), v);
    MinusPlus(h, v);
    MinusPlus(Mix(h), v);
    MixIsBijective(h);
    MixIsBijective(Minus(h, v));
  }

  method HashUpdate(already: Hash, value: Hash) returns (updated: Hash)
    ensures updated == Updated(already, value)
  {
    hide XorRight21, XorLeft35, XorRight4, Plus;
    updated := already;
    updated := XorRight21(updated);
    updated := XorLeft35(updated);
    updated := XorRight4(updated);
    updated := Plus(updated, value);
  }

  // ---- The overloads for narrower and signed integers ----

  function SignExtended(v: bv32): Hash {
    if v & 0x8000_0000 == 0 then v as Hash else (v as Hash) | 0xFFFF_FFFF_0000_0000
  }

  datatype IntValue = UInt64(u64: bv64) | Int64(i64: bv64) | UInt32(u32: bv32) | Int32(i32: bv32) {
    /** The conversion to uint64: zero extension, and sign extension of a 32-bit two's complement value. */
    function Widened(): Hash {
      match this
      case UInt64(v) => v
      case Int64(v) => v
      case UInt32(v) => v as Hash
      case Int32(v) => SignExtended(v)
    }

    predicate SameType(that: IntValue) {
      UInt64? == that.UInt64? && Int64? == that.Int64? && UInt32? == that.UInt32? && Int32? == that.Int32?
    }
  }

  /** Half of the values are negative: they are widened with their distance from 0. */
  lemma SignExtendedIs(v: bv32)
    ensures v < 0x8000_0000 ==> SignExtended(v) == v as Hash
    ensures v >= 0x8000_0000 ==> SignExtended(v) == 0 - (0x1_0000_0000 - (v as Hash))
  {
  }

  function Low32(h: Hash): bv32 {
    (h & 0xFFFF_FFFF) as bv32
  }

  lemma LowHalfOfInt32(v: bv32)
    ensures Low32(SignExtended(v)) == v
  {
    if v & 0x8000_0000 == 0 {
      assert Low32(v as Hash) == v;
    } else {
      assert Low32((v as Hash) | 0xFFFF_FFFF_0000_0000) == v;
    }
  }

  lemma LowHalfOfUInt32(v: bv32)
    ensures Low32(v as Hash) == v
  {
  }

  /** Widening confuses no two values of one integer type. */
  lemma WideningIsInjective(x: IntValue, y: IntValue)
    requires x.SameType(y)
    ensures x.Widened() == y.Widened() <==> x == y
  {
    hide SignExtended, Low32;
    if x.UInt32? {
      LowHalfOfUInt32(x.u32);
      LowHalfOfUInt32(y.u32);
    }
    if x.Int32? {
      LowHalfOfInt32(x.i32);
      LowHalfOfInt32(y.i32);
    }
  }

  // ---- Hashing a list ----

  function HashInit(): Hash { 0 }

  function HashFrom(already: Hash, range: seq<IntValue>): Hash
    decreases |range|
  {
    if range == [] then already else HashFrom(Updated(already, range[0].Widened()), range[1..])
  }

  /** The state before a list, from the state after it. */
  function HashBefore(final: Hash, range: seq<IntValue>): Hash
    decreases |range|
  {
    if range == [] then final
    else Unmix(Minus(HashBefore(final, range[1..]), range[0].Widened()))
  }

  lemma {:induction false} HashFromAppend(already: Hash, p: seq<IntValue>, s: seq<IntValue>)
    ensures HashFrom(already, p + s) == HashFrom(HashFrom(already, p), s)
    decreases |p|
  {
    hide Updated;
    if p == [] {
      assert p + s == s;
    } else {
      assert (p + s)[1..] == p[1..] + s;
      HashFromAppend(Updated(already, p[0].Widened()), p[1..], s);
    }
  }

  /** Hashing a fixed list is a bijection on states: nothing hashed before it is forgotten. */
  lemma {:induction false} ListIsBijective(h: Hash, range: seq<IntValue>)
    ensures HashBefore(HashFrom(h, range), range) == h
    ensures HashFrom(HashBefore(h, range), range) == h
    decreases |range|
  {
    hide Updated, Unmix, Minus;
    if range != [] {
      var v := range[0].Widened();
      ListIsBijective(Updated(h, v), range[1..]);
      UpdateIsBijective(h, v);
      ListIsBijective(h, range[1..]);
      UpdateIsBijective(HashBefore(h, range[1..]), v);
    }
  }

  method CountHash(range: seq<IntValue>) returns (result: Hash)
    ensures result == HashFrom(HashInit(), range)
  {
    hide Updated;
    result := HashInit();
    for i := 0 to |range|
      invariant HashFrom(HashInit(), range) == HashFrom(result, range[i..])
    {
      result := HashUpdate(result, range[i].Widened());
    }
  }

  /** Lists that differ in exactly one place always differ in hash. */
  lemma OnePlaceChangesHash(p: seq<IntValue>, x: IntValue, y: IntValue, s: seq<IntValue>)
    requires x.SameType(y)
    ensures HashFrom(HashInit(), p + [x] + s) == HashFrom(HashInit(), p + [y] + s) <==> x == y
  {
    hide Updated, Minus;
    var h := HashFrom(HashInit(), p);
    OnePlace(p, x, s);
    OnePlace(p, y, s);
    ListIsBijective(Updated(h, x.Widened()), s);
    ListIsBijective(Updated(h, y.Widened()), s);
    UpdateIsBijective(h, x.Widened());
    UpdateIsBijective(h, y.Widened());
    WideningIsInjective(x, y);
  }

  lemma OnePlace(p: seq<IntValue>, x: IntValue, s: seq<IntValue>)
    ensures HashFrom(HashInit(), p + [x] + s) == HashFrom(Updated(HashFrom(HashInit(), p), x.Widened()), s)
  {
    hide Updated;
    HashFromAppend(HashInit(), p + [x], s);
    HashFromAppend(HashInit(), p, [x]);
  }

  /** The indexed form: equal lengths, and one index at which two lists of one type differ. */
  lemma ListsDifferingOnce(a: seq<IntValue>, b: seq<IntValue>, k: nat)
    requires |a| == |b| && k < |a| && a[k] != b[k] && a[k].SameType(b[k])
    requires forall i :: 0 <= i < |a| && i != k ==> a[i] == b[i]
    ensures HashFrom(HashInit(), a) != HashFrom(HashInit(), b)
  {
    var p, s := a[..k], a[k + 1..];
    assert a == p + [a[k]] + s && b == p + [b[k]] + s;
    OnePlaceChangesHash(p, a[k], b[k], s);
  }

  /** With all but one 64-bit value fixed, every hash is reached, by exactly one choice of that value. */
  lemma OnlyOneValueFits(p: seq<IntValue>, s: seq<IntValue>, target: Hash, v: Hash)
    ensures HashFrom(HashInit(), p + [UInt64(v)] + s) == target
       <==> v == Minus(HashBefore(target, s), Mix(HashFrom(HashInit(), p)))
  {
    hide Updated, Minus, Mix;
    var h := HashFrom(HashInit(), p);
    OnePlace(p, UInt64(v), s);
    ListIsBijective(Updated(h, v), s);
    ListIsBijective(target, s);
    UpdateIsBijective(h, v);
    UpdateIsBijective(h, HashBefore(target, s));
  }

  // ---- Sticker set hashes ----

  datatype SetId = SetId(bits: bv64)

  const DEFAULT_SET_ID := SetId(0)

  /** The fields of a sticker set that the hashes read; a set is stored under its own id. */
  datatype StickersSet = StickersSet(hash: Hash, special: bool, archived: bool, unread: bool, stickers: seq<bv64>)

  type StickersSets = map<SetId, StickersSet>

  predicate Counted(sets: StickersSets, id: SetId) {
    id in sets && id != DEFAULT_SET_ID && !sets[id].special && !sets[id].archived
  }

  /** Whether the order holds the default set, which has no hash of its own. */
  predicate Outdated(sets: StickersSets, order: seq<SetId>) {
    DEFAULT_SET_ID in sets && DEFAULT_SET_ID in order
  }

  function CountedHashes(sets: StickersSets, order: seq<SetId>): seq<IntValue> {
    if order == [] then []
    else if Counted(sets, order[0]) then [UInt64(sets[order[0]].hash)] + CountedHashes(sets, order[1..])
    else CountedHashes(sets, order[1..])
  }

  function OrderHash(sets: StickersSets, order: seq<SetId>, checkOutdatedInfo: bool): Hash {
    if checkOutdatedInfo && Outdated(sets, order) then 0 else HashFrom(HashInit(), CountedHashes(sets, order))
  }

  method CountStickersOrderHash(sets: StickersSets, order: seq<SetId>, checkOutdatedInfo: bool) returns (hash: Hash)
    ensures hash == OrderHash(sets, order, checkOutdatedInfo)
  {
    hide Updated;
    var result := HashInit();
    var foundOutdated := false;
    for i := 0 to |order|
      invariant foundOutdated <==> Outdated(sets, order[..i])
      invariant HashFrom(HashInit(), CountedHashes(sets, order)) == HashFrom(result, CountedHashes(sets, order[i..]))
    {
      var id := order[i];
      if id in sets {
        if id == DEFAULT_SET_ID {
          foundOutdated := true;
        } else if !sets[id].special && !sets[id].archived {
          var rest := CountedHashes(sets, order[i + 1..]);
          assert order[i..][1..] == order[i + 1..];
          assert ([UInt64(sets[id].hash)] + rest)[1..] == rest;
          result := HashUpdate(result, sets[id].hash);
        }
      }
      assert order[i..][1..] == order[i + 1..];
    }
    assert order[..|order|] == order;
    hash := if !checkOutdatedInfo || !foundOutdated then result else 0;
  }

  lemma {:induction false} CountedHashesAppend(sets: StickersSets, p: seq<SetId>, s: seq<SetId>)
    ensures CountedHashes(sets, p + s) == CountedHashes(sets, p) + CountedHashes(sets, s)
  {
    if p == [] {
      assert p + s == s;
    } else {
      assert (p + s)[1..] == p[1..] + s;
      CountedHashesAppend(sets, p[1..], s);
    }
  }

  lemma {:induction false} CountedHashesElsewhere(sets: StickersSets, id: SetId, changed: StickersSet,
      order: seq<SetId>)
    requires id !in order
    ensures CountedHashes(sets[id := changed], order) == CountedHashes(sets, order)
  {
    if order != [] {
      assert order[0] in order;
      CountedHashesElsewhere(sets, id, changed, order[1..]);
    }
  }

  lemma CountedAlone(sets: StickersSets, id: SetId)
    requires Counted(sets, id)
    ensures CountedHashes(sets, [id]) == [UInt64(sets[id].hash)]
  {
    assert [id][1..] == [];
  }

  /**
   * Changing the hash of one counted set that stands once in the order always
   * changes the order's hash, unless the outdated set forces the result to 0.
   */
  lemma SetChangeIsNoticed(sets: StickersSets, p: seq<SetId>, id: SetId, s: seq<SetId>, hash: Hash,
      checkOutdatedInfo: bool)
    requires id in sets && id != SetId(0) && !sets[id].special && !sets[id].archived
    requires id !in p && id !in s
    ensures var order := p + [id] + s;
      OrderHash(sets, order, checkOutdatedInfo)
        == OrderHash(sets[id := sets[id].(hash := hash)], order, checkOutdatedInfo)
      <==> hash == sets[id].hash || (checkOutdatedInfo && SetId(0) in sets && SetId(0) in order)
  {
    hide HashFrom;
    var changed := sets[id].(hash := hash);
    var sets' := sets[id := changed];
    CountedAlone(sets, id);
    CountedAlone(sets', id);
    assert Outdated(sets', p + [id] + s) == Outdated(sets, p + [id] + s);
    assert sets'[id].hash == hash;
    CountedHashesAppend(sets, p + [id], s);
    CountedHashesAppend(sets, p, [id]);
    CountedHashesAppend(sets', p + [id], s);
    CountedHashesAppend(sets', p, [id]);
    CountedHashesElsewhere(sets, id, changed, p);
    CountedHashesElsewhere(sets, id, changed, s);
    OnePlaceChangesHash(CountedHashes(sets, p), UInt64(sets[id].hash), UInt64(hash), CountedHashes(sets, s));
  }

  lemma {:induction false} UncountedIsSkipped(sets: StickersSets, id: SetId, changed: StickersSet, order: seq<SetId>)
    requires id in sets && !Counted(sets, id) && !Counted(sets[id := changed], id)
    ensures CountedHashes(sets[id := changed], order) == CountedHashes(sets, order)
  {
    if order != [] {
      UncountedIsSkipped(sets, id, changed, order[1..]);
    }
  }

  /** Whatever else changes of a set that is special, archived or the default one, the hash does not notice. */
  lemma OthersAreNotNoticed(
    sets: StickersSets, id: SetId, changed: StickersSet, order: seq<SetId>, checkOutdatedInfo: bool)
    requires id in sets
    requires id == SetId(0) || ((sets[id].special || sets[id].archived) && (changed.special || changed.archived))
    ensures OrderHash(sets[id := changed], order, checkOutdatedInfo) == OrderHash(sets, order, checkOutdatedInfo)
  {
    UncountedIsSkipped(sets, id, changed, order);
    hide HashFrom, CountedHashes;
  }

  /** A hash of 0 asks for everything, which it does if outdated information is asked for and found. */
  lemma OutdatedAsksForAll(sets: StickersSets, order: seq<SetId>)
    ensures SetId(0) in sets && SetId(0) in order ==> OrderHash(sets, order, true) == 0
    ensures SetId(0) !in sets || SetId(0) !in order ==> OrderHash(sets, order, true) == OrderHash(sets, order, false)
  {
  }

  function FeaturedValues(sets: StickersSets, order: seq<SetId>): seq<IntValue> {
    if order == [] then []
    else
      [UInt64(order[0].bits)] + (if IsUnread(sets, order[0]) then [Int32(1)] else [])
      + FeaturedValues(sets, order[1..])
  }

  predicate IsUnread(sets: StickersSets, id: SetId) {
    id in sets && sets[id].unread
  }

  method CountFeaturedHash(sets: StickersSets, order: seq<SetId>) returns (hash: Hash)
    ensures hash == HashFrom(HashInit(), FeaturedValues(sets, order))
  {
    hide Updated;
    hash := HashInit();
    for i := 0 to |order|
      invariant HashFrom(HashInit(), FeaturedValues(sets, order)) == HashFrom(hash, FeaturedValues(sets, order[i..]))
    {
      var id := order[i];
      assert order[i..][1..] == order[i + 1..];
      ghost var rest := FeaturedValues(sets, order[i + 1..]);
      HashFromAppend(hash, [UInt64(id.bits)] + (if IsUnread(sets, id) then [Int32(1)] else []), rest);
      HashFromAppend(hash, [UInt64(id.bits)], if IsUnread(sets, id) then [Int32(1)] else []);
      hash := HashUpdate(hash, id.bits);
      if IsUnread(sets, id) {
        hash := HashUpdate(hash, Int32(1).Widened());
      }
    }
  }

  lemma {:induction false} FeaturedValuesAppend(sets: StickersSets, p: seq<SetId>, s: seq<SetId>)
    ensures FeaturedValues(sets, p + s) == FeaturedValues(sets, p) + FeaturedValues(sets, s)
  {
    if p == [] {
      assert p + s == s;
    } else {
      assert (p + s)[1..] == p[1..] + s;
      FeaturedValuesAppend(sets, p[1..], s);
    }
  }

  /** Putting another set in one place of the featured order is noticed whenever both are read or both unread. */
  lemma FeaturedReplacementIsNoticed(sets: StickersSets, p: seq<SetId>, a: SetId, b: SetId, s: seq<SetId>)
    requires IsUnread(sets, a) <==> IsUnread(sets, b)
    ensures
      HashFrom(HashInit(), FeaturedValues(sets, p + [a] + s)) == HashFrom(HashInit(), FeaturedValues(sets, p + [b] + s))
      <==> a == b
  {
    hide HashFrom;
    FeaturedAround(sets, p, a, s);
    FeaturedAround(sets, p, b, s);
    var mark: seq<IntValue> := if IsUnread(sets, a) then [Int32(1)] else [];
    OnePlaceChangesHash(FeaturedValues(sets, p), UInt64(a.bits), UInt64(b.bits), mark + FeaturedValues(sets, s));
  }

  lemma FeaturedAround(sets: StickersSets, p: seq<SetId>, id: SetId, s: seq<SetId>)
    ensures FeaturedValues(sets, p + [id] + s)
         == FeaturedValues(sets, p) + [UInt64(id.bits)]
           + ((if IsUnread(sets, id) then [Int32(1)] else []) + FeaturedValues(sets, s))
  {
    FeaturedValuesAppend(sets, p + [id], s);
    FeaturedValuesAppend(sets, p, [id]);
  }

  function Documents(ids: seq<bv64>): seq<IntValue> {
    seq(|ids|, i requires 0 <= i < |ids| => UInt64(ids[i]))
  }

  method CountDocumentVectorHash(ids: seq<bv64>) returns (hash: Hash)
    ensures hash == HashFrom(HashInit(), Documents(ids))
  {
    hide Updated;
    hash := HashInit();
    for i := 0 to |ids|
      invariant HashFrom(HashInit(), Documents(ids)) == HashFrom(hash, Documents(ids)[i..])
    {
      hash := HashUpdate(hash, ids[i]);
    }
  }
}

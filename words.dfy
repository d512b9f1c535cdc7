/** Facts about 64-bit masks that hold whatever the masks stand for. */
module BitMasks {

  /** The `u64` inside the engine's `Bitboard` wrapper (chess_engine/src/board.rs):
      one bit per square. */
  type Word = bv64

  /** `x` and `m` share a bit. */
  predicate Meets(x: Word, m: Word)
  {
    x & m != 0
  }

  /** `m` has exactly one bit set. */
  predicate OneHot(m: Word)
  {
    m != 0 && m & (m - 1) == 0
  }

  lemma OneHotPart(x: Word, m: Word)
    requires OneHot(m)
    ensures x & m == 0 || x & m == m
  {}

  lemma MeetsOr(a: Word, b: Word, m: Word)
    ensures Meets(a | b, m) <==> Meets(a, m) || Meets(b, m)
  {
    assert (a | b) & m == (a & m) | (b & m);
  }

  lemma MeetsAnd(a: Word, b: Word, m: Word)
    requires OneHot(m)
    ensures Meets(a & b, m) <==> Meets(a, m) && Meets(b, m)
  {
    assert (a & b) & m == (a & m) & (b & m);
    OneHotPart(a, m);
    OneHotPart(b, m);
  }

  lemma MeetsXor(a: Word, b: Word, m: Word)
    requires OneHot(m)
    ensures Meets(a ^ b, m) <==> Meets(a, m) != Meets(b, m)
  {
    assert (a ^ b) & m == (a & m) ^ (b & m);
    OneHotPart(a, m);
    OneHotPart(b, m);
  }

  lemma MeetsNot(a: Word, m: Word)
    requires OneHot(m)
    ensures Meets(!a, m) <==> !Meets(a, m)
  {
    OneHotPart(a, m);
  }

  lemma OrAssoc(a: Word, b: Word, c: Word)
    ensures (a | b) | c == a | (b | c)
  {}

  lemma ShiftAnd(x: Word, y: Word)
    ensures (x << 1) & (y << 1) == (x & y) << 1
  {}

  lemma ShiftClearsLow(x: Word)
    ensures (x << 1) & 1 == 0
  {}

  lemma ShiftOneHot(x: Word)
    requires OneHot(x) && x << 1 != 0
    ensures OneHot(x << 1)
  {}

  lemma MaskGrow(x: Word)
    requires OneHot(x) && x << 1 != 0
    ensures (x - 1) | x == (x << 1) - 1
  {}
}

/** The `u64` words behind the engine's bitboards.  The Rust operators `|`, `&`,
    `^` and `!` on the wrapper (chess_engine/src/board.rs) are the bit-vector
    operators of `bv64`; this module gives each its meaning as a set of squares
    (`Elems`), and models the three bit-scanning intrinsics the engine calls
    (`count_ones`, `trailing_zeros`, `leading_zeros`).  The rest of the model works
    on those sets directly. */
module Words {
  import opened BitMasks

  /** `1 << i`, built by doubling so that proofs never convert `i` to a bit-vector. */
  function Bit(i: nat): Word
    requires i < 64
  {
    if i == 0 then 1 else Bit(i - 1) << 1
  }

  /** The membership test the engine writes as `b & (1 << i) != 0`. */
  predicate Has(b: Word, i: nat)
    requires i < 64
  {
    Meets(b, Bit(i))
  }

  /** The set of squares a word holds. */
  ghost function Elems(b: Word): set<nat>
  {
    set i: nat | i < 64 && Has(b, i)
  }

  // ---------------------------------------------------------------------------
  // Single bits

  /** A few values of `Bit`, computed by unfolding its definition four steps at a time. */
  lemma BitAnchors()
    ensures Bit(8) == 0x100 && Bit(16) == 0x1_0000 && Bit(48) == 0x1_0000_0000_0000
    ensures Bit(63) == 0x8000_0000_0000_0000
  {
    assert Bit(4) == 0x10;
    assert Bit(8) == 0x100;
    assert Bit(12) == 0x1000;
    assert Bit(16) == 0x1_0000;
    assert Bit(20) == 0x10_0000;
    assert Bit(24) == 0x100_0000;
    assert Bit(28) == 0x1000_0000;
    assert Bit(32) == 0x1_0000_0000;
    assert Bit(36) == 0x10_0000_0000;
    assert Bit(40) == 0x100_0000_0000;
    assert Bit(44) == 0x1000_0000_0000;
    assert Bit(48) == 0x1_0000_0000_0000;
    assert Bit(52) == 0x10_0000_0000_0000;
    assert Bit(56) == 0x100_0000_0000_0000;
    assert Bit(60) == 0x1000_0000_0000_0000;
  }

  /** Different squares have disjoint bits. */
  lemma {:induction false} BitsDisjoint(i: nat, j: nat)
    requires i < j < 64
    ensures Bit(i) & Bit(j) == 0
  {
    if i == 0 {
      ShiftClearsLow(Bit(j - 1));
    } else {
      BitsDisjoint(i - 1, j - 1);
      ShiftAnd(Bit(i - 1), Bit(j - 1));
    }
  }

  lemma {:induction false} ZeroStays(i: nat, j: nat)
    requires i <= j < 64 && Bit(i) == 0
    ensures Bit(j) == 0
  {
    if i < j {
      ZeroStays(i, j - 1);
    }
  }

  lemma BitNonZero(i: nat)
    requires i < 64
    ensures Bit(i) != 0
  {
    BitAnchors();
    if Bit(i) == 0 {
      ZeroStays(i, 63);
    }
  }

  /** `Bit(i)` has exactly one bit set. */
  lemma {:induction false} BitOneHot(i: nat)
    requires i < 64
    ensures OneHot(Bit(i))
  {
    BitNonZero(i);
    if i > 0 {
      BitOneHot(i - 1);
      ShiftOneHot(Bit(i - 1));
    }
  }

  // ---------------------------------------------------------------------------
  // The operators, bit by bit

  lemma HasOr(a: Word, b: Word, i: nat)
    requires i < 64
    ensures Has(a | b, i) <==> Has(a, i) || Has(b, i)
  {
    MeetsOr(a, b, Bit(i));
  }

  lemma HasAnd(a: Word, b: Word, i: nat)
    requires i < 64
    ensures Has(a & b, i) <==> Has(a, i) && Has(b, i)
  {
    BitOneHot(i);
    MeetsAnd(a, b, Bit(i));
  }

  lemma HasXor(a: Word, b: Word, i: nat)
    requires i < 64
    ensures Has(a ^ b, i) <==> (Has(a, i) && !Has(b, i)) || (!Has(a, i) && Has(b, i))
  {
    BitOneHot(i);
    MeetsXor(a, b, Bit(i));
  }

  lemma HasNot(a: Word, i: nat)
    requires i < 64
    ensures Has(!a, i) <==> !Has(a, i)
  {
    BitOneHot(i);
    MeetsNot(a, Bit(i));
  }

  lemma HasBit(i: nat, j: nat)
    requires i < 64 && j < 64
    ensures Has(Bit(i), j) <==> i == j
  {
    if i < j {
      BitsDisjoint(i, j);
    } else if j < i {
      BitsDisjoint(j, i);
    } else {
      BitNonZero(i);
    }
  }

  /** The bit-level facts above, for every square at once. */
  lemma HasOps()
    ensures forall a: Word, b: Word, i: nat {:trigger Has(a | b, i)} :: i < 64 ==> (Has(a | b, i) <==> Has(a, i) || Has(b, i))
    ensures forall a: Word, b: Word, i: nat {:trigger Has(a & b, i)} :: i < 64 ==> (Has(a & b, i) <==> Has(a, i) && Has(b, i))
    ensures forall a: Word, b: Word, i: nat {:trigger Has(a ^ b, i)} :: i < 64 ==> (Has(a ^ b, i) <==> (Has(a, i) && !Has(b, i)) || (!Has(a, i) && Has(b, i)))
    ensures forall a: Word, i: nat {:trigger Has(!a, i)} :: i < 64 ==> (Has(!a, i) <==> !Has(a, i))
    ensures forall j: nat, i: nat {:trigger Has(Bit(j), i)} :: i < 64 && j < 64 ==> (Has(Bit(j), i) <==> i == j)
    ensures forall i: nat {:trigger Has(0, i)} :: i < 64 ==> !Has(0, i)
  {
    forall a: Word, b: Word, i: nat | i < 64
      ensures Has(a | b, i) <==> Has(a, i) || Has(b, i)
      ensures Has(a & b, i) <==> Has(a, i) && Has(b, i)
      ensures Has(a ^ b, i) <==> (Has(a, i) && !Has(b, i)) || (!Has(a, i) && Has(b, i))
    {
      HasOr(a, b, i);
      HasAnd(a, b, i);
      HasXor(a, b, i);
    }
    forall a: Word, i: nat | i < 64
      ensures Has(!a, i) <==> !Has(a, i)
    {
      HasNot(a, i);
    }
    forall j: nat, i: nat | i < 64 && j < 64
      ensures Has(Bit(j), i) <==> i == j
    {
      HasBit(j, i);
    }
  }

  // ---------------------------------------------------------------------------
  // The operators as set operations (board.rs:398-446)

  lemma ElemsOr(a: Word, b: Word)
    ensures Elems(a | b) == Elems(a) + Elems(b)
  {
    HasOps();
  }

  lemma ElemsAnd(a: Word, b: Word)
    ensures Elems(a & b) == Elems(a) * Elems(b)
  {
    HasOps();
  }

  lemma ElemsXor(a: Word, b: Word)
    ensures Elems(a ^ b) == (Elems(a) - Elems(b)) + (Elems(b) - Elems(a))
  {
    HasOps();
  }

  lemma ElemsNot(a: Word)
    ensures forall i: nat :: i < 64 ==> (i in Elems(!a) <==> i !in Elems(a))
  {
    HasOps();
  }

  lemma ElemsBit(i: nat)
    requires i < 64
    ensures Elems(Bit(i)) == {i}
  {
    HasOps();
  }

  // ---------------------------------------------------------------------------
  // Masks of the low squares; a bitboard is zero exactly when it holds no square

  /** The squares below `k`: `(1 << k) - 1`. */
  function LowMask(k: nat): Word
    requires k <= 64
  {
    if k == 0 then 0 else LowMask(k - 1) | Bit(k - 1)
  }

  lemma {:induction false} HasLowMask(k: nat, i: nat)
    requires k <= 64 && i < 64
    ensures Has(LowMask(k), i) <==> i < k
  {
    if k > 0 {
      var below, top := LowMask(k - 1), Bit(k - 1);
      assert LowMask(k) == below | top;
      HasLowMask(k - 1, i);
      HasOr(below, top, i);
      HasBit(k - 1, i);
    }
  }

  lemma {:induction false} LowMaskBelowBit(k: nat)
    requires k < 64
    ensures LowMask(k) == Bit(k) - 1
  {
    if k > 0 {
      LowMaskBelowBit(k - 1);
      BitOneHot(k - 1);
      BitNonZero(k);
      MaskGrow(Bit(k - 1));
    }
  }

  lemma LowMaskValues(k: nat)
    requires k == 64
    ensures LowMask(8) == 0xFF && LowMask(16) == 0xFFFF && LowMask(48) == 0xFFFF_FFFF_FFFF
    ensures LowMask(k) == 0xFFFF_FFFF_FFFF_FFFF
  {
    BitAnchors();
    LowMaskBelowBit(8);
    LowMaskBelowBit(16);
    LowMaskBelowBit(48);
    LowMaskBelowBit(63);
  }

  lemma {:induction false} LowBitsClear(b: Word, k: nat)
    requires k <= 64
    requires forall i: nat :: i < k ==> !Has(b, i)
    ensures b & LowMask(k) == 0
  {
    if k > 0 {
      LowBitsClear(b, k - 1);
      assert !Has(b, k - 1);
    }
  }

  lemma NoBitsBelow(b: Word, k: nat)
    requires k == 64
    requires forall i: nat :: i < k ==> !Has(b, i)
    ensures b == 0
  {
    LowBitsClear(b, k);
    LowMaskValues(k);
  }

  lemma ZeroIffNoElems(b: Word)
    ensures b == 0 <==> Elems(b) == {}
  {
    if Elems(b) == {} {
      forall i: nat | i < 64 ensures !Has(b, i) {
        assert i !in Elems(b);
      }
      NoBitsBelow(b, 64);
    }
  }

  /** A non-zero bitboard holds some square. */
  lemma NonZeroHasSquare(b: Word)
    requires b != 0
    ensures exists i: nat :: i < 64 && Has(b, i)
  {
    ZeroIffNoElems(b);
    var i :| i in Elems(b);
  }

  // ---------------------------------------------------------------------------
  // count_ones

  function CountBelow(b: Word, n: nat): nat
    requires n <= 64
  {
    if n == 0 then 0 else CountBelow(b, n - 1) + (if Has(b, n - 1) then 1 else 0)
  }

  /** `u64::count_ones`. */
  function CountOnes(b: Word): nat
  {
    CountBelow(b, 64)
  }

  ghost function ElemsBelow(b: Word, n: nat): set<nat>
  {
    set i: nat | i < n && i < 64 && Has(b, i)
  }

  lemma {:induction false} CountBelowIsSize(b: Word, n: nat)
    requires n <= 64
    ensures CountBelow(b, n) == |ElemsBelow(b, n)|
  {
    if n > 0 {
      CountBelowIsSize(b, n - 1);
      if Has(b, n - 1) {
        assert ElemsBelow(b, n) == ElemsBelow(b, n - 1) + {n - 1};
      } else {
        assert ElemsBelow(b, n) == ElemsBelow(b, n - 1);
      }
    } else {
      assert ElemsBelow(b, n) == {};
    }
  }

  /** `count_ones` is the number of squares the bitboard holds. */
  lemma CountOnesIsSize(b: Word)
    ensures CountOnes(b) == |Elems(b)|
  {
    CountBelowIsSize(b, 64);
    assert ElemsBelow(b, 64) == Elems(b);
  }

  // ---------------------------------------------------------------------------
  // trailing_zeros and leading_zeros

  function LowestFrom(b: Word, k: nat): (r: nat)
    requires k <= 64
    ensures k <= r <= 64
    decreases 64 - k
  {
    if k == 64 then 64 else if Has(b, k) then k else LowestFrom(b, k + 1)
  }

  /** `u64::trailing_zeros`: 64 for zero, otherwise the lowest square held. */
  function TrailingZeros(b: Word): nat
  {
    LowestFrom(b, 0)
  }

  lemma {:induction false} LowestFromIsLowest(b: Word, k: nat)
    requires k <= 64
    ensures LowestFrom(b, k) < 64 ==> Has(b, LowestFrom(b, k))
    ensures forall j: nat :: k <= j < LowestFrom(b, k) && j < 64 ==> !Has(b, j)
    decreases 64 - k
  {
    if k < 64 && !Has(b, k) {
      LowestFromIsLowest(b, k + 1);
    }
  }

  /** On a non-zero bitboard both scans name a square of the board. */
  lemma ScansInRange(b: Word)
    requires b != 0
    ensures TrailingZeros(b) < 64 && LeadingZeros(b) < 64
  {
    TrailingZerosIsMin(b);
    LeadingZerosIsMax(b);
  }

  /** For a non-zero bitboard, `trailing_zeros` is the smallest square it holds. */
  lemma TrailingZerosIsMin(b: Word)
    requires b != 0
    ensures TrailingZeros(b) < 64 && TrailingZeros(b) in Elems(b)
    ensures forall j :: j in Elems(b) ==> TrailingZeros(b) <= j
  {
    LowestFromIsLowest(b, 0);
    var t := LowestFrom(b, 0);
    if t == 64 {
      NoBitsBelow(b, 64);
    }
    assert t in Elems(b);
  }

  function HighestBelow(b: Word, k: nat): (r: int)
    requires k <= 64
    ensures -1 <= r < k
  {
    if k == 0 then -1 else if Has(b, k - 1) then k - 1 else HighestBelow(b, k - 1)
  }

  /** `u64::leading_zeros`: 64 for zero, otherwise 63 minus the highest square held. */
  function LeadingZeros(b: Word): nat
  {
    63 - HighestBelow(b, 64)
  }

  lemma {:induction false} HighestBelowIsHighest(b: Word, k: nat)
    requires k <= 64
    ensures HighestBelow(b, k) >= 0 ==> Has(b, HighestBelow(b, k))
    ensures forall j: nat :: HighestBelow(b, k) < j < k ==> !Has(b, j)
  {
    if k > 0 && !Has(b, k - 1) {
      HighestBelowIsHighest(b, k - 1);
    }
  }

  /** For a non-zero bitboard, `63 - leading_zeros` is the largest square it holds. */
  lemma LeadingZerosIsMax(b: Word)
    requires b != 0
    ensures LeadingZeros(b) < 64 && 63 - LeadingZeros(b) in Elems(b)
    ensures forall j :: j in Elems(b) ==> j <= 63 - LeadingZeros(b)
  {
    HighestBelowIsHighest(b, 64);
    var h := HighestBelow(b, 64);
    if h < 0 {
      NoBitsBelow(b, 64);
    }
    assert h in Elems(b);
  }
}

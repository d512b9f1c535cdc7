/** The engine's `Bitboard(u64)` (chess_engine/src/board.rs:376-446), seen as the
    set of squares whose bit is set.  Module Words proves, operator by operator,
    that the `u64` operations the engine performs compute the set operations
    used here; everything above this module works on the sets. */
module Bitboards {
  import opened BitMasks
  import W = Words

  /** A bitboard: a set of squares, all below 64, the width of `u64`. */
  type Bitboard = b: set<nat> | forall x | x in b :: x < 64

  /** The squares of a `u64` word. */
  ghost function View(w: Word): Bitboard
  {
    W.Elems(w)
  }

  /** `Bitboard(0)`. */
  const Empty: Bitboard := {}

  /** Every square: the complement of `Bitboard(0)`. */
  const Full: Bitboard := set x: nat | x < 64

  /** `a ^ b`. */
  function Xor(a: Bitboard, b: Bitboard): Bitboard
  {
    (a - b) + (b - a)
  }

  /** `^` is associative. */
  lemma XorAssoc(a: Bitboard, b: Bitboard, c: Bitboard)
    ensures Xor(Xor(a, b), c) == Xor(a, Xor(b, c))
  {
  }

  /** `0` is the identity of `^`. */
  lemma XorEmpty(a: Bitboard)
    ensures Xor(a, Empty) == a && Xor(Empty, a) == a
  {
  }

  /** `!a`. */
  function Not(a: Bitboard): Bitboard
  {
    Full - a
  }

  /** A bitboard is the same thing as its word: two words with the same squares are
      the same word. */
  lemma ViewInjective(a: Word, b: Word)
    ensures View(a) == View(b) <==> a == b
  {
    if a != b {
      W.NonZeroHasSquare(a ^ b);
      var i: nat :| i < 64 && W.Has(a ^ b, i);
      W.HasXor(a, b, i);
      assert i in View(a) <==> i !in View(b);
    }
  }

  /** `1 << i` holds the one square `i`, and `0` holds none. */
  lemma ConstantsAgree(i: nat)
    requires i < 64
    ensures View(W.Bit(i)) == {i}
    ensures View(0) == {}
  {
    W.ElemsBit(i);
    W.ZeroIffNoElems(0);
  }

  /** The word `255`, the full rank `Board::new` shifts into place, holds the
      squares 0 to 7. */
  lemma LowRank()
    ensures View(0xFF) == Range(0, 8)
  {
    W.LowMaskValues(64);
    forall i: nat | i < 64
      ensures W.Has(0xFF, i) <==> i < 8
    {
      W.HasLowMask(8, i);
    }
  }

  // ---------------------------------------------------------------------------
  // The bit-scanning intrinsics, on sets

  /** The lowest square of `b` from `k` on, 64 when there is none. */
  function ScanUp(b: Bitboard, k: nat): (r: nat)
    requires k <= 64
    ensures k <= r <= 64
    ensures r < 64 ==> r in b
    ensures forall x :: x in b && k <= x ==> r <= x
    decreases 64 - k
  {
    if k == 64 then 64 else if k in b then k else ScanUp(b, k + 1)
  }

  /** The highest square of `b` below `k`, -1 when there is none. */
  function ScanDown(b: Bitboard, k: nat): (r: int)
    requires k <= 64
    ensures -1 <= r < k
    ensures r >= 0 ==> r in b
    ensures forall x :: x in b && x < k ==> x <= r
  {
    if k == 0 then -1 else if k - 1 in b then k - 1 else ScanDown(b, k - 1)
  }

  /** `u64::trailing_zeros`: the lowest square held, 64 for the empty board. */
  function TrailingZeros(b: Bitboard): (r: nat)
    ensures r <= 64 && (r == 64 <==> b == {})
    ensures b != {} ==> r in b && forall x :: x in b ==> r <= x
  {
    ScanUp(b, 0)
  }

  /** `u64::leading_zeros`: 63 minus the highest square held, 64 for the empty
      board. */
  function LeadingZeros(b: Bitboard): (r: nat)
    ensures r <= 64 && (r == 64 <==> b == {})
    ensures b != {} ==> 63 - r in b && forall x :: x in b ==> x <= 63 - r
  {
    63 - ScanDown(b, 64)
  }

  /** The intrinsics on a word give what they give on its squares. */
  lemma ScansAgree(w: Word)
    requires w != 0
    ensures W.TrailingZeros(w) == TrailingZeros(View(w))
    ensures W.LeadingZeros(w) == LeadingZeros(View(w))
    ensures W.CountOnes(w) == |View(w)|
  {
    W.TrailingZerosIsMin(w);
    W.LeadingZerosIsMax(w);
    W.CountOnesIsSize(w);
    W.ZeroIffNoElems(w);
  }

  // ---------------------------------------------------------------------------
  // Shifted masks

  /** The squares `lo .. hi - 1`: a run of set bits such as `255 << 8`. */
  function Range(lo: nat, hi: nat): (r: Bitboard)
    requires hi <= 64
    ensures forall x :: x in r <==> lo <= x < hi
  {
    set x | x in Full && lo <= x < hi
  }

  /** A run of squares has as many squares as its length. */
  lemma {:induction false} RangeSize(lo: nat, hi: nat)
    requires lo <= hi <= 64
    ensures |Range(lo, hi)| == hi - lo
    decreases hi - lo
  {
    if lo < hi {
      RangeSize(lo + 1, hi);
      assert Range(lo, hi) == {lo} + Range(lo + 1, hi);
    } else {
      assert Range(lo, hi) == {};
    }
  }

  /** `b << k` for a mask whose squares all stay on the board. */
  function Shift(b: Bitboard, k: nat): (r: Bitboard)
    requires forall x :: x in b ==> x + k < 64
    ensures forall x :: x in r <==> x >= k && x - k in b
  {
    set x | x in b :: x + k
  }

  /** A shifted run of squares is the run moved up by the shift. */
  lemma ShiftRange(lo: nat, hi: nat, k: nat)
    requires lo <= hi && hi + k <= 64
    ensures Shift(Range(lo, hi), k) == Range(lo + k, hi + k)
  {
    forall x | x in Range(lo + k, hi + k)
      ensures x in Shift(Range(lo, hi), k)
    {
      assert x - k in Range(lo, hi);
    }
  }
}

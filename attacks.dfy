/** The geometry of the rays of chess_engine/src/attacks.rs, on plain square
    numbers: which squares a ray reaches, and in what order. */
module RayGeometry {
  import opened Bitboards

  function Abs(x: int): nat
  {
    if x < 0 then -x else x
  }

  /** One step of `init_rays`' inner loop from `sqr` by `d` is taken.  The source
      compares `sqr & 7` with `next & 7` on `i8`; for every `i8` value that is
      Dafny's Euclidean `% 8`. */
  predicate StepOk(sqr: int, d: int)
  {
    var next := sqr + d;
    !(next >= 64 || next <= 0 || Abs(sqr % 8 - next % 8) > 1)
  }

  /** The squares reached by stepping `d` from `s` until a step is refused.  Every
      one lies strictly beyond `s` in the ray's direction, and none is square 0. */
  function RaySet(d: int, s: nat): (r: Bitboard)
    requires d != 0 && s < 64
    ensures forall x :: x in r ==> 1 <= x && (d > 0 ==> x > s) && (d < 0 ==> x < s)
    decreases if d > 0 then 64 - s else s
  {
    if !StepOk(s, d) then {} else {s + d} + RaySet(d, s + d)
  }

  /** `x` comes no later than `y` along a ray of step `d`. */
  predicate NotBeyond(d: int, x: int, y: int)
  {
    if d > 0 then x <= y else x >= y
  }

  /** No ray wraps round the board: each square on it is one step, changing the
      column by at most one, from the start or from an earlier square of the ray. */
  lemma {:induction false} RayNoWrap(d: int, s: nat)
    requires d != 0 && s < 64
    ensures forall x :: x in RaySet(d, s) ==> StepOk(x - d, d) && (x - d == s || x - d in RaySet(d, s))
    decreases if d > 0 then 64 - s else s
  {
    if StepOk(s, d) {
      RayNoWrap(d, s + d);
    }
  }

  /** The ray from a square `b` of the ray from `s` is the part of the ray from `s`
      beyond `b`. */
  lemma {:induction false} RayTail(d: int, s: nat, b: nat)
    requires d != 0 && s < 64 && b in RaySet(d, s)
    ensures forall x :: x in RaySet(d, b) <==> x in RaySet(d, s) && x != b && NotBeyond(d, b, x)
    decreases if d > 0 then 64 - s else s
  {
    var n := s + d;
    if b != n {
      RayTail(d, n, b);
    }
  }

  /** `RAYS`: the step of each ray, as an index delta. */
  const Rays: seq<int> := [1, -1, 7, -7, 8, -8, 9, -9]
  /** `ROOK_RAY_INDEX` and `BISHOP_RAY_INDEX`: which rays each slider uses. */
  const RookRayIndex: seq<nat> := [0, 1, 4, 5]
  const BishopRayIndex: seq<nat> := [2, 3, 6, 7]

  /** The rook moves along the rays of step 1 and 8, the bishop along those of step
      7 and 9, each in both directions. */
  lemma RayIndexSteps()
    ensures forall k :: 0 <= k < 4 ==> Abs(Rays[RookRayIndex[k]]) in {1, 8}
    ensures forall k :: 0 <= k < 4 ==> Abs(Rays[BishopRayIndex[k]]) in {7, 9}
    ensures forall i :: 0 <= i < 8 ==> (i in RookRayIndex <==> i !in BishopRayIndex)
  {
  }

  /** The squares a slider on `s` sees along the ray of step `d` when `occ` is
      occupied: those of the ray that lie no further than any occupied square of it. */
  ghost function Seen(d: int, s: nat, occ: set<nat>): set<nat>
    requires d != 0 && s < 64
  {
    set x | x in RaySet(d, s) && forall y :: y in RaySet(d, s) && y in occ ==> NotBeyond(d, x, y)
  }

  /** With nothing on the ray occupied the slider sees all of it. */
  lemma SeenUnblocked(d: int, s: nat, occ: set<nat>)
    requires d != 0 && s < 64 && occ * RaySet(d, s) == {}
    ensures Seen(d, s, occ) == RaySet(d, s)
  {
    forall x | x in RaySet(d, s)
      ensures x in Seen(d, s, occ)
    {
      assert forall y :: y in RaySet(d, s) && y in occ ==> y in occ * RaySet(d, s);
    }
  }

  /** With `b` the nearest of the occupied squares of the ray, the slider sees the
      ray up to and including `b`: the ray minus the ray that starts at `b`, which
      is also the ray XOR the ray from `b`. */
  lemma SeenBlocked(d: int, s: nat, occ: set<nat>, b: nat)
    requires d != 0 && s < 64 && b in occ * RaySet(d, s)
    requires forall y :: y in occ * RaySet(d, s) ==> NotBeyond(d, b, y)
    ensures b < 64
    ensures Seen(d, s, occ) == Xor(RaySet(d, s), RaySet(d, b))
  {
    RayTail(d, s, b);
    forall x | x in Seen(d, s, occ)
      ensures x !in RaySet(d, b)
    {
      assert NotBeyond(d, x, b);
    }
    forall x | x in RaySet(d, s) - RaySet(d, b)
      ensures x in Seen(d, s, occ)
    {
      forall y | y in RaySet(d, s) && y in occ
        ensures NotBeyond(d, x, y)
      {
        assert y in occ * RaySet(d, s);
      }
    }
    assert RaySet(d, b) - RaySet(d, s) == {};
  }

  /** The squares seen along the rays with the given indices into `Rays`. */
  ghost function SeenAll(s: nat, occ: set<nat>, rayIndices: seq<nat>): set<nat>
    requires s < 64 && forall k :: 0 <= k < |rayIndices| ==> rayIndices[k] < 8
  {
    if rayIndices == [] then {}
    else
      var n := |rayIndices| - 1;
      SeenAll(s, occ, rayIndices[..n]) + Seen(Rays[rayIndices[n]], s, occ)
  }

  /** A square is in `SeenAll` exactly when it is seen along one of the rays. */
  lemma {:induction false} SeenAllMembers(s: nat, occ: set<nat>, rayIndices: seq<nat>, x: nat)
    requires s < 64 && forall k :: 0 <= k < |rayIndices| ==> rayIndices[k] < 8
    ensures x in SeenAll(s, occ, rayIndices) <==>
      exists k :: 0 <= k < |rayIndices| && x in Seen(Rays[rayIndices[k]], s, occ)
  {
    if rayIndices != [] {
      var n := |rayIndices| - 1;
      SeenAllMembers(s, occ, rayIndices[..n], x);
      assert forall k :: 0 <= k < n ==> rayIndices[..n][k] == rayIndices[k];
    }
  }

  /** The rook's and the bishop's rays together are all eight rays. */
  lemma SlidersCoverAllRays(s: nat, occ: set<nat>, x: nat)
    requires s < 64
    ensures x in SeenAll(s, occ, RookRayIndex) + SeenAll(s, occ, BishopRayIndex) <==>
      exists i :: 0 <= i < 8 && x in Seen(Rays[i], s, occ)
  {
    SeenAllMembers(s, occ, RookRayIndex, x);
    SeenAllMembers(s, occ, BishopRayIndex, x);
    if i :| 0 <= i < 8 && x in Seen(Rays[i], s, occ) {
      if i == 0 || i == 1 {
        assert Rays[RookRayIndex[i]] == Rays[i];
      } else if i == 4 || i == 5 {
        assert Rays[RookRayIndex[i - 2]] == Rays[i];
      } else if i == 2 || i == 3 {
        assert Rays[BishopRayIndex[i - 2]] == Rays[i];
      } else {
        assert Rays[BishopRayIndex[i - 4]] == Rays[i];
      }
    }
  }

  /** The squares `square + delta` that fall in 0..63, one per delta, in the order
      `step_attacks` adds them. */
  function Targets(square: nat, deltas: seq<int>): Bitboard
  {
    if deltas == [] then {}
    else
      var n := |deltas| - 1;
      var next := square + deltas[n];
      Targets(square, deltas[..n]) + (if 0 <= next < 64 then {next} else {})
  }

  /** A square is a target exactly when some delta leads to it from `square`. */
  lemma {:induction false} TargetsMembers(square: nat, deltas: seq<int>)
    ensures forall x: nat :: x in Targets(square, deltas) <==>
      x < 64 && exists k :: 0 <= k < |deltas| && deltas[k] == x - square
  {
    if deltas != [] {
      var n := |deltas| - 1;
      TargetsMembers(square, deltas[..n]);
      assert forall k :: 0 <= k < n ==> deltas[..n][k] == deltas[k];
    }
  }

  /** There are at most as many targets as deltas. */
  lemma {:induction false} TargetsSize(square: nat, deltas: seq<int>)
    ensures |Targets(square, deltas)| <= |deltas|
  {
    if deltas != [] {
      TargetsSize(square, deltas[..|deltas| - 1]);
    }
  }
}

/** Attack tables and attack generators (chess_engine/src/attacks.rs).

    `RAY_ATTACKS[i][j]` is the set of squares reached from square `j` by repeating
    the step `RAYS[i]`; a step is refused when it leaves 1..63 or changes the
    column by more than one.  `sliding_attacks` is the classical ray generator:
    a ray is cut after its nearest occupied square.  `step_attacks` adds fixed
    offsets with no edge check at all. */
module Attacks {
  import opened Bitboards
  import opened RayGeometry

  /** `RAY_ATTACKS[i][j]`, the static table. */
  function RayAttacks(i: nat, j: nat): Bitboard
    requires i < 8 && j < 64
  {
    RaySet(Rays[i], j)
  }

  /** Square 0 is on no ray, and no ray holds its own start: a rook on a2 sees
      nothing below it. */
  lemma RaysMissSquareZero(i: nat, j: nat)
    requires i < 8 && j < 64
    ensures 0 !in RayAttacks(i, j) && j !in RayAttacks(i, j)
    ensures RayAttacks(5, 8) == {}
  {
  }

  // ---------------------------------------------------------------------------
  // init_rays

  /** One step of a ray, unfolded. */
  lemma RayUnfold(d: int, sqr: nat)
    requires d != 0 && sqr < 64
    ensures !StepOk(sqr, d) ==> RaySet(d, sqr) == {}
    ensures StepOk(sqr, d) ==> sqr + d < 64 && RaySet(d, sqr) == {sqr + d} + RaySet(d, sqr + d)
  {
  }

  /** One entry of `init_rays`: the walk from square `j` along ray `i`, one square
      per step, until a step leaves 1..63 or changes the column by more than one. */
  method WalkRay(i: nat, j: nat) returns (ray: Bitboard)
    requires i < 8 && j < 64
    ensures ray == RayAttacks(i, j)
  {
    var d := Rays[i];
    ray := {};
    var sqr: nat := j;
    while true
      invariant sqr < 64
      invariant ray + RaySet(d, sqr) == RayAttacks(i, j)
      decreases if d > 0 then 64 - sqr else sqr
    {
      var next := sqr + d;
      var fileDiff := sqr % 8 - next % 8;
      RayUnfold(d, sqr);
      if next >= 64 || next <= 0 || Abs(fileDiff) > 1 {
        break;
      }
      ray := ray + {next};
      sqr := next;
    }
  }

  /** `init_rays`: fills the 8 x 64 table, entry by entry.  The squares of one entry
      are gathered by `WalkRay` and stored when the ray ends. */
  method InitRays() returns (rays: array2<Bitboard>)
    ensures fresh(rays)
    ensures rays.Length0 == 8 && rays.Length1 == 64
    ensures forall i, j :: 0 <= i < 8 && 0 <= j < 64 ==> rays[i, j] == RayAttacks(i, j)
  {
    rays := new Bitboard[8, 64]((_, _) => {});
    var i := 0;
    while i < 8
      invariant 0 <= i <= 8
      invariant forall a, b :: 0 <= a < i && 0 <= b < 64 ==> rays[a, b] == RayAttacks(a, b)
    {
      var j := 0;
      while j < 64
        invariant 0 <= j <= 64
        invariant forall a, b :: 0 <= a < i && 0 <= b < 64 ==> rays[a, b] == RayAttacks(a, b)
        invariant forall b :: 0 <= b < j ==> rays[i, b] == RayAttacks(i, b)
      {
        var ray := WalkRay(i, j);
        rays[i, j] := ray;
        j := j + 1;
      }
      i := i + 1;
    }
  }

  // ---------------------------------------------------------------------------
  // sliding_attacks

  /** The blocker `sliding_attacks` picks from a non-empty set of blockers:
      `trailing_zeros` on a positive ray, `63 - leading_zeros` on a negative one.
      It is the lowest blocker on a positive ray and the highest on a negative one. */
  function NearestBlocker(blockers: Bitboard, positive: bool): (b: nat)
    requires blockers != {}
    ensures b in blockers
    ensures forall y :: y in blockers ==> if positive then b <= y else y <= b
  {
    if positive then TrailingZeros(blockers) else 63 - LeadingZeros(blockers)
  }

  /** The squares one ray adds in `sliding_attacks`: the whole ray when nothing on
      it is occupied, otherwise the ray XOR the ray of the nearest blocker.  That is
      exactly what a slider sees along the ray: up to and including the nearest
      occupied square, and nothing beyond it. */
  function RayContribution(square: nat, occupied: Bitboard, i: nat): (r: Bitboard)
    requires square < 64 && i < 8
    ensures r == Seen(Rays[i], square, occupied)
  {
    var d := Rays[i];
    var ray := RayAttacks(i, square);
    var blockers := occupied * ray;
    if blockers == {} then
      SeenUnblocked(d, square, occupied);
      ray
    else
      var b := NearestBlocker(blockers, d > 0);
      SeenBlocked(d, square, occupied, b);
      Xor(ray, RayAttacks(i, b))
  }

  /** `sliding_attacks` over the ray indices, in their order: the squares seen along
      those rays. */
  function Sliding(square: nat, occupied: Bitboard, rayIndices: seq<nat>): (r: Bitboard)
    requires square < 64 && forall k :: 0 <= k < |rayIndices| ==> rayIndices[k] < 8
    ensures r == SeenAll(square, occupied, rayIndices)
  {
    if rayIndices == [] then {}
    else
      var n := |rayIndices| - 1;
      Sliding(square, occupied, rayIndices[..n]) + RayContribution(square, occupied, rayIndices[n])
  }

  /** One more ray adds its contribution. */
  lemma SlidingPrefix(square: nat, occupied: Bitboard, rayIndices: seq<nat>, k: nat)
    requires square < 64 && forall k :: 0 <= k < |rayIndices| ==> rayIndices[k] < 8
    requires k < |rayIndices|
    ensures Sliding(square, occupied, rayIndices[..k + 1])
      == Sliding(square, occupied, rayIndices[..k]) + RayContribution(square, occupied, rayIndices[k])
  {
    assert rayIndices[..k + 1][..k] == rayIndices[..k];
  }

  /** Every index names one of the eight rays. */
  predicate RayIndices(rayIndices: seq<nat>)
  {
    forall k :: 0 <= k < |rayIndices| ==> rayIndices[k] < 8
  }

  /** `sliding_attacks`: the rays in order, each adding what `RaySeen` finds. */
  method SlidingAttacks(square: nat, occupied: Bitboard, rayIndices: seq<nat>) returns (attacks: Bitboard)
    requires square < 64 && RayIndices(rayIndices)
    ensures attacks == Sliding(square, occupied, rayIndices)
  {
    attacks := {};
    for k := 0 to |rayIndices|
      invariant attacks == Sliding(square, occupied, rayIndices[..k])
    {
      SlidingPrefix(square, occupied, rayIndices, k);
      var seen := RaySeen(square, occupied, rayIndices[k]);
      attacks := attacks + seen;
    }
    assert rayIndices[..|rayIndices|] == rayIndices;
  }

  /** The body of the loop in `sliding_attacks` for ray `i`: the whole ray when
      nothing on it is occupied, otherwise the ray XOR the ray of the blocker
      found by `trailing_zeros` or `leading_zeros`. */
  method RaySeen(square: nat, occupied: Bitboard, i: nat) returns (seen: Bitboard)
    requires square < 64 && i < 8
    ensures seen == RayContribution(square, occupied, i)
  {
    var blockers := occupied * RayAttacks(i, square);
    if blockers == {} {
      return RayAttacks(i, square);
    }
    var blocker: nat;
    if Rays[i] > 0 {
      blocker := TrailingZeros(blockers);
    } else {
      blocker := 63 - LeadingZeros(blockers);
    }
    assert blocker == NearestBlocker(blockers, Rays[i] > 0);
    seen := Xor(RayAttacks(i, square), RayAttacks(i, blocker));
  }

  /** What `sliding_attacks` adds lies on the chosen rays. */
  lemma {:induction false} SlidingWithinRays(square: nat, occupied: Bitboard, rayIndices: seq<nat>, x: nat)
    requires square < 64 && forall k :: 0 <= k < |rayIndices| ==> rayIndices[k] < 8
    requires x in Sliding(square, occupied, rayIndices)
    ensures exists k :: 0 <= k < |rayIndices| && x in RayAttacks(rayIndices[k], square)
  {
    SeenAllMembers(square, occupied, rayIndices, x);
  }

  // ---------------------------------------------------------------------------
  // step_attacks

  /** One more delta adds its square. */
  lemma TargetsPrefix(square: nat, deltas: seq<int>, k: nat)
    requires k < |deltas|
    ensures Targets(square, deltas[..k + 1]) == Targets(square, deltas[..k]) +
      (if 0 <= square + deltas[k] < 64 then {square + deltas[k]} else {})
  {
    assert deltas[..k + 1][..k] == deltas[..k];
  }

  /** Every `square + delta` fits an `i8`. */
  predicate ByteSums(square: nat, deltas: seq<int>)
  {
    forall k :: 0 <= k < |deltas| ==> -128 <= deltas[k] && square + deltas[k] <= 127
  }

  /** `step_attacks`.  The sum is taken on `i8`, which the source never overflows
      with its own deltas; the precondition keeps it in range. */
  method StepAttacks(square: nat, deltas: seq<int>) returns (attacks: Bitboard)
    requires square < 64 && ByteSums(square, deltas)
    ensures attacks == Targets(square, deltas)
  {
    attacks := {};
    for k := 0 to |deltas|
      invariant attacks == Targets(square, deltas[..k])
    {
      TargetsPrefix(square, deltas, k);
      var next := square + deltas[k];
      if next >= 0 && next < 64 {
        attacks := attacks + {next};
      }
    }
    assert deltas[..|deltas|] == deltas;
  }

  // ---------------------------------------------------------------------------
  // The wrappers

  const KnightDeltas: seq<int> := [15, 17, 10, 6, -15, -17, -10, -6]
  const KingDeltas: seq<int> := [1, -1, 8, -8, 7, -7, 9, -9]
  const WhitePawnDeltas: seq<int> := [7, 9]
  const BlackPawnDeltas: seq<int> := [-7, -9]

  /** The engine's own offset tables never overflow the `i8` sum from a square
      of the board. */
  lemma TablesFit(square: nat)
    requires square < 64
    ensures ByteSums(square, KnightDeltas) && ByteSums(square, KingDeltas)
    ensures ByteSums(square, WhitePawnDeltas) && ByteSums(square, BlackPawnDeltas)
    ensures RayIndices(RookRayIndex) && RayIndices(BishopRayIndex)
  {
  }

  /** `rook_attacks`: the squares seen along the four orthogonal rays. */
  function RookAttacks(square: nat, occupied: Bitboard): (r: Bitboard)
    requires square < 64
    ensures r == SeenAll(square, occupied, RookRayIndex)
  {
    Sliding(square, occupied, RookRayIndex)
  }

  /** `bishop_attacks`: the squares seen along the four diagonal rays. */
  function BishopAttacks(square: nat, occupied: Bitboard): (r: Bitboard)
    requires square < 64
    ensures r == SeenAll(square, occupied, BishopRayIndex)
  {
    Sliding(square, occupied, BishopRayIndex)
  }

  /** `queen_attacks`. */
  function QueenAttacks(square: nat, occupied: Bitboard): Bitboard
    requires square < 64
  {
    RookAttacks(square, occupied) + BishopAttacks(square, occupied)
  }

  /** The queen sees exactly what a slider sees along any of the eight rays. */
  lemma QueenSeesAllRays(square: nat, occupied: Bitboard, x: nat)
    requires square < 64
    ensures x in QueenAttacks(square, occupied) <==>
      exists i :: 0 <= i < 8 && x in Seen(Rays[i], square, occupied)
  {
    SlidersCoverAllRays(square, occupied, x);
  }

  /** `knight_attacks`: the in-board squares a knight's offset away. */
  function KnightAttacks(square: nat): (r: Bitboard)
    requires square < 64
    ensures forall x: nat :: x in r <==> x < 64 && x - square in KnightDeltas
    ensures |r| <= 8
  {
    TargetsMembers(square, KnightDeltas);
    TargetsSize(square, KnightDeltas);
    Targets(square, KnightDeltas)
  }

  /** `king_attacks`: the in-board squares a king's offset away. */
  function KingAttacks(square: nat): (r: Bitboard)
    requires square < 64
    ensures forall x: nat :: x in r <==> x < 64 && x - square in KingDeltas
    ensures |r| <= 8
  {
    TargetsMembers(square, KingDeltas);
    TargetsSize(square, KingDeltas);
    Targets(square, KingDeltas)
  }

  /** `white_pawn_attacks`: the two squares diagonally above, where on the board. */
  function WhitePawnAttacks(square: nat): (r: Bitboard)
    requires square < 64
    ensures forall x: nat :: x in r <==> x < 64 && (x == square + 7 || x == square + 9)
  {
    TargetsMembers(square, WhitePawnDeltas);
    assert WhitePawnDeltas[0] == 7 && WhitePawnDeltas[1] == 9;
    Targets(square, WhitePawnDeltas)
  }

  /** `black_pawn_attacks`: the two squares diagonally below, where on the board. */
  function BlackPawnAttacks(square: nat): (r: Bitboard)
    requires square < 64
    ensures forall x: nat :: x in r <==> x + 7 == square || x + 9 == square
  {
    TargetsMembers(square, BlackPawnDeltas);
    assert BlackPawnDeltas[0] == -7 && BlackPawnDeltas[1] == -9;
    Targets(square, BlackPawnDeltas)
  }

  /** With no column check, a knight on a1 (square 0) attacks g1 (square 6) and
      h2 (square 15), on the far side of the board. */
  lemma KnightWrapsAround()
    ensures 6 in KnightAttacks(0) && 15 in KnightAttacks(0)
  {
    assert 6 - 0 == KnightDeltas[3] && 15 - 0 == KnightDeltas[0];
  }
}

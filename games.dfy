/** The earlier, coordinate-based move generator of chess_engine/src/game.rs:
    a `Game` holding a 2 x 8 matrix of piece bitboards and two side aggregates,
    its set-up, the square queries and the per-kind generators.  Squares are
    `(file, rank)` pairs of `u8`; `BitBoard::from_square` and `mirror_h` are
    not part of this model and are parameters. */
module Games {
  import opened Wrappers
  import opened Bitboards
  import opened Pieces
  import Boards

  /** `Square(pub u8, pub u8)`: file first, then rank. */
  datatype Coord = Coord(file: nat, rank: nat)

  /** `BitBoard::from_square` and `BitBoard::mirror_h`. */
  datatype GameExternals = GameExternals(fromSquare: Coord -> Bitboard, mirrorH: Bitboard -> Bitboard)

  /** `NUM_PIECES`: eight slots a side, of which `init` and the generators use
      the first six (`Pieces::all()`, pawn, rook, knight, bishop, queen, king). */
  const NumPieces: nat := 8
  /** The length of `Pieces::all()`. */
  const KindsCount: nat := 6

  /** `[BitBoard; NUM_PIECES]`. */
  type GameRow = s: seq<Bitboard> | |s| == NumPieces witness [Empty, Empty, Empty, Empty, Empty, Empty, Empty, Empty]
  /** `[[BitBoard; NUM_PIECES]; NUM_SIDES]`. */
  type GameMatrix = s: seq<GameRow> | |s| == SidesCount witness [ZeroRow, ZeroRow]

  const ZeroRow: GameRow := [Empty, Empty, Empty, Empty, Empty, Empty, Empty, Empty]

  /** The boards of a `Game` as a value: the piece matrix and the side aggregates. */
  datatype GameState = GameState(pieces: GameMatrix, sides: SideBoards)

  /** What `Game::new` starts from: every bitboard zero. */
  const ZeroState: GameState := GameState([ZeroRow, ZeroRow], [Empty, Empty])

  /** `FULL_ROW`, `2^8 - 1`: the eight lowest squares. */
  const FullRow: Bitboard := Range(0, 8)
  /** `ROW`. */
  const Row: nat := 8

  /** The coordinate pairs of `ROOK_MOVEMENT`, `BISHOP_MOVEMENT` and
      `RIGHT_SIDE_KNIGHT_MOVEMENT`. */
  const RookMovement: seq<(int, int)> := [(1, 0), (0, 1), (-1, 0), (0, -1)]
  const BishopMovement: seq<(int, int)> := [(1, 1), (1, -1), (-1, 1), (-1, -1)]
  const KnightRightMovement: seq<(int, int)> := [(1, 2), (2, 1), (2, -1), (1, -2)]
  /** The file offsets of the two pawn captures, in the order tried. */
  const PawnOffsets: seq<int> := [1, -1]

  // ---------------------------------------------------------------------------
  // Coordinates

  /** `v.checked_add_signed(d)` followed by the `n <= 7` guard: the coordinate
      one step on, when it is still on the board. */
  function Step(v: nat, d: int): (r: Option<nat>)
    ensures r.Some? <==> 0 <= v + d <= 7
    ensures r.Some? ==> r.value == v + d
  {
    if 0 <= v + d <= 7 then Some(v + d) else None
  }

  /** The square a coordinate pair names on an 8 x 8 board, rank by rank. */
  function SquareIndex(c: Coord): (r: nat)
    requires c.file <= 7 && c.rank <= 7
    ensures r < 64
  {
    c.rank * 8 + c.file
  }

  /** The reading of `BitBoard::from_square` the properties below rely on: an
      on-board coordinate maps to the one square it names. */
  ghost predicate GameConventional(ext: GameExternals)
  {
    forall c: Coord :: c.file <= 7 && c.rank <= 7 ==> ext.fromSquare(c) == {SquareIndex(c)}
  }

  // ---------------------------------------------------------------------------
  // `init`

  /** `2^i + 2^(7 - i)` for `i < 3`: two distinct bits, so the sum is their union. */
  function EdgePair(i: nat): Bitboard
    requires i < 3
  {
    {i, 7 - i}
  }

  /** Black's rows as `init` sets them: pawns `FULL_ROW << 48`, the outer
      pairs moved up by `7 * ROW`, the queen on `2^3 << 56` and the king on
      `2^4 << 56`. */
  const BlackInit: PieceBoards := [Range(48, 56), {56, 63}, {57, 62}, {58, 61}, {59}, {60}]

  /** What `init` XORs into slot `j` of the row of side index `s`: White gets
      the rows of the start position, Black `BlackInit`, the spare slots nothing. */
  function InitMask(s: nat, j: nat): Bitboard
    requires s < SidesCount && j < NumPieces
  {
    if j >= KindsCount then Empty
    else if s == 0 then Boards.WhiteStart[j]
    else BlackInit[j]
  }

  /** `row[j] ^= v`. */
  function ToggleSlot(row: GameRow, j: nat, v: Bitboard): (r: GameRow)
    requires j < NumPieces
  {
    row[j := Xor(row[j], v)]
  }

  /** A row after `init` has XORed all its masks in. */
  function SetupRow(row: GameRow, s: nat): (r: GameRow)
    requires s < SidesCount
  {
    seq(NumPieces, j requires 0 <= j < NumPieces => Xor(row[j], InitMask(s, j)))
  }

  /** The state `init` leaves: every slot XORed with its mask, then each
      aggregate XORed with the six piece boards of its side. */
  function Setup(g: GameState): GameState
  {
    var p: GameMatrix := [SetupRow(g.pieces[0], 0), SetupRow(g.pieces[1], 1)];
    GameState(p, [Xor(g.sides[0], Boards.XorRow(p[0][..KindsCount])), Xor(g.sides[1], Boards.XorRow(p[1][..KindsCount]))])
  }

  /** The slots below `done` of both rows hold their masks XORed in, the others
      are as they started. */
  ghost predicate SetUpTo(start: GameMatrix, m: GameMatrix, done: nat)
  {
    forall s, j :: 0 <= s < SidesCount && 0 <= j < NumPieces ==>
      m[s][j] == if j < done then Xor(start[s][j], InitMask(s, j)) else start[s][j]
  }

  lemma SetUpStep(start: GameMatrix, m: GameMatrix, j: nat, white: Bitboard, black: Bitboard)
    requires j < KindsCount && SetUpTo(start, m, j)
    requires white == InitMask(0, j) && black == InitMask(1, j)
    ensures SetUpTo(start, m[0 := ToggleSlot(m[0], j, white)][1 := ToggleSlot(m[1], j, black)], j + 1)
  {
  }

  lemma SetUpDone(start: GameMatrix, m: GameMatrix)
    requires SetUpTo(start, m, KindsCount)
    ensures m == [SetupRow(start[0], 0), SetupRow(start[1], 1)]
  {
    forall s, j | 0 <= s < SidesCount && KindsCount <= j < NumPieces
      ensures m[s][j] == Xor(start[s][j], InitMask(s, j))
    {
      XorEmpty(start[s][j]);
    }
    assert m[0] == SetupRow(start[0], 0);
    assert m[1] == SetupRow(start[1], 1);
  }

  /** The state `init` leaves, field by field. */
  lemma SetupState(g: GameState, h: GameState)
    requires h.pieces == [SetupRow(g.pieces[0], 0), SetupRow(g.pieces[1], 1)]
    requires forall s :: 0 <= s < SidesCount ==> h.sides[s] == Xor(g.sides[s], Boards.XorRow(h.pieces[s][..KindsCount]))
    ensures h == Setup(g)
  {
    var r := Setup(g);
    assert h.pieces == r.pieces;
    assert h.sides[0] == r.sides[0] && h.sides[1] == r.sides[1];
  }

  /** The pawn masks: `FULL_ROW << ROW` and `FULL_ROW << ((ROW - 2) * 8)`. */
  lemma PawnMasks()
    ensures Shift(FullRow, Row) == InitMask(0, 0)
    ensures Shift(FullRow, (Row - 2) * 8) == InitMask(1, 0)
  {
    ShiftRange(0, 8, 8);
    ShiftRange(0, 8, 48);
  }

  /** The rook, knight and bishop masks of round `i` of the loop. */
  lemma EdgeMasks(i: nat)
    requires i < 3
    ensures EdgePair(i) == InitMask(0, 1 + i)
    ensures (forall x :: x in EdgePair(i) ==> x + 7 * Row < 64) && Shift(EdgePair(i), 7 * Row) == InitMask(1, 1 + i)
  {
    if i == 0 {
      assert Shift({0, 7}, 56) == {56, 63};
    } else if i == 1 {
      assert Shift({1, 6}, 56) == {57, 62};
    } else {
      assert Shift({2, 5}, 56) == {58, 61};
    }
  }

  /** The queen masks `2^(7 - 4)` and the king masks `2^(7 - 3)`, Black's
      moved up by `7 * ROW`. */
  lemma RoyalMasks()
    ensures {7 - 4} == InitMask(0, 4) && Shift({7 - 4}, 7 * Row) == InitMask(1, 4)
    ensures {7 - 3} == InitMask(0, 5) && Shift({7 - 3}, 7 * Row) == InitMask(1, 5)
  {
    assert Shift({3}, 56) == {59};
    assert Shift({4}, 56) == {60};
  }

  /** The XOR of the six piece boards of each row `init` writes on empty boards. */
  lemma InitRowsXor()
    ensures Boards.XorRow(Boards.WhiteStart) == Range(0, 16)
    ensures Boards.XorRow(BlackInit) == Range(48, 64)
  {
    Boards.StartXor();
    Boards.StartUnionWhite();
    assert forall i, j :: 0 <= i < j < 6 ==> BlackInit[i] * BlackInit[j] == {};
    Boards.XorRowDisjoint(BlackInit);
    Boards.UnionRowSix(BlackInit);
    assert BlackInit[0] == Range(48, 56) && BlackInit[1] == {56, 63} && BlackInit[2] == {57, 62};
    assert BlackInit[3] == {58, 61} && BlackInit[4] == {59} && BlackInit[5] == {60};
    BlackInitSquares();
  }

  lemma BlackInitSquares()
    ensures Range(48, 56) + {56, 63} + {57, 62} + {58, 61} + {59} + {60} == Range(48, 64)
  {
  }

  /** On zeroed boards each slot ends up holding its mask. */
  lemma SetupZeroSlot(s: nat, j: nat)
    requires s < SidesCount && j < NumPieces
    ensures Setup(ZeroState).pieces[s][j] == InitMask(s, j)
  {
    var row := Setup(ZeroState).pieces[s];
    assert row == SetupRow(ZeroRow, s);
    assert ZeroRow[j] == Empty;
    assert row[j] == Xor(Empty, InitMask(s, j));
    XorEmpty(InitMask(s, j));
  }

  /** `init` on the zeroed boards of `Game::new`: each side's six piece boards
      are its start rows, the spare slots stay empty, each aggregate is the XOR
      of its side's six piece boards, White stands on squares 0 to 15 and
      Black on 48 to 63. */
  lemma SetupFromZero()
    ensures Setup(ZeroState).pieces[0][..KindsCount] == Boards.WhiteStart
    ensures Setup(ZeroState).pieces[1][..KindsCount] == BlackInit
    ensures forall s, j :: 0 <= s < SidesCount && KindsCount <= j < NumPieces ==> Setup(ZeroState).pieces[s][j] == {}
    ensures forall s :: 0 <= s < SidesCount ==> Setup(ZeroState).sides[s] == Boards.XorRow(Setup(ZeroState).pieces[s][..KindsCount])
    ensures Setup(ZeroState).sides[0] == Range(0, 16)
    ensures Setup(ZeroState).sides[1] == Range(48, 64)
  {
    var p := Setup(ZeroState).pieces;
    forall s, j | 0 <= s < SidesCount && 0 <= j < NumPieces
      ensures p[s][j] == InitMask(s, j)
    {
      SetupZeroSlot(s, j);
    }
    assert p[0][..KindsCount] == Boards.WhiteStart;
    assert p[1][..KindsCount] == BlackInit;
    XorEmpty(Boards.XorRow(p[0][..KindsCount]));
    XorEmpty(Boards.XorRow(p[1][..KindsCount]));
    InitRowsXor();
  }

  // ---------------------------------------------------------------------------
  // Queries

  /** `friendly(side)`: the OR of `side`'s six piece boards. */
  function FriendlyOf(g: GameState, side: Side): Bitboard
  {
    Boards.UnionRow(g.pieces[SideIndex(side)][..KindsCount])
  }

  /** The side `enemy` reads: Black for White, White otherwise. */
  function Opposing(side: Side): Side
  {
    if side == White then Black else White
  }

  /** `enemy(side)`: the OR of the opposing side's six piece boards. */
  function EnemyOf(g: GameState, side: Side): Bitboard
  {
    Boards.UnionRow(g.pieces[SideIndex(Opposing(side))][..KindsCount])
  }

  /** `occupied(side)`: `enemy(side) | friendly(side)`. */
  function OccupiedOf(g: GameState, side: Side): Bitboard
  {
    EnemyOf(g, side) + FriendlyOf(g, side)
  }

  /** A square is friendly exactly when one of the side's six piece boards holds it. */
  lemma FriendlyMembers(g: GameState, side: Side)
    ensures forall x :: x in FriendlyOf(g, side) <==> exists j :: 0 <= j < KindsCount && x in g.pieces[SideIndex(side)][j]
  {
    var row := g.pieces[SideIndex(side)][..KindsCount];
    Boards.UnionRowMembers(row);
    assert forall j :: 0 <= j < KindsCount ==> row[j] == g.pieces[SideIndex(side)][j];
  }

  /** `occupied` holds exactly the squares some piece board of either side
      holds, so it is the same whichever side asks, and it contains `enemy`. */
  lemma OccupiedMembers(g: GameState, side: Side)
    ensures forall x :: x in OccupiedOf(g, side) <==>
      exists s, j :: 0 <= s < SidesCount && 0 <= j < KindsCount && x in g.pieces[s][j]
    ensures OccupiedOf(g, side) == OccupiedOf(g, Opposing(side))
    ensures EnemyOf(g, side) <= OccupiedOf(g, side)
  {
    FriendlyMembers(g, side);
    FriendlyMembers(g, Opposing(side));
    assert EnemyOf(g, side) == FriendlyOf(g, Opposing(side));
    assert EnemyOf(g, Opposing(side)) == FriendlyOf(g, side);
    assert SideIndex(side) + SideIndex(Opposing(side)) == 1;
  }

  /** `find_side`: the first of White and Black whose aggregate meets the
      square's bitboard; `None` when neither does. */
  function SideOn(ext: GameExternals, g: GameState, sqr: Coord): (r: Option<Side>)
    ensures r.None? <==> ext.fromSquare(sqr) * OfSide(g.sides, White) == {} && ext.fromSquare(sqr) * OfSide(g.sides, Black) == {}
    ensures r == Some(White) <==> ext.fromSquare(sqr) * OfSide(g.sides, White) != {}
  {
    var bb := ext.fromSquare(sqr);
    if g.sides[0] * bb != {} then Some(White)
    else if g.sides[1] * bb != {} then Some(Black)
    else None
  }

  /** Slot `j` of either side meets `bb`. */
  predicate HoldsKind(g: GameState, bb: Bitboard, j: nat)
    requires j < NumPieces
  {
    bb * (g.pieces[0][j] + g.pieces[1][j]) != {}
  }

  /** `Pieces::all().iter().position(..)` from slot `j` on: the first slot at
      or after `j` that either side holds on `bb`. */
  function FirstKind(g: GameState, bb: Bitboard, j: nat): (r: Option<nat>)
    requires j <= KindsCount
    ensures r.Some? ==> j <= r.value < KindsCount && HoldsKind(g, bb, r.value)
    ensures r.Some? ==> forall k :: j <= k < r.value ==> !HoldsKind(g, bb, k)
    ensures r.None? ==> forall k :: j <= k < KindsCount ==> !HoldsKind(g, bb, k)
    decreases KindsCount - j
  {
    if j == KindsCount then None
    else if HoldsKind(g, bb, j) then Some(j)
    else FirstKind(g, bb, j + 1)
  }

  /** `find_piece_type`: `None` when neither aggregate meets the square,
      otherwise the least kind index held there by either side. */
  function PieceTypeOn(ext: GameExternals, g: GameState, sqr: Coord): (r: Option<nat>)
    ensures ext.fromSquare(sqr) * (g.sides[0] + g.sides[1]) == {} ==> r.None?
    ensures r.Some? ==> r.value < KindsCount && HoldsKind(g, ext.fromSquare(sqr), r.value)
    ensures r.Some? ==> forall k :: 0 <= k < r.value ==> !HoldsKind(g, ext.fromSquare(sqr), k)
    ensures r.None? ==>
      (ext.fromSquare(sqr) * (g.sides[0] + g.sides[1]) == {}
       || forall k :: 0 <= k < KindsCount ==> !HoldsKind(g, ext.fromSquare(sqr), k))
  {
    var bb := ext.fromSquare(sqr);
    if bb * (g.sides[0] + g.sides[1]) == {} then None else FirstKind(g, bb, 0)
  }

  // ---------------------------------------------------------------------------
  // Pawns

  /** The rank from which `legal_pawn_moves` allows the double push. */
  function StartRank(side: Side): nat
  {
    if side == White then 1 else 6
  }

  /** `direction`: up the board for White, down for Black. */
  function Direction(side: Side): int
  {
    if side == White then 1 else -1
  }

  /** The pushes of `legal_pawn_moves`: both squares when the pawn is on its
      start rank and both are empty, else the single square when it is
      empty.  Both go up the board, for Black too. */
  function PawnPushes(ext: GameExternals, g: GameState, sqr: Coord, side: Side): Bitboard
  {
    var occupied := FriendlyOf(g, side) + EnemyOf(g, side);
    var moved := sqr.rank != StartRank(side);
    var single := ext.fromSquare(Coord(sqr.file, sqr.rank + 1));
    var double := ext.fromSquare(Coord(sqr.file, sqr.rank + 2));
    if !moved && (single + double) * occupied == {} then single + double
    else if single * occupied == {} then single
    else {}
  }

  /** One round of the capture loop: the square `i` files over on rank `y`,
      kept where the enemy stands; nothing when that file is off the board. */
  function PawnCapture(ext: GameExternals, g: GameState, sqr: Coord, side: Side, y: nat, i: int): Bitboard
  {
    match Step(sqr.file, i)
    case None => {}
    case Some(x) => ext.fromSquare(Coord(x, y)) * EnemyOf(g, side)
  }

  /** The capture loop over `offsets`. */
  function PawnCaptures(ext: GameExternals, g: GameState, sqr: Coord, side: Side, y: nat, offsets: seq<int>): Bitboard
  {
    if offsets == [] then {}
    else PawnCaptures(ext, g, sqr, side, y, offsets[..|offsets| - 1]) + PawnCapture(ext, g, sqr, side, y, offsets[|offsets| - 1])
  }

  /** `legal_pawn_moves`; `None` where it panics: `sqr.1 + 2` overflowing `u8`,
      or the rank in the pawn's direction leaving the board. */
  function PawnMoves(ext: GameExternals, g: GameState, sqr: Coord, side: Side): (r: Option<Bitboard>)
    ensures r.None? <==> Step(sqr.rank, Direction(side)).None?
  {
    if sqr.rank + 2 > 255 then None
    else match Step(sqr.rank, Direction(side))
      case None => None
      case Some(y) =>
        var bb: Bitboard := PawnPushes(ext, g, sqr, side) + PawnCaptures(ext, g, sqr, side, y, PawnOffsets);
        Some(bb)
  }

  /** The squares a pawn may capture on: one rank on in its direction, one
      file either side, where those are on the board. */
  function Diagonals(sqr: Coord, y: nat): Bitboard
    requires y <= 7
  {
    (if sqr.file + 1 <= 7 then {SquareIndex(Coord(sqr.file + 1, y))} else {}) +
    (if 1 <= sqr.file <= 8 then {SquareIndex(Coord(sqr.file - 1, y))} else {})
  }

  /** The pushes, for a pawn on any square: what `from_square` gives for the
      square one rank up, when nothing stands there, and what it gives for the
      square two ranks up, only from the start rank and when nothing stands on
      either square.  Both go up the board, for Black too. */
  lemma PawnPushRules(ext: GameExternals, g: GameState, sqr: Coord, side: Side)
    ensures var single := ext.fromSquare(Coord(sqr.file, sqr.rank + 1));
      var double := ext.fromSquare(Coord(sqr.file, sqr.rank + 2));
      var occupied := OccupiedOf(g, side);
      forall x :: x in PawnPushes(ext, g, sqr, side) <==>
        || (x in single && single * occupied == {})
        || (x in double && sqr.rank == StartRank(side) && (single + double) * occupied == {})
  {
  }

  /** With conventional squares and the rank above on the board, the single
      push is that one square, and so is the double push when the rank two up
      is on the board too. */
  lemma PawnPushSquares(ext: GameExternals, g: GameState, sqr: Coord, side: Side)
    requires GameConventional(ext)
    requires sqr.file <= 7 && sqr.rank + 1 <= 7
    ensures var single := SquareIndex(Coord(sqr.file, sqr.rank + 1));
      var double := ext.fromSquare(Coord(sqr.file, sqr.rank + 2));
      var occupied := OccupiedOf(g, side);
      && (sqr.rank + 2 <= 7 ==> double == {SquareIndex(Coord(sqr.file, sqr.rank + 2))})
      && forall x :: x in PawnPushes(ext, g, sqr, side) <==>
        || (x == single && single !in occupied)
        || (x in double && sqr.rank == StartRank(side) && single !in occupied && double * occupied == {})
  {
    var single := SquareIndex(Coord(sqr.file, sqr.rank + 1));
    var double := ext.fromSquare(Coord(sqr.file, sqr.rank + 2));
    var occupied := OccupiedOf(g, side);
    assert ext.fromSquare(Coord(sqr.file, sqr.rank + 1)) == {single};
    if sqr.rank + 2 <= 7 {
      assert double == {SquareIndex(Coord(sqr.file, sqr.rank + 2))};
    }
    PawnPushRules(ext, g, sqr, side);
    assert ({single} + double) * occupied == {} <==> single !in occupied && double * occupied == {};
    assert {single} * occupied == {} <==> single !in occupied;
  }

  /** With conventional squares, the capture loop keeps exactly the enemy
      squares among the two diagonals. */
  lemma PawnCaptureRules(ext: GameExternals, g: GameState, sqr: Coord, side: Side, y: nat)
    requires GameConventional(ext)
    requires y <= 7
    ensures PawnCaptures(ext, g, sqr, side, y, PawnOffsets) == Diagonals(sqr, y) * EnemyOf(g, side)
  {
    var enemy := EnemyOf(g, side);
    var r := if sqr.file + 1 <= 7 then {SquareIndex(Coord(sqr.file + 1, y))} else {};
    var l := if 1 <= sqr.file <= 8 then {SquareIndex(Coord(sqr.file - 1, y))} else {};
    PawnCapturesBoth(ext, g, sqr, side, y);
    PawnCaptureRight(ext, g, sqr, side, y);
    PawnCaptureLeft(ext, g, sqr, side, y);
    assert Diagonals(sqr, y) == r + l;
    assert r * enemy + l * enemy == (r + l) * enemy;
  }

  /** The capture loop over `[1, -1]` is its two rounds. */
  lemma PawnCapturesBoth(ext: GameExternals, g: GameState, sqr: Coord, side: Side, y: nat)
    ensures PawnCaptures(ext, g, sqr, side, y, PawnOffsets)
      == PawnCapture(ext, g, sqr, side, y, 1) + PawnCapture(ext, g, sqr, side, y, -1)
  {
    assert PawnOffsets[..1] == [1] && PawnOffsets[..1][..0] == [] && PawnOffsets[1] == -1;
    assert PawnCaptures(ext, g, sqr, side, y, PawnOffsets[..1]) == PawnCapture(ext, g, sqr, side, y, 1);
  }

  /** The capture to the higher file: that square, when on the board and an enemy's. */
  lemma PawnCaptureRight(ext: GameExternals, g: GameState, sqr: Coord, side: Side, y: nat)
    requires GameConventional(ext)
    requires y <= 7
    ensures PawnCapture(ext, g, sqr, side, y, 1)
      == (if sqr.file + 1 <= 7 then {SquareIndex(Coord(sqr.file + 1, y))} else {}) * EnemyOf(g, side)
  {
    if sqr.file + 1 <= 7 {
      assert ext.fromSquare(Coord(sqr.file + 1, y)) == {SquareIndex(Coord(sqr.file + 1, y))};
    }
  }

  /** The capture to the lower file: that square, when on the board and an enemy's. */
  lemma PawnCaptureLeft(ext: GameExternals, g: GameState, sqr: Coord, side: Side, y: nat)
    requires GameConventional(ext)
    requires y <= 7
    ensures PawnCapture(ext, g, sqr, side, y, -1)
      == (if 1 <= sqr.file <= 8 then {SquareIndex(Coord(sqr.file - 1, y))} else {}) * EnemyOf(g, side)
  {
    if 1 <= sqr.file <= 8 {
      assert ext.fromSquare(Coord(sqr.file - 1, y)) == {SquareIndex(Coord(sqr.file - 1, y))};
    }
  }

  /** With conventional squares and a rank in the pawn's direction on the
      board, `legal_pawn_moves` does not panic and yields exactly the pushes
      of `PawnPushRules` and the enemy squares on the two diagonals one rank
      on. */
  lemma PawnMovesMeaning(ext: GameExternals, g: GameState, sqr: Coord, side: Side)
    requires GameConventional(ext)
    requires Step(sqr.rank, Direction(side)).Some?
    ensures PawnMoves(ext, g, sqr, side).Some?
    ensures var single := ext.fromSquare(Coord(sqr.file, sqr.rank + 1));
      var double := ext.fromSquare(Coord(sqr.file, sqr.rank + 2));
      var occupied := OccupiedOf(g, side);
      var y := Step(sqr.rank, Direction(side)).value;
      forall x :: x in PawnMoves(ext, g, sqr, side).value <==>
        || (x in single && single * occupied == {})
        || (x in double && sqr.rank == StartRank(side) && (single + double) * occupied == {})
        || (x in Diagonals(sqr, y) && x in EnemyOf(g, side))
  {
    var y := Step(sqr.rank, Direction(side)).value;
    var pushes := PawnPushes(ext, g, sqr, side);
    var captures := PawnCaptures(ext, g, sqr, side, y, PawnOffsets);
    assert PawnMoves(ext, g, sqr, side).value == pushes + captures;
    PawnPushRules(ext, g, sqr, side);
    PawnCaptureRules(ext, g, sqr, side, y);
  }

  // ---------------------------------------------------------------------------
  // Knights

  /** One round of the knight loop: the square `d` away, when both
      coordinates stay on the board. */
  function KnightTarget(ext: GameExternals, sqr: Coord, d: (int, int)): Bitboard
  {
    match (Step(sqr.file, d.0), Step(sqr.rank, d.1))
    case (Some(x), Some(y)) => ext.fromSquare(Coord(x, y))
    case _ => {}
  }

  /** The knight loop over `deltas`. */
  function KnightReach(ext: GameExternals, sqr: Coord, deltas: seq<(int, int)>): Bitboard
  {
    if deltas == [] then {}
    else KnightReach(ext, sqr, deltas[..|deltas| - 1]) + KnightTarget(ext, sqr, deltas[|deltas| - 1])
  }

  /** The jump `d` from `sqr` stays on the board and lands on square `x`. */
  predicate JumpLands(sqr: Coord, d: (int, int), x: nat)
  {
    0 <= sqr.file + d.0 <= 7 && 0 <= sqr.rank + d.1 <= 7
    && x == SquareIndex(Coord((sqr.file + d.0) as nat, (sqr.rank + d.1) as nat))
  }

  /** With conventional squares, one round of the knight loop gives exactly
      the square its jump lands on, or nothing off the board. */
  lemma KnightTargetSquares(ext: GameExternals, sqr: Coord, d: (int, int))
    requires GameConventional(ext)
    ensures forall x :: x in KnightTarget(ext, sqr, d) <==> JumpLands(sqr, d, x)
  {
  }

  /** With conventional squares, the knight loop collects exactly the
      squares its jumps land on without leaving the board. */
  lemma {:induction false} KnightReachSquares(ext: GameExternals, sqr: Coord, deltas: seq<(int, int)>)
    requires GameConventional(ext)
    ensures forall x :: x in KnightReach(ext, sqr, deltas) <==>
      exists k :: 0 <= k < |deltas| && JumpLands(sqr, deltas[k], x)
  {
    if deltas != [] {
      var n := |deltas| - 1;
      var prev := deltas[..n];
      KnightReachSquares(ext, sqr, prev);
      KnightTargetSquares(ext, sqr, deltas[n]);
      assert KnightReach(ext, sqr, deltas) == KnightReach(ext, sqr, prev) + KnightTarget(ext, sqr, deltas[n]);
      forall x | x in KnightReach(ext, sqr, deltas)
        ensures exists k :: 0 <= k < |deltas| && JumpLands(sqr, deltas[k], x)
      {
        if x in KnightReach(ext, sqr, prev) {
          var k :| 0 <= k < n && JumpLands(sqr, prev[k], x);
          assert prev[k] == deltas[k];
        }
      }
      forall x, k | 0 <= k < |deltas| && JumpLands(sqr, deltas[k], x)
        ensures x in KnightReach(ext, sqr, deltas)
      {
        if k < n {
          assert prev[k] == deltas[k];
        }
      }
    }
  }

  /** `legal_knight_moves`: the right-hand jumps, their mirror image, less the
      friendly squares; never a friendly square. */
  function KnightMoves(ext: GameExternals, g: GameState, sqr: Coord, side: Side): (r: Bitboard)
    ensures r * FriendlyOf(g, side) == {}
    ensures r <= KnightReach(ext, sqr, KnightRightMovement) + ext.mirrorH(KnightReach(ext, sqr, KnightRightMovement))
  {
    var bb := KnightReach(ext, sqr, KnightRightMovement);
    (bb + ext.mirrorH(bb)) * Not(FriendlyOf(g, side))
  }

  // ---------------------------------------------------------------------------
  // Sliding pieces

  /** How many more steps of `d` a coordinate `v` can take on the board: the
      measure that makes each walk end. */
  function Gap(v: nat, d: int): nat
  {
    if d > 0 then (if v < 8 then 8 - v else 0)
    else if d < 0 then v
    else 0
  }

  /** The inner `loop` of `generate_sliding_moves` from `(x, y)` in direction
      `(dx, dy)`: step on while on the board, stop on an enemy square
      (keeping it) or on any other occupied square (dropping it). */
  function Walk(ext: GameExternals, occupied: Bitboard, enemy: Bitboard, x: nat, y: nat, dx: int, dy: int): Bitboard
    requires dx != 0 || dy != 0
    decreases Gap(x, dx) + Gap(y, dy)
  {
    var nx := Step(x, dx);
    var ny := Step(y, dy);
    if nx.None? || ny.None? then {}
    else
      var mv := ext.fromSquare(Coord(nx.value, ny.value));
      if mv * enemy != {} then mv
      else if mv * occupied != {} then {}
      else mv + Walk(ext, occupied, enemy, nx.value, ny.value, dx, dy)
  }

  /** Every direction moves. */
  predicate Moving(dirs: seq<(int, int)>)
  {
    forall k :: 0 <= k < |dirs| ==> dirs[k].0 != 0 || dirs[k].1 != 0
  }

  /** The outer loop of `generate_sliding_moves` over `dirs`. */
  function Slides(ext: GameExternals, occupied: Bitboard, enemy: Bitboard, sqr: Coord, dirs: seq<(int, int)>): Bitboard
    requires Moving(dirs)
  {
    if dirs == [] then {}
    else
      var d := dirs[|dirs| - 1];
      Slides(ext, occupied, enemy, sqr, dirs[..|dirs| - 1]) + Walk(ext, occupied, enemy, sqr.file, sqr.rank, d.0, d.1)
  }

  /** `generate_sliding_moves(sqr, side, dirs)`. */
  function SlidingMoves(ext: GameExternals, g: GameState, sqr: Coord, side: Side, dirs: seq<(int, int)>): Bitboard
    requires Moving(dirs)
  {
    Slides(ext, OccupiedOf(g, side), EnemyOf(g, side), sqr, dirs)
  }

  /** All coordinates are on the board. */
  predicate OnBoardPath(path: seq<Coord>)
  {
    forall k :: 0 <= k < |path| ==> path[k].file <= 7 && path[k].rank <= 7
  }

  /** The coordinates a walk from `(x, y)` passes through while it stays on
      the board: all within 0..7, and empty exactly when the first step
      already leaves the board. */
  function Ray(x: nat, y: nat, dx: int, dy: int): (r: seq<Coord>)
    requires dx != 0 || dy != 0
    ensures OnBoardPath(r)
    ensures r == [] <==> Step(x, dx).None? || Step(y, dy).None?
    decreases Gap(x, dx) + Gap(y, dy)
  {
    var nx := Step(x, dx);
    var ny := Step(y, dy);
    if nx.None? || ny.None? then []
    else
      var rest := Ray(nx.value, ny.value, dx, dy);
      RayPrepend(Coord(nx.value, ny.value), rest);
      [Coord(nx.value, ny.value)] + rest
  }

  /** An on-board square before an on-board path gives an on-board path. */
  lemma RayPrepend(c: Coord, rest: seq<Coord>)
    requires c.file <= 7 && c.rank <= 7 && OnBoardPath(rest)
    ensures OnBoardPath([c] + rest)
  {
    assert forall k :: 0 < k < |rest| + 1 ==> ([c] + rest)[k] == rest[k - 1];
  }

  /** A ray that does not end at once is its first square and the ray from there. */
  lemma RayCons(x: nat, y: nat, dx: int, dy: int)
    requires dx != 0 || dy != 0
    requires Step(x, dx).Some? && Step(y, dy).Some?
    ensures Ray(x, y, dx, dy) == [Coord(x + dx, y + dy)] + Ray(x + dx, y + dy, dx, dy)
  {
  }

  /** The squares of a ray follow one another: the first one step of
      `(dx, dy)` from the start, each next one a further step. */
  lemma {:induction false} RaySteps(x: nat, y: nat, dx: int, dy: int)
    requires dx != 0 || dy != 0
    ensures var r := Ray(x, y, dx, dy);
      && (r != [] ==> r[0].file == x + dx && r[0].rank == y + dy)
      && Stepwise(r, dx, dy)
    decreases Gap(x, dx) + Gap(y, dy)
  {
    if Step(x, dx).Some? && Step(y, dy).Some? {
      RayCons(x, y, dx, dy);
      RaySteps(x + dx, y + dy, dx, dy);
      StepsCons(Coord(x + dx, y + dy), Ray(x + dx, y + dy, dx, dy), dx, dy);
    }
  }

  /** Consecutive squares one step of `(dx, dy)` apart. */
  predicate Stepwise(path: seq<Coord>, dx: int, dy: int)
  {
    forall k :: 0 <= k < |path| - 1 ==> path[k + 1].file == path[k].file + dx && path[k + 1].rank == path[k].rank + dy
  }

  /** A square one step before a stepwise path extends it. */
  lemma StepsCons(c: Coord, rest: seq<Coord>, dx: int, dy: int)
    requires rest != [] ==> rest[0].file == c.file + dx && rest[0].rank == c.rank + dy
    requires Stepwise(rest, dx, dy)
    ensures Stepwise([c] + rest, dx, dy)
  {
    var path := [c] + rest;
    forall k | 0 <= k < |path| - 1
      ensures path[k + 1].file == path[k].file + dx && path[k + 1].rank == path[k].rank + dy
    {
      assert path[k + 1] == rest[k];
      if k > 0 {
        assert path[k] == rest[k - 1];
      }
    }
  }

  /** A ray runs to the edge: one more step from its last square leaves the board. */
  lemma {:induction false} RayReachesEdge(x: nat, y: nat, dx: int, dy: int)
    requires dx != 0 || dy != 0
    ensures var r := Ray(x, y, dx, dy);
      r != [] ==> Step(r[|r| - 1].file, dx).None? || Step(r[|r| - 1].rank, dy).None?
    decreases Gap(x, dx) + Gap(y, dy)
  {
    var nx := Step(x, dx);
    var ny := Step(y, dy);
    if nx.Some? && ny.Some? {
      var rest := Ray(nx.value, ny.value, dx, dy);
      RayCons(x, y, dx, dy);
      RayReachesEdge(nx.value, ny.value, dx, dy);
      if rest == [] {
        assert Step(nx.value, dx).None? || Step(ny.value, dy).None?;
      }
    }
  }

  /** The index of the first occupied square of a path, or its length. */
  function FirstOccupied(path: seq<Coord>, occupied: Bitboard): (r: nat)
    requires OnBoardPath(path)
    ensures r <= |path|
  {
    if path == [] then 0
    else if SquareIndex(path[0]) in occupied then 0
    else 1 + FirstOccupied(path[1..], occupied)
  }

  /** `FirstOccupied` finds the least occupied square: none before it is
      occupied, and it is, unless it is the end of the path. */
  lemma {:induction false} FirstOccupiedLeast(path: seq<Coord>, occupied: Bitboard)
    requires OnBoardPath(path)
    ensures forall k :: 0 <= k < FirstOccupied(path, occupied) ==> SquareIndex(path[k]) !in occupied
    ensures FirstOccupied(path, occupied) < |path| ==> SquareIndex(path[FirstOccupied(path, occupied)]) in occupied
  {
    if path != [] && SquareIndex(path[0]) !in occupied {
      var rest := path[1..];
      FirstOccupiedLeast(rest, occupied);
      forall k | 0 < k < FirstOccupied(path, occupied)
        ensures SquareIndex(path[k]) !in occupied
      {
        assert path[k] == rest[k - 1];
      }
      if FirstOccupied(path, occupied) < |path| {
        assert path[FirstOccupied(path, occupied)] == rest[FirstOccupied(rest, occupied)];
      }
    }
  }

  /** The sliding moves along a path, stated directly: the squares before the
      first occupied one, and that one too when it holds an enemy. */
  function RayMoves(path: seq<Coord>, occupied: Bitboard, enemy: Bitboard): Bitboard
    requires OnBoardPath(path)
  {
    var b := FirstOccupied(path, occupied);
    (set k | 0 <= k < b :: SquareIndex(path[k])) +
    (if b < |path| && SquareIndex(path[b]) in enemy then {SquareIndex(path[b])} else {})
  }

  /** `RayMoves` one square at a time. */
  lemma RayMovesCons(c: Coord, rest: seq<Coord>, occupied: Bitboard, enemy: Bitboard)
    requires c.file <= 7 && c.rank <= 7 && OnBoardPath(rest) && OnBoardPath([c] + rest)
    requires enemy <= occupied
    ensures RayMoves([c] + rest, occupied, enemy) ==
      if SquareIndex(c) in enemy then {SquareIndex(c)}
      else if SquareIndex(c) in occupied then {}
      else {SquareIndex(c)} + RayMoves(rest, occupied, enemy)
  {
    var path := [c] + rest;
    assert path[0] == c && path[1..] == rest;
    if SquareIndex(c) !in occupied {
      var b := FirstOccupied(rest, occupied);
      assert FirstOccupied(path, occupied) == 1 + b;
      var front := set k | 0 <= k < 1 + b :: SquareIndex(path[k]);
      var tail := set k | 0 <= k < b :: SquareIndex(rest[k]);
      assert front == {SquareIndex(c)} + tail by {
        forall x | x in front
          ensures x in {SquareIndex(c)} + tail
        {
          var k :| 0 <= k < 1 + b && x == SquareIndex(path[k]);
          if k > 0 {
            assert path[k] == rest[k - 1];
          }
        }
        forall x | x in tail
          ensures x in front
        {
          var k :| 0 <= k < b && x == SquareIndex(rest[k]);
          assert path[k + 1] == rest[k];
        }
      }
      if b < |rest| {
        assert path[1 + b] == rest[b];
      }
    } else {
      assert FirstOccupied(path, occupied) == 0;
    }
  }

  /** A one-square bitboard meets another exactly when that holds the square. */
  lemma SingletonMeets(i: nat, b: Bitboard)
    requires i < 64
    ensures {i} * b != {} <==> i in b
  {
    if i in b {
      assert i in {i} * b;
    }
  }

  /** One square of a conventional walk: the walk keeps the square and stops
      on an enemy, stops without it on a friend, and goes on from an empty one. */
  lemma WalkStep(ext: GameExternals, occupied: Bitboard, enemy: Bitboard, x: nat, y: nat, dx: int, dy: int)
    requires GameConventional(ext) && enemy <= occupied
    requires dx != 0 || dy != 0
    requires Step(x, dx).Some? && Step(y, dy).Some?
    ensures var c := Coord(x + dx, y + dy);
      Walk(ext, occupied, enemy, x, y, dx, dy) ==
        if SquareIndex(c) in enemy then {SquareIndex(c)}
        else if SquareIndex(c) in occupied then {}
        else {SquareIndex(c)} + Walk(ext, occupied, enemy, x + dx, y + dy, dx, dy)
  {
    var c := Coord(x + dx, y + dy);
    assert ext.fromSquare(c) == {SquareIndex(c)};
    SingletonMeets(SquareIndex(c), enemy);
    SingletonMeets(SquareIndex(c), occupied);
  }

  /** With conventional squares, a walk collects exactly the squares of its
      ray before the first occupied one, plus that square when an enemy
      holds it: every square it adds is on the board, it never passes an
      occupied square, and it keeps the blocker only when it is an enemy. */
  lemma {:induction false} WalkFollowsRay(ext: GameExternals, occupied: Bitboard, enemy: Bitboard, x: nat, y: nat, dx: int, dy: int)
    requires GameConventional(ext) && enemy <= occupied
    requires dx != 0 || dy != 0
    ensures Walk(ext, occupied, enemy, x, y, dx, dy) == RayMoves(Ray(x, y, dx, dy), occupied, enemy)
    decreases Gap(x, dx) + Gap(y, dy)
  {
    if Step(x, dx).Some? && Step(y, dy).Some? {
      WalkFollowsRay(ext, occupied, enemy, x + dx, y + dy, dx, dy);
      WalkRayStep(ext, occupied, enemy, x, y, dx, dy);
    } else {
      RayMovesEmpty(occupied, enemy);
    }
  }

  /** One step of `WalkFollowsRay`: when the walk and the ray agree from the
      next square on, they agree from this one. */
  lemma WalkRayStep(ext: GameExternals, occupied: Bitboard, enemy: Bitboard, x: nat, y: nat, dx: int, dy: int)
    requires GameConventional(ext) && enemy <= occupied
    requires dx != 0 || dy != 0
    requires Step(x, dx).Some? && Step(y, dy).Some?
    requires Walk(ext, occupied, enemy, x + dx, y + dy, dx, dy) == RayMoves(Ray(x + dx, y + dy, dx, dy), occupied, enemy)
    ensures Walk(ext, occupied, enemy, x, y, dx, dy) == RayMoves(Ray(x, y, dx, dy), occupied, enemy)
  {
    var c := Coord(x + dx, y + dy);
    var s := SquareIndex(c);
    var rest := Ray(x + dx, y + dy, dx, dy);
    RayCons(x, y, dx, dy);
    WalkStep(ext, occupied, enemy, x, y, dx, dy);
    RayMovesCons(c, rest, occupied, enemy);
    SameStep(s, occupied, enemy,
      Walk(ext, occupied, enemy, x, y, dx, dy), RayMoves([c] + rest, occupied, enemy),
      Walk(ext, occupied, enemy, x + dx, y + dy, dx, dy), RayMoves(rest, occupied, enemy));
  }

  /** Two results built by the same one-square step from equal remainders are equal. */
  lemma SameStep(s: nat, occupied: Bitboard, enemy: Bitboard, a: Bitboard, b: Bitboard, aRest: Bitboard, bRest: Bitboard)
    requires a == if s in enemy then {s} else if s in occupied then {} else {s} + aRest
    requires b == if s in enemy then {s} else if s in occupied then {} else {s} + bRest
    requires aRest == bRest
    ensures a == b
  {
  }

  /** The empty path gives no moves. */
  lemma RayMovesEmpty(occupied: Bitboard, enemy: Bitboard)
    ensures RayMoves([], occupied, enemy) == {}
  {
    assert FirstOccupied([], occupied) == 0;
  }

  // ---------------------------------------------------------------------------
  // The game

  /** `Game`: the turn counter, the piece matrix and the side aggregates.
      The castling `State` field is not part of this model. */
  class Game {
    var turn: nat
    var pieces: GameMatrix
    var sides: SideBoards

    function State(): GameState
      reads this
    {
      GameState(pieces, sides)
    }

    /** `Game::new`: every bitboard zero, turn 0. */
    constructor New()
      ensures State() == ZeroState && turn == 0
    {
      turn := 0;
      pieces := [ZeroRow, ZeroRow];
      sides := [Empty, Empty];
    }

    /** `init`: XOR the start masks into the piece boards, then each side's
      six piece boards into its aggregate. */
    method Init()
      modifies this
      ensures State() == Setup(old(State())) && turn == old(turn)
    {
      ghost var start := State();
      PlaceBackRanks();
      PlaceRoyals(start.pieces);
      SetUpDone(start.pieces, pieces);
      FoldSides();
      SetupState(start, State());
    }

    /** The first half of `init`: the pawns, then the rooks, knights and bishops. */
    method PlaceBackRanks()
      modifies this
      ensures SetUpTo(old(pieces), pieces, 4)
      ensures sides == old(sides) && turn == old(turn)
    {
      ghost var start := pieces;
      PawnMasks();
      SetUpStep(start, pieces, 0, Shift(FullRow, Row), Shift(FullRow, (Row - 2) * 8));
      ToggleKind(0, Shift(FullRow, Row), Shift(FullRow, (Row - 2) * 8));
      var i: nat := 0;
      while i < 3
        invariant i <= 3
        invariant SetUpTo(start, pieces, 1 + i)
        invariant sides == old(sides) && turn == old(turn)
      {
        EdgeMasks(i);
        SetUpStep(start, pieces, 1 + i, EdgePair(i), Shift(EdgePair(i), 7 * Row));
        ToggleKind(1 + i, EdgePair(i), Shift(EdgePair(i), 7 * Row));
        i := i + 1;
      }
    }

    /** The queens and the kings of `init`. */
    method PlaceRoyals(ghost start: GameMatrix)
      requires SetUpTo(start, pieces, 4)
      modifies this
      ensures SetUpTo(start, pieces, KindsCount)
      ensures sides == old(sides) && turn == old(turn)
    {
      RoyalMasks();
      SetUpStep(start, pieces, 4, {7 - 4}, Shift({7 - 4}, 7 * Row));
      ToggleKind(4, {7 - 4}, Shift({7 - 4}, 7 * Row));
      SetUpStep(start, pieces, 5, {7 - 3}, Shift({7 - 3}, 7 * Row));
      ToggleKind(5, {7 - 3}, Shift({7 - 3}, 7 * Row));
    }

    /** `pieces[WHITE][j] ^= white` followed by `pieces[BLACK][j] ^= black`. */
    method ToggleKind(j: nat, white: Bitboard, black: Bitboard)
      requires j < NumPieces
      modifies this
      ensures pieces == old(pieces)[0 := ToggleSlot(old(pieces)[0], j, white)][1 := ToggleSlot(old(pieces)[1], j, black)]
      ensures sides == old(sides) && turn == old(turn)
    {
      pieces := pieces[0 := ToggleSlot(pieces[0], j, white)];
      pieces := pieces[1 := ToggleSlot(pieces[1], j, black)];
    }

    /** The second loop of `init`: `sides[i] ^= pieces[i][j]` for the six kinds. */
    method FoldSides()
      modifies this
      ensures pieces == old(pieces) && turn == old(turn)
      ensures forall s :: 0 <= s < SidesCount ==> sides[s] == Xor(old(sides)[s], Boards.XorRow(pieces[s][..KindsCount]))
    {
      var s: nat := 0;
      while s < 2
        invariant s <= 2
        invariant pieces == old(pieces) && turn == old(turn)
        invariant forall t :: 0 <= t < SidesCount ==>
          sides[t] == if t < s then Xor(old(sides)[t], Boards.XorRow(pieces[t][..KindsCount])) else old(sides)[t]
      {
        var j: nat := 0;
        XorEmpty(sides[s]);
        assert pieces[s][..0] == [];
        while j < 6
          invariant j <= 6
          invariant pieces == old(pieces) && turn == old(turn)
          invariant sides[s] == Xor(old(sides)[s], Boards.XorRow(pieces[s][..j]))
          invariant forall t :: 0 <= t < SidesCount && t != s ==>
            sides[t] == if t < s then Xor(old(sides)[t], Boards.XorRow(pieces[t][..KindsCount])) else old(sides)[t]
        {
          assert pieces[s][..j + 1][..j] == pieces[s][..j];
          XorAssoc(old(sides)[s], Boards.XorRow(pieces[s][..j]), pieces[s][j]);
          sides := sides[s := Xor(sides[s], pieces[s][j])];
          j := j + 1;
        }
        s := s + 1;
      }
    }

    /** `find_side`. */
    method FindSide(ext: GameExternals, sqr: Coord) returns (r: Option<Side>)
      ensures r == SideOn(ext, State(), sqr)
    {
      var bb := ext.fromSquare(sqr);
      var order := [White, Black];
      assert order[0] == White && order[1] == Black;
      var k := 0;
      while k < 2
        invariant k <= 2
        invariant forall t :: 0 <= t < k ==> OfSide(sides, order[t]) * bb == {}
      {
        if OfSide(sides, order[k]) * bb != {} {
          return Some(order[k]);
        }
        k := k + 1;
      }
      return None;
    }

    /** `find_piece_type`. */
    method FindPieceType(ext: GameExternals, sqr: Coord) returns (r: Option<nat>)
      ensures r == PieceTypeOn(ext, State(), sqr)
    {
      var bb := ext.fromSquare(sqr);
      if bb * (sides[0] + sides[1]) == {} {
        return None;
      }
      var j := 0;
      while j < KindsCount
        invariant j <= KindsCount
        invariant FirstKind(State(), bb, j) == FirstKind(State(), bb, 0)
      {
        if bb * (pieces[0][j] + pieces[1][j]) != {} {
          return Some(j);
        }
        j := j + 1;
      }
      return None;
    }

    /** The loop shared by `friendly` and `enemy`: the OR of one row's six boards. */
    method UnionOfRow(s: nat) returns (bb: Bitboard)
      requires s < SidesCount
      ensures bb == Boards.UnionRow(pieces[s][..KindsCount])
    {
      bb := Empty;
      var i := 0;
      while i < KindsCount
        invariant i <= KindsCount
        invariant bb == Boards.UnionRow(pieces[s][..i])
      {
        assert pieces[s][..i + 1][..i] == pieces[s][..i];
        bb := bb + pieces[s][i];
        i := i + 1;
      }
    }

    /** `friendly`. */
    method Friendly(side: Side) returns (bb: Bitboard)
      ensures bb == FriendlyOf(State(), side)
    {
      bb := UnionOfRow(SideIndex(side));
    }

    /** `enemy`. */
    method Enemy(side: Side) returns (bb: Bitboard)
      ensures bb == EnemyOf(State(), side)
    {
      var opposing := if side == White then Black else White;
      bb := UnionOfRow(SideIndex(opposing));
    }

    /** `occupied`. */
    method Occupied(side: Side) returns (bb: Bitboard)
      ensures bb == OccupiedOf(State(), side)
    {
      var enemy := Enemy(side);
      var friendly := Friendly(side);
      bb := enemy + friendly;
    }

    /** `legal_pawn_moves`; `None` where the source panics. */
    method LegalPawnMoves(ext: GameExternals, sqr: Coord, side: Side) returns (r: Option<Bitboard>)
      ensures r == PawnMoves(ext, State(), sqr, side)
    {
      if sqr.rank + 2 > 255 {
        return None;
      }
      var bb := PawnPushMoves(ext, sqr, side);
      var step := Step(sqr.rank, Direction(side));
      if step.None? {
        return None;
      }
      bb := PawnCaptureMoves(ext, sqr, side, step.value, bb);
      return Some(bb);
    }

    /** The standard movement of `legal_pawn_moves`. */
    method PawnPushMoves(ext: GameExternals, sqr: Coord, side: Side) returns (bb: Bitboard)
      ensures bb == PawnPushes(ext, State(), sqr, side)
    {
      var friendly := Friendly(side);
      var enemy := Enemy(side);
      var occupied := friendly + enemy;
      var moved := sqr.rank != StartRank(side);
      var single := ext.fromSquare(Coord(sqr.file, sqr.rank + 1));
      var double := ext.fromSquare(Coord(sqr.file, sqr.rank + 2));
      bb := Empty;
      if !moved && (single + double) * occupied == {} {
        bb := bb + (single + double);
      } else if single * occupied == {} {
        bb := bb + single;
      }
    }

    /** The attacking loop of `legal_pawn_moves`, on rank `y`. */
    method PawnCaptureMoves(ext: GameExternals, sqr: Coord, side: Side, y: nat, bb0: Bitboard) returns (bb: Bitboard)
      ensures bb == bb0 + PawnCaptures(ext, State(), sqr, side, y, PawnOffsets)
    {
      bb := bb0;
      var k := 0;
      while k < |PawnOffsets|
        invariant k <= |PawnOffsets|
        invariant bb == bb0 + PawnCaptures(ext, State(), sqr, side, y, PawnOffsets[..k])
      {
        assert PawnOffsets[..k + 1][..k] == PawnOffsets[..k];
        var x := Step(sqr.file, PawnOffsets[k]);
        if x.Some? {
          var mask := ext.fromSquare(Coord(x.value, y));
          var enemy := Enemy(side);
          bb := bb + mask * enemy;
        }
        k := k + 1;
      }
      assert PawnOffsets[..|PawnOffsets|] == PawnOffsets;
    }

    /** `legal_knight_moves`. */
    method LegalKnightMoves(ext: GameExternals, sqr: Coord, side: Side) returns (bb: Bitboard)
      ensures bb == KnightMoves(ext, State(), sqr, side)
    {
      bb := Empty;
      var k := 0;
      while k < |KnightRightMovement|
        invariant k <= |KnightRightMovement|
        invariant bb == KnightReach(ext, sqr, KnightRightMovement[..k])
      {
        assert KnightRightMovement[..k + 1][..k] == KnightRightMovement[..k];
        var (dx, dy) := KnightRightMovement[k];
        var x := Step(sqr.file, dx);
        var y := Step(sqr.rank, dy);
        if x.Some? && y.Some? {
          bb := bb + ext.fromSquare(Coord(x.value, y.value));
        }
        k := k + 1;
      }
      assert KnightRightMovement[..|KnightRightMovement|] == KnightRightMovement;
      var mirror := ext.mirrorH(bb);
      bb := bb + mirror;
      var friendly := Friendly(side);
      bb := bb * Not(friendly);
    }

    /** `generate_sliding_moves`. */
    method GenerateSlidingMoves(ext: GameExternals, sqr: Coord, side: Side, dirs: seq<(int, int)>) returns (bb: Bitboard)
      requires Moving(dirs)
      ensures bb == SlidingMoves(ext, State(), sqr, side, dirs)
    {
      var occupied := Occupied(side);
      var enemy := Enemy(side);
      bb := Empty;
      var k := 0;
      while k < |dirs|
        invariant k <= |dirs|
        invariant bb == Slides(ext, occupied, enemy, sqr, dirs[..k])
      {
        assert dirs[..k + 1][..k] == dirs[..k];
        bb := WalkDirection(ext, occupied, enemy, sqr, dirs[k].0, dirs[k].1, bb);
        k := k + 1;
      }
      assert dirs[..|dirs|] == dirs;
    }

    /** `legal_bishop_moves`. */
    method LegalBishopMoves(ext: GameExternals, sqr: Coord, side: Side) returns (bb: Bitboard)
      ensures bb == SlidingMoves(ext, State(), sqr, side, BishopMovement)
    {
      bb := GenerateSlidingMoves(ext, sqr, side, BishopMovement);
    }

    /** `legal_rook_moves`. */
    method LegalRookMoves(ext: GameExternals, sqr: Coord, side: Side) returns (bb: Bitboard)
      ensures bb == SlidingMoves(ext, State(), sqr, side, RookMovement)
    {
      bb := GenerateSlidingMoves(ext, sqr, side, RookMovement);
    }

    /** `legal_queen_moves`: the bishop's moves together with the rook's. */
    method LegalQueenMoves(ext: GameExternals, sqr: Coord, side: Side) returns (bb: Bitboard)
      ensures bb == SlidingMoves(ext, State(), sqr, side, BishopMovement) + SlidingMoves(ext, State(), sqr, side, RookMovement)
    {
      var diagonal := GenerateSlidingMoves(ext, sqr, side, BishopMovement);
      var straight := GenerateSlidingMoves(ext, sqr, side, RookMovement);
      bb := diagonal + straight;
    }

    /** `legal_king_moves`: a stub that yields no move. */
    method LegalKingMoves(sqr: Coord, side: Side) returns (bb: Bitboard)
      ensures bb == {}
    {
      bb := Empty;
    }
  }

  /** The inner `loop` of `generate_sliding_moves`, adding the walk in one
      direction to the moves gathered so far. */
  method WalkDirection(ext: GameExternals, occupied: Bitboard, enemy: Bitboard, sqr: Coord, dx: int, dy: int, bb0: Bitboard)
    returns (bb: Bitboard)
    requires dx != 0 || dy != 0
    ensures bb == bb0 + Walk(ext, occupied, enemy, sqr.file, sqr.rank, dx, dy)
  {
    bb := bb0;
    var x, y := sqr.file, sqr.rank;
    while true
      invariant bb0 + Walk(ext, occupied, enemy, sqr.file, sqr.rank, dx, dy) == bb + Walk(ext, occupied, enemy, x, y, dx, dy)
      decreases Gap(x, dx) + Gap(y, dy)
    {
      var nx := Step(x, dx);
      if nx.None? {
        break;
      }
      var ny := Step(y, dy);
      if ny.None? {
        break;
      }
      x, y := nx.value, ny.value;
      var mv := ext.fromSquare(Coord(x, y));
      if mv * enemy != {} {
        bb := bb + mv;
        break;
      } else if mv * occupied != {} {
        break;
      }
      bb := bb + mv;
    }
  }
}

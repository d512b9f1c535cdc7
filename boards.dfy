/** The board of chess_engine/src/board.rs: twelve piece bitboards, two side
    aggregates and four castling flags, with the queries the move generator asks
    and the one mutation (`place_piece`) everything else is built from.

    `Position` is the board's state as a value and carries the specification
    functions; the class `Board` holds the same three fields and updates them in
    place, each method proved against those functions. */
module Boards {
  import opened Wrappers
  import opened Squares
  import opened Pieces
  import opened Bitboards
  import W = Words

  /** Helpers the engine calls whose bodies are not part of this model.  Every
      operation that needs one takes them as a parameter. */
  datatype Externals = Externals(
    /** `Sides::other`. */
    other: Side -> Side,
    /** `ALL_SIDES`. */
    allSides: seq<Side>,
    /** `attacks::pawn_moves(square, side, occupied)`. */
    pawnMoves: (nat, Side, Bitboard) -> Bitboard,
    /** `Pieces::relative_strength`. */
    strength: Piece -> int,
    /** `Square::from_idx`. */
    fromIdx: nat -> Square)

  /** What the move generator relies on of `Square::from_idx`: for an index
      below 64 it gives back a square on the board with that index, as the
      `From<usize>` conversion of `square.rs` does. */
  predicate IndexesBoard(ext: Externals)
  {
    forall v: nat :: v < 64 ==> OnBoard(ext.fromIdx(v)) && Idx(ext.fromIdx(v)) == v
  }

  /** `from_idx` on an index below 64. */
  lemma FromIdxOnBoard(ext: Externals, v: nat)
    requires IndexesBoard(ext) && v < 64
    ensures OnBoard(ext.fromIdx(v)) && Idx(ext.fromIdx(v)) == v
  {
  }

  /** `from_idx` undoes `idx` on the board. */
  lemma FromIdxOfIdx(ext: Externals, s: Square)
    requires IndexesBoard(ext) && OnBoard(s)
    ensures ext.fromIdx(Idx(s)) == s
  {
  }

  /** The reading of the helpers that their names suggest: `other` swaps the two
      sides and `ALL_SIDES` lists both, White first.  Lemmas that need it say so. */
  predicate Conventional(ext: Externals)
  {
    ext.other(White) == Black && ext.other(Black) == White && ext.allSides == [White, Black]
  }

  /** `MoveRights`: the four castling flags. */
  datatype MoveRights = MoveRights(
    whiteKingSide: bool, whiteQueenSide: bool, blackKingSide: bool, blackQueenSide: bool)

  /** `MoveRights::default`: no castling right. */
  const NoRights: MoveRights := MoveRights(false, false, false, false)
  /** `MoveRights::new`: every castling right. */
  const AllRights: MoveRights := MoveRights(true, true, true, true)

  /** The fields of `Board`, as a value. */
  datatype Position = Position(pieces: BoardMatrix, sides: SideBoards, rights: MoveRights)

  /** `Board::default`: every bitboard zero, no castling right. */
  const DefaultPosition: Position := Position([EmptyRow, EmptyRow], [Empty, Empty], NoRights)

  // ---------------------------------------------------------------------------
  // Queries

  /** `occupied`: the squares of either side. */
  function Occupied(p: Position): Bitboard
  {
    OfSide(p.sides, White) + OfSide(p.sides, Black)
  }

  /** `empty`: `!occupied`. */
  function EmptySquares(p: Position): Bitboard
  {
    Not(Occupied(p))
  }

  /** `enemy`: the aggregate of `side.other()`. */
  function Enemy(ext: Externals, p: Position, side: Side): Bitboard
  {
    OfSide(p.sides, ext.other(side))
  }

  /** `friendly`: the aggregate of `side`. */
  function Friendly(p: Position, side: Side): Bitboard
  {
    OfSide(p.sides, side)
  }

  /** The first of `sides` whose aggregate holds `idx`. */
  function FirstSide(p: Position, sides: seq<Side>, idx: nat): (r: Option<Side>)
    ensures r.Some? ==> r.value in sides && idx in OfSide(p.sides, r.value)
    ensures r.None? ==> forall t :: t in sides ==> idx !in OfSide(p.sides, t)
    ensures r.Some? ==>
      exists n :: 0 <= n < |sides| && sides[n] == r.value &&
        forall m :: 0 <= m < n ==> idx !in OfSide(p.sides, sides[m])
  {
    if sides == [] then None
    else if idx in OfSide(p.sides, sides[0]) then Some(sides[0])
    else FirstSide(p, sides[1..], idx)
  }

  /** `get_side`: the first side of `ALL_SIDES` that holds the square, and White
      when none does. */
  function SideAt(ext: Externals, p: Position, idx: nat): (s: Side)
    ensures idx in OfSide(p.sides, s) || forall t :: t in ext.allSides ==> idx !in OfSide(p.sides, t)
    ensures (forall t :: t in ext.allSides ==> idx !in OfSide(p.sides, t)) ==> s == White
    ensures Conventional(ext) && idx in OfSide(p.sides, White) ==> s == White
  {
    match FirstSide(p, ext.allSides, idx)
    case Some(s) => s
    case None => White
  }

  /** The first of `kinds` whose bitboard of side `side` holds `idx`. */
  function FirstPiece(p: Position, side: Side, kinds: seq<Piece>, idx: nat): (r: Option<Piece>)
    ensures r.Some? ==> r.value in kinds && idx in OfPiece(p.pieces, side, r.value)
    ensures r.None? ==> forall k :: k in kinds ==> idx !in OfPiece(p.pieces, side, k)
    ensures r.Some? ==>
      exists n :: 0 <= n < |kinds| && kinds[n] == r.value &&
        forall m :: 0 <= m < n ==> idx !in OfPiece(p.pieces, side, kinds[m])
  {
    if kinds == [] then None
    else if idx in OfPiece(p.pieces, side, kinds[0]) then Some(kinds[0])
    else FirstPiece(p, side, kinds[1..], idx)
  }

  /** `get_piece`: the first kind, in `ALL_PIECES` order, whose bitboard of the
      side `get_side` names holds the square, and Pawn when none does. */
  function PieceAt(ext: Externals, p: Position, idx: nat): (k: Piece)
    ensures idx in OfPiece(p.pieces, SideAt(ext, p, idx), k) ||
      (k == Pawn && forall q: Piece :: idx !in OfPiece(p.pieces, SideAt(ext, p, idx), q))
    ensures forall q: Piece :: PieceIndex(q) < PieceIndex(k) ==> idx !in OfPiece(p.pieces, SideAt(ext, p, idx), q)
  {
    AllPiecesInOrder();
    match FirstPiece(p, SideAt(ext, p, idx), AllPieces, idx)
    case Some(k) => k
    case None => Pawn
  }

  /** `count_piece`: `count_ones` of one piece bitboard. */
  function CountPiece(p: Position, side: Side, piece: Piece): (n: nat)
    ensures n == |OfPiece(p.pieces, side, piece)|
    ensures n <= 64
  {
    CardBound(OfPiece(p.pieces, side, piece));
    |OfPiece(p.pieces, side, piece)|
  }

  /** A bitboard has at most 64 squares. */
  lemma CardBound(b: Bitboard)
    ensures |b| <= 64
  {
    assert b <= Range(0, 64);
    SubsetCard(b, Range(0, 64));
    RangeSize(0, 64);
  }

  lemma SubsetCard<T>(a: set<T>, b: set<T>)
    requires a <= b
    ensures |a| <= |b|
  {
    assert b == a + (b - a);
  }

  /** On a board whose two aggregates are disjoint, `get_side` names the side that
      holds the square, and White for an empty square. */
  lemma SideAtHolder(ext: Externals, p: Position, idx: nat, s: Side)
    requires Conventional(ext)
    requires OfSide(p.sides, White) * OfSide(p.sides, Black) == {}
    ensures idx in OfSide(p.sides, s) ==> SideAt(ext, p, idx) == s
    ensures idx !in Occupied(p) ==> SideAt(ext, p, idx) == White
  {
    if idx in OfSide(p.sides, s) {
      assert ext.allSides[0] == White && ext.allSides[1..] == [Black];
      assert idx !in OfSide(p.sides, White) * OfSide(p.sides, Black);
    }
  }

  // ---------------------------------------------------------------------------
  // place_piece

  /** `place_piece`: toggles the square in the side's aggregate and in the piece's
      bitboard. */
  function Place(p: Position, side: Side, piece: Piece, idx: nat): Position
    requires idx < 64
  {
    p.(sides := WithSide(p.sides, side, Xor(OfSide(p.sides, side), {idx})),
       pieces := WithPiece(p.pieces, side, piece, Xor(OfPiece(p.pieces, side, piece), {idx})))
  }

  /** `place_piece` changes exactly two bitboards, by the one square, and leaves
      every other bitboard and the castling flags as they were. */
  lemma PlaceFrame(p: Position, side: Side, piece: Piece, idx: nat)
    requires idx < 64
    ensures var r := Place(p, side, piece, idx);
      && (forall x :: x in OfSide(r.sides, side) <==> (x in OfSide(p.sides, side) <==> x != idx))
      && (forall x :: x in OfPiece(r.pieces, side, piece) <==> (x in OfPiece(p.pieces, side, piece) <==> x != idx))
      && (forall t :: t != side ==> OfSide(r.sides, t) == OfSide(p.sides, t))
      && (forall t, q :: (t, q) != (side, piece) ==> OfPiece(r.pieces, t, q) == OfPiece(p.pieces, t, q))
      && r.rights == p.rights
  {
  }

  /** Placing the same piece twice restores the board. */
  lemma PlaceTwice(p: Position, side: Side, piece: Piece, idx: nat)
    requires idx < 64
    ensures Place(Place(p, side, piece, idx), side, piece, idx) == p
  {
    var r := Place(Place(p, side, piece, idx), side, piece, idx);
    assert OfSide(r.sides, side) == OfSide(p.sides, side);
    assert OfPiece(r.pieces, side, piece) == OfPiece(p.pieces, side, piece);
    SidesExtensional(r.sides, p.sides);
    MatrixExtensional(r.pieces, p.pieces);
  }

  // ---------------------------------------------------------------------------
  // The aggregates and the piece bitboards

  /** The XOR of a row of piece bitboards. */
  function XorRow(row: seq<Bitboard>): Bitboard
  {
    if row == [] then {} else Xor(XorRow(row[..|row| - 1]), row[|row| - 1])
  }

  /** `iter().fold(Bitboard(0), |acc, x| acc | *x)`: the union of a row. */
  function UnionRow(row: seq<Bitboard>): Bitboard
  {
    if row == [] then {} else UnionRow(row[..|row| - 1]) + row[|row| - 1]
  }

  /** A square is in the fold of a row exactly when some entry of the row holds it. */
  lemma {:induction false} UnionRowMembers(row: seq<Bitboard>)
    ensures forall x :: x in UnionRow(row) <==> exists k :: 0 <= k < |row| && x in row[k]
  {
    if row != [] {
      var n := |row| - 1;
      UnionRowMembers(row[..n]);
      assert forall k :: 0 <= k < n ==> row[..n][k] == row[k];
    }
  }

  /** Each aggregate is the XOR of its side's six piece bitboards: the invariant
      every toggle of the engine keeps, since each toggles a square in a piece
      bitboard and in its side's aggregate together. */
  ghost predicate Consistent(p: Position)
  {
    forall s :: OfSide(p.sides, s) == XorRow(p.pieces[SideIndex(s)])
  }

  /** Toggling a square in one entry of a row toggles it in the row's XOR. */
  lemma {:induction false} XorRowToggle(row: seq<Bitboard>, k: nat, m: Bitboard)
    requires k < |row|
    ensures XorRow(row[k := Xor(row[k], m)]) == Xor(XorRow(row), m)
  {
    var n := |row| - 1;
    var row' := row[k := Xor(row[k], m)];
    if k < n {
      XorRowToggle(row[..n], k, m);
      assert row'[..n] == row[..n][k := Xor(row[k], m)];
    } else {
      assert row'[..n] == row[..n];
    }
  }

  /** `place_piece` keeps every aggregate the XOR of its side's piece bitboards. */
  lemma PlaceKeepsConsistent(p: Position, side: Side, piece: Piece, idx: nat)
    requires idx < 64 && Consistent(p)
    ensures Consistent(Place(p, side, piece, idx))
  {
    var r := Place(p, side, piece, idx);
    XorRowToggle(p.pieces[SideIndex(side)], PieceIndex(piece), {idx});
    forall s
      ensures OfSide(r.sides, s) == XorRow(r.pieces[SideIndex(s)])
    {
      if s == side {
        assert r.pieces[SideIndex(s)] == p.pieces[SideIndex(s)][PieceIndex(piece) := Xor(OfPiece(p.pieces, side, piece), {idx})];
      } else {
        assert r.pieces[SideIndex(s)] == p.pieces[SideIndex(s)];
      }
    }
  }

  // ---------------------------------------------------------------------------
  // Board::new

  /** The piece bitboards `Board::new` ORs into the default board, in
      `Pieces` order: the pawns `255 << 8` and `255 << (8 * 6)`, the rooks
      `1 | 1 << 7`, the knights `1 << 1 | 1 << 6`, the bishops `1 << 2 | 1 << 5`,
      the queens `1 << 3` and `1 << (8 * 7 + 4)`, the kings `1 << 4` and
      `1 << (8 * 7 + 3)`, Black's masks moved up by `8 * 7`.  Black's queen stands
      on 60 and its king on 59: White's back rank rotated by 180 degrees, so queen
      and king swap files relative to White's. */
  const WhiteStart: PieceBoards := [Range(8, 16), {0, 7}, {1, 6}, {2, 5}, {3}, {4}]
  const BlackStart: PieceBoards := [Range(48, 56), {56, 63}, {57, 62}, {58, 61}, {60}, {59}]

  /** The words `Board::new` ORs in are the rows above: `255 << k` is the rank
      of squares k to k + 7 and `1 << k` is the square k. */
  lemma StartMasks()
    ensures View(0xFF) == Range(0, 8)
      && Shift(View(0xFF), 8) == WhiteStart[0] && Shift(View(0xFF), 8 * 6) == BlackStart[0]
    ensures View(W.Bit(0)) + View(W.Bit(7)) == WhiteStart[1]
    ensures View(W.Bit(8 * 7)) + View(W.Bit(8 * 7 + 7)) == BlackStart[1]
    ensures View(W.Bit(1)) + View(W.Bit(6)) == WhiteStart[2]
    ensures View(W.Bit(8 * 7 + 1)) + View(W.Bit(8 * 7 + 6)) == BlackStart[2]
    ensures View(W.Bit(2)) + View(W.Bit(5)) == WhiteStart[3]
    ensures View(W.Bit(8 * 7 + 2)) + View(W.Bit(8 * 7 + 5)) == BlackStart[3]
    ensures View(W.Bit(3)) == WhiteStart[4] && View(W.Bit(8 * 7 + 4)) == BlackStart[4]
    ensures View(W.Bit(4)) == WhiteStart[5] && View(W.Bit(8 * 7 + 3)) == BlackStart[5]
  {
    LowRank();
    ShiftRange(0, 8, 8);
    ShiftRange(0, 8, 48);
    forall i: nat | i < 64
      ensures View(W.Bit(i)) == {i}
    {
      ConstantsAgree(i);
    }
  }

  /** The position `Board::new` builds. */
  ghost const StartPosition: Position :=
    Position([WhiteStart, BlackStart], [Range(0, 16), Range(48, 64)], NoRights)

  /** The start position: sixteen pieces a side on disjoint squares, each aggregate
      the union and the XOR of its piece bitboards, the kings on 4 and 59, the
      queens on 3 and 60, and no castling right. */
  lemma StartPositionFacts()
    ensures forall s :: |OfSide(StartPosition.sides, s)| == 16
    ensures OfSide(StartPosition.sides, White) * OfSide(StartPosition.sides, Black) == {}
    ensures forall s :: OfSide(StartPosition.sides, s) == UnionRow(StartPosition.pieces[SideIndex(s)])
    ensures Consistent(StartPosition)
    ensures OfPiece(StartPosition.pieces, White, King) == {4} && OfPiece(StartPosition.pieces, White, Queen) == {3}
    ensures OfPiece(StartPosition.pieces, Black, King) == {59} && OfPiece(StartPosition.pieces, Black, Queen) == {60}
    ensures StartPosition.rights == NoRights
  {
    StartLayout();
    StartCounts();
    StartAggregates();
  }

  lemma StartCounts()
    ensures forall s :: |OfSide(StartPosition.sides, s)| == 16
    ensures OfSide(StartPosition.sides, White) * OfSide(StartPosition.sides, Black) == {}
  {
    StartLayout();
    RangeSize(0, 16);
    RangeSize(48, 64);
    assert Range(0, 16) * Range(48, 64) == {};
  }

  lemma StartAggregates()
    ensures forall s :: OfSide(StartPosition.sides, s) == UnionRow(StartPosition.pieces[SideIndex(s)])
    ensures Consistent(StartPosition)
  {
    StartLayout();
    StartUnion();
    StartXor();
  }

  /** Where each field of the start position comes from. */
  lemma StartLayout()
    ensures OfSide(StartPosition.sides, White) == Range(0, 16)
    ensures OfSide(StartPosition.sides, Black) == Range(48, 64)
    ensures StartPosition.pieces[SideIndex(White)] == WhiteStart
    ensures StartPosition.pieces[SideIndex(Black)] == BlackStart
    ensures OfPiece(StartPosition.pieces, White, King) == {4} && OfPiece(StartPosition.pieces, White, Queen) == {3}
    ensures OfPiece(StartPosition.pieces, Black, King) == {59} && OfPiece(StartPosition.pieces, Black, Queen) == {60}
  {
  }

  /** The union of a row of six. */
  lemma UnionRowSix(row: seq<Bitboard>)
    requires |row| == 6
    ensures UnionRow(row) == row[0] + row[1] + row[2] + row[3] + row[4] + row[5]
  {
    assert UnionRow(row[..1]) == row[0] by {
      assert row[..1][..0] == [] && row[..1][0] == row[0];
    }
    assert UnionRow(row[..2]) == row[0] + row[1] by {
      assert row[..2][..1] == row[..1] && row[..2][1] == row[1];
    }
    assert UnionRow(row[..3]) == row[0] + row[1] + row[2] by {
      assert row[..3][..2] == row[..2] && row[..3][2] == row[2];
    }
    assert UnionRow(row[..4]) == row[0] + row[1] + row[2] + row[3] by {
      assert row[..4][..3] == row[..3] && row[..4][3] == row[3];
    }
    assert UnionRow(row[..5]) == row[0] + row[1] + row[2] + row[3] + row[4] by {
      assert row[..5][..4] == row[..4] && row[..5][4] == row[4];
    }
  }

  lemma StartUnion()
    ensures UnionRow(WhiteStart) == Range(0, 16)
    ensures UnionRow(BlackStart) == Range(48, 64)
  {
    StartUnionWhite();
    StartUnionBlack();
  }

  lemma StartUnionWhite()
    ensures UnionRow(WhiteStart) == Range(0, 16)
  {
    UnionRowSix(WhiteStart);
    assert WhiteStart[0] == Range(8, 16) && WhiteStart[1] == {0, 7} && WhiteStart[2] == {1, 6};
    assert WhiteStart[3] == {2, 5} && WhiteStart[4] == {3} && WhiteStart[5] == {4};
    WhiteSquares();
  }

  lemma WhiteSquares()
    ensures Range(8, 16) + {0, 7} + {1, 6} + {2, 5} + {3} + {4} == Range(0, 16)
  {
  }

  lemma StartUnionBlack()
    ensures UnionRow(BlackStart) == Range(48, 64)
  {
    UnionRowSix(BlackStart);
    assert BlackStart[0] == Range(48, 56) && BlackStart[1] == {56, 63} && BlackStart[2] == {57, 62};
    assert BlackStart[3] == {58, 61} && BlackStart[4] == {60} && BlackStart[5] == {59};
    BlackSquares();
  }

  lemma BlackSquares()
    ensures Range(48, 56) + {56, 63} + {57, 62} + {58, 61} + {60} + {59} == Range(48, 64)
  {
  }

  /** On disjoint bitboards XOR is union. */
  lemma XorDisjoint(a: Bitboard, b: Bitboard)
    requires a * b == {}
    ensures Xor(a, b) == a + b
  {
    forall x | x in a
      ensures x !in b
    {
      assert x !in a * b;
    }
  }

  /** On pairwise disjoint bitboards XOR and union agree. */
  lemma {:induction false} XorRowDisjoint(row: seq<Bitboard>)
    requires forall i, j :: 0 <= i < j < |row| ==> row[i] * row[j] == {}
    ensures XorRow(row) == UnionRow(row)
  {
    if row != [] {
      var n := |row| - 1;
      var init := row[..n];
      assert forall i :: 0 <= i < n ==> init[i] == row[i];
      XorRowDisjoint(init);
      UnionRowMembers(init);
      forall x | x in UnionRow(init)
        ensures x !in row[n]
      {
        var k :| 0 <= k < n && x in init[k];
        assert x in row[k];
        assert x !in row[k] * row[n];
      }
      XorDisjoint(UnionRow(init), row[n]);
    }
  }

  lemma StartXor()
    ensures XorRow(WhiteStart) == UnionRow(WhiteStart)
    ensures XorRow(BlackStart) == UnionRow(BlackStart)
  {
    StartRowsPairwise();
    XorRowDisjoint(WhiteStart);
    XorRowDisjoint(BlackStart);
  }

  /** No square of the start rows stands under two kinds. */
  lemma StartRowsPairwise()
    ensures forall i, j :: 0 <= i < j < 6 ==> WhiteStart[i] * WhiteStart[j] == {}
    ensures forall i, j :: 0 <= i < j < 6 ==> BlackStart[i] * BlackStart[j] == {}
  {
  }

  // ---------------------------------------------------------------------------
  // The board object

  /** `Board`, updated in place by `place_piece`, `from_fen` and the moves. */
  class Board {
    var pieces: BoardMatrix
    var sides: SideBoards
    var moveRights: MoveRights

    /** The fields as a value. */
    function State(): Position
      reads this
    {
      Position(pieces, sides, moveRights)
    }

    /** `Board::default`. */
    constructor Default()
      ensures State() == DefaultPosition
    {
      pieces := [EmptyRow, EmptyRow];
      sides := [Empty, Empty];
      moveRights := NoRights;
    }

    /** `Board::new`: the default board, each piece bitboard OR-ed with its start
        squares, then each aggregate folded from its side's row. */
    constructor New()
      ensures State() == StartPosition
    {
      var m: BoardMatrix := [WhiteStart, BlackStart];
      var s: SideBoards := [Empty, Empty];
      s := WithSide(s, White, UnionRow(m[SideIndex(White)]));
      s := WithSide(s, Black, UnionRow(m[SideIndex(Black)]));
      StartLayout();
      StartUnion();
      SidesExtensional(s, StartPosition.sides);
      pieces := m;
      sides := s;
      moveRights := NoRights;
    }

    /** `place_piece`. */
    method PlacePiece(side: Side, piece: Piece, square: Square)
      requires Idx(square) < 64
      modifies this
      ensures State() == Place(old(State()), side, piece, Idx(square))
    {
      sides := WithSide(sides, side, Xor(OfSide(sides, side), {Idx(square)}));
      pieces := WithPiece(pieces, side, piece, Xor(OfPiece(pieces, side, piece), {Idx(square)}));
    }

    /** `get_side`: scans `ALL_SIDES` and returns the first side holding the
        square, else White. */
    method GetSide(ext: Externals, pos: Square) returns (side: Side)
      requires Idx(pos) < 64
      ensures side == SideAt(ext, State(), Idx(pos))
    {
      var idx := Idx(pos);
      var k := 0;
      while k < |ext.allSides|
        invariant k <= |ext.allSides|
        invariant FirstSide(State(), ext.allSides, idx) == FirstSide(State(), ext.allSides[k..], idx)
      {
        var s := ext.allSides[k];
        if idx in OfSide(sides, s) {
          return s;
        }
        assert ext.allSides[k..][1..] == ext.allSides[k + 1..];
        k := k + 1;
      }
      return White;
    }

    /** `get_piece`: asks `get_side`, then scans `ALL_PIECES` for the first kind
        whose bitboard holds the square, else Pawn. */
    method GetPiece(ext: Externals, pos: Square) returns (piece: Piece)
      requires Idx(pos) < 64
      ensures piece == PieceAt(ext, State(), Idx(pos))
    {
      var side := GetSide(ext, pos);
      var idx := Idx(pos);
      var k := 0;
      while k < |AllPieces|
        invariant k <= |AllPieces|
        invariant FirstPiece(State(), side, AllPieces, idx) == FirstPiece(State(), side, AllPieces[k..], idx)
      {
        var q := AllPieces[k];
        if idx in OfPiece(pieces, side, q) {
          return q;
        }
        assert AllPieces[k..][1..] == AllPieces[k + 1..];
        k := k + 1;
      }
      return Pawn;
    }

    /** `#[derive(Clone)]`: a fresh board with the same fields. */
    method Clone() returns (b: Board)
      ensures fresh(b) && b.State() == State()
    {
      b := new Board.Default();
      b.pieces := pieces;
      b.sides := sides;
      b.moveRights := moveRights;
    }
  }

  // ---------------------------------------------------------------------------
  // The board invariant the moves rely on

  /** A board as chess means it: no square on both sides, no square under two
      kinds of one side, and each aggregate exactly the union of its side's piece
      bitboards. */
  ghost predicate WellFormed(p: Position)
  {
    SidesDisjoint(p) && KindsDisjoint(p) && AggregatesExact(p)
  }

  /** No square on both sides. */
  ghost predicate SidesDisjoint(p: Position)
  {
    OfSide(p.sides, White) * OfSide(p.sides, Black) == {}
  }

  /** No square under two kinds of one side. */
  ghost predicate KindsDisjoint(p: Position)
  {
    forall s, q1, q2 :: q1 != q2 ==> OfPiece(p.pieces, s, q1) * OfPiece(p.pieces, s, q2) == {}
  }

  /** Each aggregate holds exactly the squares of its side's pieces. */
  ghost predicate AggregatesExact(p: Position)
  {
    forall s, x :: x in OfSide(p.sides, s) <==> exists q :: x in OfPiece(p.pieces, s, q)
  }

  /** The square `idx` holds a piece of side `s` and kind `k` and no other kind of
      that side, and the two aggregates are disjoint. */
  ghost predicate SoleOccupant(p: Position, s: Side, k: Piece, idx: nat)
  {
    && OfSide(p.sides, White) * OfSide(p.sides, Black) == {}
    && idx in OfSide(p.sides, s) && idx in OfPiece(p.pieces, s, k)
    && forall q :: q != k ==> idx !in OfPiece(p.pieces, s, q)
  }

  /** On a well-formed board every piece is the sole occupant of its square. */
  lemma WellFormedSole(p: Position, s: Side, k: Piece, idx: nat)
    requires WellFormed(p) && idx in OfPiece(p.pieces, s, k)
    ensures SoleOccupant(p, s, k, idx)
  {
    forall q | q != k
      ensures idx !in OfPiece(p.pieces, s, q)
    {
      assert idx !in OfPiece(p.pieces, s, q) * OfPiece(p.pieces, s, k);
    }
  }

  /** `get_side` and `get_piece` name the sole occupant of a square. */
  lemma OccupantAt(ext: Externals, p: Position, s: Side, k: Piece, idx: nat)
    requires Conventional(ext) && SoleOccupant(p, s, k, idx)
    ensures SideAt(ext, p, idx) == s && PieceAt(ext, p, idx) == k
  {
    SideAtHolder(ext, p, idx, s);
  }

  /** `friendly` and `enemy` split `occupied` between the mover and its
      opponent, and each side's enemy squares are the other side's friendly
      squares; on a board whose aggregates are disjoint the split is a
      partition. */
  lemma SideQueries(ext: Externals, p: Position, side: Side)
    requires Conventional(ext)
    ensures Occupied(p) == Friendly(p, side) + Enemy(ext, p, side)
    ensures Enemy(ext, p, side) == Friendly(p, ext.other(side))
    ensures SidesDisjoint(p) <==> Friendly(p, side) * Enemy(ext, p, side) == {}
  {
  }

  /** On a well-formed board `empty` is exactly the squares below 64 that no
      piece bitboard of either side holds. */
  lemma EmptyMeaning(p: Position)
    requires WellFormed(p)
    ensures forall x: nat :: x in EmptySquares(p) <==> x < 64 && forall s, k :: x !in OfPiece(p.pieces, s, k)
  {
  }

  /** The start position is well formed. */
  lemma StartWellFormed()
    ensures WellFormed(StartPosition)
  {
    StartPositionFacts();
    forall s, i, j | 0 <= i < j < PiecesCount
      ensures StartPosition.pieces[SideIndex(s)][i] * StartPosition.pieces[SideIndex(s)][j] == {}
    {
      StartRowsDisjoint(s, i, j);
    }
    WellFormedFromRows(StartPosition);
  }

  /** A board whose aggregates are disjoint and are the unions of rows of pairwise
      disjoint piece bitboards is well formed. */
  lemma WellFormedFromRows(p: Position)
    requires OfSide(p.sides, White) * OfSide(p.sides, Black) == {}
    requires forall s :: OfSide(p.sides, s) == UnionRow(p.pieces[SideIndex(s)])
    requires forall s, i, j :: 0 <= i < j < PiecesCount ==> p.pieces[SideIndex(s)][i] * p.pieces[SideIndex(s)][j] == {}
    ensures WellFormed(p)
  {
    AllPiecesInOrder();
    forall s, x
      ensures x in OfSide(p.sides, s) <==> exists q :: x in OfPiece(p.pieces, s, q)
    {
      var row := p.pieces[SideIndex(s)];
      UnionRowMembers(row);
      if x in OfSide(p.sides, s) {
        var k :| 0 <= k < |row| && x in row[k];
        assert x in OfPiece(p.pieces, s, AllPieces[k]);
      }
    }
    forall s, q1, q2 | q1 != q2
      ensures OfPiece(p.pieces, s, q1) * OfPiece(p.pieces, s, q2) == {}
    {
      var i, j := PieceIndex(q1), PieceIndex(q2);
      PieceIndexInjective(q1, q2);
      if i > j {
        assert p.pieces[SideIndex(s)][j] * p.pieces[SideIndex(s)][i] == {};
      }
    }
  }

  /** The start rows hold each square under at most one kind. */
  lemma StartRowsDisjoint(s: Side, i: nat, j: nat)
    requires i < 6 && j < 6 && i != j
    ensures StartPosition.pieces[SideIndex(s)][i] * StartPosition.pieces[SideIndex(s)][j] == {}
  {
    StartLayout();
    StartRowsPairwise();
    assert StartPosition.pieces[SideIndex(s)] == if s == White then WhiteStart else BlackStart;
    if i > j {
      assert StartPosition.pieces[SideIndex(s)][j] * StartPosition.pieces[SideIndex(s)][i] == {};
    }
  }
}

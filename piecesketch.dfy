/** The piece sketch of chess_engine/src/pieces/piece.rs: a piece with its
    colour, kind and a moved flag, its material value, and the pawn pushes
    it proposes.  The `Position` and `Move` types it imports from `game` are
    not defined there; they are modelled here as a row/column pair and a
    basic from/to move. */
module PieceSketch {

  datatype Colour = White | Black
  datatype PieceType = Pawn | Knight | Bishop | Rook | Queen | King

  /** `game::Position`: a row and a column. */
  datatype Position = Position(row: nat, col: nat)

  /** `Move::Basic(from, to)`, the only variant the sketch builds. */
  datatype Move = Basic(from: Position, to: Position)

  /** `Piece`: its colour, its kind and whether it has moved. */
  datatype Piece = Piece(colour: Colour, pieceType: PieceType, hasMoved: bool)

  /** `Piece::new`: a piece of the given colour and kind that has not moved. */
  function New(colour: Colour, pieceType: PieceType): (r: Piece)
    ensures ColourOf(r) == colour && PieceTypeOf(r) == pieceType && !r.hasMoved
  {
    Piece(colour, pieceType, false)
  }

  /** `piece_type`. */
  function PieceTypeOf(p: Piece): PieceType
  {
    p.pieceType
  }

  /** `colour`. */
  function ColourOf(p: Piece): Colour
  {
    p.colour
  }

  /** `value`: the material value of the piece's kind, as an `i8`. */
  function Value(p: Piece): (v: int)
    ensures -128 <= v <= 127
  {
    match p.pieceType
    case Pawn => 1
    case Knight => 3
    case Bishop => 3
    case Rook => 5
    case Queen => 9
    case King => 0
  }

  /** The value table: pawn 1, knight and bishop 3, rook 5, queen 9, king 0;
      only the king is worth nothing, and the colour and the moved flag play
      no part. */
  lemma ValueTable(c: Colour, moved: bool)
    ensures Value(Piece(c, Pawn, moved)) == 1
    ensures Value(Piece(c, Knight, moved)) == 3 && Value(Piece(c, Bishop, moved)) == 3
    ensures Value(Piece(c, Rook, moved)) == 5
    ensures Value(Piece(c, Queen, moved)) == 9
    ensures Value(Piece(c, King, moved)) == 0
    ensures forall p: Piece :: Value(p) == 0 <==> p.pieceType == King
  {
  }

  /** `valid_pawn_moves` as a value: from rows up to 5 the one-row push and,
      for a pawn that has not moved, the two-row push after it. */
  function PawnPushes(pos: Position, hasMoved: bool): (r: seq<Move>)
    ensures pos.row > 5 ==> r == []
    ensures pos.row <= 5 ==> |r| == (if hasMoved then 1 else 2)
    ensures pos.row <= 5 ==> r[0] == Basic(pos, Position(pos.row + 1, pos.col))
    ensures pos.row <= 5 && !hasMoved ==> r[1] == Basic(pos, Position(pos.row + 2, pos.col))
  {
    if pos.row <= 5 then
      [Basic(pos, Position(pos.row + 1, pos.col))] +
      (if pos.row <= 6 && !hasMoved then [Basic(pos, Position(pos.row + 2, pos.col))] else [])
    else []
  }

  /** At most two moves, each from `pos`, keeping its column and moving one
      or two rows up. */
  lemma PawnPushesShape(pos: Position, hasMoved: bool)
    ensures |PawnPushes(pos, hasMoved)| <= 2
    ensures forall m :: m in PawnPushes(pos, hasMoved) ==>
      m.from == pos && m.to.col == pos.col && pos.row + 1 <= m.to.row <= pos.row + 2
  {
    var r := PawnPushes(pos, hasMoved);
    forall m | m in r
      ensures m.from == pos && m.to.col == pos.col && pos.row + 1 <= m.to.row <= pos.row + 2
    {
      var k :| 0 <= k < |r| && r[k] == m;
    }
  }

  /** `valid_pawn_moves`: pushes the moves onto a fresh vector.  The board
      argument is not read. */
  method ValidPawnMoves(pos: Position, hasMoved: bool) returns (moves: seq<Move>)
    ensures moves == PawnPushes(pos, hasMoved)
  {
    moves := [];
    if pos.row <= 5 {
      moves := moves + [Basic(pos, Position(pos.row + 1, pos.col))];
      if pos.row <= 6 && !hasMoved {
        moves := moves + [Basic(pos, Position(pos.row + 2, pos.col))];
      }
    }
  }

  /** `available_moves`: the pawn pushes for a pawn, nothing for any other kind. */
  method AvailableMoves(p: Piece, pos: Position) returns (moves: seq<Move>)
    ensures p.pieceType == Pawn ==> moves == PawnPushes(pos, p.hasMoved)
    ensures p.pieceType != Pawn ==> moves == []
  {
    match p.pieceType
    case Pawn =>
      moves := ValidPawnMoves(pos, p.hasMoved);
    case _ =>
      moves := [];
  }
}

/** The move generator of chess_engine/src/board.rs: `pseudo_legal_moves`, and
    `legal_moves`, `is_check`, `is_checkmate` and `is_stalemate` built on it.

    The specification functions follow the source's loops: kinds in `ALL_PIECES`
    order, then squares 0..63, then for one piece its quiet moves, its captures
    and (for a king) one castle.  Each list function says what every move it
    emits satisfies (`MoveOf`), and the lemma `PseudoLegalComplete` says that every
    move satisfying it is emitted.  The methods walk the
    same loops over a `Board` and are proved to build the same lists. */
module MoveGen {
  import opened Wrappers
  import opened Squares
  import opened Pieces
  import opened Bitboards
  import opened RayGeometry
  import opened Attacks
  import opened Boards
  import opened Moves

  /** `WHITE_PROMOTION_ROW`, `0xFF << (8 * 7)`. */
  const WhitePromotionRow: Bitboard := Range(56, 64)
  /** `BLACK_PROMOTION_ROW`, `0xFF`. */
  const BlackPromotionRow: Bitboard := Range(0, 8)
  /** `QUEEN_SIDE_CASTLE`, `0b1110`. */
  const QueenSideCastle: Bitboard := Range(1, 4)
  /** `KING_SIDE_CASTLE`, `0b01100000`. */
  const KingSideCastle: Bitboard := Range(5, 7)

  /** The promotion row of the side to move. */
  function PromotionRow(side: Side): Bitboard
  {
    match side
    case White => WhitePromotionRow
    case Black => BlackPromotionRow
  }

  /** The pawn capture offsets of the side to move. */
  function PawnDeltas(side: Side): seq<int>
  {
    match side
    case Black => BlackPawnDeltas
    case White => WhitePawnDeltas
  }

  // ---------------------------------------------------------------------------
  // One piece

  /** `bb`: what the piece of kind `piece` on square `i` reaches.  Pawns reach the
      enemy squares of their capture offsets and the empty squares `pawn_moves`
      names; sliders stop at the nearest occupied square of each ray; knights and
      kings take their fixed offsets.  Friendly squares are still in it. */
  function Reach(ext: Externals, p: Position, side: Side, piece: Piece, i: nat): Bitboard
    requires i < 64
  {
    var occupied := Occupied(p);
    match piece
    case Pawn =>
      Targets(i, PawnDeltas(side)) * Enemy(ext, p, side) + ext.pawnMoves(i, side, occupied) * EmptySquares(p)
    case Rook => Sliding(i, occupied, RookRayIndex)
    case Knight => Targets(i, KnightDeltas)
    case Bishop => Sliding(i, occupied, BishopRayIndex)
    case Queen => Sliding(i, occupied, RookRayIndex) + Sliding(i, occupied, BishopRayIndex)
    case King => Targets(i, KingDeltas)
  }

  /** Where a move of the piece of kind `piece` lands, given the squares `bb` it
      reaches: a quiet move to an empty square of `bb` (a basic move for every kind
      but the pawn, one of the four promotions for a pawn reaching its promotion
      row), a capture of an enemy square of `bb` naming what `get_piece` finds
      there, or a castle of the king's side that the castling branch offers. */
  predicate Lands(ext: Externals, p: Position, side: Side, piece: Piece, bb: Bitboard, m: Move)
  {
    match m
    case Castle(s, kingSide) => s == side && piece == King && CastleOffered(p, side, kingSide)
    case Basic(_, to) =>
      piece != Pawn && Idx(to) in bb && Idx(to) in EmptySquares(p)
    case Promotion(_, to, k) =>
      piece == Pawn && Idx(to) in bb && Idx(to) in EmptySquares(p)
      && Idx(to) in PromotionRow(side) && k in PromotionPieces()
    case Capture(_, to, c) =>
      Idx(to) in bb && Idx(to) in Enemy(ext, p, side) && c == PieceAt(ext, p, Idx(to))
  }

  /** A move of the piece of kind `piece` when `reach(piece, i)` is what the piece
      on `i` reaches: a castle of the side by its king, offered from a square of
      the king's bitboard whose `bb` is not empty, or a move between two squares
      on the board from a square of the piece's bitboard that lands as `Lands`
      says. */
  predicate MoveWithin(ext: Externals, p: Position, side: Side, piece: Piece, reach: (Piece, nat) -> Bitboard, m: Move)
  {
    if m.Castle? then Lands(ext, p, side, piece, {}, m) && CastleFrom(p, side, reach)
    else
      OnBoard(m.from) && OnBoard(m.to) && Idx(m.from) in OfPiece(p.pieces, side, piece)
      && Lands(ext, p, side, piece, reach(piece, Idx(m.from)), m)
  }

  /** Some square of the board holds a king of `side` that reaches a square: the
      square loop reaches the castling branch only then. */
  predicate CastleFrom(p: Position, side: Side, reach: (Piece, nat) -> Bitboard)
  {
    exists i: nat :: i < 64 && i in OfPiece(p.pieces, side, King) && reach(King, i) != {}
  }

  /** What each piece of `side` reaches from each square, as `bb` is computed. */
  function ReachOn(ext: Externals, p: Position, side: Side): (Piece, nat) -> Bitboard
  {
    (piece: Piece, i: nat) => if i < 64 then Reach(ext, p, side, piece, i) else {}
  }

  /** A move the piece of kind `piece` of side `side` may make. */
  predicate MoveOf(ext: Externals, p: Position, side: Side, piece: Piece, m: Move)
  {
    MoveWithin(ext, p, side, piece, ReachOn(ext, p, side), m)
  }

  /** A move some piece of `side` may make. */
  predicate Generated(ext: Externals, p: Position, side: Side, m: Move)
  {
    OnBoardSquares(m) && exists k: Piece :: MoveOf(ext, p, side, k, m)
  }

  // ---------------------------------------------------------------------------
  // The loops of pseudo_legal_moves, as functions

  /** The promotions from `from` to `to`, one per kind, in order. */
  function Promotions(from: Square, to: Square, kinds: seq<Piece>): (r: seq<Move>)
    ensures |r| == |kinds|
    ensures forall k :: 0 <= k < |r| ==> r[k] == Promotion(from, to, kinds[k])
  {
    if kinds == [] then []
    else
      var n := |kinds| - 1;
      Promotions(from, to, kinds[..n]) + [Promotion(from, to, kinds[n])]
  }

  /** What the quiet-move loop emits for the empty reached square `j`. */
  function QuietAt(ext: Externals, side: Side, piece: Piece, i: nat, j: nat): seq<Move>
  {
    if piece != Pawn then [Basic(ext.fromIdx(i), ext.fromIdx(j))]
    else if j in PromotionRow(side) then Promotions(ext.fromIdx(i), ext.fromIdx(j), PromotionPieces())
    else []
  }

  /** The quiet-move loop over the squares `0 .. n - 1` of `basic`. */
  function QuietMoves(ext: Externals, side: Side, piece: Piece, i: nat, basic: Bitboard, n: nat): seq<Move>
  {
    if n == 0 then []
    else QuietMoves(ext, side, piece, i, basic, n - 1) + (if n - 1 in basic then QuietAt(ext, side, piece, i, n - 1) else [])
  }

  /** The capture loop over the squares `0 .. n - 1` of `captures`, each capture
      naming the kind `get_piece` finds on its target. */
  function CaptureMoves(ext: Externals, p: Position, i: nat, captures: Bitboard, n: nat): seq<Move>
  {
    if n == 0 then []
    else
      CaptureMoves(ext, p, i, captures, n - 1)
      + (if n - 1 in captures then [Capture(ext.fromIdx(i), ext.fromIdx(n - 1), PieceAt(ext, p, n - 1))] else [])
  }

  /** The castling branch for a king of `side`: the king side when its squares
      are empty and the right is held, else the queen side on the same terms.
      Black's masks are White's shifted up seven rows. */
  function CastleMoves(p: Position, side: Side): seq<Move>
  {
    var occupied := Occupied(p);
    match side
    case White =>
      if occupied * KingSideCastle == {} && p.rights.whiteKingSide then [Castle(White, true)]
      else if occupied * QueenSideCastle == {} && p.rights.whiteQueenSide then [Castle(White, false)]
      else []
    case Black =>
      if occupied * Shift(KingSideCastle, 8 * 7) == {} && p.rights.blackKingSide then [Castle(Black, true)]
      else if occupied * Shift(QueenSideCastle, 8 * 7) == {} && p.rights.blackQueenSide then [Castle(Black, false)]
      else []
  }

  /** The rest of the square loop's body once `bb` is known: nothing when it is
      empty; otherwise the quiet moves, the captures and, for a king, the castle. */
  function Emit(ext: Externals, p: Position, side: Side, piece: Piece, i: nat, bb: Bitboard): seq<Move>
  {
    if bb == {} then []
    else
      QuietMoves(ext, side, piece, i, bb * EmptySquares(p), 64)
      + CaptureMoves(ext, p, i, bb * Enemy(ext, p, side), 64)
      + (if piece == King then CastleMoves(p, side) else [])
  }

  /** The body of the square loop for square `i`: nothing when the piece bitboard
      misses `i`, else what `Emit` gives for the piece's `bb`. */
  function SquareMoves(ext: Externals, p: Position, side: Side, piece: Piece, reach: (Piece, nat) -> Bitboard, i: nat): seq<Move>
  {
    if i !in OfPiece(p.pieces, side, piece) then []
    else Emit(ext, p, side, piece, i, reach(piece, i))
  }

  /** The square loop over `0 .. n - 1` for one kind. */
  function PieceMoves(ext: Externals, p: Position, side: Side, piece: Piece, reach: (Piece, nat) -> Bitboard, n: nat): seq<Move>
  {
    if n == 0 then []
    else PieceMoves(ext, p, side, piece, reach, n - 1) + SquareMoves(ext, p, side, piece, reach, n - 1)
  }

  /** The kind loop over `kinds`. */
  function KindsMoves(ext: Externals, p: Position, side: Side, kinds: seq<Piece>, reach: (Piece, nat) -> Bitboard): seq<Move>
  {
    if kinds == [] then []
    else
      var n := |kinds| - 1;
      KindsMoves(ext, p, side, kinds[..n], reach) + PieceMoves(ext, p, side, kinds[n], reach, 64)
  }

  /** `pseudo_legal_moves`: every move the pieces of `side` can make, ignoring
      whether it leaves the own king attacked. */
  function PseudoLegal(ext: Externals, p: Position, side: Side): seq<Move>
  {
    KindsMoves(ext, p, side, AllPieces, ReachOn(ext, p, side))
  }

  // ---------------------------------------------------------------------------
  // Every emitted move is one the piece may make

  /** What the quiet-move loop emits for one empty square of `bb`. */
  lemma QuietAtSound(ext: Externals, p: Position, side: Side, piece: Piece, i: nat, j: nat, bb: Bitboard)
    requires IndexesBoard(ext)
    requires i < 64 && j in bb * EmptySquares(p)
    ensures forall m :: m in QuietAt(ext, side, piece, i, j) ==>
      !m.Castle? && OnBoard(m.from) && OnBoard(m.to) && Idx(m.from) == i && Lands(ext, p, side, piece, bb, m)
  {
    var from, to := ext.fromIdx(i), ext.fromIdx(j);
    FromIdxOnBoard(ext, i);
    FromIdxOnBoard(ext, j);
    if piece == Pawn && j in PromotionRow(side) {
      var kinds := PromotionPieces();
      forall m | m in Promotions(from, to, kinds)
        ensures m.Promotion? && m.from == from && m.to == to && m.piece in kinds
      {
        var k :| 0 <= k < |kinds| && Promotions(from, to, kinds)[k] == m;
      }
    }
  }

  /** The quiet moves for `i` leave `i` and land on empty squares of `bb`. */
  lemma {:induction false} QuietMovesSound(ext: Externals, p: Position, side: Side, piece: Piece, i: nat, bb: Bitboard, n: nat)
    requires IndexesBoard(ext)
    requires i < 64
    ensures forall m :: m in QuietMoves(ext, side, piece, i, bb * EmptySquares(p), n) ==>
      !m.Castle? && OnBoard(m.from) && OnBoard(m.to) && Idx(m.from) == i && Lands(ext, p, side, piece, bb, m)
  {
    if n > 0 {
      QuietMovesSound(ext, p, side, piece, i, bb, n - 1);
      if n - 1 in bb * EmptySquares(p) {
        QuietAtSound(ext, p, side, piece, i, n - 1, bb);
      }
    }
  }

  /** The captures for `i` leave `i` and take enemy squares of `bb`. */
  lemma {:induction false} CaptureMovesSound(ext: Externals, p: Position, side: Side, piece: Piece, i: nat, bb: Bitboard, n: nat)
    requires IndexesBoard(ext)
    requires i < 64
    ensures forall m :: m in CaptureMoves(ext, p, i, bb * Enemy(ext, p, side), n) ==>
      !m.Castle? && OnBoard(m.from) && OnBoard(m.to) && Idx(m.from) == i && Lands(ext, p, side, piece, bb, m)
  {
    if n > 0 {
      CaptureMovesSound(ext, p, side, piece, i, bb, n - 1);
      var prev := CaptureMoves(ext, p, i, bb * Enemy(ext, p, side), n - 1);
      if n - 1 in bb * Enemy(ext, p, side) {
        var last := Capture(ext.fromIdx(i), ext.fromIdx(n - 1), PieceAt(ext, p, n - 1));
        CaptureAtSound(ext, p, side, piece, i, n - 1, bb);
        forall m | m in prev + [last]
          ensures !m.Castle? && OnBoard(m.from) && OnBoard(m.to) && Idx(m.from) == i && Lands(ext, p, side, piece, bb, m)
        {
          if m !in prev {
            assert m == last;
          }
        }
      }
    }
  }

  /** The one capture the capture loop emits for an enemy square of `bb`. */
  lemma CaptureAtSound(ext: Externals, p: Position, side: Side, piece: Piece, i: nat, j: nat, bb: Bitboard)
    requires IndexesBoard(ext)
    requires i < 64 && j in bb * Enemy(ext, p, side)
    ensures var m := Capture(ext.fromIdx(i), ext.fromIdx(j), PieceAt(ext, p, j));
      OnBoard(m.from) && OnBoard(m.to) && Idx(m.from) == i && Lands(ext, p, side, piece, bb, m)
  {
    FromIdxOnBoard(ext, i);
    FromIdxOnBoard(ext, j);
  }

  /** Every move `Emit` gives leaves `i` and lands as `Lands` says in `bb`, or
      is a castle the castling branch offers, given only when `bb` is not empty. */
  lemma EmitSound(ext: Externals, p: Position, side: Side, piece: Piece, i: nat, bb: Bitboard)
    requires IndexesBoard(ext)
    requires i < 64
    ensures forall m :: m in Emit(ext, p, side, piece, i, bb) ==>
      if m.Castle? then Lands(ext, p, side, piece, {}, m) && bb != {}
      else OnBoard(m.from) && OnBoard(m.to) && Idx(m.from) == i && Lands(ext, p, side, piece, bb, m)
  {
    QuietMovesSound(ext, p, side, piece, i, bb, 64);
    CaptureMovesSound(ext, p, side, piece, i, bb, 64);
    CastleMovesSpec(p, side);
  }

  /** The square loop for `i` emits moves of the piece on `i`. */
  lemma SquareMovesSound(ext: Externals, p: Position, side: Side, piece: Piece, reach: (Piece, nat) -> Bitboard, i: nat)
    requires IndexesBoard(ext)
    requires i < 64
    ensures forall m :: m in SquareMoves(ext, p, side, piece, reach, i) ==>
      OnBoardSquares(m) && MoveWithin(ext, p, side, piece, reach, m)
  {
    if i in OfPiece(p.pieces, side, piece) {
      EmitSound(ext, p, side, piece, i, reach(piece, i));
      forall m | m in SquareMoves(ext, p, side, piece, reach, i) && m.Castle?
        ensures CastleFrom(p, side, reach)
      {
        assert piece == King;
      }
    }
  }

  /** The square loop for one kind emits moves of that kind. */
  lemma {:induction false} PieceMovesSound(ext: Externals, p: Position, side: Side, piece: Piece, reach: (Piece, nat) -> Bitboard, n: nat)
    requires IndexesBoard(ext)
    requires n <= 64
    ensures forall m :: m in PieceMoves(ext, p, side, piece, reach, n) ==>
      OnBoardSquares(m) && MoveWithin(ext, p, side, piece, reach, m)
  {
    if n > 0 {
      PieceMovesSound(ext, p, side, piece, reach, n - 1);
      SquareMovesSound(ext, p, side, piece, reach, n - 1);
    }
  }

  /** The kind loop emits moves of the kinds it goes through. */
  lemma {:induction false} KindsMovesSound(ext: Externals, p: Position, side: Side, kinds: seq<Piece>, reach: (Piece, nat) -> Bitboard)
    requires IndexesBoard(ext)
    ensures forall m :: m in KindsMoves(ext, p, side, kinds, reach) ==>
      OnBoardSquares(m) && exists k :: k in kinds && MoveWithin(ext, p, side, k, reach, m)
  {
    if kinds != [] {
      var n := |kinds| - 1;
      KindsMovesSound(ext, p, side, kinds[..n], reach);
      PieceMovesSound(ext, p, side, kinds[n], reach, 64);
      forall m | m in KindsMoves(ext, p, side, kinds, reach)
        ensures OnBoardSquares(m) && exists k :: k in kinds && MoveWithin(ext, p, side, k, reach, m)
      {
        if m in KindsMoves(ext, p, side, kinds[..n], reach) {
          var k :| k in kinds[..n] && MoveWithin(ext, p, side, k, reach, m);
          assert k in kinds;
        } else {
          assert kinds[n] in kinds;
        }
      }
    }
  }

  /** Every pseudo-legal move is one some piece of the side may make. */
  lemma PseudoLegalSound(ext: Externals, p: Position, side: Side)
    requires IndexesBoard(ext)
    ensures forall m :: m in PseudoLegal(ext, p, side) ==> Generated(ext, p, side, m)
  {
    KindsMovesSound(ext, p, side, AllPieces, ReachOn(ext, p, side));
    forall m | m in PseudoLegal(ext, p, side)
      ensures Generated(ext, p, side, m)
    {
      var k :| k in AllPieces && MoveWithin(ext, p, side, k, ReachOn(ext, p, side), m);
      assert MoveOf(ext, p, side, k, m);
    }
  }

  /** Every pseudo-legal move can be applied: its squares are on the board. */
  lemma PseudoLegalOnBoard(ext: Externals, p: Position, side: Side)
    requires IndexesBoard(ext)
    ensures forall m :: m in PseudoLegal(ext, p, side) ==> OnBoardSquares(m)
  {
    KindsMovesSound(ext, p, side, AllPieces, ReachOn(ext, p, side));
  }

  // ---------------------------------------------------------------------------
  // Every move a piece may make is emitted

  /** A basic move or promotion that lands in `bb` is among those the quiet-move
      loop pushes for its destination. */
  lemma QuietAtHas(ext: Externals, p: Position, side: Side, piece: Piece, bb: Bitboard, m: Move)
    requires IndexesBoard(ext)
    requires (m.Basic? || m.Promotion?) && OnBoard(m.from) && OnBoard(m.to)
    requires Lands(ext, p, side, piece, bb, m)
    ensures m in QuietAt(ext, side, piece, Idx(m.from), Idx(m.to))
  {
    FromIdxOfIdx(ext, m.from);
    FromIdxOfIdx(ext, m.to);
    if m.Promotion? {
      var kinds := PromotionPieces();
      var t :| 0 <= t < |kinds| && kinds[t] == m.piece;
      assert Promotions(m.from, m.to, kinds)[t] == m;
    }
  }

  /** The quiet-move loop keeps what it pushed for each earlier square. */
  lemma {:induction false} QuietMovesHas(ext: Externals, side: Side, piece: Piece, i: nat, basic: Bitboard, n: nat, j: nat, m: Move)
    requires j < n && j in basic && m in QuietAt(ext, side, piece, i, j)
    ensures m in QuietMoves(ext, side, piece, i, basic, n)
  {
    if j < n - 1 {
      QuietMovesHas(ext, side, piece, i, basic, n - 1, j, m);
    }
  }

  /** The capture loop keeps what it pushed for each earlier square. */
  lemma {:induction false} CaptureMovesHas(ext: Externals, p: Position, i: nat, captures: Bitboard, n: nat, j: nat)
    requires j < n && j in captures
    ensures Capture(ext.fromIdx(i), ext.fromIdx(j), PieceAt(ext, p, j)) in CaptureMoves(ext, p, i, captures, n)
  {
    if j < n - 1 {
      CaptureMovesHas(ext, p, i, captures, n - 1, j);
    }
  }

  /** Every move from `i` that lands in `bb`, other than a castle, is emitted. */
  lemma EmitComplete(ext: Externals, p: Position, side: Side, piece: Piece, bb: Bitboard, m: Move)
    requires IndexesBoard(ext)
    requires !m.Castle? && OnBoard(m.from) && OnBoard(m.to)
    requires Lands(ext, p, side, piece, bb, m)
    ensures m in Emit(ext, p, side, piece, Idx(m.from), bb)
  {
    var i, j := Idx(m.from), Idx(m.to);
    assert j in bb;
    if m.Capture? {
      FromIdxOfIdx(ext, m.from);
      FromIdxOfIdx(ext, m.to);
      CaptureMovesHas(ext, p, i, bb * Enemy(ext, p, side), 64, j);
    } else {
      QuietAtHas(ext, p, side, piece, bb, m);
      QuietMovesHas(ext, side, piece, i, bb * EmptySquares(p), 64, j, m);
    }
  }

  /** A castle the castling branch offers is emitted for any king square whose
      `bb` is not empty. */
  lemma EmitCastle(ext: Externals, p: Position, side: Side, i: nat, bb: Bitboard, m: Move)
    requires m.Castle? && bb != {} && Lands(ext, p, side, King, {}, m)
    ensures m in Emit(ext, p, side, King, i, bb)
  {
  }

  /** The square loop keeps what it emitted for each earlier square. */
  lemma {:induction false} PieceMovesHas(ext: Externals, p: Position, side: Side, piece: Piece, reach: (Piece, nat) -> Bitboard, n: nat, i: nat, m: Move)
    requires i < n && m in SquareMoves(ext, p, side, piece, reach, i)
    ensures m in PieceMoves(ext, p, side, piece, reach, n)
  {
    var prev := PieceMoves(ext, p, side, piece, reach, n - 1);
    var here := SquareMoves(ext, p, side, piece, reach, n - 1);
    assert PieceMoves(ext, p, side, piece, reach, n) == prev + here;
    if i < n - 1 {
      PieceMovesHas(ext, p, side, piece, reach, n - 1, i, m);
    }
    InAppend(prev, here, m);
  }

  /** What is in either part is in the concatenation. */
  lemma InAppend<T>(a: seq<T>, b: seq<T>, x: T)
    ensures x in a + b <==> x in a || x in b
  {
  }

  /** The kind loop keeps what it emitted for each kind it went through. */
  lemma {:induction false} KindsMovesHas(ext: Externals, p: Position, side: Side, kinds: seq<Piece>, reach: (Piece, nat) -> Bitboard, piece: Piece, m: Move)
    requires piece in kinds && m in PieceMoves(ext, p, side, piece, reach, 64)
    ensures m in KindsMoves(ext, p, side, kinds, reach)
  {
    var n := |kinds| - 1;
    if kinds[n] != piece {
      assert piece in kinds[..n] by {
        var k :| 0 <= k < |kinds| && kinds[k] == piece;
        assert kinds[..n][k] == piece;
      }
      KindsMovesHas(ext, p, side, kinds[..n], reach, piece, m);
    }
  }

  /** Every move a piece may make within `reach` is emitted by the kind loop over
      a list holding its kind. */
  lemma KindsMovesComplete(ext: Externals, p: Position, side: Side, kinds: seq<Piece>, reach: (Piece, nat) -> Bitboard, piece: Piece, m: Move)
    requires IndexesBoard(ext)
    requires piece in kinds && MoveWithin(ext, p, side, piece, reach, m)
    ensures m in KindsMoves(ext, p, side, kinds, reach)
  {
    if m.Castle? {
      var i: nat :| i < 64 && i in OfPiece(p.pieces, side, King) && reach(King, i) != {};
      EmitCastle(ext, p, side, i, reach(King, i), m);
      PieceMovesHas(ext, p, side, piece, reach, 64, i, m);
    } else {
      var i := Idx(m.from);
      EmitComplete(ext, p, side, piece, reach(piece, i), m);
      PieceMovesHas(ext, p, side, piece, reach, 64, i, m);
    }
    KindsMovesHas(ext, p, side, kinds, reach, piece, m);
  }

  /** Every move that a piece of the side may make is in the pseudo-legal list. */
  lemma PseudoLegalComplete(ext: Externals, p: Position, side: Side, piece: Piece, m: Move)
    requires IndexesBoard(ext)
    requires MoveOf(ext, p, side, piece, m)
    ensures m in PseudoLegal(ext, p, side)
  {
    AllPiecesInOrder();
    assert piece in AllPieces by {
      assert AllPieces[PieceIndex(piece)] == piece;
    }
    KindsMovesComplete(ext, p, side, AllPieces, ReachOn(ext, p, side), piece, m);
  }

  // ---------------------------------------------------------------------------
  // Castling

  /** The squares that must be empty for a castle of `side` on the king or the
      queen side. */
  function CastleMask(side: Side, kingSide: bool): Bitboard
  {
    var mask := if kingSide then KingSideCastle else QueenSideCastle;
    if side == White then mask else Shift(mask, 56)
  }

  /** The castling flag for `side` and the given wing. */
  function HasRight(rights: MoveRights, side: Side, kingSide: bool): bool
  {
    match side
    case White => if kingSide then rights.whiteKingSide else rights.whiteQueenSide
    case Black => if kingSide then rights.blackKingSide else rights.blackQueenSide
  }

  /** A castle on one wing is open when its squares are empty and the right is
      held. */
  predicate CastleOpen(p: Position, side: Side, kingSide: bool)
  {
    Occupied(p) * CastleMask(side, kingSide) == {} && HasRight(p.rights, side, kingSide)
  }

  /** The castling branch offers at most one castle, of the side to move: the
      king side whenever it is open, the queen side only when the king side is
      not. */
  lemma CastleMovesSpec(p: Position, side: Side)
    ensures |CastleMoves(p, side)| <= 1
    ensures forall m :: m in CastleMoves(p, side) ==> m.Castle? && m.side == side
    ensures Castle(side, true) in CastleMoves(p, side) <==> CastleOpen(p, side, true)
    ensures Castle(side, false) in CastleMoves(p, side) <==> !CastleOpen(p, side, true) && CastleOpen(p, side, false)
  {
    assert CastleMask(side, true) == (if side == White then KingSideCastle else Shift(KingSideCastle, 8 * 7));
    assert CastleMask(side, false) == (if side == White then QueenSideCastle else Shift(QueenSideCastle, 8 * 7));
  }

  /** The castle the castling branch offers on the given wing: the king side
      whenever it is open, the queen side only when it is open and the king side
      is not. */
  predicate CastleOffered(p: Position, side: Side, kingSide: bool)
  {
    if kingSide then CastleOpen(p, side, true)
    else !CastleOpen(p, side, true) && CastleOpen(p, side, false)
  }

  /** A king on the board always reaches some square. */
  lemma KingReachesSomewhere(ext: Externals, p: Position, side: Side, i: nat)
    requires i < 64
    ensures Reach(ext, p, side, King, i) != {}
  {
  }

  /** `pseudo_legal_moves` lists a castle of `side` exactly when the side has a
      king on the board and the castling branch offers that castle. */
  lemma CastleInPseudoLegal(ext: Externals, p: Position, side: Side, kingSide: bool)
    requires IndexesBoard(ext)
    ensures Castle(side, kingSide) in PseudoLegal(ext, p, side) <==>
      OfPiece(p.pieces, side, King) != {} && CastleOffered(p, side, kingSide)
  {
    var m := Castle(side, kingSide);
    var reach := ReachOn(ext, p, side);
    if m in PseudoLegal(ext, p, side) {
      PseudoLegalSound(ext, p, side);
      var k :| MoveOf(ext, p, side, k, m);
      var i: nat :| i < 64 && i in OfPiece(p.pieces, side, King) && reach(King, i) != {};
    }
    if OfPiece(p.pieces, side, King) != {} && CastleOffered(p, side, kingSide) {
      var i :| i in OfPiece(p.pieces, side, King);
      KingReachesSomewhere(ext, p, side, i);
      assert reach(King, i) != {};
      assert MoveOf(ext, p, side, King, m);
      PseudoLegalComplete(ext, p, side, King, m);
    }
  }

  /** Black's queen-side mask `0b1110 << 56` covers square 59, where `Board::new`
      puts the Black king: while that square is occupied Black cannot castle on
      the queen side. */
  lemma BlackQueenSideNeedsSquare59(p: Position)
    requires 59 in Occupied(p)
    ensures Castle(Black, false) !in CastleMoves(p, Black)
  {
    CastleMovesSpec(p, Black);
    assert 59 - 56 in QueenSideCastle;
    assert 59 in Occupied(p) * CastleMask(Black, false);
  }

  // ---------------------------------------------------------------------------
  // Check, legal moves, mate

  /** Some move of `ms` captures a king. */
  predicate KingCaptured(ms: seq<Move>)
  {
    exists m :: m in ms && Captured(m) == Some(King)
  }

  /** `is_check`: some pseudo-legal move of the other side captures a king. */
  predicate IsCheck(ext: Externals, p: Position, side: Side)
  {
    KingCaptured(PseudoLegal(ext, p, ext.other(side)))
  }

  /** A piece of kind `k` of the side `attacker` on `i` reaches the enemy square
      `j`, where `get_piece` reports a king. */
  predicate KingTarget(ext: Externals, p: Position, attacker: Side, k: Piece, i: nat, j: nat)
  {
    i < 64 && i in OfPiece(p.pieces, attacker, k)
    && j in Reach(ext, p, attacker, k, i) * Enemy(ext, p, attacker) && PieceAt(ext, p, j) == King
  }

  /** `side` is in check exactly when some piece of the other side reaches an
      enemy square holding a king. */
  lemma CheckMeansKingAttacked(ext: Externals, p: Position, side: Side)
    requires IndexesBoard(ext)
    ensures IsCheck(ext, p, side) <==>
      exists k: Piece, i: nat, j: nat :: KingTarget(ext, p, ext.other(side), k, i, j)
  {
    var o := ext.other(side);
    if IsCheck(ext, p, side) {
      var m :| m in PseudoLegal(ext, p, o) && Captured(m) == Some(King);
      PseudoLegalSound(ext, p, o);
      var k :| MoveOf(ext, p, o, k, m);
      assert KingTarget(ext, p, o, k, Idx(m.from), Idx(m.to));
    }
    if exists k: Piece, i: nat, j: nat :: KingTarget(ext, p, o, k, i, j) {
      var k: Piece, i: nat, j: nat :| KingTarget(ext, p, o, k, i, j);
      var m := Capture(ext.fromIdx(i), ext.fromIdx(j), King);
      assert MoveOf(ext, p, o, k, m);
      PseudoLegalComplete(ext, p, o, k, m);
      assert Captured(m) == Some(King);
    }
  }

  /** The `filter` of `legal_moves` over `ms`: the moves after which `side` is not
      in check, in their order. */
  function FilterLegal(ext: Externals, p: Position, side: Side, ms: seq<Move>): (r: seq<Move>)
    requires forall m :: m in ms ==> OnBoardSquares(m)
    ensures |r| <= |ms|
    ensures forall m :: m in r <==> m in ms && !IsCheck(ext, ApplyTo(ext, m, p), side)
  {
    if ms == [] then []
    else
      var n := |ms| - 1;
      var m := ms[n];
      assert forall x :: x in ms <==> x in ms[..n] || x == m;
      FilterLegal(ext, p, side, ms[..n]) + (if IsCheck(ext, ApplyTo(ext, m, p), side) then [] else [m])
  }

  /** `m` stays on the board and, once made, leaves `side` out of check. */
  predicate Escapes(ext: Externals, p: Position, side: Side, m: Move)
  {
    OnBoardSquares(m) && !IsCheck(ext, ApplyTo(ext, m, p), side)
  }

  /** `legal_moves`: the pseudo-legal moves after which the side is not in check. */
  function Legal(ext: Externals, p: Position, side: Side): (r: seq<Move>)
    requires IndexesBoard(ext)
    ensures forall m :: m in r <==> m in PseudoLegal(ext, p, side) && Escapes(ext, p, side, m)
  {
    PseudoLegalOnBoard(ext, p, side);
    FilterLegal(ext, p, side, PseudoLegal(ext, p, side))
  }

  /** There is no legal move exactly when every pseudo-legal move leaves the side
      in check. */
  lemma NoLegalMoves(ext: Externals, p: Position, side: Side)
    requires IndexesBoard(ext)
    ensures Legal(ext, p, side) == [] <==>
      forall m :: m in PseudoLegal(ext, p, side) ==> !Escapes(ext, p, side, m)
  {
    PseudoLegalOnBoard(ext, p, side);
    var r := Legal(ext, p, side);
    if r != [] {
      assert r[0] in r;
    }
  }

  /** `is_checkmate`: in check, and every pseudo-legal move leaves the side in
      check. */
  function IsCheckmate(ext: Externals, p: Position, side: Side): (r: bool)
    requires IndexesBoard(ext)
    ensures r <==> (IsCheck(ext, p, side) &&
      forall m :: m in PseudoLegal(ext, p, side) ==> !Escapes(ext, p, side, m))
  {
    PseudoLegalOnBoard(ext, p, side);
    NoLegalMoves(ext, p, side);
    IsCheck(ext, p, side) && Legal(ext, p, side) == []
  }

  /** `is_stalemate`: not in check, and every pseudo-legal move would leave the
      side in check. */
  function IsStalemate(ext: Externals, p: Position, side: Side): (r: bool)
    requires IndexesBoard(ext)
    ensures r <==> (!IsCheck(ext, p, side) &&
      forall m :: m in PseudoLegal(ext, p, side) ==> !Escapes(ext, p, side, m))
  {
    PseudoLegalOnBoard(ext, p, side);
    NoLegalMoves(ext, p, side);
    !IsCheck(ext, p, side) && Legal(ext, p, side) == []
  }

  /** A side has no legal move exactly when it is checkmated or stalemated, and
      never both. */
  lemma GameOverIsMateOrStalemate(ext: Externals, p: Position, side: Side)
    requires IndexesBoard(ext)
    ensures Legal(ext, p, side) == [] <==> IsCheckmate(ext, p, side) || IsStalemate(ext, p, side)
    ensures !(IsCheckmate(ext, p, side) && IsStalemate(ext, p, side))
  {
  }

  // ---------------------------------------------------------------------------
  // The generator over a Board

  /** The `match piece` that computes `bb` in `pseudo_legal_moves`. */
  method ReachOf(ext: Externals, board: Board, side: Side, piece: Piece, i: nat) returns (bb: Bitboard)
    requires i < 64
    ensures bb == Reach(ext, board.State(), side, piece, i)
  {
    var p := board.State();
    var occupied := Occupied(p);
    TablesFit(i);
    match piece {
      case Pawn =>
        bb := PawnReachOf(ext, board, side, i);
      case Rook =>
        bb := SlidingAttacks(i, occupied, RookRayIndex);
      case Knight =>
        bb := StepAttacks(i, KnightDeltas);
      case Bishop =>
        bb := SlidingAttacks(i, occupied, BishopRayIndex);
      case Queen =>
        var straight := SlidingAttacks(i, occupied, RookRayIndex);
        var diagonal := SlidingAttacks(i, occupied, BishopRayIndex);
        bb := straight + diagonal;
      case King =>
        bb := StepAttacks(i, KingDeltas);
    }
  }

  /** The pawn arm of that `match`: the diagonal steps onto enemy squares,
      and the pushes the pawn table gives onto empty squares. */
  method PawnReachOf(ext: Externals, board: Board, side: Side, i: nat) returns (bb: Bitboard)
    requires i < 64
    ensures bb == Reach(ext, board.State(), side, Pawn, i)
  {
    var p := board.State();
    var occupied := Occupied(p);
    TablesFit(i);
    var steps := StepAttacks(i, PawnDeltas(side));
    bb := steps * Enemy(ext, p, side) + ext.pawnMoves(i, side, occupied) * Not(occupied);
    assert Not(occupied) == EmptySquares(p);
  }

  /** The quiet-move loop of `pseudo_legal_moves` for the piece on `i`. */
  method QuietLoop(ext: Externals, side: Side, piece: Piece, i: nat, basic: Bitboard) returns (ms: seq<Move>)
    ensures ms == QuietMoves(ext, side, piece, i, basic, 64)
  {
    ms := [];
    for j := 0 to 64
      invariant ms == QuietMoves(ext, side, piece, i, basic, j)
    {
      if j in basic {
        if piece != Pawn {
          ms := ms + [Basic(ext.fromIdx(i), ext.fromIdx(j))];
          continue;
        }
        var row := PromotionRow(side);
        if j in row {
          var promotions := PromotionLoop(ext.fromIdx(i), ext.fromIdx(j), AllPieces[1..5]);
          ms := ms + promotions;
        }
      }
    }
  }

  /** The inner loop over `ALL_PIECES[1..5]` that pushes one promotion per kind. */
  method PromotionLoop(from: Square, to: Square, kinds: seq<Piece>) returns (ms: seq<Move>)
    ensures ms == Promotions(from, to, kinds)
  {
    ms := [];
    for k := 0 to |kinds|
      invariant ms == Promotions(from, to, kinds[..k])
    {
      assert kinds[..k + 1][..k] == kinds[..k];
      ms := ms + [Promotion(from, to, kinds[k])];
    }
    assert kinds[..|kinds|] == kinds;
  }

  /** The capture loop of `pseudo_legal_moves` for the piece on `i`. */
  method CaptureLoop(ext: Externals, board: Board, i: nat, captures: Bitboard) returns (ms: seq<Move>)
    requires IndexesBoard(ext)
    ensures ms == CaptureMoves(ext, board.State(), i, captures, 64)
  {
    ms := [];
    for j := 0 to 64
      invariant ms == CaptureMoves(ext, board.State(), i, captures, j)
    {
      if j in captures {
        var capturedPiece := board.GetPiece(ext, ext.fromIdx(j));
        ms := ms + [Capture(ext.fromIdx(i), ext.fromIdx(j), capturedPiece)];
      }
    }
  }

  /** The castling branch of `pseudo_legal_moves`. */
  method CastleBranch(board: Board, side: Side) returns (ms: seq<Move>)
    ensures ms == CastleMoves(board.State(), side)
  {
    var occupied := Occupied(board.State());
    ms := [];
    if side == White {
      if occupied * KingSideCastle == {} && board.moveRights.whiteKingSide {
        ms := [Castle(White, true)];
      } else if occupied * QueenSideCastle == {} && board.moveRights.whiteQueenSide {
        ms := [Castle(White, false)];
      }
    } else {
      if occupied * Shift(KingSideCastle, 8 * 7) == {} && board.moveRights.blackKingSide {
        ms := [Castle(Black, true)];
      } else if occupied * Shift(QueenSideCastle, 8 * 7) == {} && board.moveRights.blackQueenSide {
        ms := [Castle(Black, false)];
      }
    }
  }

  /** The square loop's body after `bb` is computed. */
  method EmitMoves(ext: Externals, board: Board, side: Side, piece: Piece, i: nat, bb: Bitboard) returns (ms: seq<Move>)
    requires IndexesBoard(ext)
    ensures ms == Emit(ext, board.State(), side, piece, i, bb)
  {
    if bb == {} {
      return [];
    }
    var p := board.State();
    var basicMoves := bb * Not(Occupied(p));
    var captures := bb * Enemy(ext, p, side);
    var quiet := QuietLoop(ext, side, piece, i, basicMoves);
    var taken := CaptureLoop(ext, board, i, captures);
    ms := quiet + taken;
    if piece == King {
      var castles := CastleBranch(board, side);
      ms := ms + castles;
    }
  }

  /** One pass of the square loop of `pseudo_legal_moves`. */
  method SquareLoopBody(ext: Externals, board: Board, side: Side, piece: Piece, i: nat) returns (ms: seq<Move>)
    requires IndexesBoard(ext)
    requires i < 64
    ensures ms == SquareMoves(ext, board.State(), side, piece, ReachOn(ext, board.State(), side), i)
  {
    var pieceBoard := OfPiece(board.pieces, side, piece);
    if i !in pieceBoard {
      return [];
    }
    var bb := ReachOf(ext, board, side, piece, i);
    ms := EmitMoves(ext, board, side, piece, i, bb);
  }

  /** The square loop of `pseudo_legal_moves` for one kind of piece. */
  method PieceLoop(ext: Externals, board: Board, side: Side, piece: Piece) returns (ms: seq<Move>)
    requires IndexesBoard(ext)
    ensures ms == PieceMoves(ext, board.State(), side, piece, ReachOn(ext, board.State(), side), 64)
  {
    ms := [];
    for i := 0 to 64
      invariant ms == PieceMoves(ext, board.State(), side, piece, ReachOn(ext, board.State(), side), i)
    {
      var found := SquareLoopBody(ext, board, side, piece, i);
      ms := ms + found;
    }
  }

  /** `pseudo_legal_moves`: the kind loop over `ALL_PIECES`. */
  method PseudoLegalMoves(ext: Externals, board: Board, side: Side) returns (moves: seq<Move>)
    requires IndexesBoard(ext)
    ensures moves == PseudoLegal(ext, board.State(), side)
  {
    moves := KindsLoop(ext, board, side, AllPieces);
  }

  /** The loop over the kinds of `pseudo_legal_moves`, in their order. */
  method KindsLoop(ext: Externals, board: Board, side: Side, kinds: seq<Piece>) returns (moves: seq<Move>)
    requires IndexesBoard(ext)
    ensures moves == KindsMoves(ext, board.State(), side, kinds, ReachOn(ext, board.State(), side))
  {
    ghost var p := board.State();
    ghost var reach := ReachOn(ext, p, side);
    moves := [];
    for k := 0 to |kinds|
      invariant moves == KindsMoves(ext, p, side, kinds[..k], reach)
    {
      assert kinds[..k + 1][..k] == kinds[..k];
      var found := PieceLoop(ext, board, side, kinds[k]);
      moves := moves + found;
    }
    assert kinds[..|kinds|] == kinds;
  }

  /** The `any` of `is_check`. */
  method FindKingCapture(ms: seq<Move>) returns (found: bool)
    ensures found == KingCaptured(ms)
  {
    for k := 0 to |ms|
      invariant forall t :: 0 <= t < k ==> Captured(ms[t]) != Some(King)
    {
      if Captured(ms[k]) == Some(King) {
        return true;
      }
    }
    return false;
  }

  /** `is_check`. */
  method InCheck(ext: Externals, board: Board, side: Side) returns (check: bool)
    requires IndexesBoard(ext)
    ensures check == IsCheck(ext, board.State(), side)
  {
    var moves := PseudoLegalMoves(ext, board, ext.other(side));
    check := FindKingCapture(moves);
  }

  /** The `filter` of `legal_moves`: applies each move to a clone of the board and
      keeps it when the side is then not in check.  The board itself is left
      alone. */
  method FilterMoves(ext: Externals, board: Board, side: Side, moves: seq<Move>) returns (legal: seq<Move>)
    requires IndexesBoard(ext)
    requires forall m :: m in moves ==> OnBoardSquares(m)
    ensures legal == FilterLegal(ext, board.State(), side, moves)
  {
    legal := [];
    for k := 0 to |moves|
      invariant legal == FilterLegal(ext, board.State(), side, moves[..k])
    {
      var keep := KeepIfLegal(ext, board, side, moves[k]);
      FilterLegalPrefix(ext, board.State(), side, moves, k);
      if keep {
        legal := legal + [moves[k]];
      }
    }
    assert moves[..|moves|] == moves;
  }

  /** The closure of that `filter`: apply the move to a clone, then ask
      `is_check` of the clone. */
  method KeepIfLegal(ext: Externals, board: Board, side: Side, m: Move) returns (keep: bool)
    requires IndexesBoard(ext)
    requires OnBoardSquares(m)
    ensures keep == !IsCheck(ext, ApplyTo(ext, m, board.State()), side)
  {
    var copy := board.Clone();
    Apply(ext, m, copy);
    var check := InCheck(ext, copy, side);
    keep := !check;
  }

  /** `FilterLegal` one move at a time. */
  lemma FilterLegalPrefix(ext: Externals, p: Position, side: Side, ms: seq<Move>, k: nat)
    requires forall m :: m in ms ==> OnBoardSquares(m)
    requires k < |ms|
    ensures forall m :: m in ms[..k] ==> OnBoardSquares(m)
    ensures forall m :: m in ms[..k + 1] ==> OnBoardSquares(m)
    ensures FilterLegal(ext, p, side, ms[..k + 1]) == FilterLegal(ext, p, side, ms[..k])
      + (if IsCheck(ext, ApplyTo(ext, ms[k], p), side) then [] else [ms[k]])
  {
    assert ms[..k + 1][..k] == ms[..k];
    assert ms[..k + 1][k] == ms[k];
  }

  /** `legal_moves`. */
  method LegalMoves(ext: Externals, board: Board, side: Side) returns (legal: seq<Move>)
    requires IndexesBoard(ext)
    ensures legal == Legal(ext, board.State(), side)
  {
    var moves := PseudoLegalMoves(ext, board, side);
    PseudoLegalOnBoard(ext, board.State(), side);
    legal := FilterMoves(ext, board, side, moves);
  }

  /** `is_checkmate`. */
  method InCheckmate(ext: Externals, board: Board, side: Side) returns (mate: bool)
    requires IndexesBoard(ext)
    ensures mate == IsCheckmate(ext, board.State(), side)
  {
    var check := InCheck(ext, board, side);
    var legal := LegalMoves(ext, board, side);
    mate := check && legal == [];
  }

  /** `is_stalemate`. */
  method InStalemate(ext: Externals, board: Board, side: Side) returns (stalemate: bool)
    requires IndexesBoard(ext)
    ensures stalemate == IsStalemate(ext, board.State(), side)
  {
    var check := InCheck(ext, board, side);
    var legal := LegalMoves(ext, board, side);
    stalemate := !check && legal == [];
  }
}

/** The `Sides` and `Pieces` enums (chess_engine/src/pieces.rs), the constant
    `ALL_PIECES`, and the fixed-size arrays of bitboards that the engine indexes
    by an enum through its `Index`/`IndexMut` impls. */
module Pieces {
  import opened Bitboards

  const SidesCount: nat := 2
  const PiecesCount: nat := 6

  datatype Side = White | Black
  datatype Piece = Pawn | Rook | Knight | Bishop | Queen | King

  /** `side as usize`. */
  function SideIndex(s: Side): (r: nat)
    ensures r < SidesCount
    ensures r == 0 <==> s == White
  {
    match s
    case White => 0
    case Black => 1
  }

  /** `piece as usize`. */
  function PieceIndex(p: Piece): (r: nat)
    ensures r < PiecesCount
  {
    match p
    case Pawn => 0
    case Rook => 1
    case Knight => 2
    case Bishop => 3
    case Queen => 4
    case King => 5
  }

  /** `ALL_PIECES`. */
  const AllPieces: seq<Piece> := [Pawn, Rook, Knight, Bishop, Queen, King]

  /** `ALL_PIECES` lists each kind once, at the position of its discriminant. */
  lemma AllPiecesInOrder()
    ensures |AllPieces| == PiecesCount
    ensures forall k :: 0 <= k < |AllPieces| ==> PieceIndex(AllPieces[k]) == k
    ensures forall p: Piece :: AllPieces[PieceIndex(p)] == p
  {}

  /** The discriminants tell the kinds apart. */
  lemma PieceIndexInjective(p: Piece, q: Piece)
    ensures PieceIndex(p) == PieceIndex(q) <==> p == q
  {
    AllPiecesInOrder();
  }

  /** The slice `ALL_PIECES[1..5]` that the move generator offers for promotion. */
  function PromotionPieces(): (r: seq<Piece>)
    ensures r == [Rook, Knight, Bishop, Queen]
  {
    AllPieces[1..5]
  }

  /** The promotion choices are exactly the kinds other than pawn and king. */
  lemma PromotionPiecesAre(p: Piece)
    ensures p in PromotionPieces() <==> p != Pawn && p != King
  {
    var r := PromotionPieces();
    match p
    case Rook => assert r[0] == p;
    case Knight => assert r[1] == p;
    case Bishop => assert r[2] == p;
    case Queen => assert r[3] == p;
    case _ =>
  }

  /** `[Bitboard; SIDES_COUNT]`. */
  type SideBoards = s: seq<Bitboard> | |s| == SidesCount witness [Empty, Empty]
  /** `[Bitboard; PIECES_COUNT]`. */
  type PieceBoards = s: seq<Bitboard> | |s| == PiecesCount witness [Empty, Empty, Empty, Empty, Empty, Empty]
  /** `[[Bitboard; PIECES_COUNT]; SIDES_COUNT]`. */
  type BoardMatrix = s: seq<PieceBoards> | |s| == SidesCount witness [EmptyRow, EmptyRow]

  /** Six empty bitboards. */
  const EmptyRow: PieceBoards := [Empty, Empty, Empty, Empty, Empty, Empty]

  /** `Index<Sides>` on the side aggregates. */
  function OfSide(b: SideBoards, s: Side): Bitboard
  {
    b[SideIndex(s)]
  }

  /** `IndexMut<Sides>` on the side aggregates: only the slot of `s` changes. */
  function WithSide(b: SideBoards, s: Side, v: Bitboard): (r: SideBoards)
    ensures OfSide(r, s) == v
    ensures forall t :: t != s ==> OfSide(r, t) == OfSide(b, t)
  {
    b[SideIndex(s) := v]
  }

  /** `Index<Sides>` then `Index<Pieces>` on the piece matrix. */
  function OfPiece(m: BoardMatrix, s: Side, p: Piece): Bitboard
  {
    m[SideIndex(s)][PieceIndex(p)]
  }

  /** `IndexMut<Sides>` then `IndexMut<Pieces>`: only the cell of `(s, p)` changes. */
  function WithPiece(m: BoardMatrix, s: Side, p: Piece, v: Bitboard): (r: BoardMatrix)
    ensures OfPiece(r, s, p) == v
    ensures forall t, q :: (t, q) != (s, p) ==> OfPiece(r, t, q) == OfPiece(m, t, q)
  {
    var row: PieceBoards := m[SideIndex(s)][PieceIndex(p) := v];
    m[SideIndex(s) := row]
  }

  /** The matrix is determined by its cells read through the enums. */
  lemma MatrixExtensional(m: BoardMatrix, n: BoardMatrix)
    requires forall s, p :: OfPiece(m, s, p) == OfPiece(n, s, p)
    ensures m == n
  {
    forall i, k | 0 <= i < SidesCount && 0 <= k < PiecesCount
      ensures m[i][k] == n[i][k]
    {
      var s := if i == 0 then White else Black;
      AllPiecesInOrder();
      assert OfPiece(m, s, AllPieces[k]) == OfPiece(n, s, AllPieces[k]);
    }
    assert m[0] == n[0];
    assert m[1] == n[1];
  }

  /** The same for the side aggregates. */
  lemma SidesExtensional(b: SideBoards, c: SideBoards)
    requires forall s :: OfSide(b, s) == OfSide(c, s)
    ensures b == c
  {
    assert OfSide(b, White) == OfSide(c, White);
    assert OfSide(b, Black) == OfSide(c, Black);
  }
}

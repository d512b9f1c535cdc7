/** The bot of chess_engine/src/bot.rs: a material count, and a recursive search
    that, despite its name, adds up the scores of every line of play rather than
    choosing between them. */
module Bot {
  import opened Pieces
  import opened Bitboards
  import opened Boards
  import opened Moves
  import opened MoveGen

  // ---------------------------------------------------------------------------
  // evaluate

  /** The `sign` of `evaluate`: White counts up, Black down. */
  function Sign(side: Side): int
  {
    match side
    case White => 1
    case Black => -1
  }

  /** `sign * strength`: the strength of a kind, counted for `side`. */
  function Signed(side: Side, x: int): int
  {
    match side
    case White => x
    case Black => -x
  }

  /** The innermost loop of `evaluate` up to square `n`: `w` for each square of
      `b`. */
  function SquaresScore(b: Bitboard, w: int, n: nat): int
  {
    if n == 0 then 0 else SquaresScore(b, w, n - 1) + (if n - 1 in b then w else 0)
  }

  /** The squares of `b` below `n`. */
  function Below(b: Bitboard, n: nat): set<nat>
  {
    set i | i in b && i < n
  }

  /** The loop adds `w` once per square of `b` below `n`. */
  lemma {:induction false} SquaresScoreCounts(b: Bitboard, w: int, n: nat)
    ensures SquaresScore(b, w, n) == |Below(b, n)| * w
  {
    if n > 0 {
      SquaresScoreCounts(b, w, n - 1);
      if n - 1 in b {
        assert Below(b, n) == Below(b, n - 1) + {n - 1};
        assert (|Below(b, n - 1)| + 1) * w == |Below(b, n - 1)| * w + w;
      } else {
        assert Below(b, n) == Below(b, n - 1);
      }
    }
  }

  /** Over the whole board, the loop adds `w` once per piece that `count_piece`
      counts. */
  lemma SquaresScoreAll(p: Position, side: Side, piece: Piece, w: int)
    ensures SquaresScore(OfPiece(p.pieces, side, piece), w, 64) == CountPiece(p, side, piece) * w
  {
    var b := OfPiece(p.pieces, side, piece);
    SquaresScoreCounts(b, w, 64);
    assert Below(b, 64) == b;
  }

  /** The score of one kind for one side. */
  function KindScore(ext: Externals, p: Position, side: Side, k: Piece): int
  {
    SquaresScore(OfPiece(p.pieces, side, k), Signed(side, ext.strength(k)), 64)
  }

  /** The middle loop over the kinds `kinds` for one side. */
  function KindsScore(ext: Externals, p: Position, side: Side, kinds: seq<Piece>): int
  {
    if kinds == [] then 0
    else
      var n := |kinds| - 1;
      KindsScore(ext, p, side, kinds[..n]) + KindScore(ext, p, side, kinds[n])
  }

  /** The outer loop over the sides `sides`. */
  function SidesScore(ext: Externals, p: Position, sides: seq<Side>): int
  {
    if sides == [] then 0
    else
      var n := |sides| - 1;
      SidesScore(ext, p, sides[..n]) + KindsScore(ext, p, sides[n], AllPieces)
  }

  /** `evaluate`: over `ALL_SIDES`, over `ALL_PIECES`, over the squares. */
  function Evaluate(ext: Externals, p: Position): int
  {
    SidesScore(ext, p, ext.allSides)
  }

  /** A kind's strength times White's count of it less Black's. */
  function Balance(ext: Externals, p: Position, k: Piece): int
  {
    ext.strength(k) * (CountPiece(p, White, k) - CountPiece(p, Black, k))
  }

  /** The material balance over `kinds`. */
  function Material(ext: Externals, p: Position, kinds: seq<Piece>): int
  {
    if kinds == [] then 0
    else
      var n := |kinds| - 1;
      Material(ext, p, kinds[..n]) + Balance(ext, p, kinds[n])
  }

  /** One kind scored for White and for Black is its balance. */
  lemma KindBalance(ext: Externals, p: Position, k: Piece)
    ensures KindScore(ext, p, White, k) + KindScore(ext, p, Black, k) == Balance(ext, p, k)
  {
    var s := ext.strength(k);
    SquaresScoreAll(p, White, k, s);
    SquaresScoreAll(p, Black, k, -s);
    var a := CountPiece(p, White, k);
    var b := CountPiece(p, Black, k);
    assert a * s + b * -s == s * (a - b);
  }

  /** White's and Black's kind loops together are the material balance. */
  lemma {:induction false} KindsScoresAreMaterial(ext: Externals, p: Position, kinds: seq<Piece>)
    ensures KindsScore(ext, p, White, kinds) + KindsScore(ext, p, Black, kinds) == Material(ext, p, kinds)
  {
    if kinds != [] {
      var n := |kinds| - 1;
      KindsScoresAreMaterial(ext, p, kinds[..n]);
      KindBalance(ext, p, kinds[n]);
    }
  }

  /** With `ALL_SIDES` listing White then Black, `evaluate` is the material
      balance: the sum over kinds of strength times (White's count less
      Black's). */
  lemma EvaluateIsMaterial(ext: Externals, p: Position)
    requires Conventional(ext)
    ensures Evaluate(ext, p) == Material(ext, p, AllPieces)
  {
    var sides := ext.allSides;
    assert sides[..1] == [White] && sides[..1][..0] == [];
    assert SidesScore(ext, p, sides[..1]) == KindsScore(ext, p, White, AllPieces);
    assert SidesScore(ext, p, sides) == SidesScore(ext, p, sides[..1]) + KindsScore(ext, p, Black, AllPieces);
    KindsScoresAreMaterial(ext, p, AllPieces);
  }

  /** The loop finds nothing on an empty bitboard. */
  lemma {:induction false} SquaresScoreEmpty(w: int, n: nat)
    ensures SquaresScore({}, w, n) == 0
  {
    if n > 0 {
      SquaresScoreEmpty(w, n - 1);
    }
  }

  /** An empty kind loop scores nothing. */
  lemma {:induction false} KindsScoreEmpty(ext: Externals, side: Side, kinds: seq<Piece>)
    ensures KindsScore(ext, DefaultPosition, side, kinds) == 0
  {
    if kinds != [] {
      var k := kinds[|kinds| - 1];
      KindsScoreEmpty(ext, side, kinds[..|kinds| - 1]);
      assert OfPiece(DefaultPosition.pieces, side, k) == {};
      SquaresScoreEmpty(Signed(side, ext.strength(k)), 64);
    }
  }

  /** An empty side loop scores nothing. */
  lemma {:induction false} SidesScoreEmpty(ext: Externals, sides: seq<Side>)
    ensures SidesScore(ext, DefaultPosition, sides) == 0
  {
    if sides != [] {
      SidesScoreEmpty(ext, sides[..|sides| - 1]);
      KindsScoreEmpty(ext, sides[|sides| - 1], AllPieces);
    }
  }

  /** The empty board scores 0, whatever the strengths and the side list. */
  lemma EmptyBoardScoresZero(ext: Externals)
    ensures Evaluate(ext, DefaultPosition) == 0
  {
    SidesScoreEmpty(ext, ext.allSides);
  }

  /** The other side, as `Conventional` reads `Sides::other`. */
  function Other(s: Side): Side
  {
    match s
    case White => Black
    case Black => White
  }

  /** The position with the two sides' pieces exchanged. */
  function Swapped(p: Position): (r: Position)
    ensures forall s, k :: OfPiece(r.pieces, s, k) == OfPiece(p.pieces, Other(s), k)
  {
    Position([p.pieces[1], p.pieces[0]], [p.sides[1], p.sides[0]], p.rights)
  }

  /** Exchanging the sides negates one kind's balance. */
  lemma SwappedBalance(ext: Externals, p: Position, k: Piece)
    ensures Balance(ext, Swapped(p), k) == -Balance(ext, p, k)
  {
    var s := ext.strength(k);
    var a := CountPiece(p, White, k);
    var b := CountPiece(p, Black, k);
    assert CountPiece(Swapped(p), White, k) == b && CountPiece(Swapped(p), Black, k) == a;
    assert s * (b - a) == -(s * (a - b));
  }

  /** Exchanging the sides negates the material balance. */
  lemma {:induction false} SwappedMaterial(ext: Externals, p: Position, kinds: seq<Piece>)
    ensures Material(ext, Swapped(p), kinds) == -Material(ext, p, kinds)
  {
    if kinds != [] {
      SwappedMaterial(ext, p, kinds[..|kinds| - 1]);
      SwappedBalance(ext, p, kinds[|kinds| - 1]);
    }
  }

  /** Exchanging the two sides' pieces negates `evaluate`. */
  lemma SwapNegatesScore(ext: Externals, p: Position)
    requires Conventional(ext)
    ensures Evaluate(ext, Swapped(p)) == -Evaluate(ext, p)
  {
    EvaluateIsMaterial(ext, p);
    EvaluateIsMaterial(ext, Swapped(p));
    SwappedMaterial(ext, p, AllPieces);
  }

  /** `evaluate` over a `Board`: the three nested loops. */
  method EvaluateBoard(ext: Externals, board: Board) returns (value: int)
    ensures value == Evaluate(ext, board.State())
  {
    ghost var p := board.State();
    var sides := ext.allSides;
    value := 0;
    for s := 0 to |sides|
      invariant value == SidesScore(ext, p, sides[..s])
    {
      var side := sides[s];
      assert sides[..s + 1][..s] == sides[..s];
      ghost var before := value;
      for k := 0 to |AllPieces|
        invariant value == before + KindsScore(ext, p, side, AllPieces[..k])
      {
        var piece := AllPieces[k];
        assert AllPieces[..k + 1][..k] == AllPieces[..k];
        var sign := Sign(side);
        var bb := OfPiece(board.pieces, side, piece);
        ghost var start := value;
        for i := 0 to 64
          invariant value == start + SquaresScore(bb, Signed(side, ext.strength(piece)), i)
        {
          if i in bb {
            value := value + sign * ext.strength(piece);
          }
        }
      }
      assert AllPieces[..|AllPieces|] == AllPieces;
    }
    assert sides[..|sides|] == sides;
  }

  // ---------------------------------------------------------------------------
  // minimax

  /** The side whose moves `minimax` enumerates. */
  function SideToMove(maximizing: bool): Side
  {
    if maximizing then White else Black
  }

  /** `minimax(board, depth, maximizing)`. */
  function Minimax(ext: Externals, p: Position, depth: nat, maximizing: bool): (r: int)
    requires IndexesBoard(ext)
    decreases depth, 1
    ensures depth == 0 ==> r == 0
    ensures PseudoLegal(ext, p, SideToMove(maximizing)) == [] ==> r == 0
  {
    if depth == 0 then 0
    else
      var side := SideToMove(maximizing);
      PseudoLegalOnBoard(ext, p, side);
      ChildrenValue(ext, p, PseudoLegal(ext, p, side), depth, maximizing)
  }

  /** The loop of `minimax` over the moves `ms`: each move is applied to a copy of
      the board, whose score and whose own search one level down are added. */
  function ChildrenValue(ext: Externals, p: Position, ms: seq<Move>, depth: nat, maximizing: bool): int
    requires IndexesBoard(ext)
    requires depth > 0
    requires forall m :: m in ms ==> OnBoardSquares(m)
    decreases depth, 0, |ms|
  {
    if ms == [] then 0
    else
      var n := |ms| - 1;
      assert forall m :: m in ms[..n] ==> m in ms;
      var child := ApplyTo(ext, ms[n], p);
      ChildrenValue(ext, p, ms[..n], depth, maximizing) + (Evaluate(ext, child) + Minimax(ext, child, depth - 1, !maximizing))
  }

  /** The scores of the boards the moves `ms` lead to, added up. */
  function ScoreSum(ext: Externals, p: Position, ms: seq<Move>): int
    requires forall m :: m in ms ==> OnBoardSquares(m)
  {
    if ms == [] then 0
    else
      var n := |ms| - 1;
      assert forall m :: m in ms[..n] ==> m in ms;
      ScoreSum(ext, p, ms[..n]) + Evaluate(ext, ApplyTo(ext, ms[n], p))
  }

  /** One level down the search is 0, so a level adds only the children's scores. */
  lemma {:induction false} ChildrenAtDepthOne(ext: Externals, p: Position, ms: seq<Move>, maximizing: bool)
    requires IndexesBoard(ext)
    requires forall m :: m in ms ==> OnBoardSquares(m)
    ensures ChildrenValue(ext, p, ms, 1, maximizing) == ScoreSum(ext, p, ms)
  {
    if ms != [] {
      var n := |ms| - 1;
      assert forall m :: m in ms[..n] ==> m in ms;
      ChildrenAtDepthOne(ext, p, ms[..n], maximizing);
    }
  }

  /** At depth 1 `minimax` is the sum of the scores after each pseudo-legal move of
      White when maximizing, of Black otherwise. */
  lemma MinimaxDepthOne(ext: Externals, p: Position, maximizing: bool)
    requires IndexesBoard(ext)
    ensures PseudoLegalOnBoardAll(ext, p, SideToMove(maximizing))
    ensures Minimax(ext, p, 1, maximizing) == ScoreSum(ext, p, PseudoLegal(ext, p, SideToMove(maximizing)))
  {
    PseudoLegalOnBoard(ext, p, SideToMove(maximizing));
    ChildrenAtDepthOne(ext, p, PseudoLegal(ext, p, SideToMove(maximizing)), maximizing);
  }

  /** Every pseudo-legal move stays on the board. */
  predicate PseudoLegalOnBoardAll(ext: Externals, p: Position, side: Side)
  {
    forall m :: m in PseudoLegal(ext, p, side) ==> OnBoardSquares(m)
  }

  /** The loop of `minimax` over `moves`, on clones of the board. */
  method ChildrenLoop(ext: Externals, board: Board, moves: seq<Move>, depth: nat, maximizing: bool) returns (value: int)
    requires IndexesBoard(ext)
    requires depth > 0
    requires forall m :: m in moves ==> OnBoardSquares(m)
    decreases depth, 0
    ensures value == ChildrenValue(ext, board.State(), moves, depth, maximizing)
  {
    value := 0;
    for k := 0 to |moves|
      invariant value == ChildrenValue(ext, board.State(), moves[..k], depth, maximizing)
    {
      assert moves[..k + 1][..k] == moves[..k];
      var newBoard := board.Clone();
      Apply(ext, moves[k], newBoard);
      var score := EvaluateBoard(ext, newBoard);
      var below := Search(ext, newBoard, depth - 1, !maximizing);
      value := value + (score + below);
    }
    assert moves[..|moves|] == moves;
  }

  /** `minimax` over a `Board`: each move is applied to a clone, so the board
      itself is never changed. */
  method Search(ext: Externals, board: Board, depth: nat, maximizing: bool) returns (value: int)
    requires IndexesBoard(ext)
    decreases depth, 1
    ensures value == Minimax(ext, board.State(), depth, maximizing)
  {
    if depth == 0 {
      return 0;
    }
    var side := if maximizing then White else Black;
    var moves := PseudoLegalMoves(ext, board, side);
    PseudoLegalOnBoard(ext, board.State(), side);
    value := ChildrenLoop(ext, board, moves, depth, maximizing);
  }
}

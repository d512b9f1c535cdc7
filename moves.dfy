/** The four moves of chess_engine/src/moves.rs and how each is applied to a board
    in place by XOR toggles.  `ApplyTo` says on values what `apply` does; the
    method `Apply` performs the same toggles on a `Board` object. */
module Moves {
  import opened Wrappers
  import opened Squares
  import opened Pieces
  import opened Bitboards
  import opened Boards

  /** `BasicMove`, `Capture`, `Promotion` and `Castle`. */
  datatype Move =
    | Basic(from: Square, to: Square)
    | Capture(from: Square, to: Square, capture: Piece)
    | Promotion(from: Square, to: Square, piece: Piece)
    | Castle(side: Side, kingSide: bool)

  /** The squares a move shifts `1` by lie on the board (a shift by 64 or more
      overflows `u64`). */
  predicate OnBoardSquares(m: Move)
  {
    match m
    case Castle(_, _) => true
    case _ => Idx(m.from) < 64 && Idx(m.to) < 64
  }

  /** `Move::capture`: the stored kind of a `Capture`, nothing for the others. */
  function Captured(m: Move): (r: Option<Piece>)
    ensures r.Some? <==> m.Capture?
    ensures m.Capture? ==> r.value == m.capture
  {
    match m
    case Capture(_, _, c) => Some(c)
    case _ => None
  }

  // ---------------------------------------------------------------------------
  // apply, on values

  /** `BasicMove::apply`: the piece on `from` (as `get_side` and `get_piece` read
      it) is placed on `to`, then its bit on `from` is toggled in the side's
      aggregate and in the piece's bitboard. */
  function ApplyBasic(ext: Externals, p: Position, from: Square, to: Square): Position
    requires Idx(from) < 64 && Idx(to) < 64
  {
    var side := SideAt(ext, p, Idx(from));
    var piece := PieceAt(ext, p, Idx(from));
    Place(Place(p, side, piece, Idx(to)), side, piece, Idx(from))
  }

  /** `Move::apply` for each kind of move. */
  function ApplyTo(ext: Externals, m: Move, p: Position): Position
    requires OnBoardSquares(m)
  {
    match m
    case Basic(from, to) => ApplyBasic(ext, p, from, to)
    case Capture(from, to, _) =>
      // The occupant of `to` is read from the board, not from the move.
      var p1 := Place(p, SideAt(ext, p, Idx(to)), PieceAt(ext, p, Idx(to)), Idx(to));
      ApplyBasic(ext, p1, from, to)
    case Promotion(from, to, piece) =>
      // The side is read from the destination square.
      var side := SideAt(ext, p, Idx(to));
      Place(Place(p, side, piece, Idx(to)), side, Pawn, Idx(from))
    case Castle(_, _) => p
  }

  // ---------------------------------------------------------------------------
  // apply, in place

  /** The two toggles every move is made of: the square's bit in the side's
      aggregate and in the piece's bitboard. */
  method Toggle(board: Board, side: Side, piece: Piece, idx: nat)
    requires idx < 64
    modifies board
    ensures board.State() == Place(old(board.State()), side, piece, idx)
  {
    board.sides := WithSide(board.sides, side, Xor(OfSide(board.sides, side), {idx}));
    board.pieces := WithPiece(board.pieces, side, piece, Xor(OfPiece(board.pieces, side, piece), {idx}));
  }

  /** `BasicMove::apply`. */
  method ApplyBasicMove(ext: Externals, board: Board, from: Square, to: Square)
    requires Idx(from) < 64 && Idx(to) < 64
    modifies board
    ensures board.State() == ApplyBasic(ext, old(board.State()), from, to)
  {
    var side := board.GetSide(ext, from);
    var piece := board.GetPiece(ext, from);
    board.PlacePiece(side, piece, to);
    Toggle(board, side, piece, Idx(from));
  }

  /** `Move::apply`: changes the board exactly as `ApplyTo` says. */
  method Apply(ext: Externals, m: Move, board: Board)
    requires OnBoardSquares(m)
    modifies board
    ensures board.State() == ApplyTo(ext, m, old(board.State()))
  {
    match m
    case Basic(from, to) =>
      ApplyBasicMove(ext, board, from, to);
    case Capture(from, to, _) =>
      var captureSide := board.GetSide(ext, to);
      var capturePiece := board.GetPiece(ext, to);
      Toggle(board, captureSide, capturePiece, Idx(to));
      ApplyBasicMove(ext, board, from, to);
    case Promotion(from, to, piece) =>
      var side := board.GetSide(ext, to);
      Toggle(board, side, piece, Idx(to));
      Toggle(board, side, Pawn, Idx(from));
    case Castle(_, _) =>
  }

  // ---------------------------------------------------------------------------
  // What the moves do

  /** Moving the piece of kind `k` of side `s` from `from` to the empty square `to`:
      the two toggles of `place_piece` at `to` and at `from`. */
  lemma Relocate(p: Position, s: Side, k: Piece, from: nat, to: nat)
    requires WellFormed(p)
    requires from < 64 && to < 64
    requires from in OfPiece(p.pieces, s, k) && to !in Occupied(p)
    ensures var r := Place(Place(p, s, k, to), s, k, from);
      && OfPiece(r.pieces, s, k) == OfPiece(p.pieces, s, k) - {from} + {to}
      && OfSide(r.sides, s) == OfSide(p.sides, s) - {from} + {to}
      && (forall t, q :: (t, q) != (s, k) ==> OfPiece(r.pieces, t, q) == OfPiece(p.pieces, t, q))
      && (forall t :: t != s ==> OfSide(r.sides, t) == OfSide(p.sides, t))
      && r.rights == p.rights
      && WellFormed(r)
  {
    var r := Place(Place(p, s, k, to), s, k, from);
    assert from in OfSide(p.sides, s);
    assert to !in OfSide(p.sides, s);
    assert to !in OfPiece(p.pieces, s, k);
    assert OfPiece(r.pieces, s, k) == OfPiece(p.pieces, s, k) - {from} + {to};
    assert OfSide(r.sides, s) == OfSide(p.sides, s) - {from} + {to};
    RelocateKeepsWellFormed(p, r, s, k, from, to);
  }

  lemma RelocateKeepsWellFormed(p: Position, r: Position, s: Side, k: Piece, from: nat, to: nat)
    requires WellFormed(p)
    requires from in OfPiece(p.pieces, s, k) && to !in Occupied(p)
    requires OfPiece(r.pieces, s, k) == OfPiece(p.pieces, s, k) - {from} + {to}
    requires OfSide(r.sides, s) == OfSide(p.sides, s) - {from} + {to}
    requires forall t, q :: (t, q) != (s, k) ==> OfPiece(r.pieces, t, q) == OfPiece(p.pieces, t, q)
    requires forall t :: t != s ==> OfSide(r.sides, t) == OfSide(p.sides, t)
    ensures WellFormed(r)
  {
    RelocateSidesDisjoint(p, r, s, from, to);
    RelocateKindsDisjoint(p, r, s, k, from, to);
    RelocateAggregates(p, r, s, k, from, to);
  }

  lemma RelocateSidesDisjoint(p: Position, r: Position, s: Side, from: nat, to: nat)
    requires SidesDisjoint(p) && to !in Occupied(p)
    requires OfSide(r.sides, s) == OfSide(p.sides, s) - {from} + {to}
    requires forall t :: t != s ==> OfSide(r.sides, t) == OfSide(p.sides, t)
    ensures SidesDisjoint(r)
  {
    var other := if s == White then Black else White;
    assert OfSide(r.sides, other) == OfSide(p.sides, other);
    assert to !in OfSide(p.sides, other);
  }

  lemma RelocateKindsDisjoint(p: Position, r: Position, s: Side, k: Piece, from: nat, to: nat)
    requires KindsDisjoint(p) && AggregatesExact(p) && to !in Occupied(p)
    requires OfPiece(r.pieces, s, k) == OfPiece(p.pieces, s, k) - {from} + {to}
    requires forall t, q :: (t, q) != (s, k) ==> OfPiece(r.pieces, t, q) == OfPiece(p.pieces, t, q)
    ensures KindsDisjoint(r)
  {
    forall t, q1, q2 | q1 != q2
      ensures OfPiece(r.pieces, t, q1) * OfPiece(r.pieces, t, q2) == {}
    {
      assert OfPiece(p.pieces, t, q1) * OfPiece(p.pieces, t, q2) == {};
      if t == s {
        assert to !in OfPiece(p.pieces, t, q1) && to !in OfPiece(p.pieces, t, q2);
      }
    }
  }

  lemma RelocateAggregates(p: Position, r: Position, s: Side, k: Piece, from: nat, to: nat)
    requires KindsDisjoint(p) && AggregatesExact(p)
    requires from in OfPiece(p.pieces, s, k)
    requires OfPiece(r.pieces, s, k) == OfPiece(p.pieces, s, k) - {from} + {to}
    requires OfSide(r.sides, s) == OfSide(p.sides, s) - {from} + {to}
    requires forall t, q :: (t, q) != (s, k) ==> OfPiece(r.pieces, t, q) == OfPiece(p.pieces, t, q)
    requires forall t :: t != s ==> OfSide(r.sides, t) == OfSide(p.sides, t)
    ensures AggregatesExact(r)
  {
    forall t, x
      ensures x in OfSide(r.sides, t) <==> exists q :: x in OfPiece(r.pieces, t, q)
    {
      if t == s {
        if x in OfSide(r.sides, s) {
          RelocateOut(p, r, s, k, from, to, x);
        }
        if exists q :: x in OfPiece(r.pieces, s, q) {
          var q :| x in OfPiece(r.pieces, s, q);
          assert q != k ==> (s, q) != (s, k);
          RelocateIn(p, r, s, k, q, from, to, x);
        }
      } else {
        assert OfSide(r.sides, t) == OfSide(p.sides, t);
        assert forall q :: OfPiece(r.pieces, t, q) == OfPiece(p.pieces, t, q);
      }
    }
  }

  /** A square of the mover's aggregate after a relocation lies in one of its kinds. */
  lemma RelocateOut(p: Position, r: Position, s: Side, k: Piece, from: nat, to: nat, x: nat)
    requires AggregatesExact(p)
    requires OfPiece(r.pieces, s, k) == OfPiece(p.pieces, s, k) - {from} + {to}
    requires OfSide(r.sides, s) == OfSide(p.sides, s) - {from} + {to}
    requires forall t, q :: (t, q) != (s, k) ==> OfPiece(r.pieces, t, q) == OfPiece(p.pieces, t, q)
    requires x in OfSide(r.sides, s)
    ensures exists q :: x in OfPiece(r.pieces, s, q)
  {
    if x == to {
      assert x in OfPiece(r.pieces, s, k);
    } else {
      assert x in OfSide(p.sides, s) && x != from;
      var q :| x in OfPiece(p.pieces, s, q);
      if q == k {
        assert x in OfPiece(r.pieces, s, k);
      } else {
        assert OfPiece(r.pieces, s, q) == OfPiece(p.pieces, s, q);
      }
    }
  }

  /** A square of one of the mover's kinds after a relocation lies in its aggregate. */
  lemma RelocateIn(p: Position, r: Position, s: Side, k: Piece, q: Piece, from: nat, to: nat, x: nat)
    requires KindsDisjoint(p) && AggregatesExact(p)
    requires from in OfPiece(p.pieces, s, k)
    requires OfPiece(r.pieces, s, k) == OfPiece(p.pieces, s, k) - {from} + {to}
    requires OfSide(r.sides, s) == OfSide(p.sides, s) - {from} + {to}
    requires q != k ==> OfPiece(r.pieces, s, q) == OfPiece(p.pieces, s, q)
    requires x in OfPiece(r.pieces, s, q)
    ensures x in OfSide(r.sides, s)
  {
    if x != to {
      if q != k {
        assert OfPiece(p.pieces, s, q) * OfPiece(p.pieces, s, k) == {};
        assert x != from;
      }
      assert x in OfPiece(p.pieces, s, q) && x != from;
      assert x in OfSide(p.sides, s);
    }
  }

  /** `BasicMove::apply` on a well-formed board, from an occupied square to an
      empty one: the mover's kind and side gain `to` and lose `from`, every other
      bitboard and the castling flags are unchanged, and the board stays well
      formed. */
  lemma BasicMoveRelocates(ext: Externals, p: Position, s: Side, k: Piece, from: Square, to: Square)
    requires Conventional(ext) && WellFormed(p)
    requires Idx(from) < 64 && Idx(to) < 64
    requires Idx(from) in OfPiece(p.pieces, s, k) && Idx(to) !in Occupied(p)
    ensures var r := ApplyTo(ext, Basic(from, to), p);
      && OfPiece(r.pieces, s, k) == OfPiece(p.pieces, s, k) - {Idx(from)} + {Idx(to)}
      && OfSide(r.sides, s) == OfSide(p.sides, s) - {Idx(from)} + {Idx(to)}
      && (forall t, q :: (t, q) != (s, k) ==> OfPiece(r.pieces, t, q) == OfPiece(p.pieces, t, q))
      && (forall t :: t != s ==> OfSide(r.sides, t) == OfSide(p.sides, t))
      && r.rights == p.rights
      && WellFormed(r)
  {
    WellFormedSole(p, s, k, Idx(from));
    OccupantAt(ext, p, s, k, Idx(from));
    Relocate(p, s, k, Idx(from), Idx(to));
  }

  /** Removing the piece of kind `k` of side `t` from `x` keeps the board well
      formed and takes `x` out of that kind's bitboard only. */
  lemma Remove(p: Position, t: Side, k: Piece, x: nat)
    requires WellFormed(p) && x < 64 && x in OfPiece(p.pieces, t, k)
    ensures var r := Place(p, t, k, x);
      && OfPiece(r.pieces, t, k) == OfPiece(p.pieces, t, k) - {x}
      && OfSide(r.sides, t) == OfSide(p.sides, t) - {x}
      && x !in Occupied(r)
      && WellFormed(r)
  {
    var r := Place(p, t, k, x);
    assert x in OfSide(p.sides, t);
    assert OfPiece(r.pieces, t, k) == OfPiece(p.pieces, t, k) - {x};
    assert OfSide(r.sides, t) == OfSide(p.sides, t) - {x};
    var u := if t == White then Black else White;
    assert x !in OfSide(p.sides, White) * OfSide(p.sides, Black);
    assert x !in OfSide(p.sides, u);
    RemoveKindsDisjoint(p, r, t, k, x);
    RemoveAggregates(p, r, t, k, x);
  }

  lemma RemoveKindsDisjoint(p: Position, r: Position, t: Side, k: Piece, x: nat)
    requires KindsDisjoint(p)
    requires OfPiece(r.pieces, t, k) == OfPiece(p.pieces, t, k) - {x}
    requires forall s, q :: (s, q) != (t, k) ==> OfPiece(r.pieces, s, q) == OfPiece(p.pieces, s, q)
    ensures KindsDisjoint(r)
  {
    forall s, q1, q2 | q1 != q2
      ensures OfPiece(r.pieces, s, q1) * OfPiece(r.pieces, s, q2) == {}
    {
      assert OfPiece(p.pieces, s, q1) * OfPiece(p.pieces, s, q2) == {};
    }
  }

  lemma RemoveAggregates(p: Position, r: Position, t: Side, k: Piece, x: nat)
    requires KindsDisjoint(p) && AggregatesExact(p)
    requires x in OfPiece(p.pieces, t, k)
    requires OfPiece(r.pieces, t, k) == OfPiece(p.pieces, t, k) - {x}
    requires OfSide(r.sides, t) == OfSide(p.sides, t) - {x}
    requires forall s, q :: (s, q) != (t, k) ==> OfPiece(r.pieces, s, q) == OfPiece(p.pieces, s, q)
    requires forall s :: s != t ==> OfSide(r.sides, s) == OfSide(p.sides, s)
    ensures AggregatesExact(r)
  {
    forall y | y in OfSide(r.sides, t)
      ensures exists q :: y in OfPiece(r.pieces, t, q)
    {
      var q :| y in OfPiece(p.pieces, t, q);
      assert y in OfPiece(r.pieces, t, q);
    }
    forall y, q | y in OfPiece(r.pieces, t, q)
      ensures y in OfSide(r.sides, t)
    {
      assert y in OfPiece(p.pieces, t, q);
      assert y != x || q == k || x !in OfPiece(p.pieces, t, q) * OfPiece(p.pieces, t, k);
    }
  }

  /** `Capture::apply` on a well-formed board, the mover of kind `k` of side `s`
      taking a piece of kind `d` of the other side: the defender loses that piece
      on `to` and its count of that kind drops by one.  What the move stores as
      `capture` plays no part. */
  lemma CaptureRemovesDefender(ext: Externals, p: Position, s: Side, k: Piece, d: Piece, from: Square, to: Square, c: Piece)
    requires Conventional(ext) && WellFormed(p)
    requires Idx(from) < 64 && Idx(to) < 64
    requires Idx(from) in OfPiece(p.pieces, s, k)
    requires Idx(to) in OfPiece(p.pieces, ext.other(s), d)
    ensures var r := ApplyTo(ext, Capture(from, to, c), p);
      && CountPiece(r, ext.other(s), d) == CountPiece(p, ext.other(s), d) - 1
      && OfPiece(r.pieces, ext.other(s), d) == OfPiece(p.pieces, ext.other(s), d) - {Idx(to)}
      && OfSide(r.sides, ext.other(s)) == OfSide(p.sides, ext.other(s)) - {Idx(to)}
  {
    var e, f, t := ext.other(s), Idx(from), Idx(to);
    var p1 := Place(p, e, d, t);
    WellFormedSole(p, s, k, f);
    WellFormedSole(p, e, d, t);
    CaptureIsRelocation(ext, p, s, k, d, from, to, c);
    Remove(p, e, d, t);
    var r := Place(Place(p1, s, k, t), s, k, f);
    assert OfPiece(r.pieces, e, d) == OfPiece(p1.pieces, e, d) && OfSide(r.sides, e) == OfSide(p1.sides, e);
    CardRemove(OfPiece(p.pieces, e, d), t);
  }

  /** `Capture::apply` as above: the mover stands on `to` and not on `from`, and the
      board stays well formed. */
  lemma CaptureMovesAttacker(ext: Externals, p: Position, s: Side, k: Piece, d: Piece, from: Square, to: Square, c: Piece)
    requires Conventional(ext) && WellFormed(p)
    requires Idx(from) < 64 && Idx(to) < 64
    requires Idx(from) in OfPiece(p.pieces, s, k)
    requires Idx(to) in OfPiece(p.pieces, ext.other(s), d)
    ensures var r := ApplyTo(ext, Capture(from, to, c), p);
      && OfPiece(r.pieces, s, k) == OfPiece(p.pieces, s, k) - {Idx(from)} + {Idx(to)}
      && OfSide(r.sides, s) == OfSide(p.sides, s) - {Idx(from)} + {Idx(to)}
      && WellFormed(r)
  {
    var p1 := Place(p, ext.other(s), d, Idx(to));
    WellFormedSole(p, s, k, Idx(from));
    WellFormedSole(p, ext.other(s), d, Idx(to));
    CaptureIsRelocation(ext, p, s, k, d, from, to, c);
    assert WellFormed(p1) && Idx(to) !in Occupied(p1) && Idx(from) in OfPiece(p1.pieces, s, k)
      && OfPiece(p1.pieces, s, k) == OfPiece(p.pieces, s, k) && OfSide(p1.sides, s) == OfSide(p.sides, s) by {
      Remove(p, ext.other(s), d, Idx(to));
    }
    Relocate(p1, s, k, Idx(from), Idx(to));
  }

  /** On a well-formed board `Capture::apply` empties `to`, then relocates the
      mover. */
  lemma CaptureIsRelocation(ext: Externals, p: Position, s: Side, k: Piece, d: Piece, from: Square, to: Square, c: Piece)
    requires Conventional(ext)
    requires Idx(from) < 64 && Idx(to) < 64
    requires SoleOccupant(p, s, k, Idx(from)) && SoleOccupant(p, ext.other(s), d, Idx(to))
    ensures ApplyTo(ext, Capture(from, to, c), p)
      == Place(Place(Place(p, ext.other(s), d, Idx(to)), s, k, Idx(to)), s, k, Idx(from))
  {
    var e, f, t := ext.other(s), Idx(from), Idx(to);
    OccupantAt(ext, p, e, d, t);
    RemoveKeepsSole(p, e, d, t, s, k, f);
    OccupantAt(ext, Place(p, e, d, t), s, k, f);
  }

  /** Taking a piece of the other side off a square keeps the sole occupant of
      another square in place. */
  lemma RemoveKeepsSole(p: Position, e: Side, d: Piece, t: nat, s: Side, k: Piece, f: nat)
    requires t < 64 && e != s && t in OfSide(p.sides, e) && SoleOccupant(p, s, k, f)
    ensures SoleOccupant(Place(p, e, d, t), s, k, f)
  {
    var p1 := Place(p, e, d, t);
    assert OfSide(p1.sides, s) == OfSide(p.sides, s);
    assert OfSide(p1.sides, e) == OfSide(p.sides, e) - {t};
  }

  /** Taking one member out of a set lowers its size by one. */
  lemma CardRemove(a: Bitboard, x: nat)
    requires x in a
    ensures |a - {x}| == |a| - 1
  {
    assert a == (a - {x}) + {x};
  }

  /** `Promotion::apply` of a White pawn onto an empty square: the pawn leaves
      `from`, the chosen kind appears on `to`, White's aggregate follows, Black is
      untouched and the board stays well formed. */
  lemma WhitePromotion(ext: Externals, p: Position, from: Square, to: Square, piece: Piece)
    requires Conventional(ext) && WellFormed(p)
    requires Idx(from) < 64 && Idx(to) < 64 && piece != Pawn
    requires Idx(from) in OfPiece(p.pieces, White, Pawn) && Idx(to) !in Occupied(p)
    ensures var r := ApplyTo(ext, Promotion(from, to, piece), p);
      && OfPiece(r.pieces, White, Pawn) == OfPiece(p.pieces, White, Pawn) - {Idx(from)}
      && OfPiece(r.pieces, White, piece) == OfPiece(p.pieces, White, piece) + {Idx(to)}
      && OfSide(r.sides, White) == OfSide(p.sides, White) - {Idx(from)} + {Idx(to)}
      && OfSide(r.sides, Black) == OfSide(p.sides, Black)
      && (forall q :: OfPiece(r.pieces, Black, q) == OfPiece(p.pieces, Black, q))
  {
    SideAtHolder(ext, p, Idx(to), White);
    var f, t := Idx(from), Idx(to);
    assert f in OfSide(p.sides, White);
    assert t !in OfPiece(p.pieces, White, piece);
    var r := ApplyTo(ext, Promotion(from, to, piece), p);
    assert OfSide(r.sides, White) == OfSide(p.sides, White) - {f} + {t};
  }

  /** `Promotion::apply` of a Black pawn onto an empty square, as written: the side
      is read from `to`, which `get_side` reports as White, so White's aggregate
      gains both squares, White's pawns gain `from`, and Black's pawn stays. */
  lemma BlackPromotionTogglesWhite(ext: Externals, p: Position, from: Square, to: Square, piece: Piece)
    requires Conventional(ext) && WellFormed(p)
    requires Idx(from) < 64 && Idx(to) < 64 && piece != Pawn
    requires Idx(from) in OfPiece(p.pieces, Black, Pawn) && Idx(to) !in Occupied(p)
    ensures var r := ApplyTo(ext, Promotion(from, to, piece), p);
      && OfSide(r.sides, White) == OfSide(p.sides, White) + {Idx(from), Idx(to)}
      && OfPiece(r.pieces, White, Pawn) == OfPiece(p.pieces, White, Pawn) + {Idx(from)}
      && Idx(from) in OfPiece(r.pieces, Black, Pawn)
      && OfSide(r.sides, Black) == OfSide(p.sides, Black)
      && !WellFormed(r)
  {
    SideAtHolder(ext, p, Idx(to), White);
    var f, t := Idx(from), Idx(to);
    assert f in OfSide(p.sides, Black);
    assert f !in OfSide(p.sides, White) * OfSide(p.sides, Black);
    assert f !in OfSide(p.sides, White);
    assert f !in OfPiece(p.pieces, White, Pawn);
    var r := ApplyTo(ext, Promotion(from, to, piece), p);
    assert OfSide(r.sides, White) == OfSide(p.sides, White) + {f, t};
    assert OfPiece(r.pieces, White, Pawn) == OfPiece(p.pieces, White, Pawn) + {f};
    assert f in OfSide(r.sides, White) * OfSide(r.sides, Black);
  }

  /** `Castle::apply` has an empty body: the board is unchanged. */
  lemma CastleChangesNothing(ext: Externals, p: Position, s: Side, kingSide: bool)
    ensures ApplyTo(ext, Castle(s, kingSide), p) == p
  {
  }

  /** Every move keeps each aggregate the XOR of its side's piece bitboards, since
      every toggle touches a piece bitboard and its side's aggregate together. */
  lemma ApplyKeepsConsistent(ext: Externals, m: Move, p: Position)
    requires OnBoardSquares(m) && Consistent(p)
    ensures Consistent(ApplyTo(ext, m, p))
  {
    match m
    case Basic(from, to) =>
      BasicKeepsConsistent(ext, p, from, to);
    case Capture(from, to, _) =>
      var p1 := Place(p, SideAt(ext, p, Idx(to)), PieceAt(ext, p, Idx(to)), Idx(to));
      PlaceKeepsConsistent(p, SideAt(ext, p, Idx(to)), PieceAt(ext, p, Idx(to)), Idx(to));
      BasicKeepsConsistent(ext, p1, from, to);
    case Promotion(from, to, piece) =>
      var side := SideAt(ext, p, Idx(to));
      PlaceKeepsConsistent(p, side, piece, Idx(to));
      PlaceKeepsConsistent(Place(p, side, piece, Idx(to)), side, Pawn, Idx(from));
    case Castle(_, _) =>
  }

  lemma BasicKeepsConsistent(ext: Externals, p: Position, from: Square, to: Square)
    requires Idx(from) < 64 && Idx(to) < 64 && Consistent(p)
    ensures Consistent(ApplyBasic(ext, p, from, to))
  {
    var side := SideAt(ext, p, Idx(from));
    var piece := PieceAt(ext, p, Idx(from));
    PlaceKeepsConsistent(p, side, piece, Idx(to));
    PlaceKeepsConsistent(Place(p, side, piece, Idx(to)), side, piece, Idx(from));
  }

  // ---------------------------------------------------------------------------
  // Display

  /** The `Display` impls, given `Square`'s and `Pieces`' own renderings. */
  function Show(m: Move, square: Square -> string, piece: Piece -> string): (r: string)
    ensures m.Castle? ==> r == (if m.kingSide then "Castle king side" else "Castle queen side")
    ensures m.Basic? ==> r == square(m.from) + " -> " + square(m.to)
    ensures !m.Castle? ==> |r| >= |square(m.from) + " -> " + square(m.to)|
    ensures !m.Castle? ==> r[..|square(m.from) + " -> " + square(m.to)|] == square(m.from) + " -> " + square(m.to)
  {
    match m
    case Basic(from, to) => square(from) + " -> " + square(to)
    case Capture(from, to, c) => square(from) + " -> " + square(to) + " capturing " + piece(c)
    case Promotion(from, to, k) => square(from) + " -> " + square(to) + " promoting to " + piece(k)
    case Castle(_, kingSide) => "Castle " + (if kingSide then "king" else "queen") + " side"
  }

  /** The rendering of a castle does not say whose it is. */
  lemma CastleShowOmitsSide(kingSide: bool, square: Square -> string, piece: Piece -> string)
    ensures Show(Castle(White, kingSide), square, piece) == Show(Castle(Black, kingSide), square, piece)
  {
  }

  /** A capture renders as its basic move followed by the captured kind. */
  lemma CaptureShowExtendsBasic(from: Square, to: Square, c: Piece, square: Square -> string, piece: Piece -> string)
    ensures Show(Capture(from, to, c), square, piece) == Show(Basic(from, to), square, piece) + " capturing " + piece(c)
    ensures Show(Promotion(from, to, c), square, piece) == Show(Basic(from, to), square, piece) + " promoting to " + piece(c)
  {
  }
}

/** `Board::from_fen` (chess_engine/src/board.rs): reads the piece-placement and
    the castling-availability fields of a Forsyth–Edwards Notation record
    (sections 16.1.3.1 and 16.1.3.3 of the PGN standard) into a default board.
    Every `panic!`, every `unwrap` of `None` and every arithmetic overflow the
    parser can hit makes the specification answer `None`. */
module Fen {
  import opened Wrappers
  import opened Squares
  import opened Pieces
  import opened Bitboards
  import opened Boards

  // ---------------------------------------------------------------------------
  // str::split

  /** `s.split(sep)`: the runs between separators, in order; never empty. */
  function Split(s: string, sep: char): (r: seq<string>)
    ensures |r| >= 1
    ensures forall k :: 0 <= k < |r| ==> sep !in r[k]
  {
    if s == [] then [[]]
    else
      var rest := Split(s[1..], sep);
      if s[0] == sep then [[]] + rest
      else [[s[0]] + rest[0]] + rest[1..]
  }

  /** The runs put back together with the separator between them. */
  function Join(parts: seq<string>, sep: char): string
    requires |parts| >= 1
  {
    if |parts| == 1 then parts[0] else parts[0] + [sep] + Join(parts[1..], sep)
  }

  /** Splitting loses nothing: the runs joined again give the input. */
  lemma {:induction false} SplitJoin(s: string, sep: char)
    ensures Join(Split(s, sep), sep) == s
  {
    if s != [] {
      SplitJoin(s[1..], sep);
      var rest := Split(s[1..], sep);
      if s[0] == sep {
        assert ([[]] + rest)[1..] == rest;
      } else {
        var r := [[s[0]] + rest[0]] + rest[1..];
        if |rest| > 1 {
          assert r[1..] == rest[1..];
          assert Join(rest, sep) == rest[0] + [sep] + Join(rest[1..], sep);
        }
      }
    }
  }

  /** A run without the separator is one piece. */
  lemma {:induction false} SplitPlain(a: string, sep: char)
    requires sep !in a
    ensures Split(a, sep) == [a]
  {
    if a != [] {
      SplitPlain(a[1..], sep);
      assert [a[0]] + a[1..] == a;
    }
  }

  /** A run without the separator, then the separator, starts a new piece. */
  lemma {:induction false} SplitCons(a: string, sep: char, b: string)
    requires sep !in a
    ensures Split(a + [sep] + b, sep) == [a] + Split(b, sep)
  {
    if a == [] {
      assert a + [sep] + b == [sep] + b;
      assert ([sep] + b)[1..] == b;
    } else {
      var s := a + [sep] + b;
      assert s[1..] == a[1..] + [sep] + b;
      SplitCons(a[1..], sep, b);
      assert [a[0]] + a[1..] == a;
    }
  }

  /** Joining runs that hold no separator and splitting again gives the runs. */
  lemma {:induction false} JoinSplit(parts: seq<string>, sep: char)
    requires |parts| >= 1
    requires forall k :: 0 <= k < |parts| ==> sep !in parts[k]
    ensures Split(Join(parts, sep), sep) == parts
  {
    if |parts| == 1 {
      SplitPlain(parts[0], sep);
    } else {
      JoinSplit(parts[1..], sep);
      SplitCons(parts[0], sep, Join(parts[1..], sep));
      assert [parts[0]] + parts[1..] == parts;
    }
  }

  // ---------------------------------------------------------------------------
  // Characters

  /** `char::is_digit(10)`. */
  predicate IsDigit(c: char)
  {
    '0' <= c <= '9'
  }

  /** `char::to_digit(10).unwrap()`. */
  function DigitValue(c: char): (d: nat)
    requires IsDigit(c)
    ensures d <= 9
  {
    (c as int) - ('0' as int)
  }

  /** `char::is_uppercase` picks White, anything else Black.  On the twelve piece
      letters, the only characters that reach a board, ASCII capitals are exactly
      the upper-case ones. */
  function SideOfLetter(c: char): Side
  {
    if 'A' <= c <= 'Z' then White else Black
  }

  /** `char::to_ascii_lowercase`. */
  function Lower(c: char): (l: char)
    ensures 'A' <= c <= 'Z' ==> l as int == c as int + 32
    ensures !('A' <= c <= 'Z') ==> l == c
  {
    if 'A' <= c <= 'Z' then (c as int + 32) as char else c
  }

  /** The arms of the `match` on the lower-cased letter; `None` for the arm that
      panics. */
  function KindOf(c: char): Option<Piece>
  {
    match c
    case 'p' => Some(Pawn)
    case 'r' => Some(Rook)
    case 'n' => Some(Knight)
    case 'b' => Some(Bishop)
    case 'q' => Some(Queen)
    case 'k' => Some(King)
    case _ => None
  }

  // ---------------------------------------------------------------------------
  // The placement field

  /** The inner loop over the characters of one placement row, at row number
      `rank` and column `file`: a digit advances the column, a piece letter is
      placed on `Square::new(file, 7 - rank)` and advances it by one.  `None` when
      the letter is not a piece, when `7 - rank` would underflow and when the
      square's index is too large for `1 << idx`. */
  function PlaceChars(p: Position, rank: nat, file: nat, cs: string): Option<Position>
    decreases cs
  {
    if cs == [] then Some(p)
    else
      var c := cs[0];
      if IsDigit(c) then PlaceChars(p, rank, file + DigitValue(c), cs[1..])
      else
        match KindOf(Lower(c))
        case None => None
        case Some(kind) =>
          if rank > 7 then None
          else
            var square := New(file, 7 - rank);
            if Idx(square) >= 64 then None
            else PlaceChars(Place(p, SideOfLetter(c), kind, Idx(square)), rank, file + 1, cs[1..])
  }

  /** The outer loop over the rows, numbered from `rank`. */
  function PlaceRows(p: Position, rows: seq<string>, rank: nat): Option<Position>
    decreases rows
  {
    if rows == [] then Some(p)
    else
      match PlaceChars(p, rank, 0, rows[0])
      case None => None
      case Some(q) => PlaceRows(q, rows[1..], rank + 1)
  }

  /** What one square of a placement row holds. */
  datatype Cell = Vacant | Holds(side: Side, piece: Piece)

  /** The row read as the standard describes it, one cell per column: a digit `d`
      is `d` vacant squares, a piece letter one occupied square.  `None` when some
      character is neither. */
  function Expand(cs: string): Option<seq<Cell>>
  {
    if cs == [] then Some([])
    else
      var c := cs[0];
      match Expand(cs[1..])
      case None => None
      case Some(rest) =>
        if IsDigit(c) then Some(Vacancies(DigitValue(c)) + rest)
        else
          match KindOf(Lower(c))
          case None => None
          case Some(kind) => Some([Holds(SideOfLetter(c), kind)] + rest)
  }

  /** Every occupied cell of row `rank`, starting at column `file`, has a square
      on the board: the row number is at most 7 and the index below 64. */
  predicate Fits(rank: nat, file: nat, cells: seq<Cell>)
  {
    forall f :: 0 <= f < |cells| && cells[f].Holds? ==> rank <= 7 && (7 - rank) * 8 + file + f < 64
  }

  /** The squares of the row that hold `piece` of `side`: column `file + f` of row
      `rank` is square `(7 - rank) * 8 + file + f`. */
  function PieceCells(rank: nat, file: nat, cells: seq<Cell>, side: Side, piece: Piece): Bitboard
    requires Fits(rank, file, cells)
  {
    set f | 0 <= f < |cells| && cells[f] == Holds(side, piece) :: (7 - rank) * 8 + file + f
  }

  /** The cell holds a piece of `side`. */
  predicate OwnedBy(c: Cell, side: Side)
  {
    c.Holds? && c.side == side
  }

  /** The squares of the row that hold some piece of `side`. */
  function SideCells(rank: nat, file: nat, cells: seq<Cell>, side: Side): Bitboard
    requires Fits(rank, file, cells)
  {
    set f | 0 <= f < |cells| && OwnedBy(cells[f], side) :: (7 - rank) * 8 + file + f
  }

  /** Toggling the square `i` and then the squares `c` toggles `{i} + c` when `i`
      is not among them. */
  lemma XorJoin(a: Bitboard, i: nat, c: Bitboard, hit: bool)
    requires i < 64 && i !in c
    ensures Xor(Xor(a, if hit then {i} else {}), c) == Xor(a, (if hit then {i} else {}) + c)
  {
  }

  /** `d` vacant cells. */
  function Vacancies(d: nat): (r: seq<Cell>)
    ensures |r| == d && forall f :: 0 <= f < d ==> r[f] == Vacant
  {
    seq(d, _ => Vacant)
  }

  /** A digit's vacant cells only move the rest of the row along. */
  lemma VacantFits(rank: nat, file: nat, d: nat, rest: seq<Cell>)
    ensures Fits(rank, file, Vacancies(d) + rest) <==> Fits(rank, file + d, rest)
  {
    var cells := Vacancies(d) + rest;
    assert forall f :: 0 <= f < |rest| ==> cells[d + f] == rest[f];
    if Fits(rank, file + d, rest) {
      forall f | 0 <= f < |cells| && cells[f].Holds?
        ensures rank <= 7 && (7 - rank) * 8 + file + f < 64
      {
        assert rest[f - d].Holds?;
      }
    }
  }

  /** The same for the squares of one kind of piece. */
  lemma VacantPieces(rank: nat, file: nat, d: nat, rest: seq<Cell>, s: Side, k: Piece)
    requires Fits(rank, file + d, rest)
    ensures Fits(rank, file, Vacancies(d) + rest)
    ensures PieceCells(rank, file, Vacancies(d) + rest, s, k) == PieceCells(rank, file + d, rest, s, k)
  {
    VacantFits(rank, file, d, rest);
    VacantPiecesOut(rank, file, d, rest, s, k);
    VacantPiecesIn(rank, file, d, rest, s, k);
  }

  lemma VacantPiecesOut(rank: nat, file: nat, d: nat, rest: seq<Cell>, s: Side, k: Piece)
    requires Fits(rank, file + d, rest) && Fits(rank, file, Vacancies(d) + rest)
    ensures forall x :: x in PieceCells(rank, file, Vacancies(d) + rest, s, k) ==> x in PieceCells(rank, file + d, rest, s, k)
  {
    var cells := Vacancies(d) + rest;
    forall x | x in PieceCells(rank, file, cells, s, k)
      ensures x in PieceCells(rank, file + d, rest, s, k)
    {
      var f :| 0 <= f < |cells| && cells[f] == Holds(s, k) && x == (7 - rank) * 8 + file + f;
      assert f >= d;
      assert rest[f - d] == cells[f];
      assert x == (7 - rank) * 8 + (file + d) + (f - d);
    }
  }

  lemma VacantPiecesIn(rank: nat, file: nat, d: nat, rest: seq<Cell>, s: Side, k: Piece)
    requires Fits(rank, file + d, rest) && Fits(rank, file, Vacancies(d) + rest)
    ensures forall x :: x in PieceCells(rank, file + d, rest, s, k) ==> x in PieceCells(rank, file, Vacancies(d) + rest, s, k)
  {
    var cells := Vacancies(d) + rest;
    forall x | x in PieceCells(rank, file + d, rest, s, k)
      ensures x in PieceCells(rank, file, cells, s, k)
    {
      var f :| 0 <= f < |rest| && rest[f] == Holds(s, k) && x == (7 - rank) * 8 + (file + d) + f;
      assert cells[d + f] == rest[f];
    }
  }

  /** The same for the squares of one side. */
  lemma VacantSides(rank: nat, file: nat, d: nat, rest: seq<Cell>, s: Side)
    requires Fits(rank, file + d, rest)
    ensures Fits(rank, file, Vacancies(d) + rest)
    ensures SideCells(rank, file, Vacancies(d) + rest, s) == SideCells(rank, file + d, rest, s)
  {
    VacantFits(rank, file, d, rest);
    VacantSidesOut(rank, file, d, rest, s);
    VacantSidesIn(rank, file, d, rest, s);
  }

  lemma VacantSidesOut(rank: nat, file: nat, d: nat, rest: seq<Cell>, s: Side)
    requires Fits(rank, file + d, rest) && Fits(rank, file, Vacancies(d) + rest)
    ensures forall x :: x in SideCells(rank, file, Vacancies(d) + rest, s) ==> x in SideCells(rank, file + d, rest, s)
  {
    var cells := Vacancies(d) + rest;
    forall x | x in SideCells(rank, file, cells, s)
      ensures x in SideCells(rank, file + d, rest, s)
    {
      var f :| 0 <= f < |cells| && OwnedBy(cells[f], s) && x == (7 - rank) * 8 + file + f;
      assert f >= d;
      assert rest[f - d] == cells[f];
      assert x == (7 - rank) * 8 + (file + d) + (f - d);
    }
  }

  lemma VacantSidesIn(rank: nat, file: nat, d: nat, rest: seq<Cell>, s: Side)
    requires Fits(rank, file + d, rest) && Fits(rank, file, Vacancies(d) + rest)
    ensures forall x :: x in SideCells(rank, file + d, rest, s) ==> x in SideCells(rank, file, Vacancies(d) + rest, s)
  {
    var cells := Vacancies(d) + rest;
    forall x | x in SideCells(rank, file + d, rest, s)
      ensures x in SideCells(rank, file, cells, s)
    {
      var f :| 0 <= f < |rest| && OwnedBy(rest[f], s) && x == (7 - rank) * 8 + (file + d) + f;
      assert cells[d + f] == rest[f];
    }
  }

  /** An occupied first cell needs its own square on the board. */
  lemma HoldsFits(rank: nat, file: nat, h: Cell, rest: seq<Cell>)
    requires h.Holds?
    ensures Fits(rank, file, [h] + rest) <==>
      rank <= 7 && (7 - rank) * 8 + file < 64 && Fits(rank, file + 1, rest)
  {
    var cells := [h] + rest;
    assert cells[0] == h;
    assert forall f :: 0 <= f < |rest| ==> cells[f + 1] == rest[f];
    if rank <= 7 && (7 - rank) * 8 + file < 64 && Fits(rank, file + 1, rest) {
      forall f | 0 <= f < |cells| && cells[f].Holds?
        ensures rank <= 7 && (7 - rank) * 8 + file + f < 64
      {
        if f > 0 {
          assert rest[f - 1].Holds?;
        }
      }
    }
  }

  /** An occupied first cell adds its own square, below all the others. */
  lemma HoldsPieces(rank: nat, file: nat, h: Cell, rest: seq<Cell>, s: Side, k: Piece)
    requires h.Holds? && rank <= 7 && (7 - rank) * 8 + file < 64 && Fits(rank, file + 1, rest)
    ensures Fits(rank, file, [h] + rest)
    ensures (7 - rank) * 8 + file !in PieceCells(rank, file + 1, rest, s, k)
    ensures PieceCells(rank, file, [h] + rest, s, k)
      == (if h == Holds(s, k) then {(7 - rank) * 8 + file} else {}) + PieceCells(rank, file + 1, rest, s, k)
  {
    HoldsFits(rank, file, h, rest);
    HoldsPiecesHead(rank, file, h, rest, s, k);
    HoldsPiecesTail(rank, file, h, rest, s, k);
  }

  lemma HoldsPiecesHead(rank: nat, file: nat, h: Cell, rest: seq<Cell>, s: Side, k: Piece)
    requires h.Holds? && rank <= 7 && (7 - rank) * 8 + file < 64 && Fits(rank, file + 1, rest)
    requires Fits(rank, file, [h] + rest)
    ensures forall x :: x in PieceCells(rank, file, [h] + rest, s, k) ==>
      x in (if h == Holds(s, k) then {(7 - rank) * 8 + file} else {}) + PieceCells(rank, file + 1, rest, s, k)
    ensures h == Holds(s, k) ==> (7 - rank) * 8 + file in PieceCells(rank, file, [h] + rest, s, k)
  {
    var cells := [h] + rest;
    assert cells[0] == h;
    forall x | x in PieceCells(rank, file, cells, s, k)
      ensures x in (if h == Holds(s, k) then {(7 - rank) * 8 + file} else {}) + PieceCells(rank, file + 1, rest, s, k)
    {
      var f :| 0 <= f < |cells| && cells[f] == Holds(s, k) && x == (7 - rank) * 8 + file + f;
      if f > 0 {
        assert rest[f - 1] == cells[f];
        assert x == (7 - rank) * 8 + (file + 1) + (f - 1);
      }
    }
  }

  lemma HoldsPiecesTail(rank: nat, file: nat, h: Cell, rest: seq<Cell>, s: Side, k: Piece)
    requires h.Holds? && rank <= 7 && (7 - rank) * 8 + file < 64 && Fits(rank, file + 1, rest)
    requires Fits(rank, file, [h] + rest)
    ensures forall x :: x in PieceCells(rank, file + 1, rest, s, k) ==>
      x in PieceCells(rank, file, [h] + rest, s, k) && x != (7 - rank) * 8 + file
  {
    var cells := [h] + rest;
    forall x | x in PieceCells(rank, file + 1, rest, s, k)
      ensures x in PieceCells(rank, file, cells, s, k) && x != (7 - rank) * 8 + file
    {
      var f :| 0 <= f < |rest| && rest[f] == Holds(s, k) && x == (7 - rank) * 8 + file + 1 + f;
      assert cells[f + 1] == rest[f];
    }
  }

  /** The same for the squares of one side. */
  lemma HoldsSides(rank: nat, file: nat, h: Cell, rest: seq<Cell>, s: Side)
    requires h.Holds? && rank <= 7 && (7 - rank) * 8 + file < 64 && Fits(rank, file + 1, rest)
    ensures Fits(rank, file, [h] + rest)
    ensures (7 - rank) * 8 + file !in SideCells(rank, file + 1, rest, s)
    ensures SideCells(rank, file, [h] + rest, s)
      == (if h.side == s then {(7 - rank) * 8 + file} else {}) + SideCells(rank, file + 1, rest, s)
  {
    HoldsFits(rank, file, h, rest);
    HoldsSidesHead(rank, file, h, rest, s);
    HoldsSidesTail(rank, file, h, rest, s);
  }

  lemma HoldsSidesHead(rank: nat, file: nat, h: Cell, rest: seq<Cell>, s: Side)
    requires h.Holds? && rank <= 7 && (7 - rank) * 8 + file < 64 && Fits(rank, file + 1, rest)
    requires Fits(rank, file, [h] + rest)
    ensures forall x :: x in SideCells(rank, file, [h] + rest, s) ==>
      x in (if h.side == s then {(7 - rank) * 8 + file} else {}) + SideCells(rank, file + 1, rest, s)
    ensures h.side == s ==> (7 - rank) * 8 + file in SideCells(rank, file, [h] + rest, s)
  {
    var cells := [h] + rest;
    assert cells[0] == h;
    forall x | x in SideCells(rank, file, cells, s)
      ensures x in (if h.side == s then {(7 - rank) * 8 + file} else {}) + SideCells(rank, file + 1, rest, s)
    {
      var f :| 0 <= f < |cells| && OwnedBy(cells[f], s) && x == (7 - rank) * 8 + file + f;
      if f > 0 {
        assert rest[f - 1] == cells[f];
        assert x == (7 - rank) * 8 + (file + 1) + (f - 1);
      }
    }
  }

  lemma HoldsSidesTail(rank: nat, file: nat, h: Cell, rest: seq<Cell>, s: Side)
    requires h.Holds? && rank <= 7 && (7 - rank) * 8 + file < 64 && Fits(rank, file + 1, rest)
    requires Fits(rank, file, [h] + rest)
    ensures forall x :: x in SideCells(rank, file + 1, rest, s) ==>
      x in SideCells(rank, file, [h] + rest, s) && x != (7 - rank) * 8 + file
  {
    var cells := [h] + rest;
    forall x | x in SideCells(rank, file + 1, rest, s)
      ensures x in SideCells(rank, file, cells, s) && x != (7 - rank) * 8 + file
    {
      var f :| 0 <= f < |rest| && OwnedBy(rest[f], s) && x == (7 - rank) * 8 + file + 1 + f;
      assert cells[f + 1] == rest[f];
    }
  }

  /** `q` is `p` with each piece bitboard and each aggregate toggled on the squares
      the cells name for it, and the same castling flags. */
  predicate Toggled(p: Position, q: Position, rank: nat, file: nat, cells: seq<Cell>)
    requires Fits(rank, file, cells)
  {
    && (forall s, k :: OfPiece(q.pieces, s, k) == Xor(OfPiece(p.pieces, s, k), PieceCells(rank, file, cells, s, k)))
    && (forall s :: OfSide(q.sides, s) == Xor(OfSide(p.sides, s), SideCells(rank, file, cells, s)))
    && q.rights == p.rights
  }

  /** The characters `cs` of row `rank`, from column `file` on, are accepted
      exactly when every one is a digit or a piece letter and every piece lands on
      the board, and then they toggle exactly the squares they name. */
  predicate RowMeaning(p: Position, rank: nat, file: nat, cs: string)
  {
    && (PlaceChars(p, rank, file, cs).Some? <==> Expand(cs).Some? && Fits(rank, file, Expand(cs).value))
    && (PlaceChars(p, rank, file, cs).Some? ==>
          Toggled(p, PlaceChars(p, rank, file, cs).value, rank, file, Expand(cs).value))
  }

  /** The end of a row. */
  lemma EmptyRowMeaning(p: Position, rank: nat, file: nat)
    ensures RowMeaning(p, rank, file, [])
  {
    forall s, k
      ensures PieceCells(rank, file, [], s, k) == {}
    {
    }
    forall s
      ensures SideCells(rank, file, [], s) == {}
    {
    }
  }

  /** A digit: the rest of the row, further along. */
  lemma {:induction false} DigitStep(p: Position, rank: nat, file: nat, cs: string)
    requires cs != [] && IsDigit(cs[0])
    decreases cs, 0
    ensures RowMeaning(p, rank, file, cs)
  {
    var d := DigitValue(cs[0]);
    PlaceCharsMeaning(p, rank, file + d, cs[1..]);
    if Expand(cs[1..]).Some? {
      var rest := Expand(cs[1..]).value;
      VacantFits(rank, file, d, rest);
      if Fits(rank, file + d, rest) {
        forall s, k
          ensures PieceCells(rank, file, Vacancies(d) + rest, s, k) == PieceCells(rank, file + d, rest, s, k)
        {
          VacantPieces(rank, file, d, rest, s, k);
        }
        forall s
          ensures SideCells(rank, file, Vacancies(d) + rest, s) == SideCells(rank, file + d, rest, s)
        {
          VacantSides(rank, file, d, rest, s);
        }
      }
    }
  }

  /** A piece letter that lands on the board: its own square, then the rest of the
      row on the board with that square toggled. */
  lemma {:induction false} LetterStep(p: Position, rank: nat, file: nat, cs: string)
    requires cs != [] && !IsDigit(cs[0]) && KindOf(Lower(cs[0])).Some?
    requires rank <= 7 && (7 - rank) * 8 + file < 64
    decreases cs, 0
    ensures RowMeaning(p, rank, file, cs)
  {
    var c := cs[0];
    var kind := KindOf(Lower(c)).value;
    var h := Holds(SideOfLetter(c), kind);
    var i := (7 - rank) * 8 + file;
    assert Idx(New(file, 7 - rank)) == i;
    var p1 := Place(p, SideOfLetter(c), kind, i);
    PlaceCharsMeaning(p1, rank, file + 1, cs[1..]);
    if Expand(cs[1..]).Some? {
      var rest := Expand(cs[1..]).value;
      HoldsFits(rank, file, h, rest);
      assert Expand(cs).value == [h] + rest;
      if PlaceChars(p, rank, file, cs).Some? {
        PlacedRow(p, PlaceChars(p, rank, file, cs).value, rank, file, h, rest);
      }
    }
  }

  /** Placing a row's first piece and then toggling the rest of the row toggles
      the whole row. */
  lemma PlacedRow(p: Position, q: Position, rank: nat, file: nat, h: Cell, rest: seq<Cell>)
    requires h.Holds? && rank <= 7 && (7 - rank) * 8 + file < 64 && Fits(rank, file + 1, rest)
    requires Toggled(Place(p, h.side, h.piece, (7 - rank) * 8 + file), q, rank, file + 1, rest)
    ensures Fits(rank, file, [h] + rest) && Toggled(p, q, rank, file, [h] + rest)
  {
    HoldsFits(rank, file, h, rest);
    forall s, k
      ensures OfPiece(q.pieces, s, k) == Xor(OfPiece(p.pieces, s, k), PieceCells(rank, file, [h] + rest, s, k))
    {
      PlacedPieceCons(p, q, rank, file, h, rest, s, k);
    }
    forall s
      ensures OfSide(q.sides, s) == Xor(OfSide(p.sides, s), SideCells(rank, file, [h] + rest, s))
    {
      PlacedSideCons(p, q, rank, file, h, rest, s);
    }
  }

  /** Placing a row's first piece and then toggling the rest of the row toggles
      the whole row, for one piece bitboard. */
  lemma PlacedPieceCons(p: Position, q: Position, rank: nat, file: nat, h: Cell, rest: seq<Cell>, s: Side, k: Piece)
    requires h.Holds? && rank <= 7 && (7 - rank) * 8 + file < 64 && Fits(rank, file + 1, rest)
    requires OfPiece(q.pieces, s, k) ==
      Xor(OfPiece(Place(p, h.side, h.piece, (7 - rank) * 8 + file).pieces, s, k), PieceCells(rank, file + 1, rest, s, k))
    ensures Fits(rank, file, [h] + rest)
    ensures OfPiece(q.pieces, s, k) == Xor(OfPiece(p.pieces, s, k), PieceCells(rank, file, [h] + rest, s, k))
  {
    var i := (7 - rank) * 8 + file;
    HoldsPieces(rank, file, h, rest, s, k);
    assert OfPiece(Place(p, h.side, h.piece, i).pieces, s, k) == Xor(OfPiece(p.pieces, s, k), if h == Holds(s, k) then {i} else {});
    XorJoin(OfPiece(p.pieces, s, k), i, PieceCells(rank, file + 1, rest, s, k), h == Holds(s, k));
  }

  /** The same for one side's aggregate. */
  lemma PlacedSideCons(p: Position, q: Position, rank: nat, file: nat, h: Cell, rest: seq<Cell>, s: Side)
    requires h.Holds? && rank <= 7 && (7 - rank) * 8 + file < 64 && Fits(rank, file + 1, rest)
    requires OfSide(q.sides, s) ==
      Xor(OfSide(Place(p, h.side, h.piece, (7 - rank) * 8 + file).sides, s), SideCells(rank, file + 1, rest, s))
    ensures Fits(rank, file, [h] + rest)
    ensures OfSide(q.sides, s) == Xor(OfSide(p.sides, s), SideCells(rank, file, [h] + rest, s))
  {
    var i := (7 - rank) * 8 + file;
    HoldsSides(rank, file, h, rest, s);
    assert OfSide(Place(p, h.side, h.piece, i).sides, s) == Xor(OfSide(p.sides, s), if h.side == s then {i} else {});
    XorJoin(OfSide(p.sides, s), i, SideCells(rank, file + 1, rest, s), h.side == s);
  }

  /** A piece letter whose square is off the board, or that `7 - rank` cannot
      number, stops the parse. */
  lemma OffBoardStep(p: Position, rank: nat, file: nat, cs: string)
    requires cs != [] && !IsDigit(cs[0]) && KindOf(Lower(cs[0])).Some?
    requires !(rank <= 7 && (7 - rank) * 8 + file < 64)
    ensures RowMeaning(p, rank, file, cs)
  {
    if Expand(cs[1..]).Some? {
      HoldsFits(rank, file, Holds(SideOfLetter(cs[0]), KindOf(Lower(cs[0])).value), Expand(cs[1..]).value);
    }
  }

  /** A character that is neither a digit nor a piece letter stops the parse. */
  lemma BadCharStep(p: Position, rank: nat, file: nat, cs: string)
    requires cs != [] && !IsDigit(cs[0]) && KindOf(Lower(cs[0])).None?
    ensures RowMeaning(p, rank, file, cs)
  {
  }

  /** Every placement row means what the standard says. */
  lemma {:induction false} PlaceCharsMeaning(p: Position, rank: nat, file: nat, cs: string)
    decreases cs, 1
    ensures RowMeaning(p, rank, file, cs)
  {
    if cs == [] {
      EmptyRowMeaning(p, rank, file);
    } else if IsDigit(cs[0]) {
      DigitStep(p, rank, file, cs);
    } else if KindOf(Lower(cs[0])).Some? {
      if rank <= 7 && (7 - rank) * 8 + file < 64 {
        LetterStep(p, rank, file, cs);
      } else {
        OffBoardStep(p, rank, file, cs);
      }
    } else {
      BadCharStep(p, rank, file, cs);
    }
  }

  /** Every row of the placement field, numbered from `rank`, is accepted. */
  predicate RowsAccepted(rows: seq<string>, rank: nat)
  {
    forall r :: 0 <= r < |rows| ==> Expand(rows[r]).Some? && Fits(rank + r, 0, Expand(rows[r]).value)
  }

  /** The squares the rows name for `piece` of `side`, each row toggling its own. */
  function RowsPieces(rows: seq<string>, rank: nat, side: Side, piece: Piece): Bitboard
    requires RowsAccepted(rows, rank)
    decreases rows
  {
    if rows == [] then {}
    else
      assert Expand(rows[0]).Some? && Fits(rank + 0, 0, Expand(rows[0]).value);
      assert RowsAccepted(rows[1..], rank + 1) by {
        forall r | 0 <= r < |rows[1..]|
          ensures Expand(rows[1..][r]).Some? && Fits(rank + 1 + r, 0, Expand(rows[1..][r]).value)
        {
          assert rows[1..][r] == rows[r + 1];
        }
      }
      Xor(PieceCells(rank, 0, Expand(rows[0]).value, side, piece), RowsPieces(rows[1..], rank + 1, side, piece))
  }

  /** The squares the rows name for some piece of `side`. */
  function RowsSides(rows: seq<string>, rank: nat, side: Side): Bitboard
    requires RowsAccepted(rows, rank)
    decreases rows
  {
    if rows == [] then {}
    else
      assert Expand(rows[0]).Some? && Fits(rank + 0, 0, Expand(rows[0]).value);
      assert RowsAccepted(rows[1..], rank + 1) by {
        forall r | 0 <= r < |rows[1..]|
          ensures Expand(rows[1..][r]).Some? && Fits(rank + 1 + r, 0, Expand(rows[1..][r]).value)
        {
          assert rows[1..][r] == rows[r + 1];
        }
      }
      Xor(SideCells(rank, 0, Expand(rows[0]).value, side), RowsSides(rows[1..], rank + 1, side))
  }

  /** The rows are accepted together exactly when each is accepted on its own. */
  lemma RowsAcceptedCons(rows: seq<string>, rank: nat)
    requires rows != []
    ensures RowsAccepted(rows, rank) <==>
      Expand(rows[0]).Some? && Fits(rank, 0, Expand(rows[0]).value) && RowsAccepted(rows[1..], rank + 1)
  {
    assert forall r :: 0 <= r < |rows[1..]| ==> rows[1..][r] == rows[r + 1];
    if Expand(rows[0]).Some? && Fits(rank, 0, Expand(rows[0]).value) && RowsAccepted(rows[1..], rank + 1) {
      forall r | 0 <= r < |rows|
        ensures Expand(rows[r]).Some? && Fits(rank + r, 0, Expand(rows[r]).value)
      {
        if r > 0 {
          assert rows[r] == rows[1..][r - 1];
        }
      }
    }
  }

  /** The rows are accepted together, and then toggle the squares they name. */
  predicate RowsMeaning(p: Position, rows: seq<string>, rank: nat)
  {
    && (PlaceRows(p, rows, rank).Some? <==> RowsAccepted(rows, rank))
    && (PlaceRows(p, rows, rank).Some? ==>
          var q := PlaceRows(p, rows, rank).value;
          && (forall s, k :: OfPiece(q.pieces, s, k) == Xor(OfPiece(p.pieces, s, k), RowsPieces(rows, rank, s, k)))
          && (forall s :: OfSide(q.sides, s) == Xor(OfSide(p.sides, s), RowsSides(rows, rank, s)))
          && q.rights == p.rights)
  }

  /** The placement field means what the standard says, row by row: the row
      numbered `r` puts the letter of column `f` on square `(7 - r) * 8 + f`. */
  lemma {:induction false} PlaceRowsMeaning(p: Position, rows: seq<string>, rank: nat)
    decreases rows
    ensures RowsMeaning(p, rows, rank)
  {
    if rows == [] {
      assert forall s, k :: RowsPieces(rows, rank, s, k) == {};
      assert forall s :: RowsSides(rows, rank, s) == {};
    } else {
      RowsAcceptedCons(rows, rank);
      PlaceCharsMeaning(p, rank, 0, rows[0]);
      if PlaceChars(p, rank, 0, rows[0]).Some? {
        var q1 := PlaceChars(p, rank, 0, rows[0]).value;
        PlaceRowsMeaning(q1, rows[1..], rank + 1);
        if PlaceRows(p, rows, rank).Some? {
          var cells := Expand(rows[0]).value;
          forall s, k
            ensures OfPiece(PlaceRows(p, rows, rank).value.pieces, s, k)
                    == Xor(OfPiece(p.pieces, s, k), RowsPieces(rows, rank, s, k))
          {
            XorAssoc(OfPiece(p.pieces, s, k), PieceCells(rank, 0, cells, s, k), RowsPieces(rows[1..], rank + 1, s, k));
          }
          forall s
            ensures OfSide(PlaceRows(p, rows, rank).value.sides, s)
                    == Xor(OfSide(p.sides, s), RowsSides(rows, rank, s))
          {
            XorAssoc(OfSide(p.sides, s), SideCells(rank, 0, cells, s), RowsSides(rows[1..], rank + 1, s));
          }
        }
      }
    }
  }

  // ---------------------------------------------------------------------------
  // The castling field

  /** The characters before the first `'-'`, where the scan `break`s. */
  function Before(cs: string): (r: string)
    ensures '-' !in r && r <= cs
    ensures |r| < |cs| ==> cs[|r|] == '-'
  {
    if cs == [] || cs[0] == '-' then []
    else [cs[0]] + Before(cs[1..])
  }

  /** The four letters the castling field may hold. */
  predicate IsRightLetter(c: char)
  {
    c == 'K' || c == 'Q' || c == 'k' || c == 'q'
  }

  /** The loop over the castling field: each letter sets its own flag, `'-'` ends
      the scan, anything else panics. */
  function ReadRights(r: MoveRights, cs: string): Option<MoveRights>
    decreases cs
  {
    if cs == [] then Some(r)
    else
      match cs[0]
      case 'K' => ReadRights(r.(whiteKingSide := true), cs[1..])
      case 'Q' => ReadRights(r.(whiteQueenSide := true), cs[1..])
      case 'k' => ReadRights(r.(blackKingSide := true), cs[1..])
      case 'q' => ReadRights(r.(blackQueenSide := true), cs[1..])
      case '-' => Some(r)
      case _ => None
  }

  /** The flags after one castling letter. */
  function SetRight(r: MoveRights, c: char): MoveRights
  {
    match c
    case 'K' => r.(whiteKingSide := true)
    case 'Q' => r.(whiteQueenSide := true)
    case 'k' => r.(blackKingSide := true)
    case _ => r.(blackQueenSide := true)
  }

  /** The flags `r` with each one set whose letter is in `b`. */
  function WithLetters(r: MoveRights, b: string): MoveRights
  {
    MoveRights(r.whiteKingSide || 'K' in b, r.whiteQueenSide || 'Q' in b,
               r.blackKingSide || 'k' in b, r.blackQueenSide || 'q' in b)
  }

  /** The castling field is accepted exactly when everything before its first
      `'-'` is one of the four letters. */
  lemma {:induction false} ReadRightsAccepts(r: MoveRights, cs: string)
    decreases cs
    ensures ReadRights(r, cs).Some? <==> forall i :: 0 <= i < |Before(cs)| ==> IsRightLetter(Before(cs)[i])
  {
    if cs != [] && cs[0] != '-' {
      var c := cs[0];
      var b := Before(cs);
      var t := cs[1..];
      var rest := Before(t);
      assert b == [c] + rest;
      if IsRightLetter(c) {
        var x := SetRight(r, c);
        ReadRightsAccepts(x, t);
        assert ReadRights(x, t).Some? ==> (forall j :: 0 <= j < |Before(t)| ==> IsRightLetter(Before(t)[j]));
        assert ReadRights(r, cs) == ReadRights(x, t);
        if forall i :: 0 <= i < |rest| ==> IsRightLetter(rest[i]) {
          forall i | 0 <= i < |b|
            ensures IsRightLetter(b[i])
          {
            if i > 0 {
              assert b[i] == rest[i - 1];
            }
          }
        } else {
          var i :| 0 <= i < |rest| && !IsRightLetter(rest[i]);
          assert ReadRights(x, t).None?;
          assert b[i + 1] == rest[i];
          assert !IsRightLetter(Before(cs)[i + 1]);
        }
      } else {
        assert !IsRightLetter(b[0]);
      }
    }
  }

  /** Once accepted, each flag is set when its letter appears before the first
      `'-'`, and otherwise keeps its value. */
  lemma {:induction false} ReadRightsFlags(r: MoveRights, cs: string)
    decreases cs
    requires ReadRights(r, cs).Some?
    ensures ReadRights(r, cs).value == WithLetters(r, Before(cs))
  {
    if cs != [] && cs[0] != '-' {
      var c := cs[0];
      var t := cs[1..];
      var x := SetRight(r, c);
      assert IsRightLetter(c);
      assert ReadRights(r, cs) == ReadRights(x, t);
      ReadRightsFlags(x, t);
      var b := Before(cs);
      assert b == [c] + Before(t);
      assert forall y :: y in b <==> y == c || y in Before(t);
    }
  }

  // ---------------------------------------------------------------------------
  // from_fen

  /** `Board::from_fen`: the placement field (the first of the space-separated
      fields, its rows separated by `'/'`) placed on the default board, then the
      castling field (the third) read into its flags.  `None` where the source
      panics; the other fields are not read. */
  function FenPosition(input: string): Option<Position>
  {
    var parts := Split(input, ' ');
    match PlaceRows(DefaultPosition, Split(parts[0], '/'), 0)
    case None => None
    case Some(p) =>
      if |parts| < 3 then None
      else
        match ReadRights(p.rights, parts[2])
        case None => None
        case Some(r) => Some(p.(rights := r))
  }

  /** A record is read exactly when its placement rows are accepted and it has a
      castling field made of the four letters up to its first `'-'`.  The board
      read then holds on each square exactly the pieces the rows name for it
      (toggled, so a square named twice ends empty), and each castling flag is set
      exactly when its letter appears. */
  lemma FenMeaning(input: string)
    ensures var parts := Split(input, ' ');
      FenPosition(input).Some? <==>
        && RowsAccepted(Split(parts[0], '/'), 0)
        && |parts| >= 3
        && forall i :: 0 <= i < |Before(parts[2])| ==> IsRightLetter(Before(parts[2])[i])
    ensures var parts := Split(input, ' ');
      FenPosition(input).Some? ==>
        var q := FenPosition(input).value;
        && (forall s, k :: OfPiece(q.pieces, s, k) == RowsPieces(Split(parts[0], '/'), 0, s, k))
        && (forall s :: OfSide(q.sides, s) == RowsSides(Split(parts[0], '/'), 0, s))
        && q.rights == MoveRights('K' in Before(parts[2]), 'Q' in Before(parts[2]),
                                  'k' in Before(parts[2]), 'q' in Before(parts[2]))
  {
    var parts := Split(input, ' ');
    var rows := Split(parts[0], '/');
    PlaceRowsMeaning(DefaultPosition, rows, 0);
    if PlaceRows(DefaultPosition, rows, 0).Some? {
      var p := PlaceRows(DefaultPosition, rows, 0).value;
      assert p.rights == NoRights;
      if |parts| >= 3 {
        ReadRightsAccepts(p.rights, parts[2]);
        if ReadRights(p.rights, parts[2]).Some? {
          ReadRightsFlags(p.rights, parts[2]);
        }
      }
      forall s, k
        ensures OfPiece(p.pieces, s, k) == RowsPieces(rows, 0, s, k)
      {
        assert OfPiece(DefaultPosition.pieces, s, k) == {};
      }
      forall s
        ensures OfSide(p.sides, s) == RowsSides(rows, 0, s)
      {
        assert OfSide(DefaultPosition.sides, s) == {};
      }
    }
  }

  /** The inner loop of `from_fen` over one placement row; `ok` is false where
      the source panics. */
  method PlaceRow(board: Board, rank: nat, row: string) returns (ok: bool)
    modifies board
    ensures ok <==> PlaceChars(old(board.State()), rank, 0, row).Some?
    ensures ok ==> board.State() == PlaceChars(old(board.State()), rank, 0, row).value
  {
    var file: nat := 0;
    for i := 0 to |row|
      invariant PlaceChars(old(board.State()), rank, 0, row) == PlaceChars(board.State(), rank, file, row[i..])
    {
      var c := row[i];
      assert row[i..][0] == c && row[i..][1..] == row[i + 1..];
      if IsDigit(c) {
        file := file + DigitValue(c);
        continue;
      }
      var side := SideOfLetter(c);
      var kind := KindOf(Lower(c));
      if kind.None? || rank > 7 {
        return false;
      }
      var square := New(file, 7 - rank);
      if Idx(square) >= 64 {
        return false;
      }
      board.PlacePiece(side, kind.value, square);
      file := file + 1;
    }
    return true;
  }

  /** The loop of `from_fen` over the castling field; `ok` is false where the
      source panics. */
  method ReadCastling(board: Board, field: string) returns (ok: bool)
    modifies board
    ensures ok <==> ReadRights(old(board.moveRights), field).Some?
    ensures board.pieces == old(board.pieces) && board.sides == old(board.sides)
    ensures ok ==> board.moveRights == ReadRights(old(board.moveRights), field).value
  {
    for i := 0 to |field|
      invariant ReadRights(old(board.moveRights), field) == ReadRights(board.moveRights, field[i..])
      invariant board.pieces == old(board.pieces) && board.sides == old(board.sides)
    {
      var c := field[i];
      assert field[i..][0] == c && field[i..][1..] == field[i + 1..];
      if c == 'K' {
        board.moveRights := board.moveRights.(whiteKingSide := true);
      } else if c == 'Q' {
        board.moveRights := board.moveRights.(whiteQueenSide := true);
      } else if c == 'k' {
        board.moveRights := board.moveRights.(blackKingSide := true);
      } else if c == 'q' {
        board.moveRights := board.moveRights.(blackQueenSide := true);
      } else if c == '-' {
        break;
      } else {
        return false;
      }
    }
    return true;
  }

  /** `Board::from_fen` over a `Board`: `ok` is false where the source panics. */
  method FromFen(input: string) returns (board: Board, ok: bool)
    ensures fresh(board)
    ensures ok <==> FenPosition(input).Some?
    ensures ok ==> board.State() == FenPosition(input).value
  {
    var parts := Split(input, ' ');
    var rows := Split(parts[0], '/');
    board := new Board.Default();
    for rank := 0 to |rows|
      invariant PlaceRows(DefaultPosition, rows, 0) == PlaceRows(board.State(), rows[rank..], rank)
    {
      assert rows[rank..][0] == rows[rank] && rows[rank..][1..] == rows[rank + 1..];
      ok := PlaceRow(board, rank, rows[rank]);
      if !ok {
        return;
      }
    }
    if |parts| < 3 {
      return board, false;
    }
    ok := ReadCastling(board, parts[2]);
  }
}

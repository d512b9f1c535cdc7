/** `Square` (chess_engine/src/square.rs): a pair of unsigned coordinates.  The
    engine names the column `rank` and the row `file`, and numbers the board with
    `idx = file * 8 + rank`, so that square 0 is a1 and square 63 is h8. */
module Squares {

  /** `usize` fields; the model ignores 64-bit overflow of `file * 8 + rank`. */
  datatype Square = Square(rank: nat, file: nat)

  /** `Square::new(rank, file)`: the accessors give back exactly the arguments. */
  function New(rank: nat, file: nat): (s: Square)
    ensures s.rank == rank && s.file == file
  {
    Square(rank, file)
  }

  /** `Square::idx`. */
  function Idx(s: Square): nat
  {
    s.file * 8 + s.rank
  }

  /** The `Into<usize>` conversion, written out separately in the source. */
  function IntoIndex(s: Square): (v: nat)
    ensures v == Idx(s)
  {
    s.file * 8 + s.rank
  }

  /** A square whose column is on the board; only these have a unique index. */
  predicate OnBoard(s: Square)
  {
    s.rank < 8 && s.file < 8
  }

  /** `From<usize>`: column `v % 8`, row `v / 8`. */
  function FromIndex(v: nat): (s: Square)
    ensures s.rank == v % 8 && s.file == v / 8
    ensures s.rank < 8 && (v < 64 <==> s.file < 8)
    ensures Idx(s) == v
  {
    Square(v % 8, v / 8)
  }

  /** Converting a square to its index and back gives the same square exactly when
      its column is below 8. */
  lemma FromIdxRoundTrip(s: Square)
    ensures FromIndex(Idx(s)) == s <==> s.rank < 8
  {
    if s.rank < 8 {
      DivMod8(s.file, s.rank);
    }
  }

  /** Row and column come back out of an index built from them. */
  lemma DivMod8(q: nat, r: nat)
    requires r < 8
    ensures (q * 8 + r) / 8 == q && (q * 8 + r) % 8 == r
  {
    var v := q * 8 + r;
    assert v == (v / 8) * 8 + v % 8 && 0 <= v % 8 < 8;
    assert (v / 8 - q) * 8 == r - v % 8;
  }

  /** Squares on the board have distinct indices, all below 64. */
  lemma IdxInjective(a: Square, b: Square)
    requires OnBoard(a) && OnBoard(b)
    ensures Idx(a) < 64 && Idx(b) < 64
    ensures Idx(a) == Idx(b) <==> a == b
  {
    if Idx(a) == Idx(b) {
      FromIdxRoundTrip(a);
      FromIdxRoundTrip(b);
    }
  }

  /** A column past the edge aliases the first column of the next row: the index
      alone does not tell `Square(8, 0)` from `Square(0, 1)`. */
  lemma ColumnOverflowAliases(file: nat)
    ensures Idx(New(8, file)) == Idx(New(0, file + 1))
  {}
}

# chess_engine in Dafny

This project models the core of the `chess_engine` Rust crate and proves properties of the model. The crate is a bitboard chess engine. It has three parts:

- **The `Board` engine** (`board.rs`, `attacks.rs`, `moves.rs`, `bot.rs`, `square.rs`, `pieces.rs`).
  - A position is twelve 64-bit piece bitboards, two side bitboards and four castling flags.
  - On top of that sit the precomputed ray and step attack tables, move generation and legality filtering, check, checkmate and stalemate, reading FEN, the four kinds of move and how each is applied, and material evaluation with a minimax-style search.
- **The older `Game` generator** (`game.rs`): its own set-up routine and per-piece move sets for pawns, knights, sliders and the king.
- **The piece sketch** (`pieces/piece.rs`): a `Piece` record with a value table and the beginnings of pawn pushes.

Representation:

- A bitboard is a `set<nat>` of square indices below 64 (module `Bitboards`).
- `words.dfy` proves that the crate's `u64` operations are the set operations: `|`, `&`, `^`, `!`, `1 << i`, `count_ones`, `trailing_zeros` and `leading_zeros`.
- The crate's `Board` and `Game` update their fields in place, so they are Dafny classes. Each method's contract gives the new `State()` as a function of the old one.
- The loops of `init_rays`, `sliding_attacks`, `step_attacks`, `pseudo_legal_moves`, `legal_moves`, `evaluate`, `minimax`, `from_fen`, `Game::init` and `generate_sliding_moves` are `while` loops with invariants. Each is proved equal to a specification function, and lemmas state what those functions mean.

The crate calls some code whose text is not part of this model. Those calls are parameters:

- `Externals` in `Boards` stands for `Sides::other`, `ALL_SIDES`, `attacks::pawn_moves`, `Pieces::relative_strength` and `Square::from_idx`.
- `GameExternals` in `Games` stands for `BitBoard::from_square` and `BitBoard::mirror_h`.
- Lemmas that need the conventional behaviour of these calls take it as a hypothesis: `Conventional`, `IndexesBoard` and `GameConventional`. `IndexesBoard` says that `from_idx` maps each index below 64 to the on-board square with that index. The move generator's lemmas, `legal_moves`, `is_checkmate`, `is_stalemate` and `minimax` assume it, because the source looks up the squares it builds.

A Rust `panic!` or `unwrap` failure, and debug-build integer or shift overflow, becomes `None` in an `Option` result, except for the square-index shifts and the attack tables' square bound listed under "## Left out".

## Model

| member | source | states |
|---|---|---|
| Squares.New | chess_engine/src/square.rs:10-15 | the rank and file accessors give back exactly the values the square was built from |
| Squares.IntoIndex | chess_engine/src/square.rs:34-38 | the `Into<usize>` conversion is the same index as `idx` (file * 8 + rank) |
| Squares.FromIndex | chess_engine/src/square.rs:25-32 | `From<usize>` takes rank v % 8 and file v / 8; the rank is always below 8, the file is below 8 exactly when v < 64, and converting back gives v |
| Squares.FromIdxRoundTrip | chess_engine/src/square.rs:17-32 | going from a square to its index and back returns the square exactly when its rank is below 8 |
| Squares.IdxInjective | chess_engine/src/square.rs:17 | two on-board squares have the same index if and only if they are the same square, and the index is below 64 |
| Squares.ColumnOverflowAliases | chess_engine/src/square.rs:17 | `idx` does not check the rank: rank 8 of file f names the same index as rank 0 of file f + 1 |
| Pieces.SideIndex | chess_engine/src/pieces.rs:8-12 | a side's index is below SIDES_COUNT and is 0 exactly for White |
| Pieces.PieceIndex | chess_engine/src/pieces.rs:14-22 | a piece's index is below PIECES_COUNT |
| Pieces.AllPiecesInOrder | chess_engine/src/pieces.rs:24-31 | ALL_PIECES has PIECES_COUNT entries, the k-th has index k, and every piece sits at its own index |
| Pieces.PieceIndexInjective | chess_engine/src/pieces.rs:14-22 | distinct pieces index distinct rows of the board matrix |
| Pieces.PromotionPieces | chess_engine/src/board.rs:247-253 | the slice `ALL_PIECES[1..5]` the pawn loop promotes to is Rook, Knight, Bishop, Queen |
| Pieces.PromotionPiecesAre | chess_engine/src/board.rs:247-253 | a piece is a promotion choice if and only if it is neither a pawn nor a king |
| Pieces.WithSide | chess_engine/src/pieces.rs:69-73 | writing one side's bitboard through `IndexMut` changes that entry and leaves the other side's entry as it was |
| Pieces.WithPiece | chess_engine/src/pieces.rs:57-67 | writing one (side, piece) bitboard changes only that cell of the matrix |
| Bitboards.ViewInjective | chess_engine/src/board.rs:376-377 | two 64-bit words have the same set of squares if and only if they are the same word |
| Bitboards.ConstantsAgree | chess_engine/src/board.rs:379-383 | the word `1 << i` holds exactly square i, and the word 0 holds no square |
| Bitboards.TrailingZeros | chess_engine/src/attacks.rs:46-48 | the set form of `trailing_zeros` is 64 exactly on the empty board; otherwise it is the least square present |
| Bitboards.LeadingZeros | chess_engine/src/attacks.rs:46-49 | the set form of `leading_zeros` is 64 exactly on the empty board; otherwise 63 minus it is the greatest square present |
| Bitboards.ScansAgree | chess_engine/src/attacks.rs:46-49 | the word-level `trailing_zeros`, `leading_zeros` and `count_ones` equal the least square, greatest square and size of the set the word holds |
| Bitboards.ShiftRange | chess_engine/src/game.rs:88-89 | shifting a run of squares left by k gives the run k squares higher, as `Game::init` builds the pawn masks |
| Words.ElemsOr | chess_engine/src/board.rs:410-416 | `BitOr` on words is union of the square sets |
| Words.ElemsAnd | chess_engine/src/board.rs:426-432 | `BitAnd` on words is intersection |
| Words.ElemsXor | chess_engine/src/board.rs:434-440 | `BitXor` on words is symmetric difference |
| Words.ElemsNot | chess_engine/src/board.rs:418-424 | `Not` on a word holds exactly the squares the word does not |
| Words.ElemsBit | chess_engine/src/board.rs:201 | the word `1 << i` holds exactly square i |
| Words.CountOnesIsSize | chess_engine/src/board.rs:291-293 | `count_ones` is the number of squares the word holds |
| Words.TrailingZerosIsMin | chess_engine/src/attacks.rs:47 | on a non-zero word, `trailing_zeros` is a square it holds and no held square is lower |
| Words.LeadingZerosIsMax | chess_engine/src/attacks.rs:48 | on a non-zero word, 63 - `leading_zeros` is a square it holds and no held square is higher |
| Words.ZeroIffNoElems | chess_engine/src/board.rs:376-377 | a word is 0 if and only if it holds no square |
| RayGeometry.RaySet | chess_engine/src/attacks.rs:13-25 | every square on a ray lies strictly beyond its start in the direction of travel and is never square 0 |
| RayGeometry.RayNoWrap | chess_engine/src/attacks.rs:15-25 | each square on a ray is one legal step (no wrap across a board edge) from the previous one |
| RayGeometry.RayTail | chess_engine/src/attacks.rs:46-51 | the ray from a blocker is exactly the part of the original ray past that blocker |
| RayGeometry.RayIndexSteps | chess_engine/src/attacks.rs:70-78 | the rook's four rays step by 1 or 8, the bishop's by 7 or 9, and together they split the eight rays |
| RayGeometry.SeenUnblocked | chess_engine/src/attacks.rs:39-44 | with no occupied square on the ray, the slider sees the whole ray |
| RayGeometry.SeenBlocked | chess_engine/src/attacks.rs:46-51 | with a blocker, the slider sees the ray up to and including the nearest blocker and nothing beyond it |
| RayGeometry.SeenAllMembers | chess_engine/src/attacks.rs:36-54 | a square is attacked along a list of rays if and only if one of those rays sees it |
| RayGeometry.SlidersCoverAllRays | chess_engine/src/attacks.rs:80-82 | rook plus bishop rays together see exactly what the eight rays see |
| RayGeometry.TargetsMembers | chess_engine/src/attacks.rs:56-67 | a square is a step target if and only if it is on the board and its distance from the start square is one of the deltas |
| RayGeometry.TargetsSize | chess_engine/src/attacks.rs:56-67 | there are never more step targets than deltas |
| Attacks.RaysMissSquareZero | chess_engine/src/attacks.rs:18-19 | because `init_rays` stops on reaching square 0, no ray contains square 0 or its own start, and ray 5 from square 8 is empty |
| Attacks.WalkRay | chess_engine/src/attacks.rs:13-26 | the inner loop of `init_rays` builds exactly the ray of that direction and square |
| Attacks.InitRays | chess_engine/src/attacks.rs:6-31 | the `RAYS` table is a fresh 8 x 64 array whose every entry is the ray of that direction and square |
| Attacks.NearestBlocker | chess_engine/src/attacks.rs:46-49 | the chosen blocker is occupied and is the nearest one in the ray's direction |
| Attacks.RayContribution | chess_engine/src/attacks.rs:39-51 | one ray's contribution is what a slider on that ray sees |
| Attacks.Sliding | chess_engine/src/attacks.rs:36-54 | the union over the listed rays is what a slider on those rays sees |
| Attacks.SlidingAttacks | chess_engine/src/attacks.rs:36-54 | the loop of `sliding_attacks` computes exactly the sliding attack set |
| Attacks.RaySeen | chess_engine/src/attacks.rs:39-51 | the body of `sliding_attacks` for one ray computes that ray's contribution |
| Attacks.SlidingWithinRays | chess_engine/src/attacks.rs:36-54 | every square a slider attacks lies on one of the rays it was given |
| Attacks.StepAttacks | chess_engine/src/attacks.rs:56-67 | the loop of `step_attacks` computes exactly the step targets |
| Attacks.TablesFit | chess_engine/src/attacks.rs:84-101 | for a square below 64 the i8 sums in the step tables do not overflow, and the rook and bishop ray indices are valid |
| Attacks.RookAttacks | chess_engine/src/attacks.rs:70-73 | rook attacks are what a slider sees along the four orthogonal rays |
| Attacks.BishopAttacks | chess_engine/src/attacks.rs:75-78 | bishop attacks are what a slider sees along the four diagonal rays |
| Attacks.QueenSeesAllRays | chess_engine/src/attacks.rs:80-82 | a square is attacked by a queen if and only if one of the eight rays sees it |
| Attacks.KnightAttacks | chess_engine/src/attacks.rs:84-87 | a square is a knight target if and only if it is on the board at a knight delta from the start; there are at most 8 |
| Attacks.KingAttacks | chess_engine/src/attacks.rs:89-92 | a square is a king target if and only if it is on the board at a king delta from the start; there are at most 8 |
| Attacks.WhitePawnAttacks | chess_engine/src/attacks.rs:94-97 | a white pawn attacks exactly the on-board squares 7 and 9 above it |
| Attacks.BlackPawnAttacks | chess_engine/src/attacks.rs:99-101 | a black pawn attacks exactly the squares 7 and 9 below it |
| Attacks.KnightWrapsAround | chess_engine/src/attacks.rs:56-67 | the step tables do not guard the board edges: a knight on square 0 is said to attack squares 6 and 15 |
| Boards.SideQueries | chess_engine/src/board.rs:90-96 | when `Sides::other` swaps the two sides, `occupied` (board.rs:47-49) is `friendly` plus `enemy` of either side, a side's `enemy` squares are the other side's `friendly` squares, and `friendly` and `enemy` are disjoint exactly when the two side aggregates are |
| Boards.EmptyMeaning | chess_engine/src/board.rs:86-88 | on a well-formed board `empty`, the complement of `occupied`, is exactly the squares below 64 that no piece bitboard of either side holds |
| Boards.FirstSide | chess_engine/src/board.rs:113-117 | the side found is the first listed side that holds the square (no earlier entry holds it), and when none is found no listed side holds it |
| Boards.SideAt | chess_engine/src/board.rs:110-121 | `get_side` returns a side holding the square, or White when no side holds it; with `ALL_SIDES` as White then Black, a square White holds reports White even when Black holds it too |
| Boards.FirstPiece | chess_engine/src/board.rs:101-105 | the piece found is the first listed piece that holds the square (no earlier entry holds it), and when none is found no listed piece holds it |
| Boards.PieceAt | chess_engine/src/board.rs:98-108 | `get_piece` returns the first kind in `ALL_PIECES` order that the reported side holds on the square (no kind of lower discriminant holds it), or Pawn when that side holds none |
| Boards.CountPiece | chess_engine/src/board.rs:291-293 | the count is the number of squares in the piece's bitboard (`count_ones`, by `Words.CountOnesIsSize`), so never more than 64 |
| Boards.SideAtHolder | chess_engine/src/board.rs:110-121 | a side that holds the square is the one `get_side` reports; an empty square reports White |
| Boards.PlaceFrame | chess_engine/src/board.rs:295-298 | `place_piece` toggles the square in that piece's and that side's bitboards and changes nothing else |
| Boards.PlaceTwice | chess_engine/src/board.rs:295-298 | placing the same piece twice on the same square restores the position (XOR toggle) |
| Boards.PlaceKeepsConsistent | chess_engine/src/board.rs:295-298 | placing keeps each side's bitboard equal to the XOR of its piece bitboards |
| Boards.UnionRowMembers | chess_engine/src/board.rs:161-166 | a square is in the union of a row of piece bitboards if and only if one of them holds it |
| Boards.StartPositionFacts | chess_engine/src/board.rs:140-169 | the start position has 16 pieces a side on disjoint squares; side boards are the union and the XOR of the piece boards; White's king is on 4 and queen on 3, Black's king on 59 and queen on 60; no castling rights |
| Bitboards.LowRank | chess_engine/src/board.rs:143-144 | the word `255` that `Board::new` shifts into the pawn ranks holds exactly squares 0 to 7 |
| Boards.StartMasks | chess_engine/src/board.rs:143-159 | each word `Board::new` ORs into a piece bitboard (`255 << 8`, `1 << 7`, `1 << (8 * 7 + 4)` and the rest) holds exactly the squares of the model's start rows |
| Boards.StartLayout | chess_engine/src/board.rs:143-159 | White occupies squares 0 to 15 and Black 48 to 63 |
| Boards.StartWellFormed | chess_engine/src/board.rs:140-169 | the start position is well formed: sides disjoint, piece boards of a side disjoint, sides exactly the union of their pieces |
| Boards.WellFormedSole | chess_engine/src/board.rs:98-121 | in a well-formed position a square held by one piece is held by no other piece of that side |
| Boards.OccupantAt | chess_engine/src/board.rs:98-121 | in a well-formed position `get_side` and `get_piece` report the piece that is actually on the square |
| Boards.Board.Default | chess_engine/src/board.rs:366-374 | `Default` gives an empty board with no castling rights |
| Boards.Board.New | chess_engine/src/board.rs:140-169 | `Board::new` gives the start position |
| Boards.Board.PlacePiece | chess_engine/src/board.rs:295-298 | the new state is the old one with that piece toggled on that square |
| Boards.Board.GetSide | chess_engine/src/board.rs:110-121 | returns the side the specification function reports and changes nothing |
| Boards.Board.GetPiece | chess_engine/src/board.rs:98-108 | returns the piece the specification function reports and changes nothing |
| Boards.Board.Clone | chess_engine/src/board.rs:39-44 | the clone is a fresh board with the same state |
| Moves.Captured | chess_engine/src/moves.rs:41-43 | `capture` is Some exactly for a capture move, and then it is the captured piece |
| Moves.Toggle | chess_engine/src/moves.rs:35-36 | a single bitboard toggle on the board is `place_piece` on its state |
| Moves.ApplyBasicMove | chess_engine/src/moves.rs:29-37 | applying a basic move leaves the board in the state the specification function gives |
| Moves.Apply | chess_engine/src/moves.rs:29-157 | applying any move leaves the board in the state the specification function gives for that kind of move |
| Moves.Relocate | chess_engine/src/moves.rs:29-37 | toggling a piece on its origin and its target moves it: it leaves the origin, appears on the target, and every other bitboard stays the same |
| Moves.RelocateKeepsWellFormed | chess_engine/src/moves.rs:29-37 | moving a piece to an empty square keeps the position well formed |
| Moves.BasicMoveRelocates | chess_engine/src/moves.rs:29-37 | a basic move of the piece on its origin relocates that piece |
| Moves.Remove | chess_engine/src/moves.rs:66-74 | toggling off a piece removes exactly that square from that piece's and that side's bitboards |
| Moves.CaptureRemovesDefender | chess_engine/src/moves.rs:66-74 | a capture takes the defender off the target, lowering its count by one |
| Moves.CaptureMovesAttacker | chess_engine/src/moves.rs:66-74 | a capture puts the attacker on the target and empties its origin |
| Moves.CaptureIsRelocation | chess_engine/src/moves.rs:66-74 | a capture is the defender's removal followed by a relocation of the attacker |
| Moves.WhitePromotion | chess_engine/src/moves.rs:115-123 | a White promotion removes the pawn from the origin and puts the chosen piece on the target |
| Moves.BlackPromotionTogglesWhite | chess_engine/src/moves.rs:114-123 | a promotion onto an empty square (the only kind `pseudo_legal_moves` emits) uses White's bitboards, because `get_side` of an empty square falls back to White; so a Black promotion toggles White pieces and breaks well-formedness |
| Moves.CastleChangesNothing | chess_engine/src/moves.rs:157 | applying a castle move leaves the position unchanged |
| Moves.ApplyKeepsConsistent | chess_engine/src/moves.rs:29-123 | every move keeps side bitboards equal to the XOR of their piece bitboards |
| Moves.Show | chess_engine/src/moves.rs:22-26 | a basic move prints exactly "<from> -> <to>"; castles print as "Castle king side" or "Castle queen side"; captures and promotions print "<from> -> <to>" first |
| Moves.CastleShowOmitsSide | chess_engine/src/moves.rs:146-154 | White's and Black's castle moves print the same text |
| Moves.CaptureShowExtendsBasic | chess_engine/src/moves.rs:59-63 | a capture prints as the basic move followed by " capturing " and the piece; a promotion prints with " promoting to " |
| MoveGen.Promotions | chess_engine/src/board.rs:247-253 | one promotion move per listed piece, in order |
| MoveGen.PseudoLegalSound | chess_engine/src/board.rs:183-289 | every generated move comes from a square of the mover's piece and lands either on an empty reachable square (quiet or promotion) or on a reachable enemy square with the captured piece recorded; or it is a castle of the mover that the castling branch offers (king side when open, else queen side when open), given only when some king square of the mover reaches a square |
| MoveGen.PseudoLegalOnBoard | chess_engine/src/board.rs:183-289 | every generated move has both squares on the board |
| MoveGen.PseudoLegalComplete | chess_engine/src/board.rs:183-289 | every move of the form the generator describes, for a piece of the mover, is in the generated list, castles included |
| MoveGen.KindsMovesComplete | chess_engine/src/board.rs:198-287 | the loop over piece kinds misses no move of any listed kind, castles included |
| MoveGen.EmitCastle | chess_engine/src/board.rs:224-285 | an offered castle is emitted for any king square whose reach is not empty |
| MoveGen.KingReachesSomewhere | chess_engine/src/attacks.rs:89-92 | a king on a square of the board always reaches some square, so its castle is not skipped |
| MoveGen.CastleInPseudoLegal | chess_engine/src/board.rs:224-285 | a castle of the mover is listed if and only if the mover has a king on the board and the castling branch offers that castle |
| MoveGen.CastleMovesSpec | chess_engine/src/board.rs:270-285 | at most one castle move is offered: king side exactly when it is open, queen side exactly when king side is closed and queen side open |
| MoveGen.BlackQueenSideNeedsSquare59 | chess_engine/src/board.rs:281 | Black's queen-side mask includes square 59, where `Board::new` puts Black's king; while square 59 is occupied, Black's queen-side castle is not offered |
| MoveGen.CheckMeansKingAttacked | chess_engine/src/board.rs:123-130 | a side is in check if and only if one of the other side's pseudo-legal moves captures its king |
| MoveGen.FilterLegal | chess_engine/src/board.rs:171-180 | a move is kept if and only if it is in the list and does not leave the mover in check |
| MoveGen.Legal | chess_engine/src/board.rs:171-180 | legal moves are exactly the pseudo-legal moves after which the mover is not in check |
| MoveGen.NoLegalMoves | chess_engine/src/board.rs:171-180 | there is no legal move if and only if every pseudo-legal move leaves the mover in check |
| MoveGen.IsCheckmate | chess_engine/src/board.rs:132-134 | checkmate means in check and every pseudo-legal move leaves the king in check |
| MoveGen.IsStalemate | chess_engine/src/board.rs:136-138 | stalemate means not in check and every pseudo-legal move leaves the king in check |
| MoveGen.GameOverIsMateOrStalemate | chess_engine/src/board.rs:132-138 | a side has no legal move exactly when it is checkmated or stalemated, and it is never both |
| MoveGen.ReachOf | chess_engine/src/board.rs:205-222 | the per-kind match computes the reach the specification gives for that piece |
| MoveGen.PawnReachOf | chess_engine/src/board.rs:206-213 | the pawn arm combines pushes and attacks as the specification gives |
| MoveGen.QuietLoop | chess_engine/src/board.rs:231-256 | the loop over empty reachable squares builds the quiet and promotion moves of the specification |
| MoveGen.PromotionLoop | chess_engine/src/board.rs:247-253 | the promotion loop emits one move per promotion piece |
| MoveGen.CaptureLoop | chess_engine/src/board.rs:259-268 | the loop over reachable enemy squares builds the capture moves of the specification |
| MoveGen.CastleBranch | chess_engine/src/board.rs:270-285 | the king's castle checks produce the castle moves of the specification |
| MoveGen.EmitMoves | chess_engine/src/board.rs:224-285 | the moves emitted for one piece on one square are those of the specification |
| MoveGen.SquareLoopBody | chess_engine/src/board.rs:199-286 | one square of the scan emits the moves of the specification for that square |
| MoveGen.PieceLoop | chess_engine/src/board.rs:199-286 | the scan over 64 squares emits the moves of the specification for one piece kind |
| MoveGen.KindsLoop | chess_engine/src/board.rs:198-287 | the loop over piece kinds emits the moves of the specification |
| MoveGen.PseudoLegalMoves | chess_engine/src/board.rs:183-289 | `pseudo_legal_moves` returns the specification's list, which the lemmas above show sound and complete |
| MoveGen.FindKingCapture | chess_engine/src/board.rs:126-129 | the scan reports true if and only if some move captures a king |
| MoveGen.InCheck | chess_engine/src/board.rs:123-130 | `is_check` returns whether the side is in check and does not change the board |
| MoveGen.FilterMoves | chess_engine/src/board.rs:172-179 | the filtering loop keeps exactly the moves that do not leave the mover in check |
| MoveGen.KeepIfLegal | chess_engine/src/board.rs:174-178 | one move is tried on a clone and kept exactly when the mover is then not in check |
| MoveGen.LegalMoves | chess_engine/src/board.rs:171-180 | `legal_moves` returns the legal moves of the specification |
| MoveGen.InCheckmate | chess_engine/src/board.rs:132-134 | `is_checkmate` returns the checkmate predicate |
| MoveGen.InStalemate | chess_engine/src/board.rs:136-138 | `is_stalemate` returns the stalemate predicate |
| Fen.Split | chess_engine/src/board.rs:302 | splitting gives at least one field and no field contains the separator |
| Fen.SplitJoin | chess_engine/src/board.rs:302 | joining the split fields with the separator gives back the input |
| Fen.JoinSplit | chess_engine/src/board.rs:305 | splitting fields joined by the separator gives back the fields, when none contains it |
| Fen.DigitValue | chess_engine/src/board.rs:309 | a digit's value is at most 9 |
| Fen.Lower | chess_engine/src/board.rs:319 | upper-case ASCII letters map to lower case and every other character is left alone |
| Fen.DigitStep | chess_engine/src/board.rs:308-311 | a digit skips that many files and places nothing |
| Fen.LetterStep | chess_engine/src/board.rs:313-334 | a piece letter toggles that piece and side on the current square and the rest of the row follows |
| Fen.OffBoardStep | chess_engine/src/board.rs:307-335 | a piece letter is rejected when its row number exceeds 7 or its square index `(7 - rank) * 8 + file` reaches 64; a column past 7 is not checked on its own, so "8p" as the second row puts a pawn on square 56 |
| Fen.BadCharStep | chess_engine/src/board.rs:332 | an unknown character rejects the row |
| Fen.PlaceCharsMeaning | chess_engine/src/board.rs:307-335 | a row is accepted exactly when it expands to cells whose square index stays below 64 (and whose row number is at most 7), and then each piece and side bitboard is toggled by exactly the cells that row lists |
| Fen.PlaceRowsMeaning | chess_engine/src/board.rs:305-336 | all rows are accepted exactly when each is, and the bitboards are toggled by all the rows' cells |
| Fen.Before | chess_engine/src/board.rs:347-356 | the castling field is read up to its first '-' |
| Fen.ReadRightsAccepts | chess_engine/src/board.rs:347-356 | the castling field is accepted if and only if every character before the first '-' is one of K, Q, k, q |
| Fen.ReadRightsFlags | chess_engine/src/board.rs:347-356 | the castling flags set are those whose letters appear before the first '-' |
| Fen.FenMeaning | chess_engine/src/board.rs:300-363 | a FEN string is accepted exactly when its placement rows and castling field are; the resulting bitboards are those the rows list |
| Fen.PlaceRow | chess_engine/src/board.rs:306-335 | placing one row reports success exactly when the specification accepts it, and the board then holds the specification's position |
| Fen.ReadCastling | chess_engine/src/board.rs:347-356 | reading the castling field reports success exactly when the specification accepts it; the rights become the specification's and the bitboards are unchanged |
| Fen.FromFen | chess_engine/src/board.rs:300-363 | `from_fen` succeeds exactly when the specification accepts the string and then builds a fresh board holding its position |
| Bot.SquaresScoreCounts | chess_engine/src/bot.rs:17-21 | the square loop adds the weight once per square present |
| Bot.SquaresScoreAll | chess_engine/src/bot.rs:17-21 | over all 64 squares the loop adds the piece count times the weight |
| Bot.KindBalance | chess_engine/src/bot.rs:11-21 | one piece kind contributes its strength times (White count - Black count) |
| Bot.KindsScoresAreMaterial | chess_engine/src/bot.rs:11-22 | the two sides' loops over kinds add up to the material balance over those kinds |
| Bot.EvaluateIsMaterial | chess_engine/src/bot.rs:7-26 | `evaluate` is the material balance: the sum over kinds of strength times count difference |
| Bot.EmptyBoardScoresZero | chess_engine/src/bot.rs:7-26 | the empty board scores 0 |
| Bot.SwapNegatesScore | chess_engine/src/bot.rs:12-15 | swapping the colours of every piece negates the score |
| Bot.SwappedMaterial | chess_engine/src/bot.rs:7-26 | swapping colours negates the material balance over any list of kinds |
| Bot.EvaluateBoard | chess_engine/src/bot.rs:7-26 | the nested loops of `evaluate` compute the score of the specification |
| Bot.Minimax | chess_engine/src/bot.rs:29-45 | depth 0 and a side with no pseudo-legal move both score 0 |
| Bot.ChildrenAtDepthOne | chess_engine/src/bot.rs:36-44 | at depth 1 the loop adds up the scores of the boards the moves lead to |
| Bot.MinimaxDepthOne | chess_engine/src/bot.rs:29-45 | `minimax` at depth 1 is the sum of the scores after each pseudo-legal move, not a maximum or minimum |
| Bot.ChildrenLoop | chess_engine/src/bot.rs:36-44 | the move loop of `minimax` computes the specification's sum and leaves the board unchanged |
| Bot.Search | chess_engine/src/bot.rs:29-45 | `minimax` returns the specification's value and leaves the board unchanged |
| Games.Step | chess_engine/src/game.rs:278-286 | `checked_add_signed` followed by `n <= 7` succeeds exactly when the result stays in 0..7, and then it is v + d |
| Games.SetUpStep | chess_engine/src/game.rs:88-101 | toggling slot j of both sides extends the set-up by one slot |
| Games.SetupState | chess_engine/src/game.rs:87-107 | a state whose pieces are set up and whose sides are folded in is the specification's `Setup` |
| Games.PawnMasks | chess_engine/src/game.rs:88-89 | the pawn masks are rank 2 for White and rank 7 for Black |
| Games.EdgeMasks | chess_engine/src/game.rs:91-95 | the rook, knight and bishop pairs are mirrored back-rank squares, shifted seven ranks up for Black |
| Games.RoyalMasks | chess_engine/src/game.rs:97-101 | the queen goes on square 3 and the king on square 4, shifted seven ranks up for Black |
| Games.InitRowsXor | chess_engine/src/game.rs:103-107 | after set-up White occupies squares 0 to 15 and Black 48 to 63 |
| Games.SetupFromZero | chess_engine/src/game.rs:87-107 | from the empty game `init` places White exactly as `Board::new` does and Black with queen on 59 and king on 60, leaves the other slots empty, and sets each side board to its pieces |
| Games.FriendlyMembers | chess_engine/src/game.rs:152-160 | a square is friendly if and only if a piece slot of that side holds it |
| Games.OccupiedMembers | chess_engine/src/game.rs:163-180 | occupied is friendly plus enemy, is the same for both sides, and contains the enemy squares |
| Games.SideOn | chess_engine/src/game.rs:122-132 | `find_side` is None exactly for an empty square, and White exactly when White holds it |
| Games.FirstKind | chess_engine/src/game.rs:110-120 | the kind found holds the square and no earlier kind does; None means no kind does |
| Games.PieceTypeOn | chess_engine/src/game.rs:110-120 | `find_piece_type` is None on an empty square; a kind it returns holds the square and no earlier kind does; when it returns None, either neither side aggregate meets the square or no kind holds it |
| Games.PawnMoves | chess_engine/src/game.rs:182-220 | pawn move generation panics (None) exactly when stepping the rank in the pawn's direction leaves the board |
| Games.PawnPushRules | chess_engine/src/game.rs:188-202 | for a pawn on any square, the pushes are the `from_square` bitboard one rank up when it meets no occupied square, and the one two ranks up only from the start rank (1 for White, 6 for Black) when neither meets an occupied square; both go up the board, whatever the side |
| Games.PawnPushSquares | chess_engine/src/game.rs:188-202 | with conventional squares and the rank above on the board, the single push is that one square when it is empty, and the double square is a single square when the rank two up is on the board |
| Games.PawnCaptureRules | chess_engine/src/game.rs:210-218 | for any file, captures are the on-board diagonal squares one rank forward that hold an enemy piece |
| Games.PawnMovesMeaning | chess_engine/src/game.rs:182-220 | with conventional squares, whenever the rank in the pawn's direction is on the board, pawn move generation does not panic and a square is a pawn move if and only if it is a push as `PawnPushRules` states or an enemy square on a forward diagonal |
| Games.KnightMoves | chess_engine/src/game.rs:226-247 | knight moves avoid friendly squares and lie within the right-side jumps and their mirror image |
| Games.KnightTargetSquares | chess_engine/src/game.rs:229-239 | with conventional squares, one jump gives exactly the square it lands on, or nothing when it leaves the board |
| Games.KnightReachSquares | chess_engine/src/game.rs:227-240 | with conventional squares, the jump loop collects exactly the on-board squares its jumps land on |
| Games.Ray | chess_engine/src/game.rs:277-287 | a ray stays on the board and is empty exactly when the first step leaves it |
| Games.RaySteps | chess_engine/src/game.rs:277-287 | each square of a ray is one (dx, dy) step from the previous |
| Games.RayReachesEdge | chess_engine/src/game.rs:277-287 | a ray continues until the next step would leave the board |
| Games.FirstOccupiedLeast | chess_engine/src/game.rs:288-294 | the walk stops at the first occupied square of the ray |
| Games.RayMovesCons | chess_engine/src/game.rs:288-295 | a square of the ray is added if it is empty (and the walk goes on) or holds an enemy (and the walk stops) |
| Games.WalkFollowsRay | chess_engine/src/game.rs:277-296 | the loop's walk equals the specification over the ray |
| Games.Game.New | chess_engine/src/game.rs:77-84 | `Game::new` is the empty game with turn 0 |
| Games.Game.Init | chess_engine/src/game.rs:87-107 | `init` leaves the game in the state `Setup` gives from the old one, turn unchanged |
| Games.Game.PlaceBackRanks | chess_engine/src/game.rs:88-95 | the first loop toggles the pawn, rook, knight and bishop slots |
| Games.Game.PlaceRoyals | chess_engine/src/game.rs:97-101 | the queen and king toggles finish the piece slots |
| Games.Game.ToggleKind | chess_engine/src/game.rs:92-94 | one kind's slot is toggled for both sides and nothing else changes |
| Games.Game.FoldSides | chess_engine/src/game.rs:103-107 | each side board is XORed with the XOR of its piece slots |
| Games.Game.FindSide | chess_engine/src/game.rs:122-132 | returns the side the specification reports |
| Games.Game.FindPieceType | chess_engine/src/game.rs:110-120 | returns the kind the specification reports |
| Games.Game.UnionOfRow | chess_engine/src/game.rs:152-160 | the loop takes the union of a side's piece slots |
| Games.Game.Friendly | chess_engine/src/game.rs:152-160 | returns the friendly squares of the specification |
| Games.Game.Enemy | chess_engine/src/game.rs:163-176 | returns the enemy squares of the specification |
| Games.Game.Occupied | chess_engine/src/game.rs:178-180 | returns friendly plus enemy squares |
| Games.Game.LegalPawnMoves | chess_engine/src/game.rs:182-220 | returns the pawn moves of the specification, None where the source panics |
| Games.Game.PawnPushMoves | chess_engine/src/game.rs:188-202 | returns the pushes of the specification |
| Games.Game.PawnCaptureMoves | chess_engine/src/game.rs:210-218 | the loop over [1, -1] adds the captures of the specification |
| Games.Game.LegalKnightMoves | chess_engine/src/game.rs:226-247 | returns the knight moves of the specification |
| Games.Game.GenerateSlidingMoves | chess_engine/src/game.rs:264-299 | the loop over directions returns the union of the walks along each ray |
| Games.Game.LegalBishopMoves | chess_engine/src/game.rs:222-224 | bishop moves are the sliding moves along the bishop directions |
| Games.Game.LegalRookMoves | chess_engine/src/game.rs:249-251 | rook moves are the sliding moves along the rook directions |
| Games.Game.LegalQueenMoves | chess_engine/src/game.rs:253-256 | queen moves are exactly the bishop moves plus the rook moves |
| Games.Game.LegalKingMoves | chess_engine/src/game.rs:258-262 | the king is given no moves |
| Games.WalkDirection | chess_engine/src/game.rs:277-296 | the inner loop adds exactly the walk along one direction |
| PieceSketch.New | chess_engine/src/pieces/piece.rs:30-44 | a new piece has the given colour and type and has not moved |
| PieceSketch.Value | chess_engine/src/pieces/piece.rs:45-53 | a value fits in i8 |
| PieceSketch.ValueTable | chess_engine/src/pieces/piece.rs:45-53 | pawn 1, knight and bishop 3, rook 5, queen 9, king 0, whatever the colour; only the king is worth 0 |
| PieceSketch.PawnPushes | chess_engine/src/pieces/piece.rs:67-84 | from row 5 or below a pawn gets one push, plus a double push if it has not moved; from higher rows none |
| PieceSketch.PawnPushesShape | chess_engine/src/pieces/piece.rs:67-84 | at most two pushes, each from the pawn's square one or two rows up the same column |
| PieceSketch.ValidPawnMoves | chess_engine/src/pieces/piece.rs:67-84 | the pushes built step by step are those of the specification |
| PieceSketch.AvailableMoves | chess_engine/src/pieces/piece.rs:55-60 | a pawn gets its pushes and every other piece no moves |

## Left out

- The calls whose text is not part of this model are parameters: `Sides::other`, `ALL_SIDES`, `attacks::pawn_moves`, `Pieces::relative_strength` and `Square::from_idx` (`Externals`), and `BitBoard::from_square` and `BitBoard::mirror_h` (`GameExternals`). The lemmas that need their conventional meaning assume it as a hypothesis.
- `Square::from_idx`, used by `pseudo_legal_moves`, has no body in `square.rs`. It is the parameter `Externals.fromIdx`, and the move generator's lemmas assume `IndexesBoard`: an index below 64 gives the on-board square with that index, as the `From<usize>` conversion does.
- Machine integers:
  - `usize` arithmetic on square indices is unbounded in the model. The indices the crate builds are small.
  - The i8 sums in `step_attacks` are shown not to overflow for squares below 64 (`Attacks.TablesFit`).
  - The `i32` sums in `evaluate` and `minimax` are unbounded.
  - In `legal_pawn_moves`, the `u8` overflow of `sqr.1 + 2` for ranks of 254 and above is modelled as a panic, that is `None` (`Games.PawnMoves`). The other `u8` coordinate sums in `game.rs` are checked in the source (`checked_add_signed`).
- The `Game` functions take `side: usize` and panic for any value other than 0 or 1 (the `_ => panic!` arm of `legal_pawn_moves` and the `self.sides[side]` indexing). The model's two-valued `Side` leaves that path out; no caller in the crate passes another value.
- The private `state` field of `Game` is not modelled. No modelled operation reads it, and `state.rs` is not part of this model.
- `Add` for `Square` in `game.rs` is not modelled. Nothing in the modelled code calls it.
- `Game::legal_moves` is not modelled. It only prints, and it uses a hard-coded square.
- Text output is not modelled:
  - `Board::display` and the `Display` of `Bitboard`, which print;
  - `Square::to_algebraic`, whose range of string slices is not a valid expression;
  - the `Display` impls of `Square` and `Pieces`, which `Moves.Show` takes as parameters.
- Unfinished code is not modelled: every `undo` in `moves.rs` and `Piece::is_legal_move` in `pieces/piece.rs` are `todo!()`.
- `tree.rs`, `bootstrap.rs`, `lib.rs` and the `server` and `client` crates are not part of this model. They are I/O and wiring.
- `Position` and `Move` of `pieces/piece.rs` are not defined in that file. They are modelled as a row/column pair and a basic move.
- Games.Game.GenerateSlidingMoves: the walk is modelled only for non-zero direction vectors, which are all the direction tables hold. With a (0, 0) direction the source stays on the start square. It stops at once when that square is off the board or its bitboard meets an occupied square, as it does when the moving piece stands there. It loops forever only when the start square is on the board and meets no occupied square.
- Boards.Board.PlacePiece, Moves.ApplyTo and Moves.Apply require square indices below 64, and Boards.SideAt and Boards.PieceAt answer White and Pawn for an index of 64 or more. The source panics there on the shift overflow of `1 << idx` (board.rs:102, 114 and 296-297). Every caller in the crate stays below 64: `from_fen` checks the index first, and the generated moves are on the board under `IndexesBoard`.
- Attacks.SlidingAttacks, Attacks.StepAttacks, Attacks.RaySeen, Attacks.RookAttacks, Attacks.BishopAttacks, Attacks.QueenAttacks, Attacks.KnightAttacks, Attacks.KingAttacks, Attacks.WhitePawnAttacks and Attacks.BlackPawnAttacks require `square < 64`, as do the specification functions `NearestBlocker`, `RayContribution` and `Sliding`. The source does not stop at 64:
  - `sliding_attacks` and the rook, bishop and queen wrappers panic on the `RAY_ATTACKS[*i][square]` index (attacks.rs:39-51);
  - `step_attacks` casts `square as i8`, so from 128 on the square wraps and the i8 sum can overflow (attacks.rs:60);
  - from 64 to 127 `step_attacks` does not panic and returns the targets that fall back on the board: `knight_attacks(64)` is {47, 49, 54, 58}.

  Every caller in the crate passes a square below 64 (board.rs:199-221 loops over `0..64`).
- Fen.FromFen: only the placement and castling fields are read, as in the source. The side to move, en passant and the move counters are ignored.
- Fen.SideOfLetter: Rust's `is_uppercase` is taken over ASCII letters only.
- The crate places Black's royal pieces differently in its two set-up routines:
  - `Board::new` puts the king on 59 and the queen on 60;
  - `Game::init` puts the queen on 59 and the king on 60.
  
  Both are modelled as written (`Boards.StartPositionFacts`, `Games.SetupFromZero`).
- Games.KnightMoves: the contract states containment in the jump squares and their mirror image, not equality, because `mirror_h` is a parameter.
- Bot.Minimax: the contract states the two zero cases. The full value is given by `Bot.MinimaxDepthOne` at depth 1 and by the loop methods at every depth.

# A verified model of the Chess_ai_app rules engine

This project models the rules engine of the Rust chess application
Chess_ai_app in Dafny:

- the piece model;
- pseudo-legal move generation (rays, knight jumps, pawn attacks, `can_castle`);
- classification and legalisation of captures;
- the board object with `move_piece`, `execute_castle`, `promote_pawn`,
  `change_turn`, `select_piece` and `deselect_piece`;
- decoding of UCI move strings;
- the FEN codec of `src/chess_utils.rs` (Forsyth–Edwards Notation, section
  16.1 of the PGN Standard), its `Default`/`From` fallback, and `flip_board`.

The board is a Dafny `class` whose fields are those of
`src/engine/board.rs`. Each method that changes the board is proved against
a specification function on `Position`, the value the fields make up
(`MovePiece` against `ApplyMove`, `ExecuteCastle` against `CastleOutcome`,
and so on). The lemmas state what the engine promises about those
functions. The generators and the FEN encoder loop as the source does; each
loop is proved equal to a recursive definition.

The board invariant is `Consistent`: every piece records the square it
stands on. The parser establishes it. `move_piece`, `execute_castle`,
`promote_pawn` and `flip_board` preserve it.

Three functions the engine calls are not shown in the source:
`simulate_move`, `filter_quiet_moves` and `legalize_quiet_moves`. They
arrive as the function fields of a `Rules` value, and every contract is
stated relative to them.

Behaviour is modelled as written, including its quirks. Each quirk is
stated as a lemma:

- The white queen-side check inspects the rook square (7, 7)
  (`WhiteQueenSideLooksAtKingRook`).
- A friendly piece other than a rook ends the king's transit ray without
  blocking the castle (`CastleIgnoresFriendlyBlocker`).
- A target that is neither a legal capture nor a legal quiet move is
  accepted, and nothing changes (`UnlistedTargetChangesNothing`).
- Captures never advance the full-move number, and a quiet non-pawn move
  leaves the half-move clock as it was.
- `to_string` writes five fields while `fen_parser` needs six
  (`FenStringFields`).
- A pawn's attack direction depends on the point of view: a pawn of the
  point-of-view colour attacks the rank behind its advance. With
  `DEFAULT_STARTING` Black, Black's pawns attack backwards
  (`PawnAttackDirection`).
- A five-character UCI string whose target is in neither legal list still
  retypes whatever stands on the target, since `move_piece` answers `Ok`
  without moving (`UnlistedPromotionRetypes`).
- En passant trusts `en_passant_target`: the piece beside the pawn is not
  checked for kind or colour (`EnPassantTrustsTheTarget`).
- `move_piece` never clears a castling right, even when a king or a rook
  moves or a rook is taken (`MoveKeepsTheRest`).
- `execute_castle` keeps the `times_moved` of both king and rook: only their
  positions change (`CastleMovesKingAndRook`).

Files:

- `pieces.dfy`: kinds, colours, pieces.
- `positions.dfy`: grid, interaction state, `Position`, `Rules`.
- `move_gen.dfy`: `src/engine/move_gen.rs`.
- `capture.dfy`: `src/engine/capture.rs`.
- `board.dfy`: `src/engine/board.rs` and the legal-move helpers of `move_gen.rs`.
- `uci.dfy`: `src/engine/uci.rs`.
- `text.dfy`: the standard-library string operations the codec uses.
- `fen.dfy`: the FEN parser, the serialiser and the default board.
- `flip.dfy`: `flip_board`.
- `seqs.dfy` and `wrappers.dfy`: sequence and result helpers.

## Model

| member | source | states |
|---|---|---|
| Pieces.DefaultPieceIsUnmovedBlackPawn | src/engine/piece.rs:23-31 | the default piece is a black pawn on (0, 0) with no moves |
| Pieces.ColorNameInjective | src/engine/piece.rs:33-39 | the two colour names differ: equal names iff equal colours |
| Pieces.KindNameInjective | src/engine/piece.rs:41-52 | the six kind names tell the kinds apart: equal names iff equal kinds |
| Pieces.Opponent | src/engine/board.rs:223-228 | the colour `change_turn` switches to is never the colour itself |
| Pieces.OpponentInvolution | src/engine/board.rs:223-228 | switching the colour twice gives it back |
| MoveGen.GetDiagonalMoves | src/engine/move_gen.rs:104-142 | the loop returns the diagonal ray `Walk` with the colour-keyed rank step |
| MoveGen.GetRankMoves | src/engine/move_gen.rs:145-186 | the loop returns the rank ray, on which a king also takes a friendly rook |
| MoveGen.GetFileMoves | src/engine/move_gen.rs:187-214 | the loop returns the file ray with the colour-keyed direction |
| MoveGen.GetKnightMoves | src/engine/move_gen.rs:215-231 | the loop returns the on-board squares at the eight offsets, in offset order |
| MoveGen.ExtendWithFan | src/engine/move_gen.rs:22-24 | a `for dir ... extend` loop appends the rays of its directions, in order |
| MoveGen.GetAllMoves | src/engine/move_gen.rs:13-75 | the per-kind dispatch returns `AllMoves` (bishop, king, knight, queen, rook, pawn) |
| MoveGen.GetAttackSquares | src/engine/move_gen.rs:232-262 | a pawn attacks the files beside it one rank behind its advance when its colour is the point of view, one rank ahead otherwise; other kinds attack their moves |
| MoveGen.PawnAttackDirection | src/engine/move_gen.rs:239-244 | the attack step is the reverse of the pawn's advance when its colour is the point of view, and equals it otherwise |
| MoveGen.CanCastle | src/engine/move_gen.rs:264-324 | the early-return sequence decides exactly `CastleAllowed` |
| MoveGen.CheckTravel | src/engine/move_gen.rs:314-323 | the transit loop answers true iff every square is empty and `simulate_move` does not flag it |
| MoveGen.WalkOnBoard | src/engine/move_gen.rs:121-126 | a ray has at most `depth` squares, each inside the board |
| MoveGen.WalkIsRay | src/engine/move_gen.rs:119-122 | the k-th square of a ray is k + 1 steps from the origin |
| MoveGen.WalkStopsAtFirstPiece | src/engine/move_gen.rs:127-139 | a ray crosses only empty squares; an occupied square is its last, and only when the mover takes that blocker |
| MoveGen.WalkIsMaximal | src/engine/move_gen.rs:121-140 | a ray shorter than `depth` has a reason: it ended on a piece, or its next step leaves the board or meets a piece it does not take |
| MoveGen.DiagonalAndFileCaptureOnlyEnemies | src/engine/move_gen.rs:127-139 | diagonal and file rays never include a friendly piece; an occupied square they include is the last and holds an enemy |
| MoveGen.RankRayFriendlyOnlyRookForKing | src/engine/move_gen.rs:160-178 | the only friendly square a rank ray includes is a rook reached by a king, and it ends the ray |
| MoveGen.PawnAdvanceIsColourKeyed | src/engine/move_gen.rs:189-192 | "up" goes towards rank 0 for White and towards rank 7 for Black, whatever the point of view |
| MoveGen.OffsetSquaresExact | src/engine/move_gen.rs:219-223 | the offset loop keeps exactly the on-board squares at one of the offsets, at most one per offset |
| MoveGen.KnightMovesExact | src/engine/move_gen.rs:215-231 | at most 8 knight moves, exactly the on-board (1, 2) and (2, 1) jumps, whatever stands there |
| MoveGen.PawnAttacksExact | src/engine/move_gen.rs:234-257 | a pawn attacks at most 2 squares, exactly the on-board squares one rank away at files c - 1 and c + 1 |
| MoveGen.AllMovesOnBoard | src/engine/move_gen.rs:13-75 | every generated square is on the board |
| MoveGen.PawnMovesShape | src/engine/move_gen.rs:64-71 | a pawn has at most 4 candidates: one rank ahead within one file, or two ranks ahead on its file only when unmoved |
| MoveGen.PawnAdvanceShape | src/engine/move_gen.rs:65-66 | the forward ray has depth 2 for an unmoved pawn and 1 otherwise, on the pawn's file |
| MoveGen.PawnCaptureShape | src/engine/move_gen.rs:67-70 | the two forward diagonals give at most 2 squares, one rank ahead and one file aside |
| MoveGen.KingMovesShape | src/engine/move_gen.rs:27-38 | a king reaches its neighbours, and further only along its own rank |
| MoveGen.CastleAllowedExactly | src/engine/move_gen.rs:264-324 | castling is allowed iff the right is held, king and rook squares hold unmoved pieces, and every transit square is empty and safe |
| MoveGen.CastleIgnoresFriendlyBlocker | src/engine/move_gen.rs:314-322 | in the initial position both king-side castles are allowed: the bishop ends the transit ray without blocking |
| MoveGen.WhiteQueenSideLooksAtKingRook | src/engine/move_gen.rs:286-290 | white queen-side castling is refused whenever (7, 7) is empty |
| Capture.FilterCaptureMoves | src/engine/capture.rs:5-49 | an order-preserving subsequence of the input that holds exactly the inputs `KeepsCapture` accepts |
| Capture.LegalCaptures | src/engine/capture.rs:50-135 | an order-preserving subsequence of the candidates that holds exactly those `KeepsLegalCapture` accepts |
| Capture.LegalizeCaptureMoves | src/engine/capture.rs:50-135 | the loops push exactly `LegalCaptures`, in order |
| Capture.KeepMove | src/engine/capture.rs:52-133 | the per-candidate branches decide exactly `KeepsLegalCapture` |
| Capture.CaptureCandidatesAreTargets | src/engine/capture.rs:9-35 | a non-pawn candidate is occupied: an enemy, or a friendly rook for a king; a king's enemy is at most one file away |
| Capture.PawnCandidatesLeaveTheFile | src/engine/capture.rs:9-46 | a pawn's candidates are exactly its moves off its own file, empty or occupied |
| Capture.CapturesOfPseudoMoves | src/engine/capture.rs:30-32 | for bishop, rook, queen and knight the candidates are exactly the reached squares holding an enemy |
| Capture.NoEnPassantWithoutTarget | src/engine/capture.rs:62-80 | without an en-passant target a pawn keeps only safe captures of occupied squares |
| Capture.KingTakesOwnRookOnlyToCastle | src/engine/capture.rs:92-102 | a king keeps its own rook only four files away with queen-side castling allowed, or three files away with king-side allowed |
| Capture.EnPassantTrustsTheTarget | src/engine/capture.rs:62-83 | a pawn's move to an empty square is kept iff it is safe, whenever the piece beside it stands on the en-passant target, of any kind or colour |
| Capture.LegalCapturesAreSafe | src/engine/capture.rs:50-135 | every kept capture is one `simulate_move` does not flag, except a king's castle onto its own rook |
| Engine.Board.constructor | src/engine/board.rs:4-17 | the board holds exactly the fields of the given position |
| Engine.Board.GetLegalMoves | src/engine/move_gen.rs:82-93 | returns the legalised quiet moves and the legalised captures, `LegalMoves` |
| Engine.Board.LegalCaptureMoves | src/engine/move_gen.rs:95-100 | returns the capture half of `LegalMoves` |
| Engine.Board.SetLegalMoves | src/engine/move_gen.rs:76-80 | stores both lists in the state and changes nothing else |
| Engine.Board.SelectPiece | src/engine/board.rs:288-291 | records the piece, then stores its legal moves |
| Engine.Board.DeselectPiece | src/engine/board.rs:292-296 | clears the selected piece and both move lists and nothing else |
| Engine.Board.ChangeTurn | src/engine/board.rs:223-228 | the turn passes to the other colour and nothing else changes |
| Engine.Board.PromotePawn | src/engine/board.rs:283-287 | the board becomes `Promoted` and stays consistent |
| Engine.Board.MovePiece | src/engine/board.rs:82-221 | result and new board are `ApplyMove` of the old board, and the board stays consistent |
| Engine.Board.MakeCapture | src/engine/board.rs:103-177 | the capture branch yields `CaptureOutcome` |
| Engine.Board.TakeOnTarget | src/engine/board.rs:109-129 | capturing the piece on the target yields `CaptureOutcome` |
| Engine.Board.TakeEnPassant | src/engine/board.rs:130-152 | capturing en passant yields `CaptureOutcome`: the piece on the en-passant target, read after the move, is taken and removed |
| Engine.Board.MakeQuietMove | src/engine/board.rs:180-204 | the quiet branch yields `QuietOutcome` |
| Engine.Board.ExecuteCastle | src/engine/board.rs:230-282 | the board becomes `CastleOutcome` and stays consistent |
| Engine.Board.CastlingLandings | src/engine/board.rs:241-252 | king-side moves the king +2 and the rook -2 files; queen-side moves the king -2 and the rook +3 |
| Engine.Board.MoveCastlingPieces | src/engine/board.rs:254-278 | the castling branch yields `Castled` |
| Engine.LegalCaptureIsDefined | src/engine/board.rs:109-139 | a legal capture always finds its victim: on the target, or for en passant beside the origin, on a square the move leaves alone |
| Engine.CaptureKeepsConsistent | src/engine/board.rs:103-177 | a capture keeps every piece on its own square |
| Engine.RelocateKeepsConsistent | src/engine/board.rs:190-194 | moving a piece keeps every piece on its own square |
| Engine.ApplyMoveKeepsConsistent | src/engine/board.rs:82-221 | every outcome of `move_piece` keeps every piece on its own square |
| Engine.EmptyOriginIsIllegal | src/engine/board.rs:88-91 | an empty origin gives `IllegalMove` and changes nothing |
| Engine.UnlistedTargetChangesNothing | src/engine/board.rs:101-220 | a target in neither legal list gives `Ok` and changes nothing |
| Engine.MoveRelocatesThePiece | src/engine/board.rs:103-207 | a played move puts the moved piece, one move older, on the target, empties the origin, records the target, passes the turn and clears the selection |
| Engine.MoveKeepsTheRest | src/engine/board.rs:82-221 | a move changes no square but origin, target and the en-passant victim's square beside the origin, never clears a castling right and keeps the point of view |
| Engine.CaptureKeepsTheRest | src/engine/board.rs:103-177 | the same frame for a defined capture |
| Engine.CaptureRelocates | src/engine/board.rs:103-177 | the same relocation facts for a defined capture |
| Engine.CaptureRecordsTheVictim | src/engine/board.rs:103-177 | a capture resets the half-move clock and the en-passant target, keeps the full-move number, and appends the victim to exactly one list by its colour; en passant empties the victim's square |
| Engine.CaptureTakesTheVictim | src/engine/board.rs:117-149 | the same victim facts for a defined capture |
| Engine.QuietMoveClocks | src/engine/board.rs:180-204 | the en-passant target is set (to the target) iff a pawn moves two ranks; the full-move number grows iff Black moves; the half-move clock resets iff a pawn moves; the captured lists stay |
| Engine.EndTurnTwice | src/engine/board.rs:223-228 | two turn changes give the turn back |
| Engine.DeselectIdempotent | src/engine/board.rs:292-296 | deselecting twice is deselecting once, and it keeps the point of view and the captured pieces |
| Engine.PromotedOnlyChangesKind | src/engine/board.rs:283-287 | promotion changes only the kind on that square, does nothing on an empty square, and promoting twice equals promoting once to the second kind |
| Engine.PromotedKeepsConsistent | src/engine/board.rs:284-286 | promotion keeps every piece on its own square |
| Engine.SelectedStoresLegalMoves | src/engine/board.rs:288-291 | selection records the piece and the moves computed with it selected, and keeps the grid, the turn and the en-passant target |
| Engine.CastleKeepsConsistent | src/engine/board.rs:243-261 | castling keeps every piece on its own square |
| Engine.CastleMovesKingAndRook | src/engine/board.rs:230-282 | an allowed castle lands king and rook with only their positions changed (their move counts kept), moves the king two files, clears only the castling colour's rights and passes the turn; a refused one changes nothing |
| Uci.DecodeUciMove | src/engine/uci.rs:7-81 | answer and new board are `DecodeUci` of the old board, and the board stays consistent |
| Uci.PlayPromotion | src/engine/uci.rs:26-50 | answer and new board are `PromotionOutcome`: None on a refused move, otherwise the squares with the target promoted and no promotion pending |
| Uci.FileMapInvertsLetters | src/engine/uci.rs:11-14 | the file map sends the letters a to h to the columns 0 to 7 |
| Uci.DecodeName | src/engine/uci.rs:11-23 | decoding the name of a move between board squares gives back its squares |
| Uci.NameDecoded | src/engine/uci.rs:11-23 | every four-character string between board squares is the name of the move it decodes to |
| Uci.KingPawnOpening | src/engine/uci.rs:18-23 | "e2e4" decodes to ((6, 4), (4, 4)) |
| Uci.PlainMoveChangesNothing | src/engine/uci.rs:78-79 | a four-character non-castling string answers its squares and changes nothing |
| Uci.LongStringChangesNothing | src/engine/uci.rs:53-79 | a string longer than five characters answers its squares and changes nothing |
| Uci.PromotionFromEmptySquare | src/engine/uci.rs:26-31 | a promotion from an empty square answers None and changes nothing |
| Uci.PromotionReplacesKind | src/engine/uci.rs:26-49 | a promotion from an occupied square answers its squares, clears the pending promotion and gives the target the letter's kind |
| Uci.UnlistedPromotionRetypes | src/engine/uci.rs:26-49 | a promotion to a target in neither legal list answers its squares and retypes whatever stands on the target, the move itself changing nothing |
| Uci.CastlingStringsCastle | src/engine/uci.rs:53-77 | each castling literal castles with its king and rook squares and answers None |
| Text.TrimEnd | src/chess_utils.rs:223 | the result is the input with its trailing run of the trimmed character removed: a prefix, not ending in that character, followed in the input only by that character |
| Text.NatToStringParses | src/chess_utils.rs:98-99 | a printed number parses back to itself, and is a u32 literal below 2^32 |
| Text.WordsOfJoin | src/chess_utils.rs:93 | words joined by single spaces split back into those words |
| Text.SplitOfJoin | src/chess_utils.rs:100 | separator-free pieces joined by '/' split back into those pieces |
| Fen.FenParser | src/chess_utils.rs:89-152 | the parser returns `ParseFen`, whose errors and board the lemmas below characterise |
| Fen.ScanFile | src/chess_utils.rs:103-134 | the rank loop returns `ScanRank`: the pieces, or the first invalid character |
| Fen.PlacePieces | src/chess_utils.rs:137-141 | the placement loop returns the empty grid filled with the pieces in order |
| Fen.FillAt | src/chess_utils.rs:138-141 | each square holds the last piece written to it, if any |
| Fen.CellAfterIsAPiece | src/chess_utils.rs:138-141 | a filled square keeps its old cell or holds one of the pieces, recorded at that square |
| Fen.ScanRankErrors | src/chess_utils.rs:104-134 | a rank scans iff it has no invalid character; otherwise the error carries its first invalid character |
| Fen.ScanRanksErrors | src/chess_utils.rs:102-136 | the ranks scan iff none has an invalid character; otherwise the error carries the first invalid character of the first bad rank |
| Fen.ScanRankPlaces | src/chess_utils.rs:104-134 | a scanned rank's pieces are unmoved, on its row, within the width it describes |
| Fen.ScanRanksPlaces | src/chess_utils.rs:101-136 | scanned ranks of width at most 8 give unmoved pieces on their rows, inside the columns |
| Fen.ScanRanksTimes | src/chess_utils.rs:125-131 | every scanned piece has never moved |
| Fen.FittingRanksAreWellFormed | src/chess_utils.rs:137-141 | at most 8 ranks of width at most 8 never index off the board |
| Fen.ParseFenErrors | src/chess_utils.rs:89-152 | parsing fails iff some rank has an invalid character, and reports the first one |
| Fen.ParsedConsistent | src/chess_utils.rs:137-141 | a parsed board is consistent and all its pieces are unmoved |
| Fen.LettersAreInverse | src/chess_utils.rs:196-211 | the serialiser's letter for a kind and colour is the one letter the parser reads as that kind and colour |
| Fen.ToFenString | src/chess_utils.rs:180-226 | the loops build `FenString`: board, side, castling and the two clocks |
| Fen.FenStringSpelled | src/chess_utils.rs:224 | the record is the five fields separated by single spaces |
| Fen.BoardFieldTrimmed | src/chess_utils.rs:220-223 | '/' after every rank, then the trailing one trimmed, gives the ranks joined by '/' |
| Fen.EncodeCellsShape | src/chess_utils.rs:191-219 | a row encodes to digits and letters covering its width, never two digits in a row |
| Fen.RankShape | src/chess_utils.rs:190-219 | every rank string covers 8 squares, is non-empty and has no '/' and no white space |
| Fen.ScanEncodedCells | src/chess_utils.rs:104-134 | scanning an encoded row gives the row's pieces on their squares, unmoved |
| Fen.ScanRanksOfGrid | src/chess_utils.rs:102-136 | scanning the encoded ranks gives the grid's pieces in scanning order |
| Fen.BoardFieldShape | src/chess_utils.rs:190-223 | the board field splits into the 8 rank strings, each covering 8 squares, with no trailing '/' and no white space |
| Fen.BoardFieldRoundTrip | src/chess_utils.rs:100-141 | parsing the board field rebuilds every square: same kind and colour, nothing where nothing stood |
| Fen.SideFieldParses | src/chess_utils.rs:183 | the side field is "w" iff White is to move, which is what the parser tests |
| Fen.CastlingFieldLetters | src/chess_utils.rs:184-189 | each of K, Q, k, q occurs iff its right is held; the field is never empty |
| Fen.FenStringFields | src/chess_utils.rs:224 | the record has exactly five words, so it does not satisfy the parser's six-field precondition |
| Fen.RoundTripWithEnPassantField | src/chess_utils.rs:89-152 | with "-" put back as fourth field, the record parses to the same squares, side, rights and clocks, with no en-passant target and the default state |
| Fen.DefaultRanksShape | src/etc.rs:5 | every rank of `DEFAULT_FEN` is valid, fits in 8 columns and has no separator |
| Fen.OpeningRecordParses | src/chess_utils.rs:89-152 | a record of fitting valid ranks, "w KQkq - 0 1" parses, White to move, all rights, clocks 0 and 1, consistent |
| Fen.DefaultFenParses | src/chess_utils.rs:153-171 | `DEFAULT_FEN` parses, so `Default` never takes the fallback board |
| Fen.FromFenFallsBack | src/chess_utils.rs:172-179 | `From` gives the default board iff some rank has an invalid character, and the parsed board otherwise |
| Flip.Mirror | src/chess_utils.rs:472-475 | the mirror of a board square is a board square |
| Flip.Flipped | src/chess_utils.rs:466-492 | each square holds what stood on its mirror square, recording its new square |
| Flip.FlipSquares | src/chess_utils.rs:468-477 | the nested loops build `Flipped` of the grid |
| Flip.FillStep | src/chess_utils.rs:470-475 | one loop step writes the visited square's content onto its mirror and nothing else |
| Flip.FlipBoard | src/chess_utils.rs:466-492 | the grid is flipped, the state reset with the point of view opposite the default, nothing else changes, and the board stays consistent |
| Flip.FlippedConsistent | src/chess_utils.rs:470-475 | every flipped grid is consistent, whatever the original |
| Flip.FlipTwice | src/chess_utils.rs:466-492 | flipping twice gives the grid back iff it was consistent |
| Flip.FlipOutcomeTwice | src/chess_utils.rs:466-492 | two flips of a consistent board restore its squares and keep the rest of the first flip's result |

## Left out

- User interface, rendering, the Stockfish channel and the `println!` calls in `move_piece`: presentation and I/O with no effect on the board.
- The legacy move generator and `move_piece` of `src/chess_utils.rs` (lines 233-461) and its stub `get_knight_moves`: they duplicate the engine's versions with other rules.
- The legacy `Board`/`BoardState` of `src/chess_utils.rs`: its parser, serialiser and `flip_board` are modelled on the engine's board, whose default state has more fields. The legacy board has no en-passant field, so the parser sets `enPassantTarget` to None.
- `simulate_move`, `filter_quiet_moves`, `legalize_quiet_moves`, the checkmate and stalemate tests, and `engine/fen.rs` are not part of this model. The first three are the unspecified function fields of `Rules`.
- Fixed-width integers are unbounded: `u8` squares, the `u32` clocks and `i32` move counters. Nothing wraps around by these types' width.
- `Fen.FenParser`: the `u8` row and column counters do not wrap. A record that puts a piece past column 7 or on a ninth rank is excluded by the precondition `FenWellFormed`, because the placement loop would index off the array; a rank such as "9", or a ninth rank of digits only, is accepted.
- Text.IsWhitespace and IsDigit: the parser's `is_numeric` accepts every Unicode numeric character, which then panics in `to_digit`. The model treats only '0'-'9' as digits; other characters are invalid piece letters.
- Uci.DecodeUciMove: `uci_move.len()` counts UTF-8 bytes, while the model counts characters. The two agree on ASCII move strings.
- Panics become preconditions: out-of-range indices, `unwrap` on an empty square, a bad promotion letter, a non-u32 clock and fewer than six FEN fields.
- Flip.FlipBoard: the final `match self.state.selected_piece` re-selection is left out. The state was just reset, so that branch never runs.
- Flip.FlipSquares: the loops read a copy of the grid. The source also rewrites each piece's position in the old grid before replacing it, and that write is never observed.
- Board methods compute the new field values first and assign them in one statement, not in the source's order. No reader observes the fields in between.
- Fen.CastlingFieldLetters: the order K, Q, k, q of the castling letters is written by `CastlingField` but not stated as a separate lemma.

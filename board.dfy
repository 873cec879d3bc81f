/**
 * The engine's board, src/engine/board.rs: a mutable object holding the
 * grid, the side to move, the castling rights, the clocks, the en-passant
 * target and the interaction state, with the operations that move pieces,
 * castle, promote and select.
 *
 * Each method is tied to a specification function on `Position`, the value
 * the board's fields make up; the lemmas below are about those functions.
 * The position-dependent checks the engine takes from elsewhere
 * (`simulate_move`, `filter_quiet_moves`, `legalize_quiet_moves`) arrive as
 * the `Rules` parameter.
 */
module Engine {
  import opened Wrappers
  import opened Pieces
  import opened Positions
  import opened Seqs
  import opened MoveGen
  import opened Capture

  // ------------------------------------------------- specification functions

  /** `get_legal_moves`: the legal quiet moves and the legal captures of `piece`. */
  function LegalMoves(p: Position, rules: Rules, piece: ChessPiece): (seq<Square>, seq<Square>)
    requires OnBoard(piece.position)
  {
    var moves := AllMoves(p.squares, piece);
    AllMovesOnBoard(p.squares, piece);
    var quiet := rules.legalizeQuietMoves(p, piece, rules.filterQuietMoves(p, piece, moves));
    var candidates := FilterCaptureMoves(p.squares, piece, moves);
    assert forall k :: 0 <= k < |candidates| ==> candidates[k] in candidates;
    (quiet, LegalCaptures(p, rules, piece, candidates))
  }

  /** The moving piece after it arrives on `to`. */
  function Moved(piece: ChessPiece, to: Square): ChessPiece {
    piece.(timesMoved := piece.timesMoved + 1, position := to)
  }

  /** The grid after the piece on `from` moves to `to`, in the order the engine writes the two squares. */
  function Relocate(g: Grid, piece: ChessPiece, from: Square, to: Square): Grid
    requires OnBoard(from) && OnBoard(to)
  {
    Put(Put(g, to, Some(Moved(piece, to))), from, None)
  }

  /** A captured black piece is taken by White, a captured white piece by Black. */
  function Taken(st: BoardState, captured: ChessPiece): BoardState {
    if captured.color == Black then st.(whiteTaken := st.whiteTaken + [captured])
    else st.(blackTaken := st.blackTaken + [captured])
  }

  /** `deselect_piece`. */
  function Deselected(st: BoardState): BoardState {
    st.(captureMoves := None, selectedPiece := None, quietMoves := None)
  }

  /** `change_turn` followed by `deselect_piece`. */
  function EndTurn(p: Position): Position {
    p.(turn := Opponent(p.turn), state := Deselected(p.state))
  }

  /** The square of the pawn taken en passant: beside the origin, on the target's file. */
  function PassedSquare(from: Square, to: Square): Square {
    (from.0, to.1)
  }

  /** What the engine needs to read the captured piece without panicking. */
  predicate CaptureDefined(p: Position, piece: ChessPiece, from: Square, to: Square)
    requires OnBoard(from) && OnBoard(to)
  {
    if piece.kind == Pawn && At(p.squares, to).None? then
      && p.enPassantTarget.Some?
      && OnBoard(p.enPassantTarget.value)
      && At(Relocate(p.squares, piece, from, to), p.enPassantTarget.value).Some?
    else At(p.squares, to).Some?
  }

  /** The capture branch of `move_piece`. */
  function CaptureOutcome(p: Position, piece: ChessPiece, from: Square, to: Square): Position
    requires OnBoard(from) && OnBoard(to)
    requires CaptureDefined(p, piece, from, to)
  {
    var g1 := Relocate(p.squares, piece, from, to);
    var moved := p.(halfmoveClock := 0, enPassantTarget := None);
    if piece.kind == Pawn && At(p.squares, to).None? then
      var ep := p.enPassantTarget.value;
      var victim := At(g1, ep).value;
      EndTurn(moved.(squares := Put(g1, ep, None), state := Taken(p.state.(movedTo := Some(to)), victim)))
    else
      EndTurn(moved.(squares := g1, state := Taken(p.state.(movedTo := Some(to)), At(p.squares, to).value)))
  }

  /** The quiet branch of `move_piece`. */
  function QuietOutcome(p: Position, piece: ChessPiece, from: Square, to: Square): Position
    requires OnBoard(from) && OnBoard(to)
  {
    EndTurn(p.(
      squares := Relocate(p.squares, piece, from, to),
      enPassantTarget := if piece.kind == Pawn && AbsDiff(from.0, to.0) == 2 then Some(to) else None,
      fullmoveNumber := if piece.color == Black then p.fullmoveNumber + 1 else p.fullmoveNumber,
      halfmoveClock := if piece.kind == Pawn then 0 else p.halfmoveClock,
      state := p.state.(movedTo := Some(to))))
  }

  /**
   * `move_piece`: an empty origin is an illegal move; a target among the
   * piece's legal captures is a capture, one among its legal quiet moves a
   * quiet move, and any other target leaves the board as it was.
   */
  function ApplyMove(p: Position, rules: Rules, from: Square, to: Square): (Result<(), MoveError>, Position)
    requires Consistent(p.squares) && OnBoard(from) && OnBoard(to)
  {
    match At(p.squares, from)
    case None => (Err(IllegalMove), p)
    case Some(piece) =>
      var (quiets, captures) := LegalMoves(p, rules, piece);
      if to in captures then
        LegalCaptureIsDefined(p, rules, piece, from, to);
        (Ok(()), CaptureOutcome(p, piece, from, to))
      else if to in quiets then (Ok(()), QuietOutcome(p, piece, from, to))
      else (Ok(()), p)
  }

  /** The side `execute_castle` picks: queen side when king and rook are four files apart. */
  function CastleSide(king: ChessPiece, rook: ChessPiece): CastleType {
    if AbsDiff(king.position.1, rook.position.1) == 4 then QueenSide else KingSide
  }

  function KingLanding(king: ChessPiece, side: CastleType): Square {
    (king.position.0, if side == KingSide then king.position.1 + 2 else king.position.1 - 2)
  }

  function RookLanding(rook: ChessPiece, side: CastleType): Square {
    (rook.position.0, if side == KingSide then rook.position.1 - 2 else rook.position.1 + 3)
  }

  /** `execute_castle` writes both landing squares only when they are on the board. */
  predicate CastleFits(p: Position, rules: Rules, kingPos: Square, rookPos: Square)
    requires OnBoard(kingPos) && OnBoard(rookPos)
    requires At(p.squares, kingPos).Some? && At(p.squares, rookPos).Some?
  {
    var king := At(p.squares, kingPos).value;
    var rook := At(p.squares, rookPos).value;
    var side := CastleSide(king, rook);
    CastleAllowed(p, rules, side, king.color) ==> OnBoard(KingLanding(king, side)) && OnBoard(RookLanding(rook, side))
  }

  function WithoutCastling(p: Position, c: PieceColor): Position {
    if c == Black then p.(blackBigCastle := false, blackSmallCastle := false)
    else p.(whiteBigCastle := false, whiteSmallCastle := false)
  }

  /** `execute_castle`: when `can_castle` allows it, king and rook jump past each other. */
  function CastleOutcome(p: Position, rules: Rules, kingPos: Square, rookPos: Square): Position
    requires OnBoard(kingPos) && OnBoard(rookPos)
    requires At(p.squares, kingPos).Some? && At(p.squares, rookPos).Some?
    requires CastleFits(p, rules, kingPos, rookPos)
  {
    var king := At(p.squares, kingPos).value;
    var rook := At(p.squares, rookPos).value;
    var side := CastleSide(king, rook);
    if !CastleAllowed(p, rules, side, king.color) then p
    else Castled(p, kingPos, rookPos, king, rook, side)
  }

  /** The position after king and rook, taken from their squares, land on their castling squares. */
  function Castled(p: Position, kingPos: Square, rookPos: Square, king: ChessPiece, rook: ChessPiece, side: CastleType): Position
    requires OnBoard(kingPos) && OnBoard(rookPos)
    requires OnBoard(KingLanding(king, side)) && OnBoard(RookLanding(rook, side))
  {
    var g := CastledGrid(p.squares, kingPos, rookPos, king, rook, side);
    EndTurn(WithoutCastling(p.(squares := g, state := p.state.(movedTo := Some(KingLanding(king, side)))), king.color))
  }

  /** King and rook taken from their squares and written, with their new squares, onto their landing squares. */
  function CastledGrid(g: Grid, kingPos: Square, rookPos: Square, king: ChessPiece, rook: ChessPiece, side: CastleType): Grid
    requires OnBoard(kingPos) && OnBoard(rookPos)
    requires OnBoard(KingLanding(king, side)) && OnBoard(RookLanding(rook, side))
  {
    var kingTo, rookTo := KingLanding(king, side), RookLanding(rook, side);
    var cleared := Put(Put(g, kingPos, None), rookPos, None);
    Put(Put(cleared, kingTo, Some(king.(position := kingTo))), rookTo, Some(rook.(position := rookTo)))
  }

  /** `promote_pawn`: the piece on `pos`, if any, changes kind and nothing else. */
  function Promoted(p: Position, pos: Square, kind: PieceType): Position
    requires OnBoard(pos)
  {
    match At(p.squares, pos)
    case Some(pawn) => p.(squares := Put(p.squares, pos, Some(pawn.(kind := kind))))
    case None => p
  }

  /** `select_piece`: the piece is selected first, then its legal moves are computed and stored. */
  function Selected(p: Position, rules: Rules, piece: ChessPiece): Position
    requires OnBoard(piece.position)
  {
    var p1 := p.(state := p.state.(selectedPiece := Some(piece)));
    WithLegalMoves(p1, rules, piece)
  }

  /** `set_legal_moves`. */
  function WithLegalMoves(p: Position, rules: Rules, piece: ChessPiece): Position
    requires OnBoard(piece.position)
  {
    var (quiet, captures) := LegalMoves(p, rules, piece);
    p.(state := p.state.(quietMoves := Some(quiet), captureMoves := Some(captures)))
  }

  // ------------------------------------------------------------------ object

  class Board {
    var squares: Grid
    var turn: PieceColor
    var whiteBigCastle: bool
    var blackBigCastle: bool
    var whiteSmallCastle: bool
    var blackSmallCastle: bool
    var halfmoveClock: nat
    var fullmoveNumber: nat
    var enPassantTarget: Option<Square>
    var state: BoardState

    /** Every piece on the grid knows its own square. */
    ghost predicate Valid()
      reads this
    {
      Consistent(squares)
    }

    /** The position the fields make up. */
    function Snapshot(): Position
      reads this
    {
      Position(squares, turn, whiteBigCastle, blackBigCastle, whiteSmallCastle, blackSmallCastle,
               halfmoveClock, fullmoveNumber, enPassantTarget, state)
    }

    constructor (p: Position)
      ensures Snapshot() == p
    {
      squares, turn := p.squares, p.turn;
      whiteBigCastle, blackBigCastle := p.whiteBigCastle, p.blackBigCastle;
      whiteSmallCastle, blackSmallCastle := p.whiteSmallCastle, p.blackSmallCastle;
      halfmoveClock, fullmoveNumber := p.halfmoveClock, p.fullmoveNumber;
      enPassantTarget, state := p.enPassantTarget, p.state;
    }

    method GetLegalMoves(rules: Rules, piece: ChessPiece) returns (quiet: seq<Square>, captures: seq<Square>)
      requires Valid() && OnBoard(piece.position)
      ensures (quiet, captures) == LegalMoves(Snapshot(), rules, piece)
    {
      var p := Snapshot();
      var moves := GetAllMoves(squares, piece);
      quiet := rules.filterQuietMoves(p, piece, moves);
      quiet := rules.legalizeQuietMoves(p, piece, quiet);
      AllMovesOnBoard(squares, piece);
      captures := FilterCaptureMoves(squares, piece, moves);
      assert forall k :: 0 <= k < |captures| ==> captures[k] in captures;
      captures := LegalizeCaptureMoves(p, rules, piece, captures);
    }

    /** `lega_capture_moves`: the capture half of `get_legal_moves` alone. */
    method LegalCaptureMoves(rules: Rules, piece: ChessPiece) returns (captures: seq<Square>)
      requires Valid() && OnBoard(piece.position)
      ensures captures == LegalMoves(Snapshot(), rules, piece).1
    {
      var moves := GetAllMoves(squares, piece);
      AllMovesOnBoard(squares, piece);
      captures := FilterCaptureMoves(squares, piece, moves);
      assert forall k :: 0 <= k < |captures| ==> captures[k] in captures;
      captures := LegalizeCaptureMoves(Snapshot(), rules, piece, captures);
    }

    method SetLegalMoves(rules: Rules, piece: ChessPiece)
      requires Valid() && OnBoard(piece.position)
      modifies this
      ensures Valid()
      ensures Snapshot() == WithLegalMoves(old(Snapshot()), rules, piece)
    {
      var quiet, captures := GetLegalMoves(rules, piece);
      state := state.(quietMoves := Some(quiet), captureMoves := Some(captures));
    }

    method SelectPiece(rules: Rules, piece: ChessPiece)
      requires Valid() && OnBoard(piece.position)
      modifies this
      ensures Valid()
      ensures Snapshot() == Selected(old(Snapshot()), rules, piece)
    {
      state := state.(selectedPiece := Some(piece));
      SetLegalMoves(rules, piece);
    }

    method DeselectPiece()
      modifies this
      ensures Snapshot() == old(Snapshot()).(state := Deselected(old(state)))
    {
      state := state.(captureMoves := None, selectedPiece := None, quietMoves := None);
    }

    method ChangeTurn()
      modifies this
      ensures Snapshot() == old(Snapshot()).(turn := Opponent(old(turn)))
    {
      turn := match turn
        case Black => White
        case White => Black;
    }

    method PromotePawn(pos: Square, kind: PieceType)
      requires Valid() && OnBoard(pos)
      modifies this
      ensures Valid()
      ensures Snapshot() == Promoted(old(Snapshot()), pos, kind)
    {
      match squares[pos.0][pos.1] {
        case Some(pawn) =>
          squares := Put(squares, pos, Some(pawn.(kind := kind)));
        case None =>
      }
      PromotedKeepsConsistent(old(Snapshot()), pos, kind);
    }

    method MovePiece(rules: Rules, oldPos: Square, newPos: Square) returns (r: Result<(), MoveError>)
      requires Valid() && OnBoard(oldPos) && OnBoard(newPos)
      modifies this
      ensures Valid()
      ensures (r, Snapshot()) == ApplyMove(old(Snapshot()), rules, oldPos, newPos)
    {
      ghost var p := Snapshot();
      var piece;
      match squares[oldPos.0][oldPos.1] {
        case Some(pc) => piece := pc;
        case None => return Err(IllegalMove);
      }
      var quiets, captures := GetLegalMoves(rules, piece);
      var isQuiet := newPos in quiets;
      var isCapture := newPos in captures;
      r := Ok(());
      if isCapture {
        LegalCaptureIsDefined(p, rules, piece, oldPos, newPos);
        MakeCapture(piece, oldPos, newPos);
        CaptureKeepsConsistent(p, piece, oldPos, newPos);
      } else if isQuiet {
        MakeQuietMove(piece, oldPos, newPos);
        RelocateKeepsConsistent(p.squares, piece, oldPos, newPos);
      }
    }

    /** The capture branch of `move_piece`: a piece on the target is taken, an empty target is en passant. */
    method MakeCapture(piece: ChessPiece, oldPos: Square, newPos: Square)
      requires OnBoard(oldPos) && OnBoard(newPos)
      requires CaptureDefined(Snapshot(), piece, oldPos, newPos)
      modifies this
      ensures Snapshot() == CaptureOutcome(old(Snapshot()), piece, oldPos, newPos)
    {
      var capturePiece := squares[newPos.0][newPos.1];
      match capturePiece {
        case Some(capture) =>
          TakeOnTarget(piece, oldPos, newPos, capture);
        case None =>
          TakeEnPassant(piece, oldPos, newPos);
      }
    }

    /** A normal capture, by a pawn or any other piece. */
    method TakeOnTarget(piece: ChessPiece, oldPos: Square, newPos: Square, capture: ChessPiece)
      requires OnBoard(oldPos) && OnBoard(newPos)
      requires squares[newPos.0][newPos.1] == Some(capture)
      modifies this
      ensures Snapshot() == CaptureOutcome(old(Snapshot()), piece, oldPos, newPos)
    {
      var grid := Relocate(squares, piece, oldPos, newPos);
      var st := Taken(state.(movedTo := Some(newPos)), capture);
      // the board's fields, with change_turn and deselect_piece
      squares, halfmoveClock, enPassantTarget, turn, state := grid, 0, None, Opponent(turn), Deselected(st);
    }

    /** En passant: the pawn on the en-passant target, beside the origin, is taken. */
    method TakeEnPassant(piece: ChessPiece, oldPos: Square, newPos: Square)
      requires OnBoard(oldPos) && OnBoard(newPos)
      requires piece.kind == Pawn && squares[newPos.0][newPos.1].None?
      requires CaptureDefined(Snapshot(), piece, oldPos, newPos)
      modifies this
      ensures Snapshot() == CaptureOutcome(old(Snapshot()), piece, oldPos, newPos)
    {
      var grid := Relocate(squares, piece, oldPos, newPos);
      var (epr, epf) := enPassantTarget.value;
      var capture := grid[epr][epf].value;
      var st := Taken(state.(movedTo := Some(newPos)), capture);
      grid := Put(grid, (epr, epf), None);
      // the board's fields, with change_turn and deselect_piece
      squares, halfmoveClock, enPassantTarget, turn, state := grid, 0, None, Opponent(turn), Deselected(st);
    }

    /** The quiet branch of `move_piece`. */
    method MakeQuietMove(piece: ChessPiece, oldPos: Square, newPos: Square)
      requires OnBoard(oldPos) && OnBoard(newPos)
      modifies this
      ensures Snapshot() == QuietOutcome(old(Snapshot()), piece, oldPos, newPos)
    {
      QuietOutcomeFields(Snapshot(), piece, oldPos, newPos);
      var mvDelta := AbsDiff(oldPos.0, newPos.0);
      var target := if piece.kind == Pawn && mvDelta == 2 then Some(newPos) else None;
      var grid := Relocate(squares, piece, oldPos, newPos);
      var fullmove := if piece.color == Black then fullmoveNumber + 1 else fullmoveNumber;
      var halfmove := if piece.kind == Pawn then 0 else halfmoveClock;
      // the board's fields, with change_turn and deselect_piece
      squares, enPassantTarget, fullmoveNumber, halfmoveClock, turn, state :=
        grid, target, fullmove, halfmove, Opponent(turn), Deselected(state.(movedTo := Some(newPos)));
    }

    method ExecuteCastle(rules: Rules, kingPos: Square, rookPos: Square)
      requires Valid() && OnBoard(kingPos) && OnBoard(rookPos)
      requires squares[kingPos.0][kingPos.1].Some? && squares[rookPos.0][rookPos.1].Some?
      requires CastleFits(Snapshot(), rules, kingPos, rookPos)
      modifies this
      ensures Valid()
      ensures Snapshot() == CastleOutcome(old(Snapshot()), rules, kingPos, rookPos)
    {
      ghost var p := Snapshot();
      var king := squares[kingPos.0][kingPos.1].value;
      var rook := squares[rookPos.0][rookPos.1].value;
      var kingRookDistance := AbsDiff(king.position.1, rook.position.1);
      var castleType := if kingRookDistance == 4 then QueenSide else KingSide;
      var allowed := CanCastle(Snapshot(), rules, castleType, king.color);
      if allowed {
        MoveCastlingPieces(kingPos, rookPos, king, rook, castleType);
        CastleKeepsConsistent(p, rules, kingPos, rookPos);
      }
    }

    /** King and rook with their positions moved to their landing squares. */
    static method CastlingLandings(king: ChessPiece, rook: ChessPiece, castleType: CastleType) returns (castledKing: ChessPiece, castledRook: ChessPiece)
      ensures castledKing == king.(position := KingLanding(king, castleType))
      ensures castledRook == rook.(position := RookLanding(rook, castleType))
    {
      castledKing, castledRook := king, rook;
      match castleType {
        case KingSide =>
          castledKing := castledKing.(position := (castledKing.position.0, castledKing.position.1 + 2));
          castledRook := castledRook.(position := (castledRook.position.0, castledRook.position.1 - 2));
        case QueenSide =>
          castledKing := castledKing.(position := (castledKing.position.0, castledKing.position.1 - 2));
          castledRook := castledRook.(position := (castledRook.position.0, castledRook.position.1 + 3));
      }
    }

    /** The castling branch of `execute_castle`, once `can_castle` has allowed it. */
    method MoveCastlingPieces(kingPos: Square, rookPos: Square, king: ChessPiece, rook: ChessPiece, castleType: CastleType)
      requires OnBoard(kingPos) && OnBoard(rookPos)
      requires OnBoard(KingLanding(king, castleType)) && OnBoard(RookLanding(rook, castleType))
      modifies this
      ensures Snapshot() == Castled(old(Snapshot()), kingPos, rookPos, king, rook, castleType)
    {
      CastledFields(Snapshot(), kingPos, rookPos, king, rook, castleType);
      var castledKing, castledRook := CastlingLandings(king, rook, castleType);
      var grid := CastledGrid(squares, kingPos, rookPos, king, rook, castleType);
      var st := state.(movedTo := Some(castledKing.position));
      // the board's fields, with change_turn and deselect_piece
      match king.color {
        case Black =>
          squares, blackBigCastle, blackSmallCastle, turn, state := grid, false, false, Opponent(turn), Deselected(st);
        case White =>
          squares, whiteBigCastle, whiteSmallCastle, turn, state := grid, false, false, Opponent(turn), Deselected(st);
      }
    }
  }

  // ------------------------------------------------------------------ lemmas

  /** `Castled`, field by field. */
  lemma CastledFields(p: Position, kingPos: Square, rookPos: Square, king: ChessPiece, rook: ChessPiece, side: CastleType)
    requires OnBoard(kingPos) && OnBoard(rookPos)
    requires OnBoard(KingLanding(king, side)) && OnBoard(RookLanding(rook, side))
    ensures var black := king.color == Black;
      Castled(p, kingPos, rookPos, king, rook, side) == Position(
        CastledGrid(p.squares, kingPos, rookPos, king, rook, side), Opponent(p.turn),
        p.whiteBigCastle && black, p.blackBigCastle && !black, p.whiteSmallCastle && black, p.blackSmallCastle && !black,
        p.halfmoveClock, p.fullmoveNumber, p.enPassantTarget,
        Deselected(p.state.(movedTo := Some(KingLanding(king, side)))))
  {
  }

  /** `QuietOutcome`, field by field. */
  lemma QuietOutcomeFields(p: Position, piece: ChessPiece, from: Square, to: Square)
    requires OnBoard(from) && OnBoard(to)
    ensures QuietOutcome(p, piece, from, to) == Position(
      Put(Put(p.squares, to, Some(piece.(timesMoved := piece.timesMoved + 1, position := to))), from, None),
      Opponent(p.turn), p.whiteBigCastle, p.blackBigCastle, p.whiteSmallCastle, p.blackSmallCastle,
      if piece.kind == Pawn then 0 else p.halfmoveClock,
      if piece.color == Black then p.fullmoveNumber + 1 else p.fullmoveNumber,
      if piece.kind == Pawn && AbsDiff(from.0, to.0) == 2 then Some(to) else None,
      Deselected(p.state.(movedTo := Some(to))))
  {
  }

  /** Writing a piece onto its own square, or clearing a square, keeps every piece on its own square. */
  lemma PutKeepsConsistent(g: Grid, s: Square, c: Cell)
    requires Consistent(g) && OnBoard(s)
    requires c.Some? ==> c.value.position == s
    ensures Consistent(Put(g, s, c))
  {
  }

  /** Moving a piece off one square onto another keeps every piece on its own square. */
  lemma RelocateKeepsConsistent(g: Grid, piece: ChessPiece, from: Square, to: Square)
    requires Consistent(g) && OnBoard(from) && OnBoard(to)
    ensures Consistent(Relocate(g, piece, from, to))
  {
    PutKeepsConsistent(g, to, Some(Moved(piece, to)));
    PutKeepsConsistent(Put(g, to, Some(Moved(piece, to))), from, None);
  }

  /**
   * A legal capture can always read its victim: anything but a pawn
   * captures an occupied square, and a pawn moving diagonally onto an empty
   * square finds the en-passant target beside its origin, a square the move
   * itself does not touch.
   */
  lemma LegalCaptureIsDefined(p: Position, rules: Rules, piece: ChessPiece, from: Square, to: Square)
    requires Consistent(p.squares) && OnBoard(from) && OnBoard(to)
    requires At(p.squares, from) == Some(piece)
    requires to in LegalMoves(p, rules, piece).1
    ensures CaptureDefined(p, piece, from, to)
    ensures piece.kind == Pawn && At(p.squares, to).None? ==>
      && p.enPassantTarget == Some(PassedSquare(from, to))
      && PassedSquare(from, to) != from && PassedSquare(from, to) != to
      && At(p.squares, PassedSquare(from, to)).Some?
  {
    var g := p.squares;
    AllMovesOnBoard(g, piece);
    var moves := AllMoves(g, piece);
    var candidates := FilterCaptureMoves(g, piece, moves);
    assert to in candidates && KeepsLegalCapture(p, rules, piece, to);
    assert to in moves && KeepsCapture(g, piece, to);
    if piece.kind == Pawn && At(g, to).None? {
      PawnMovesShape(g, piece);
      var adjacent := At(g, (from.0, to.1)).value;
      assert adjacent.position == (from.0, to.1);
      var ep := PassedSquare(from, to);
      assert At(Relocate(g, piece, from, to), ep) == At(g, ep);
    }
  }

  lemma CaptureKeepsConsistent(p: Position, piece: ChessPiece, from: Square, to: Square)
    requires Consistent(p.squares) && OnBoard(from) && OnBoard(to)
    requires CaptureDefined(p, piece, from, to)
    ensures Consistent(CaptureOutcome(p, piece, from, to).squares)
  {
    RelocateKeepsConsistent(p.squares, piece, from, to);
    if piece.kind == Pawn && At(p.squares, to).None? {
      PutKeepsConsistent(Relocate(p.squares, piece, from, to), p.enPassantTarget.value, None);
    }
  }

  /** Every move keeps every piece on its own square. */
  lemma ApplyMoveKeepsConsistent(p: Position, rules: Rules, from: Square, to: Square)
    requires Consistent(p.squares) && OnBoard(from) && OnBoard(to)
    ensures Consistent(ApplyMove(p, rules, from, to).1.squares)
  {
    if At(p.squares, from).Some? {
      var piece := At(p.squares, from).value;
      var (quiets, captures) := LegalMoves(p, rules, piece);
      if to in captures {
        LegalCaptureIsDefined(p, rules, piece, from, to);
        CaptureKeepsConsistent(p, piece, from, to);
      } else if to in quiets {
        RelocateKeepsConsistent(p.squares, piece, from, to);
      }
    }
  }

  /** Moving from an empty square is an illegal move that changes nothing. */
  lemma EmptyOriginIsIllegal(p: Position, rules: Rules, from: Square, to: Square)
    requires Consistent(p.squares) && OnBoard(from) && OnBoard(to)
    requires At(p.squares, from).None?
    ensures ApplyMove(p, rules, from, to) == (Err(IllegalMove), p)
  {
  }

  /** A target that is neither a legal capture nor a legal quiet move is accepted and changes nothing. */
  lemma UnlistedTargetChangesNothing(p: Position, rules: Rules, from: Square, to: Square)
    requires Consistent(p.squares) && OnBoard(from) && OnBoard(to)
    requires At(p.squares, from).Some?
    requires var (q, c) := LegalMoves(p, rules, At(p.squares, from).value); to !in q && to !in c
    ensures ApplyMove(p, rules, from, to) == (Ok(()), p)
  {
  }

  /**
   * A move that is carried out puts the moved piece, one move older, on the
   * target, empties the origin, records the target, passes the turn and
   * clears the selection. `MoveKeepsTheRest` states what it leaves alone.
   */
  lemma MoveRelocatesThePiece(p: Position, rules: Rules, from: Square, to: Square)
    requires Consistent(p.squares) && OnBoard(from) && OnBoard(to) && from != to
    requires At(p.squares, from).Some?
    requires var (q, c) := LegalMoves(p, rules, At(p.squares, from).value); to in q || to in c
    ensures var piece := At(p.squares, from).value;
      var (r, p') := ApplyMove(p, rules, from, to);
      && r == Ok(())
      && At(p'.squares, to) == Some(Moved(piece, to))
      && At(p'.squares, from).None?
      && p'.turn == Opponent(p.turn)
      && p'.state.movedTo == Some(to)
      && p'.state.selectedPiece.None? && p'.state.quietMoves.None? && p'.state.captureMoves.None?
  {
    var piece := At(p.squares, from).value;
    var (q, c) := LegalMoves(p, rules, piece);
    if to in c {
      LegalCaptureIsDefined(p, rules, piece, from, to);
      assert ApplyMove(p, rules, from, to) == (Ok(()), CaptureOutcome(p, piece, from, to));
      CaptureRelocates(p, piece, from, to);
    } else {
      assert ApplyMove(p, rules, from, to) == (Ok(()), QuietOutcome(p, piece, from, to));
    }
  }

  /**
   * `move_piece` changes no square but the origin, the target and, for en
   * passant, the victim's square beside the origin; it never clears a
   * castling right, even when a king or a rook moves or is taken, and it
   * keeps the point of view.
   */
  lemma MoveKeepsTheRest(p: Position, rules: Rules, from: Square, to: Square)
    requires Consistent(p.squares) && OnBoard(from) && OnBoard(to)
    requires At(p.squares, from).Some?
    ensures var piece := At(p.squares, from).value;
      var p' := ApplyMove(p, rules, from, to).1;
      var enPassant := to in LegalMoves(p, rules, piece).1 && piece.kind == Pawn && At(p.squares, to).None?;
      && (forall s :: OnBoard(s) && s != from && s != to && (enPassant ==> s != PassedSquare(from, to)) ==>
            At(p'.squares, s) == At(p.squares, s))
      && p'.whiteBigCastle == p.whiteBigCastle && p'.blackBigCastle == p.blackBigCastle
      && p'.whiteSmallCastle == p.whiteSmallCastle && p'.blackSmallCastle == p.blackSmallCastle
      && p'.state.pov == p.state.pov
  {
    var piece := At(p.squares, from).value;
    var (q, c) := LegalMoves(p, rules, piece);
    if to in c {
      LegalCaptureIsDefined(p, rules, piece, from, to);
      assert ApplyMove(p, rules, from, to).1 == CaptureOutcome(p, piece, from, to);
      CaptureKeepsTheRest(p, piece, from, to);
    } else if to in q {
      QuietOutcomeFields(p, piece, from, to);
    }
  }

  /** `MoveKeepsTheRest` for a capture that is defined. */
  lemma CaptureKeepsTheRest(p: Position, piece: ChessPiece, from: Square, to: Square)
    requires OnBoard(from) && OnBoard(to)
    requires CaptureDefined(p, piece, from, to)
    requires piece.kind == Pawn && At(p.squares, to).None? ==> p.enPassantTarget == Some(PassedSquare(from, to))
    ensures var p' := CaptureOutcome(p, piece, from, to);
      var enPassant := piece.kind == Pawn && At(p.squares, to).None?;
      && (forall s :: OnBoard(s) && s != from && s != to && (enPassant ==> s != PassedSquare(from, to)) ==>
            At(p'.squares, s) == At(p.squares, s))
      && p'.whiteBigCastle == p.whiteBigCastle && p'.blackBigCastle == p.blackBigCastle
      && p'.whiteSmallCastle == p.whiteSmallCastle && p'.blackSmallCastle == p.blackSmallCastle
      && p'.state.pov == p.state.pov
  {
  }

  /** The relocation half of `MoveRelocatesThePiece`, for a capture. */
  lemma CaptureRelocates(p: Position, piece: ChessPiece, from: Square, to: Square)
    requires OnBoard(from) && OnBoard(to) && from != to
    requires CaptureDefined(p, piece, from, to)
    requires piece.kind == Pawn && At(p.squares, to).None? ==> p.enPassantTarget.value != to
    ensures var p' := CaptureOutcome(p, piece, from, to);
      && At(p'.squares, to) == Some(Moved(piece, to))
      && At(p'.squares, from).None?
      && p'.turn == Opponent(p.turn)
      && p'.state.movedTo == Some(to)
      && p'.state.selectedPiece.None? && p'.state.quietMoves.None? && p'.state.captureMoves.None?
  {
  }

  /**
   * A capture resets the half-move clock and the en-passant target, leaves
   * the full-move number alone, and appends the captured piece to the
   * list of its colour's opponent: the piece on the target, or for en
   * passant the pawn beside the origin, whose square is emptied.
   */
  lemma CaptureRecordsTheVictim(p: Position, rules: Rules, from: Square, to: Square)
    requires Consistent(p.squares) && OnBoard(from) && OnBoard(to)
    requires At(p.squares, from).Some?
    requires to in LegalMoves(p, rules, At(p.squares, from).value).1
    ensures var piece := At(p.squares, from).value;
      var p' := ApplyMove(p, rules, from, to).1;
      var enPassant := piece.kind == Pawn && At(p.squares, to).None?;
      var victimSquare := if enPassant then PassedSquare(from, to) else to;
      var victim := At(p.squares, victimSquare).value;
      && At(p.squares, victimSquare).Some?
      && p'.halfmoveClock == 0 && p'.enPassantTarget.None? && p'.fullmoveNumber == p.fullmoveNumber
      && (if victim.color == Black
          then p'.state.whiteTaken == p.state.whiteTaken + [victim] && p'.state.blackTaken == p.state.blackTaken
          else p'.state.blackTaken == p.state.blackTaken + [victim] && p'.state.whiteTaken == p.state.whiteTaken)
      && (enPassant ==> At(p'.squares, victimSquare).None?)
  {
    var piece := At(p.squares, from).value;
    LegalCaptureIsDefined(p, rules, piece, from, to);
    assert ApplyMove(p, rules, from, to).1 == CaptureOutcome(p, piece, from, to);
    CaptureTakesTheVictim(p, piece, from, to);
  }

  /** `CaptureRecordsTheVictim` for a capture that is defined. */
  lemma CaptureTakesTheVictim(p: Position, piece: ChessPiece, from: Square, to: Square)
    requires OnBoard(from) && OnBoard(to)
    requires CaptureDefined(p, piece, from, to)
    requires piece.kind == Pawn && At(p.squares, to).None? ==>
      && p.enPassantTarget == Some(PassedSquare(from, to))
      && PassedSquare(from, to) != from && PassedSquare(from, to) != to
      && At(p.squares, PassedSquare(from, to)).Some?
    ensures var p' := CaptureOutcome(p, piece, from, to);
      var enPassant := piece.kind == Pawn && At(p.squares, to).None?;
      var victimSquare := if enPassant then PassedSquare(from, to) else to;
      var victim := At(p.squares, victimSquare).value;
      && At(p.squares, victimSquare).Some?
      && p'.halfmoveClock == 0 && p'.enPassantTarget.None? && p'.fullmoveNumber == p.fullmoveNumber
      && (if victim.color == Black
          then p'.state.whiteTaken == p.state.whiteTaken + [victim] && p'.state.blackTaken == p.state.blackTaken
          else p'.state.blackTaken == p.state.blackTaken + [victim] && p'.state.whiteTaken == p.state.whiteTaken)
      && (enPassant ==> At(p'.squares, victimSquare).None?)
  {
  }

  /**
   * A quiet move (one that is not also a capture) sets the en-passant
   * target exactly when a pawn advances two ranks, counts a full move
   * exactly when Black moves, and resets the half-move clock for a pawn,
   * leaving it unchanged otherwise.
   */
  lemma QuietMoveClocks(p: Position, rules: Rules, from: Square, to: Square)
    requires Consistent(p.squares) && OnBoard(from) && OnBoard(to)
    requires At(p.squares, from).Some?
    requires var (q, c) := LegalMoves(p, rules, At(p.squares, from).value); to in q && to !in c
    ensures var piece := At(p.squares, from).value;
      var p' := ApplyMove(p, rules, from, to).1;
      && (p'.enPassantTarget.Some? <==> piece.kind == Pawn && AbsDiff(from.0, to.0) == 2)
      && (p'.enPassantTarget.Some? ==> p'.enPassantTarget == Some(to))
      && p'.fullmoveNumber == (if piece.color == Black then p.fullmoveNumber + 1 else p.fullmoveNumber)
      && p'.halfmoveClock == (if piece.kind == Pawn then 0 else p.halfmoveClock)
      && p'.state.whiteTaken == p.state.whiteTaken && p'.state.blackTaken == p.state.blackTaken
  {
  }

  /** Two turn changes give the turn back. */
  lemma EndTurnTwice(p: Position)
    ensures EndTurn(EndTurn(p)).turn == p.turn
    ensures EndTurn(EndTurn(p)) == EndTurn(p).(turn := p.turn)
  {
    OpponentInvolution(p.turn);
  }

  /** Deselecting is idempotent and touches only the selection. */
  lemma DeselectIdempotent(st: BoardState)
    ensures Deselected(Deselected(st)) == Deselected(st)
    ensures Deselected(st).pov == st.pov && Deselected(st).whiteTaken == st.whiteTaken
  {
  }

  /** Promotion changes only the kind of the piece on the square, and promoting twice is promoting once to the second kind. */
  lemma PromotedOnlyChangesKind(p: Position, pos: Square, kind: PieceType, kind2: PieceType)
    requires OnBoard(pos)
    ensures forall s :: OnBoard(s) && s != pos ==> At(Promoted(p, pos, kind).squares, s) == At(p.squares, s)
    ensures At(p.squares, pos).Some? ==> At(Promoted(p, pos, kind).squares, pos) == Some(At(p.squares, pos).value.(kind := kind))
    ensures At(p.squares, pos).None? ==> Promoted(p, pos, kind) == p
    ensures Promoted(Promoted(p, pos, kind), pos, kind2) == Promoted(p, pos, kind2)
  {
    if At(p.squares, pos).Some? {
      var pawn := At(p.squares, pos).value;
      var g1 := Put(p.squares, pos, Some(pawn.(kind := kind)));
      GridExt(Put(g1, pos, Some(pawn.(kind := kind2))), Put(p.squares, pos, Some(pawn.(kind := kind2))));
    }
  }

  lemma PromotedKeepsConsistent(p: Position, pos: Square, kind: PieceType)
    requires Consistent(p.squares) && OnBoard(pos)
    ensures Consistent(Promoted(p, pos, kind).squares)
  {
  }

  /**
   * Selecting a piece records it and stores its legal moves, computed with
   * the piece already selected; everything but the interaction state stays.
   */
  lemma SelectedStoresLegalMoves(p: Position, rules: Rules, piece: ChessPiece)
    requires OnBoard(piece.position)
    ensures var p' := Selected(p, rules, piece);
      var (q, c) := LegalMoves(p.(state := p.state.(selectedPiece := Some(piece))), rules, piece);
      && p'.state.selectedPiece == Some(piece)
      && p'.state.quietMoves == Some(q) && p'.state.captureMoves == Some(c)
      && p'.squares == p.squares && p'.turn == p.turn && p'.enPassantTarget == p.enPassantTarget
      && Deselected(p'.state) == Deselected(p.state)
  {
  }

  lemma CastleKeepsConsistent(p: Position, rules: Rules, kingPos: Square, rookPos: Square)
    requires Consistent(p.squares) && OnBoard(kingPos) && OnBoard(rookPos)
    requires At(p.squares, kingPos).Some? && At(p.squares, rookPos).Some?
    requires CastleFits(p, rules, kingPos, rookPos)
    ensures Consistent(CastleOutcome(p, rules, kingPos, rookPos).squares)
  {
    var king := At(p.squares, kingPos).value;
    var rook := At(p.squares, rookPos).value;
    var side := CastleSide(king, rook);
    if CastleAllowed(p, rules, side, king.color) {
      var kingTo, rookTo := KingLanding(king, side), RookLanding(rook, side);
      PutKeepsConsistent(p.squares, kingPos, None);
      var c1 := Put(p.squares, kingPos, None);
      PutKeepsConsistent(c1, rookPos, None);
      var c2 := Put(c1, rookPos, None);
      PutKeepsConsistent(c2, kingTo, Some(king.(position := kingTo)));
      PutKeepsConsistent(Put(c2, kingTo, Some(king.(position := kingTo))), rookTo, Some(rook.(position := rookTo)));
    }
  }

  /**
   * A castle that `can_castle` allows moves the king two files and the rook
   * past it, keeps both move counters, clears both rights of the castling
   * colour and no others, and passes the turn; one it refuses changes
   * nothing.
   */
  lemma CastleMovesKingAndRook(p: Position, rules: Rules, kingPos: Square, rookPos: Square)
    requires Consistent(p.squares) && OnBoard(kingPos) && OnBoard(rookPos)
    requires At(p.squares, kingPos).Some? && At(p.squares, rookPos).Some?
    requires CastleFits(p, rules, kingPos, rookPos)
    ensures var king := At(p.squares, kingPos).value;
      var rook := At(p.squares, rookPos).value;
      var side := CastleSide(king, rook);
      var p' := CastleOutcome(p, rules, kingPos, rookPos);
      if CastleAllowed(p, rules, side, king.color) then
        && At(p'.squares, KingLanding(king, side)) == Some(king.(position := KingLanding(king, side)))
        && At(p'.squares, RookLanding(rook, side)) == Some(rook.(position := RookLanding(rook, side)))
        && KingLanding(king, side).0 == kingPos.0 && AbsDiff(KingLanding(king, side).1, kingPos.1) == 2
        && RookLanding(rook, side).0 == rookPos.0
        && p'.turn == Opponent(p.turn)
        && (king.color == White ==>
              !p'.whiteBigCastle && !p'.whiteSmallCastle && p'.blackBigCastle == p.blackBigCastle && p'.blackSmallCastle == p.blackSmallCastle)
        && (king.color == Black ==>
              !p'.blackBigCastle && !p'.blackSmallCastle && p'.whiteBigCastle == p.whiteBigCastle && p'.whiteSmallCastle == p.whiteSmallCastle)
      else p' == p
  {
    var king := At(p.squares, kingPos).value;
    var rook := At(p.squares, rookPos).value;
    var side := CastleSide(king, rook);
    if CastleAllowed(p, rules, side, king.color) {
      assert KingLanding(king, side) != RookLanding(rook, side);
    }
  }
}

/**
 * The capture half of move legality, src/engine/capture.rs: which
 * pseudo-moves are capture candidates, and which candidates survive the
 * check test, the en-passant test and the castling test.
 */
module Capture {
  import opened Wrappers
  import opened Pieces
  import opened Positions
  import opened Seqs
  import opened MoveGen

  /** Whether `filter_capture_moves` keeps the pseudo-move to `s`. */
  predicate KeepsCapture(g: Grid, piece: ChessPiece, s: Square)
    requires OnBoard(s)
  {
    match At(g, s)
    case Some(target) =>
      if piece.kind == Pawn then piece.position.1 != s.1
      else if piece.kind == King then
        if piece.color == target.color then target.kind == Rook
        else AbsDiff(piece.position.1, target.position.1) <= 1
      else piece.color != target.color
    case None =>
      // a pawn's empty diagonal is kept for en passant
      piece.kind == Pawn && piece.position.1 != s.1
  }

  /** `filter_capture_moves`: the kept moves, in their original order. */
  function FilterCaptureMoves(g: Grid, piece: ChessPiece, moves: seq<Square>): (r: seq<Square>)
    requires forall k :: 0 <= k < |moves| ==> OnBoard(moves[k])
    ensures IsSubsequence(r, moves)
    ensures forall s :: s in r <==> s in moves && OnBoard(s) && KeepsCapture(g, piece, s)
    decreases |moves|
  {
    if moves == [] then []
    else
      var init := FilterCaptureMoves(g, piece, moves[..|moves| - 1]);
      var last := moves[|moves| - 1];
      assert moves == moves[..|moves| - 1] + [last];
      if KeepsCapture(g, piece, last) then init + [last] else init
  }

  /** Whether `legalize_capture_moves` keeps the capture candidate `mv`. */
  predicate KeepsLegalCapture(p: Position, rules: Rules, piece: ChessPiece, mv: Square)
    requires OnBoard(mv)
    requires piece.kind == Pawn ==> 0 <= piece.position.0 < 8
  {
    var safe := !rules.simulateMove(p, piece, mv);
    if piece.kind == Pawn then
      match At(p.squares, mv)
      case Some(_) => safe
      case None =>
        // en passant: the piece beside the pawn, on the target file, is the en-passant target
        match At(p.squares, (piece.position.0, mv.1))
        case Some(adjacent) => p.enPassantTarget == Some(adjacent.position) && safe
        case None => false
    else if piece.kind == King then
      match At(p.squares, mv)
      case Some(q) =>
        if q.kind == Rook && q.color == piece.color then
          || (AbsDiff(mv.1, piece.position.1) == 4 && CastleAllowed(p, rules, QueenSide, q.color))
          || (AbsDiff(mv.1, piece.position.1) == 3 && CastleAllowed(p, rules, KingSide, q.color))
        else safe
      case None => safe
    else safe
  }

  /** The candidates `legalize_capture_moves` keeps, in order. */
  function LegalCaptures(p: Position, rules: Rules, piece: ChessPiece, moves: seq<Square>): (r: seq<Square>)
    requires forall k :: 0 <= k < |moves| ==> OnBoard(moves[k])
    requires piece.kind == Pawn ==> 0 <= piece.position.0 < 8
    ensures IsSubsequence(r, moves)
    ensures forall s :: s in r <==> s in moves && OnBoard(s) && KeepsLegalCapture(p, rules, piece, s)
    decreases |moves|
  {
    if moves == [] then []
    else
      var init := LegalCaptures(p, rules, piece, moves[..|moves| - 1]);
      var last := moves[|moves| - 1];
      assert moves == moves[..|moves| - 1] + [last];
      if KeepsLegalCapture(p, rules, piece, last) then init + [last] else init
  }

  method LegalizeCaptureMoves(p: Position, rules: Rules, piece: ChessPiece, captureMoves: seq<Square>) returns (valid: seq<Square>)
    requires Consistent(p.squares)
    requires forall k :: 0 <= k < |captureMoves| ==> OnBoard(captureMoves[k])
    requires piece.kind == Pawn ==> 0 <= piece.position.0 < 8
    ensures valid == LegalCaptures(p, rules, piece, captureMoves)
  {
    valid := [];
    for k := 0 to |captureMoves|
      invariant valid == LegalCaptures(p, rules, piece, captureMoves[..k])
    {
      var mv := captureMoves[k];
      assert captureMoves[..k + 1][..k] == captureMoves[..k];
      var keep := KeepMove(p, rules, piece, mv);
      if keep {
        valid := valid + [mv];
      }
    }
    assert captureMoves[..|captureMoves|] == captureMoves;
  }

  /** The body of the loops of `legalize_capture_moves`, for one candidate. */
  method KeepMove(p: Position, rules: Rules, piece: ChessPiece, mv: Square) returns (keep: bool)
    requires Consistent(p.squares)
    requires OnBoard(mv)
    requires piece.kind == Pawn ==> 0 <= piece.position.0 < 8
    ensures keep == KeepsLegalCapture(p, rules, piece, mv)
  {
    keep := false;
    if piece.kind == Pawn {
      match p.squares[mv.0][mv.1] {
        case Some(_) =>
          keep := !rules.simulateMove(p, piece, mv);
        case None =>
          match p.squares[piece.position.0][mv.1] {
            case Some(adjacentPiece) =>
              match p.enPassantTarget {
                case Some(targetPos) =>
                  if adjacentPiece.position == targetPos {
                    keep := !rules.simulateMove(p, piece, mv);
                  }
                case None =>
              }
            case None =>
          }
      }
    } else if piece.kind == King {
      match p.squares[mv.0][mv.1] {
        case Some(q) =>
          if q.kind == Rook {
            if q.color == piece.color {
              if AbsDiff(mv.1, piece.position.1) == 4 {
                keep := CanCastle(p, rules, QueenSide, q.color);
              }
              if AbsDiff(mv.1, piece.position.1) == 3 {
                keep := CanCastle(p, rules, KingSide, q.color);
              }
            } else {
              keep := !rules.simulateMove(p, piece, mv);
            }
          } else {
            keep := !rules.simulateMove(p, piece, mv);
          }
        case None =>
          keep := !rules.simulateMove(p, piece, mv);
      }
    } else {
      keep := !rules.simulateMove(p, piece, mv);
    }
  }

  // ------------------------------------------------------------------ lemmas

  /**
   * Apart from pawns, a capture candidate is an occupied square: an enemy,
   * or a friendly rook for a king. A king's enemy lies at most one file
   * away.
   */
  lemma CaptureCandidatesAreTargets(g: Grid, piece: ChessPiece, moves: seq<Square>)
    requires forall k :: 0 <= k < |moves| ==> OnBoard(moves[k])
    requires piece.kind != Pawn
    requires Consistent(g)
    ensures forall s :: s in FilterCaptureMoves(g, piece, moves) ==>
      && OnBoard(s) && At(g, s).Some?
      && (At(g, s).value.color == piece.color ==> piece.kind == King && At(g, s).value.kind == Rook)
      && (piece.kind == King && At(g, s).value.color != piece.color ==> AbsDiff(piece.position.1, s.1) <= 1)
  {
  }

  /** A pawn's capture candidates are exactly its pseudo-moves off its own file. */
  lemma PawnCandidatesLeaveTheFile(g: Grid, piece: ChessPiece, moves: seq<Square>)
    requires forall k :: 0 <= k < |moves| ==> OnBoard(moves[k])
    requires piece.kind == Pawn
    ensures forall s :: s in FilterCaptureMoves(g, piece, moves) <==> s in moves && s.1 != piece.position.1
  {
  }

  /**
   * The capture candidates of a sliding or jumping piece among its own
   * pseudo-moves are exactly the squares it reaches that hold an enemy.
   */
  lemma CapturesOfPseudoMoves(g: Grid, piece: ChessPiece)
    requires piece.kind in {Bishop, Rook, Queen, Knight}
    ensures var m := AllMoves(g, piece);
      && (forall k :: 0 <= k < |m| ==> OnBoard(m[k]))
      && forall s :: s in FilterCaptureMoves(g, piece, m) <==> s in m && At(g, s).Some? && At(g, s).value.color != piece.color
  {
    AllMovesOnBoard(g, piece);
  }

  /** Without an en-passant target a pawn keeps only its captures of occupied squares. */
  lemma NoEnPassantWithoutTarget(p: Position, rules: Rules, piece: ChessPiece, moves: seq<Square>)
    requires forall k :: 0 <= k < |moves| ==> OnBoard(moves[k])
    requires piece.kind == Pawn && 0 <= piece.position.0 < 8
    requires p.enPassantTarget.None?
    ensures forall s :: s in LegalCaptures(p, rules, piece, moves) ==>
      At(p.squares, s).Some? && !rules.simulateMove(p, piece, s)
  {
  }

  /**
   * A king keeps a move onto its own rook only as a castle: four files
   * away on the queen side, three on the king side, and only if
   * `can_castle` allows it.
   */
  lemma KingTakesOwnRookOnlyToCastle(p: Position, rules: Rules, piece: ChessPiece, moves: seq<Square>, s: Square)
    requires forall k :: 0 <= k < |moves| ==> OnBoard(moves[k])
    requires piece.kind == King
    requires s in LegalCaptures(p, rules, piece, moves)
    requires At(p.squares, s).Some? && At(p.squares, s).value.kind == Rook && At(p.squares, s).value.color == piece.color
    ensures || (AbsDiff(s.1, piece.position.1) == 4 && CastleAllowed(p, rules, QueenSide, piece.color))
            || (AbsDiff(s.1, piece.position.1) == 3 && CastleAllowed(p, rules, KingSide, piece.color))
  {
  }

  /** Any other kept capture is one `simulate_move` does not reject. */
  lemma LegalCapturesAreSafe(p: Position, rules: Rules, piece: ChessPiece, moves: seq<Square>)
    requires forall k :: 0 <= k < |moves| ==> OnBoard(moves[k])
    requires piece.kind == Pawn ==> 0 <= piece.position.0 < 8
    ensures forall s :: s in LegalCaptures(p, rules, piece, moves) ==>
      || !rules.simulateMove(p, piece, s)
      || (piece.kind == King && At(p.squares, s).Some? && At(p.squares, s).value.kind == Rook
          && At(p.squares, s).value.color == piece.color)
  {
  }

  /**
   * En passant trusts the recorded target: a pawn may take towards an empty
   * square whenever the piece beside it on that file stands on the
   * en-passant target, whatever that piece's kind or colour, provided the
   * move is safe.
   */
  lemma EnPassantTrustsTheTarget(p: Position, rules: Rules, piece: ChessPiece, mv: Square, adjacent: ChessPiece)
    requires OnBoard(mv) && piece.kind == Pawn && OnBoard(piece.position)
    requires At(p.squares, mv).None? && At(p.squares, (piece.position.0, mv.1)) == Some(adjacent)
    requires p.enPassantTarget == Some(adjacent.position)
    ensures KeepsLegalCapture(p, rules, piece, mv) <==> !rules.simulateMove(p, piece, mv)
  {
  }
}

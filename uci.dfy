/**
 * Decoding of UCI move strings, src/engine/uci.rs: "e2e4" names the origin
 * and target squares, a fifth letter asks for a promotion, and the four
 * king moves "e1g1", "e1c1", "e8g8" and "e8c8" are played as castles.
 */
module Uci {
  import opened Wrappers
  import opened Pieces
  import opened Positions
  import opened MoveGen
  import opened Engine

  /** The file letters and their column indices. */
  const FileMap: map<char, int> := map['a' := 0, 'b' := 1, 'c' := 2, 'd' := 3, 'e' := 4, 'f' := 5, 'g' := 6, 'h' := 7]

  /** A rank digit's row: rank 8 is row 0, rank 1 is row 7. */
  function RankIndex(c: char): int
    requires '0' <= c <= '8'
  {
    8 - (c as int - '0' as int)
  }

  /**
   * What the decoder reads without panicking: four characters at least, two
   * file letters and two rank digits, each digit at most 8 so that the
   * unsigned subtraction does not underflow.
   */
  predicate WellFormedUci(s: string) {
    && |s| >= 4
    && s[0] in FileMap && s[2] in FileMap
    && '0' <= s[1] <= '8' && '0' <= s[3] <= '8'
  }

  /** The origin and target squares a move string names. */
  function Coordinates(s: string): (Square, Square)
    requires WellFormedUci(s)
  {
    ((RankIndex(s[1]), FileMap[s[0]]), (RankIndex(s[3]), FileMap[s[2]]))
  }

  /** The piece a promotion letter asks for, in either case. */
  function PromotionKind(c: char): Option<PieceType> {
    match c
    case 'q' => Some(Queen)
    case 'Q' => Some(Queen)
    case 'r' => Some(Rook)
    case 'R' => Some(Rook)
    case 'b' => Some(Bishop)
    case 'B' => Some(Bishop)
    case 'n' => Some(Knight)
    case 'N' => Some(Knight)
    case _ => None
  }

  /** The king and rook squares of the four castling strings. */
  function CastleSquaresOf(s: string): Option<(Square, Square)> {
    if s == "e1g1" then Some(((7, 4), (7, 7)))
    else if s == "e1c1" then Some(((7, 4), (7, 0)))
    else if s == "e8g8" then Some(((0, 4), (0, 7)))
    else if s == "e8c8" then Some(((0, 4), (0, 0)))
    else None
  }

  /**
   * What the decoder needs of the board besides a well-formed string: a
   * promotion names two board squares and, when a piece stands on the
   * origin, a valid promotion letter; a castling string finds a king and a
   * rook on its squares, with room to land.
   */
  predicate CanDecode(p: Position, rules: Rules, s: string)
    requires WellFormedUci(s)
  {
    var (from, to) := Coordinates(s);
    && (|s| == 5 ==>
          && OnBoard(from) && OnBoard(to)
          && (At(p.squares, from).Some? ==> PromotionKind(s[4]).Some?))
    && (|s| != 5 && CastleSquaresOf(s).Some? ==>
          var (kingPos, rookPos) := CastleSquaresOf(s).value;
          && At(p.squares, kingPos).Some? && At(p.squares, rookPos).Some?
          && CastleFits(p, rules, kingPos, rookPos))
  }

  /** A five-character string: the move, then the promotion of whatever stands on the target. */
  function PromotionOutcome(p: Position, rules: Rules, from: Square, to: Square, letter: char): (Option<(Square, Square)>, Position)
    requires Consistent(p.squares) && OnBoard(from) && OnBoard(to)
    requires At(p.squares, from).Some? ==> PromotionKind(letter).Some?
  {
    var (r, p1) := ApplyMove(p, rules, from, to);
    if r.Err? then (None, p1)
    else
      var p2 := Promoted(p1, to, PromotionKind(letter).value);
      (Some((from, to)), p2.(state := p2.state.(promotionPending := None)))
  }

  /**
   * `decode_uci_move`: a five-character string plays the move and then
   * promotes whatever stands on the target, answering None only when the
   * move is refused; a castling string castles and answers None; anything
   * else changes nothing and answers the two squares.
   */
  function DecodeUci(p: Position, rules: Rules, s: string): (Option<(Square, Square)>, Position)
    requires Consistent(p.squares) && WellFormedUci(s) && CanDecode(p, rules, s)
  {
    var (from, to) := Coordinates(s);
    if |s| == 5 then PromotionOutcome(p, rules, from, to, s[4])
    else
      match CastleSquaresOf(s)
      case Some((kingPos, rookPos)) => (None, CastleOutcome(p, rules, kingPos, rookPos))
      case None => (Some((from, to)), p)
  }

  method DecodeUciMove(b: Board, rules: Rules, uciMove: string) returns (r: Option<(Square, Square)>)
    requires b.Valid() && WellFormedUci(uciMove) && CanDecode(b.Snapshot(), rules, uciMove)
    modifies b
    ensures b.Valid()
    ensures (r, b.Snapshot()) == DecodeUci(old(b.Snapshot()), rules, uciMove)
  {
    var chars := uciMove;
    var fromFile := FileMap[chars[0]];
    var fromRank := 8 - (chars[1] as int - '0' as int);
    var toFile := FileMap[chars[2]];
    var toRank := 8 - (chars[3] as int - '0' as int);
    var from := (fromRank, fromFile);
    var to := (toRank, toFile);

    if |uciMove| == 5 {
      r := PlayPromotion(b, rules, from, to, chars[4]);
      return;
    }

    if uciMove == "e1g1" {
      b.ExecuteCastle(rules, (7, 4), (7, 7));
      r := None;
    } else if uciMove == "e1c1" {
      b.ExecuteCastle(rules, (7, 4), (7, 0));
      r := None;
    } else if uciMove == "e8g8" {
      b.ExecuteCastle(rules, (0, 4), (0, 7));
      r := None;
    } else if uciMove == "e8c8" {
      b.ExecuteCastle(rules, (0, 4), (0, 0));
      r := None;
    } else {
      r := Some((from, to));
    }
  }

  /** The promotion branch of `decode_uci_move`. */
  method PlayPromotion(b: Board, rules: Rules, from: Square, to: Square, promotionChar: char) returns (r: Option<(Square, Square)>)
    requires b.Valid() && OnBoard(from) && OnBoard(to)
    requires At(b.squares, from).Some? ==> PromotionKind(promotionChar).Some?
    modifies b
    ensures b.Valid()
    ensures (r, b.Snapshot()) == PromotionOutcome(old(b.Snapshot()), rules, from, to, promotionChar)
  {
    var result := b.MovePiece(rules, from, to);
    if result.Err? {
      return None;
    }
    var promotionPiece;
    match promotionChar {
      case 'q' => promotionPiece := Queen;
      case 'Q' => promotionPiece := Queen;
      case 'r' => promotionPiece := Rook;
      case 'R' => promotionPiece := Rook;
      case 'b' => promotionPiece := Bishop;
      case 'B' => promotionPiece := Bishop;
      case 'n' => promotionPiece := Knight;
      case 'N' => promotionPiece := Knight;
    }
    b.PromotePawn(to, promotionPiece);
    b.state := b.state.(promotionPending := None);
    PromotedKeepsConsistent(b.Snapshot(), to, promotionPiece);
    return Some((from, to));
  }

  // ------------------------------------------------------------------ naming

  const FileLetters: string := "abcdefgh"

  /** The UCI name of a board square: its file letter and its rank digit. */
  function SquareName(s: Square): (name: string)
    requires OnBoard(s)
    ensures |name| == 2
  {
    [FileLetters[s.1], ('0' as int + 8 - s.0) as char]
  }

  /** The move string naming a move from one board square to another. */
  function MoveName(from: Square, to: Square): (name: string)
    requires OnBoard(from) && OnBoard(to)
    ensures |name| == 4
  {
    SquareName(from) + SquareName(to)
  }

  lemma FileMapInvertsLetters(j: int)
    requires 0 <= j < 8
    ensures FileLetters[j] in FileMap && FileMap[FileLetters[j]] == j
  {
  }

  /** Decoding the name of a move gives back its two squares. */
  lemma DecodeName(from: Square, to: Square)
    requires OnBoard(from) && OnBoard(to)
    ensures WellFormedUci(MoveName(from, to))
    ensures Coordinates(MoveName(from, to)) == (from, to)
  {
    FileMapInvertsLetters(from.1);
    FileMapInvertsLetters(to.1);
  }

  /** Every four-character move string between board squares is the name of the move it decodes to. */
  lemma NameDecoded(s: string)
    requires WellFormedUci(s) && |s| == 4 && s[1] != '0' && s[3] != '0'
    ensures var (from, to) := Coordinates(s);
      OnBoard(from) && OnBoard(to) && MoveName(from, to) == s
  {
    var (from, to) := Coordinates(s);
    assert FileLetters[FileMap[s[0]]] == s[0] && FileLetters[FileMap[s[2]]] == s[2];
    assert MoveName(from, to) == [s[0], s[1], s[2], s[3]];
  }

  /** "e2e4" is the move from row 6 to row 4 on column 4. */
  lemma KingPawnOpening()
    ensures WellFormedUci("e2e4") && Coordinates("e2e4") == ((6, 4), (4, 4))
  {
  }

  /** A plain four-character move that is not a castle only names its squares. */
  lemma PlainMoveChangesNothing(p: Position, rules: Rules, s: string)
    requires Consistent(p.squares) && WellFormedUci(s) && |s| == 4 && CastleSquaresOf(s).None?
    ensures CanDecode(p, rules, s)
    ensures DecodeUci(p, rules, s) == (Some(Coordinates(s)), p)
  {
  }

  /** A string longer than five characters is never a castle, whatever it starts with. */
  lemma LongStringChangesNothing(p: Position, rules: Rules, s: string)
    requires Consistent(p.squares) && WellFormedUci(s) && |s| > 5
    ensures CanDecode(p, rules, s)
    ensures DecodeUci(p, rules, s) == (Some(Coordinates(s)), p)
  {
  }

  /** A promotion from an empty square is refused and changes nothing. */
  lemma PromotionFromEmptySquare(p: Position, rules: Rules, s: string)
    requires Consistent(p.squares) && WellFormedUci(s) && CanDecode(p, rules, s) && |s| == 5
    requires At(p.squares, Coordinates(s).0).None?
    ensures DecodeUci(p, rules, s) == (None, p)
  {
    var (from, to) := Coordinates(s);
    EmptyOriginIsIllegal(p, rules, from, to);
  }

  /**
   * A promotion from an occupied square always answers its squares, leaves
   * no promotion pending, and leaves a piece of the promotion kind on the
   * target whenever one stands there after the move.
   */
  lemma PromotionReplacesKind(p: Position, rules: Rules, s: string)
    requires Consistent(p.squares) && WellFormedUci(s) && CanDecode(p, rules, s) && |s| == 5
    requires At(p.squares, Coordinates(s).0).Some?
    ensures var (from, to) := Coordinates(s);
      var (r, p') := DecodeUci(p, rules, s);
      var moved := ApplyMove(p, rules, from, to).1;
      && r == Some((from, to))
      && p'.state.promotionPending.None?
      && p'.turn == moved.turn
      && (At(moved.squares, to).Some? ==>
            At(p'.squares, to) == Some(At(moved.squares, to).value.(kind := PromotionKind(s[4]).value)))
  {
  }

  /** Each castling string castles with its king and rook and answers None. */
  lemma CastlingStringsCastle(p: Position, rules: Rules, s: string)
    requires Consistent(p.squares) && WellFormedUci(s) && CanDecode(p, rules, s)
    requires s in ["e1g1", "e1c1", "e8g8", "e8c8"]
    ensures var (kingPos, rookPos) := CastleSquaresOf(s).value;
      DecodeUci(p, rules, s) == (None, CastleOutcome(p, rules, kingPos, rookPos))
  {
  }

  /**
   * A promotion string whose target is in neither legal list still answers
   * its squares: the move changes nothing, yet whatever stands on the
   * target is retyped.
   */
  lemma UnlistedPromotionRetypes(p: Position, rules: Rules, s: string)
    requires Consistent(p.squares) && WellFormedUci(s) && CanDecode(p, rules, s) && |s| == 5
    requires At(p.squares, Coordinates(s).0).Some?
    requires var (q, c) := LegalMoves(p, rules, At(p.squares, Coordinates(s).0).value);
      Coordinates(s).1 !in q && Coordinates(s).1 !in c
    ensures var (from, to) := Coordinates(s);
      var retyped := Promoted(p, to, PromotionKind(s[4]).value);
      DecodeUci(p, rules, s) == (Some((from, to)), retyped.(state := retyped.state.(promotionPending := None)))
  {
    var (from, to) := Coordinates(s);
    UnlistedTargetChangesNothing(p, rules, from, to);
  }
}

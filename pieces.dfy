/**
 * The piece model of src/engine/piece.rs: the six kinds, the two colours,
 * the piece record and the display names of kinds and colours.
 */
module Pieces {

  datatype PieceType = Pawn | Rook | Queen | Bishop | Knight | King

  datatype PieceColor = White | Black

  /** A square is a (rank, file) pair; rank 0 is Black's back rank. */
  type Square = (int, int)

  predicate OnBoard(s: Square) {
    0 <= s.0 < 8 && 0 <= s.1 < 8
  }

  /** `u8::abs_diff` on ranks and files. */
  function AbsDiff(a: int, b: int): nat {
    if a < b then b - a else a - b
  }

  /**
   * A piece remembers its own square and how often it has moved;
   * `timesMoved` is the only record of whether it has ever moved.
   */
  datatype ChessPiece = ChessPiece(kind: PieceType, color: PieceColor, position: Square, timesMoved: int)

  /** `ChessPiece::default()`: an unmoved black pawn on (0, 0). */
  function DefaultPiece(): ChessPiece {
    ChessPiece(Pawn, Black, (0, 0), 0)
  }

  /** The default piece is a black pawn on (0, 0) that has never moved. */
  lemma DefaultPieceIsUnmovedBlackPawn()
    ensures var d := DefaultPiece();
      d.kind == Pawn && d.color == Black && d.position == (0, 0) && d.timesMoved == 0
  {
  }

  /** The other colour; the side to move after a move, and the flipped point of view. */
  function Opponent(c: PieceColor): (o: PieceColor)
    ensures o != c
  {
    match c
    case White => Black
    case Black => White
  }

  lemma OpponentInvolution(c: PieceColor)
    ensures Opponent(Opponent(c)) == c
  {
  }

  /** `ToString for PieceColor`. */
  function ColorName(c: PieceColor): string {
    match c
    case White => "White"
    case Black => "Black"
  }

  /** `ToString for PieceType`: each kind is named by its own identifier. */
  function KindName(k: PieceType): string {
    match k
    case King => "King"
    case Queen => "Queen"
    case Bishop => "Bishop"
    case Knight => "Knight"
    case Pawn => "Pawn"
    case Rook => "Rook"
  }

  /** Two colours have the same name only if they are the same colour. */
  lemma ColorNameInjective(a: PieceColor, b: PieceColor)
    ensures ColorName(a) == ColorName(b) <==> a == b
  {
  }

  /** Every kind has a name of its own: the names tell the six kinds apart. */
  lemma KindNameInjective(a: PieceType, b: PieceType)
    ensures KindName(a) == KindName(b) <==> a == b
  {
  }
}

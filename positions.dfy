/**
 * The data of src/engine/board.rs: the 8x8 grid of optional pieces, the
 * selection state shown by the user interface, and the value of a whole
 * board (`Position`), which is what the board's `Clone` copies and what the
 * helpers outside this model (`simulate_move` and the quiet-move filters)
 * are given.
 */
module Positions {
  import opened Wrappers
  import opened Pieces

  type Cell = Option<ChessPiece>

  type Row = r: seq<Cell> | |r| == 8 witness [None, None, None, None, None, None, None, None]

  /** `[[Option<ChessPiece>; 8]; 8]`: rank-major, `g[rank][file]`. */
  type Grid = g: seq<Row> | |g| == 8 witness EmptyGrid()

  function EmptyRow(): Row {
    [None, None, None, None, None, None, None, None]
  }

  function EmptyGrid(): (g: seq<Row>)
    ensures |g| == 8
  {
    [EmptyRow(), EmptyRow(), EmptyRow(), EmptyRow(), EmptyRow(), EmptyRow(), EmptyRow(), EmptyRow()]
  }

  function At(g: Grid, s: Square): Cell
    requires OnBoard(s)
  {
    g[s.0][s.1]
  }

  lemma EmptyGridAt(s: Square)
    requires OnBoard(s)
    ensures At(EmptyGrid(), s).None?
  {
    assert EmptyGrid()[s.0] == EmptyRow();
  }

  /** The grid with one cell replaced. */
  function Put(g: Grid, s: Square, c: Cell): (r: Grid)
    requires OnBoard(s)
    ensures forall t :: OnBoard(t) ==> At(r, t) == if t == s then c else At(g, t)
  {
    g[s.0 := g[s.0][s.1 := c]]
  }

  /** Two grids that agree on every square are equal. */
  lemma GridExt(g: Grid, h: Grid)
    requires forall r, f :: 0 <= r < 8 && 0 <= f < 8 ==> g[r][f] == h[r][f]
    ensures g == h
  {
    forall r | 0 <= r < 8
      ensures g[r] == h[r]
    {
      assert forall f :: 0 <= f < 8 ==> g[r][f] == h[r][f];
    }
  }

  /**
   * The board invariant: a piece standing on (r, f) records (r, f) as its
   * position.
   */
  ghost predicate Consistent(g: Grid) {
    forall r, f :: 0 <= r < 8 && 0 <= f < 8 && g[r][f].Some? ==> g[r][f].value.position == (r, f)
  }

  /** The starting point of view, `DEFAULT_STARTING` of src/etc.rs. */
  const DefaultStarting: PieceColor := Black

  /** Presentation-facing state: selection, cached legal moves, captured pieces. */
  datatype BoardState = BoardState(
    selectedPiece: Option<ChessPiece>,
    movedFrom: Option<Square>,
    movedTo: Option<Square>,
    quietMoves: Option<seq<Square>>,
    captureMoves: Option<seq<Square>>,
    pov: PieceColor,
    whiteTaken: seq<ChessPiece>,
    blackTaken: seq<ChessPiece>,
    promotionPending: Option<Square>,
    checkmateSquare: Option<Square>)

  /** `BoardState::default()`. */
  function DefaultState(): BoardState {
    BoardState(None, None, None, None, None, DefaultStarting, [], [], None, None)
  }

  /** The value of a whole board. */
  datatype Position = Position(
    squares: Grid,
    turn: PieceColor,
    whiteBigCastle: bool,
    blackBigCastle: bool,
    whiteSmallCastle: bool,
    blackSmallCastle: bool,
    halfmoveClock: nat,
    fullmoveNumber: nat,
    enPassantTarget: Option<Square>,
    state: BoardState)

  datatype CastleType = QueenSide | KingSide

  datatype MoveError = IllegalMove | NoAvailableMoves

  /**
   * The board operations whose code lies outside this model, as functions of
   * the board they are called on:
   *  - `simulateMove(p, piece, s)`: true when moving `piece` to `s` would leave
   *    its own king in check;
   *  - `filterQuietMoves`, `legalizeQuietMoves`: the two stages that turn
   *    pseudo-legal squares into legal quiet moves.
   */
  datatype Rules = Rules(
    simulateMove: (Position, ChessPiece, Square) -> bool,
    filterQuietMoves: (Position, ChessPiece, seq<Square>) -> seq<Square>,
    legalizeQuietMoves: (Position, ChessPiece, seq<Square>) -> seq<Square>)
}

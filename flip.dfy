/**
 * Turning the board round, `flip_board` of src/chess_utils.rs: every piece
 * moves to the square opposite it through the centre of the board and
 * records its new square, the interaction state goes back to its default
 * and the point of view changes side.
 */
module Flip {
  import opened Wrappers
  import opened Pieces
  import opened Positions
  import opened Engine

  /** The square opposite `s` through the centre of the board. */
  function Mirror(s: Square): (m: Square)
    ensures OnBoard(s) ==> OnBoard(m)
  {
    (7 - s.0, 7 - s.1)
  }

  /** The content of a cell carried to square `s`: the piece, if any, now records `s`. */
  function CarryTo(c: Cell, s: Square): Cell {
    match c
    case None => None
    case Some(piece) => Some(piece.(position := s))
  }

  /** The grid turned round: square `s` holds what stood on its mirror square, carried to `s`. */
  function Flipped(g: Grid): (h: Grid)
    ensures forall s :: OnBoard(s) ==> At(h, s) == CarryTo(At(g, Mirror(s)), s)
  {
    seq(8, i requires 0 <= i < 8 => seq(8, j requires 0 <= j < 8 => CarryTo(g[7 - i][7 - j], (i, j))))
  }

  /** The interaction state after a flip: the default one, seen from the other side. */
  function FlippedState(): BoardState {
    DefaultState().(pov := Opponent(DefaultStarting))
  }

  /** The board's value after `flip_board`. */
  function FlipOutcome(p: Position): Position {
    p.(squares := Flipped(p.squares), state := FlippedState())
  }

  /** Whether the loop of `flip_board` has visited square `s` before reaching row `i`, column `j`. */
  predicate Visited(s: Square, i: int, j: int) {
    s.0 < i || (s.0 == i && s.1 < j)
  }

  /**
   * What the loop of `flip_board` has written by row `i`, column `j`: every
   * visited square's content, carried to its mirror square, and nothing
   * elsewhere.
   */
  ghost predicate FilledUpTo(g: Grid, flipped: Grid, i: int, j: int) {
    forall t :: OnBoard(t) ==>
      At(flipped, t) == if Visited(Mirror(t), i, j) then CarryTo(At(g, Mirror(t)), t) else None
  }

  /**
   * `flip_board`: the grid turned round, the state reset with the point of
   * view flipped, and nothing else changed.
   */
  method FlipBoard(b: Board)
    modifies b
    ensures b.Valid()
    ensures b.Snapshot() == FlipOutcome(old(b.Snapshot()))
    ensures b.state.selectedPiece.None? && b.state.pov != DefaultStarting
  {
    var g := b.squares;
    var flipped := FlipSquares(g);
    var st := DefaultState();
    st := st.(pov := match st.pov
      case Black => White
      case White => Black);
    FlippedConsistent(g);
    b.state, b.squares := st, flipped;
  }

  /** The loops of `flip_board`: each square's content, carried to its mirror square. */
  method FlipSquares(g: Grid) returns (flipped: Grid)
    ensures flipped == Flipped(g)
  {
    flipped := EmptyGrid();
    for i := 0 to 8
      invariant FilledUpTo(g, flipped, i, 0)
    {
      for j := 0 to 8
        invariant FilledUpTo(g, flipped, i, j)
      {
        var col := g[i][j];
        match col {
          case Some(piece) =>
            col := Some(piece.(position := (7 - i, 7 - j)));
          case None =>
        }
        FillStep(g, flipped, i, j, col);
        flipped := Put(flipped, (7 - i, 7 - j), col);
      }
      NextRow(g, flipped, i);
    }
    FlipFills(g, flipped);
  }

  // ------------------------------------------------------------------ lemmas

  /** Writing the carried content of square (i, j) onto its mirror square visits (i, j). */
  lemma FillStep(g: Grid, flipped: Grid, i: int, j: int, col: Cell)
    requires 0 <= i < 8 && 0 <= j < 8
    requires FilledUpTo(g, flipped, i, j)
    requires col == CarryTo(g[i][j], (7 - i, 7 - j))
    ensures FilledUpTo(g, Put(flipped, (7 - i, 7 - j), col), i, j + 1)
  {
    var h := Put(flipped, (7 - i, 7 - j), col);
    forall t | OnBoard(t)
      ensures At(h, t) == if Visited(Mirror(t), i, j + 1) then CarryTo(At(g, Mirror(t)), t) else None
    {
      if t == (7 - i, 7 - j) {
        assert Mirror(t) == (i, j);
      } else {
        assert Mirror(t) != (i, j);
      }
    }
  }

  /** A finished row is the same progress as the start of the next one. */
  lemma NextRow(g: Grid, flipped: Grid, i: int)
    requires FilledUpTo(g, flipped, i, 8)
    ensures FilledUpTo(g, flipped, i + 1, 0)
  {
    forall t | OnBoard(t)
      ensures Visited(Mirror(t), i, 8) == Visited(Mirror(t), i + 1, 0)
    {
    }
  }

  /** A grid that holds every square's carried content is the flipped grid. */
  lemma FlipFills(g: Grid, flipped: Grid)
    requires FilledUpTo(g, flipped, 8, 0)
    ensures flipped == Flipped(g)
  {
    forall r, f | 0 <= r < 8 && 0 <= f < 8
      ensures flipped[r][f] == Flipped(g)[r][f]
    {
      assert At(flipped, (r, f)) == At(Flipped(g), (r, f));
    }
    GridExt(flipped, Flipped(g));
  }

  /** However inconsistent the grid, every piece of the flipped grid knows its square. */
  lemma FlippedConsistent(g: Grid)
    ensures Consistent(Flipped(g))
  {
    var h := Flipped(g);
    forall r, f | 0 <= r < 8 && 0 <= f < 8 && h[r][f].Some?
      ensures h[r][f].value.position == (r, f)
    {
      assert h[r][f] == At(h, (r, f)) == CarryTo(At(g, Mirror((r, f))), (r, f));
    }
  }

  /** Flipping twice gives the grid back exactly when every piece knew its square. */
  lemma FlipTwice(g: Grid)
    ensures Flipped(Flipped(g)) == g <==> Consistent(g)
  {
    var h := Flipped(Flipped(g));
    if Consistent(g) {
      forall r, f | 0 <= r < 8 && 0 <= f < 8
        ensures h[r][f] == g[r][f]
      {
        assert Mirror(Mirror((r, f))) == (r, f);
        assert h[r][f] == CarryTo(At(Flipped(g), Mirror((r, f))), (r, f));
      }
      GridExt(h, g);
    } else {
      FlippedConsistent(Flipped(g));
    }
  }

  /**
   * Flipping a consistent board twice gives its grid back; the state is the
   * one the first flip left.
   */
  lemma FlipOutcomeTwice(p: Position)
    requires Consistent(p.squares)
    ensures FlipOutcome(FlipOutcome(p)) == FlipOutcome(p).(squares := p.squares)
  {
    FlipTwice(p.squares);
  }
}

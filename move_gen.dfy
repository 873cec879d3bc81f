/**
 * Pseudo-legal move generation of src/engine/move_gen.rs: rays along
 * diagonals, ranks and files limited by a depth, the eight knight jumps, the
 * per-kind dispatcher, the attack squares and the castling check.
 *
 * Each generator is a method with the loop of the source, proved equal to a
 * specification function; the lemmas below state what the rays are.
 */
module MoveGen {
  import opened Wrappers
  import opened Pieces
  import opened Positions
  import opened Seqs

  datatype Vertical = Up | Down

  datatype Horizontal = Left | Right

  /** The three ray shapes of the source, one per generator function. */
  datatype Line = Diagonal(v: Vertical, h: Horizontal) | File(fv: Vertical) | Rank(rh: Horizontal)

  /** "Up" is towards rank 0 for White and towards rank 7 for Black. */
  function RankStep(c: PieceColor, v: Vertical): int {
    match v
    case Up => if c == White then -1 else 1
    case Down => if c == White then 1 else -1
  }

  function FileStep(h: Horizontal): int {
    match h
    case Left => -1
    case Right => 1
  }

  /**
   * Whether a ray that meets `occupant` includes its square (the ray stops
   * there either way): an enemy is included; on a rank scan, a king also
   * includes a friendly rook.
   */
  predicate TakesBlocker(mover: ChessPiece, occupant: ChessPiece, rankScan: bool) {
    occupant.color != mover.color || (rankScan && mover.kind == King && occupant.kind == Rook)
  }

  /**
   * The squares a ray visits: from `from`, at most `depth` steps of
   * (dr, dc), stopping at the edge or at the first occupied square.
   */
  function Walk(g: Grid, mover: ChessPiece, from: Square, dr: int, dc: int, depth: nat, rankScan: bool): seq<Square>
    decreases depth
  {
    if depth == 0 then []
    else
      var next := (from.0 + dr, from.1 + dc);
      if !OnBoard(next) then []
      else
        match At(g, next)
        case None => [next] + Walk(g, mover, next, dr, dc, depth - 1, rankScan)
        case Some(q) => if TakesBlocker(mover, q, rankScan) then [next] else []
  }

  /** One step of a ray, spelled out. */
  lemma WalkStep(g: Grid, mover: ChessPiece, from: Square, dr: int, dc: int, depth: nat, rankScan: bool)
    requires depth > 0
    ensures var next := (from.0 + dr, from.1 + dc);
      Walk(g, mover, from, dr, dc, depth, rankScan) ==
        if !OnBoard(next) then []
        else if At(g, next).None? then [next] + Walk(g, mover, next, dr, dc, depth - 1, rankScan)
        else if TakesBlocker(mover, At(g, next).value, rankScan) then [next]
        else []
  {
  }

  function DiagonalMoves(g: Grid, piece: ChessPiece, depth: nat, v: Vertical, h: Horizontal): seq<Square> {
    Walk(g, piece, piece.position, RankStep(piece.color, v), FileStep(h), depth, false)
  }

  function FileMoves(g: Grid, piece: ChessPiece, depth: nat, v: Vertical): seq<Square> {
    Walk(g, piece, piece.position, RankStep(piece.color, v), 0, depth, false)
  }

  function RankMoves(g: Grid, piece: ChessPiece, depth: nat, h: Horizontal): seq<Square> {
    Walk(g, piece, piece.position, 0, FileStep(h), depth, true)
  }

  function LineMoves(g: Grid, piece: ChessPiece, depth: nat, line: Line): seq<Square> {
    match line
    case Diagonal(v, h) => DiagonalMoves(g, piece, depth, v, h)
    case File(v) => FileMoves(g, piece, depth, v)
    case Rank(h) => RankMoves(g, piece, depth, h)
  }

  /** The concatenated rays along `lines`, in order. */
  function Fan(g: Grid, piece: ChessPiece, depth: nat, lines: seq<Line>): seq<Square>
    decreases |lines|
  {
    if lines == [] then []
    else Fan(g, piece, depth, lines[..|lines| - 1]) + LineMoves(g, piece, depth, lines[|lines| - 1])
  }

  const Diagonals: seq<Line> := [Diagonal(Up, Left), Diagonal(Up, Right), Diagonal(Down, Left), Diagonal(Down, Right)]
  const Files: seq<Line> := [File(Down), File(Up)]
  const Ranks: seq<Line> := [Rank(Left), Rank(Right)]
  const PawnCaptureDiagonals: seq<Line> := [Diagonal(Up, Left), Diagonal(Up, Right)]

  const KnightOffsets: seq<(int, int)> := [(2, 1), (2, -1), (1, 2), (-1, 2), (-2, 1), (-2, -1), (1, -2), (-1, -2)]

  /** The on-board squares at the given offsets from `from`, in offset order. */
  function OffsetSquares(from: Square, offsets: seq<(int, int)>): seq<Square>
    decreases |offsets|
  {
    if offsets == [] then []
    else
      var o := offsets[|offsets| - 1];
      var s := (from.0 + o.0, from.1 + o.1);
      OffsetSquares(from, offsets[..|offsets| - 1]) + (if OnBoard(s) then [s] else [])
  }

  function KnightMoves(from: Square): seq<Square> {
    OffsetSquares(from, KnightOffsets)
  }

  /** A pawn that has never moved may advance two squares. */
  function PawnDepth(piece: ChessPiece): nat {
    if piece.timesMoved == 0 then 2 else 1
  }

  /** The pieces whose generation indexes the grid by the piece's own rank, `get_rank_moves` without a bounds check. */
  predicate RankIndexable(piece: ChessPiece) {
    piece.kind in {Rook, Queen, King} ==> 0 <= piece.position.0 < 8
  }

  /** `get_all_moves`: the pseudo-legal squares of each kind. */
  function AllMoves(g: Grid, piece: ChessPiece): seq<Square> {
    match piece.kind
    case Bishop => Fan(g, piece, 8, Diagonals)
    case King => Fan(g, piece, 1, Diagonals) + Fan(g, piece, 1, Files) + Fan(g, piece, 8, Ranks)
    case Knight => KnightMoves(piece.position)
    case Queen => Fan(g, piece, 8, Diagonals) + Fan(g, piece, 8, Files) + Fan(g, piece, 8, Ranks)
    case Rook => Fan(g, piece, 8, Files) + Fan(g, piece, 8, Ranks)
    case Pawn => FileMoves(g, piece, PawnDepth(piece), Up) + Fan(g, piece, 1, PawnCaptureDiagonals)
  }

  method GetDiagonalMoves(g: Grid, piece: ChessPiece, depth: nat, v: Vertical, h: Horizontal) returns (moves: seq<Square>)
    ensures moves == DiagonalMoves(g, piece, depth, v, h)
  {
    var dr, dc := RankStep(piece.color, v), FileStep(h);
    moves := [];
    var r, c := piece.position.0, piece.position.1;
    var i := 0;
    ghost var total := DiagonalMoves(g, piece, depth, v, h);
    while i < depth
      invariant 0 <= i <= depth
      invariant moves + Walk(g, piece, (r, c), dr, dc, depth - i, false) == total
    {
      ghost var rest := Walk(g, piece, (r + dr, c + dc), dr, dc, depth - i - 1, false);
      r, c := r + dr, c + dc;
      if !(0 <= r < 8) || !(0 <= c < 8) {
        break;
      }
      match g[r][c]
      case Some(p) =>
        if p.color == piece.color {
          break;
        }
        moves := moves + [(r, c)];
        break;
      case None =>
        AppendAssoc(moves, [(r, c)], rest);
        moves := moves + [(r, c)];
      i := i + 1;
    }
  }

  method GetRankMoves(g: Grid, piece: ChessPiece, depth: nat, h: Horizontal) returns (moves: seq<Square>)
    requires 0 <= piece.position.0 < 8
    ensures moves == RankMoves(g, piece, depth, h)
  {
    var dir := FileStep(h);
    moves := [];
    var x, y := piece.position.0, piece.position.1;
    var i := 0;
    ghost var total := RankMoves(g, piece, depth, h);
    while i < depth
      invariant 0 <= i <= depth
      invariant moves + Walk(g, piece, (x, y), 0, dir, depth - i, true) == total
    {
      ghost var rest := Walk(g, piece, (x, y + dir), 0, dir, depth - i - 1, true);
      y := y + dir;
      if !(0 <= y < 8) {
        break;
      }
      match g[x][y]
      case Some(p) =>
        if p.color == piece.color {
          if piece.kind == King {
            if p.kind == Rook {
              moves := moves + [(x, y)];
              break;
            } else {
              break;
            }
          } else {
            break;
          }
        } else {
          moves := moves + [(x, y)];
          break;
        }
      case None =>
        AppendAssoc(moves, [(x, y)], rest);
        moves := moves + [(x, y)];
      i := i + 1;
    }
  }

  method GetFileMoves(g: Grid, piece: ChessPiece, depth: nat, v: Vertical) returns (moves: seq<Square>)
    ensures moves == FileMoves(g, piece, depth, v)
  {
    var dir := RankStep(piece.color, v);
    moves := [];
    var x, y := piece.position.0, piece.position.1;
    var i := 0;
    ghost var total := FileMoves(g, piece, depth, v);
    while i < depth
      invariant 0 <= i <= depth
      invariant moves + Walk(g, piece, (x, y), dir, 0, depth - i, false) == total
    {
      ghost var rest := Walk(g, piece, (x + dir, y), dir, 0, depth - i - 1, false);
      x := x + dir;
      if !(0 <= x < 8) || !(0 <= y < 8) {
        break;
      }
      match g[x][y]
      case Some(p) =>
        if p.color == piece.color {
          break;
        }
        moves := moves + [(x, y)];
        break;
      case None =>
        AppendAssoc(moves, [(x, y)], rest);
        moves := moves + [(x, y)];
      i := i + 1;
    }
  }

  method GetKnightMoves(g: Grid, piece: ChessPiece) returns (moves: seq<Square>)
    ensures moves == KnightMoves(piece.position)
  {
    var kr, kf := piece.position.0, piece.position.1;
    moves := [];
    for k := 0 to |KnightOffsets|
      invariant moves == OffsetSquares(piece.position, KnightOffsets[..k])
    {
      var (rankDif, fileDif) := KnightOffsets[k];
      if kr + rankDif < 8 && kr + rankDif >= 0 && kf + fileDif < 8 && kf + fileDif >= 0 {
        moves := moves + [(kr + rankDif, kf + fileDif)];
      }
      assert KnightOffsets[..k + 1][..k] == KnightOffsets[..k];
    }
    assert KnightOffsets[..|KnightOffsets|] == KnightOffsets;
  }

  method GetLineMoves(g: Grid, piece: ChessPiece, depth: nat, line: Line) returns (moves: seq<Square>)
    requires line.Rank? ==> 0 <= piece.position.0 < 8
    ensures moves == LineMoves(g, piece, depth, line)
  {
    match line
    case Diagonal(v, h) => moves := GetDiagonalMoves(g, piece, depth, v, h);
    case File(v) => moves := GetFileMoves(g, piece, depth, v);
    case Rank(h) => moves := GetRankMoves(g, piece, depth, h);
  }

  /** One `for dir in ... { all_moves.extend(...) }` loop of `get_all_moves`. */
  method ExtendWithFan(g: Grid, piece: ChessPiece, depth: nat, lines: seq<Line>, prefix: seq<Square>) returns (moves: seq<Square>)
    requires (exists k :: 0 <= k < |lines| && lines[k].Rank?) ==> 0 <= piece.position.0 < 8
    ensures moves == prefix + Fan(g, piece, depth, lines)
  {
    moves := prefix;
    for k := 0 to |lines|
      invariant moves == prefix + Fan(g, piece, depth, lines[..k])
    {
      var more := GetLineMoves(g, piece, depth, lines[k]);
      assert lines[..k + 1][..k] == lines[..k];
      AppendAssoc(prefix, Fan(g, piece, depth, lines[..k]), more);
      moves := moves + more;
    }
    assert lines[..|lines|] == lines;
  }

  method GetAllMoves(g: Grid, piece: ChessPiece) returns (allMoves: seq<Square>)
    requires RankIndexable(piece)
    ensures allMoves == AllMoves(g, piece)
  {
    allMoves := [];
    match piece.kind
    case Bishop =>
      allMoves := ExtendWithFan(g, piece, 8, Diagonals, allMoves);
    case King =>
      allMoves := ExtendWithFan(g, piece, 1, Diagonals, allMoves);
      assert allMoves == Fan(g, piece, 1, Diagonals);
      allMoves := ExtendWithFan(g, piece, 1, Files, allMoves);
      allMoves := ExtendWithFan(g, piece, 8, Ranks, allMoves);
    case Knight =>
      allMoves := GetKnightMoves(g, piece);
    case Queen =>
      allMoves := ExtendWithFan(g, piece, 8, Diagonals, allMoves);
      assert allMoves == Fan(g, piece, 8, Diagonals);
      allMoves := ExtendWithFan(g, piece, 8, Files, allMoves);
      allMoves := ExtendWithFan(g, piece, 8, Ranks, allMoves);
    case Rook =>
      allMoves := ExtendWithFan(g, piece, 8, Files, allMoves);
      assert allMoves == Fan(g, piece, 8, Files);
      allMoves := ExtendWithFan(g, piece, 8, Ranks, allMoves);
    case Pawn =>
      var dep := if piece.timesMoved == 0 then 2 else 1;
      allMoves := GetFileMoves(g, piece, dep, Up);
      allMoves := ExtendWithFan(g, piece, 1, PawnCaptureDiagonals, allMoves);
  }

  /**
   * The rank step of a pawn's attack: +1 for White and -1 for Black, negated
   * when the pawn's colour is not the point of view. A pawn advances by
   * `RankStep(c, Up)`, -1 for White, so a pawn of the point-of-view colour
   * attacks the rank behind its advance and any other pawn the rank ahead.
   */
  function PawnAttackStep(c: PieceColor, pov: PieceColor): int {
    var direction := if c == White then 1 else -1;
    if c != pov then -direction else direction
  }

  function PawnAttacks(from: Square, direction: int): seq<Square> {
    OffsetSquares(from, [(direction, -1), (direction, 1)])
  }

  /** `get_attack_squares`. */
  function AttackSquares(p: Position, piece: ChessPiece): seq<Square> {
    if piece.kind == Pawn then PawnAttacks(piece.position, PawnAttackStep(piece.color, p.state.pov))
    else AllMoves(p.squares, piece)
  }

  method GetAttackSquares(p: Position, piece: ChessPiece) returns (attacks: seq<Square>)
    requires RankIndexable(piece)
    ensures attacks == AttackSquares(p, piece)
  {
    if piece.kind == Pawn {
      attacks := [];
      var (r, c) := piece.position;
      var direction := if piece.color == White then 1 else -1;
      if piece.color != p.state.pov {
        direction := direction * -1;
      }
      assert direction == PawnAttackStep(piece.color, p.state.pov);
      ghost var offsets := [(direction, -1), (direction, 1)];
      var attackRank := r + direction;
      if 0 <= attackRank < 8 {
        var fileOffsets := [-1, 1];
        for k := 0 to 2
          invariant attacks == OffsetSquares(piece.position, offsets[..k])
        {
          assert offsets[..k + 1][..k] == offsets[..k];
          var attackFile := c + fileOffsets[k];
          if 0 <= attackFile < 8 {
            attacks := attacks + [(attackRank, attackFile)];
          }
        }
        assert offsets[..2] == offsets;
      } else {
        assert offsets[..1] == [offsets[0]];
        assert OffsetSquares(piece.position, offsets[..1]) == [];
      }
    } else {
      attacks := GetAllMoves(p.squares, piece);
    }
  }

  // ---------------------------------------------------------------- castling

  /** The (rook, king) squares `can_castle` inspects; white queen side looks at (7, 7). */
  function CastleSquares(side: CastleType, color: PieceColor): (Square, Square) {
    match (side, color)
    case (KingSide, Black) => ((0, 7), (0, 4))
    case (KingSide, White) => ((7, 7), (7, 4))
    case (QueenSide, Black) => ((0, 0), (0, 4))
    case (QueenSide, White) => ((7, 7), (7, 4))
  }

  function CastleRight(p: Position, side: CastleType, color: PieceColor): bool {
    match (side, color)
    case (KingSide, Black) => p.blackSmallCastle
    case (KingSide, White) => p.whiteSmallCastle
    case (QueenSide, Black) => p.blackBigCastle
    case (QueenSide, White) => p.whiteBigCastle
  }

  /** The king's walk towards the rook: two squares right, or three left. */
  function CastleWay(side: CastleType): (Horizontal, nat) {
    match side
    case KingSide => (Right, 2)
    case QueenSide => (Left, 3)
  }

  /** An unmoved piece on `s`. */
  predicate Unmoved(g: Grid, s: Square)
    requires OnBoard(s)
  {
    At(g, s).Some? && At(g, s).value.timesMoved == 0
  }

  /** The squares the king's rank ray reaches on its way to the rook. */
  function TravelSquares(p: Position, side: CastleType, color: PieceColor): seq<Square> {
    var (_, kingPos) := CastleSquares(side, color);
    if At(p.squares, kingPos).None? then []
    else RankMoves(p.squares, At(p.squares, kingPos).value, CastleWay(side).1, CastleWay(side).0)
  }

  /** Every travel square is on the board, empty, and safe for the king. */
  predicate TravelClear(p: Position, rules: Rules, king: ChessPiece, travel: seq<Square>) {
    forall k :: 0 <= k < |travel| ==>
      OnBoard(travel[k]) && At(p.squares, travel[k]).None? && !rules.simulateMove(p, king, travel[k])
  }

  /** What `can_castle` decides. */
  predicate CastleAllowed(p: Position, rules: Rules, side: CastleType, color: PieceColor) {
    var (rookPos, kingPos) := CastleSquares(side, color);
    && CastleRight(p, side, color)
    && Unmoved(p.squares, kingPos)
    && Unmoved(p.squares, rookPos)
    && TravelClear(p, rules, At(p.squares, kingPos).value, TravelSquares(p, side, color))
  }

  method CanCastle(p: Position, rules: Rules, side: CastleType, color: PieceColor) returns (ok: bool)
    requires Consistent(p.squares)
    ensures ok == CastleAllowed(p, rules, side, color)
  {
    var rookPos, kingPos;
    match side {
      case KingSide =>
        match color {
          case Black =>
            if !p.blackSmallCastle { return false; }
            rookPos, kingPos := (0, 7), (0, 4);
          case White =>
            if !p.whiteSmallCastle { return false; }
            rookPos, kingPos := (7, 7), (7, 4);
        }
      case QueenSide =>
        match color {
          case Black =>
            if !p.blackBigCastle { return false; }
            rookPos, kingPos := (0, 0), (0, 4);
          case White =>
            if !p.whiteBigCastle { return false; }
            rookPos, kingPos := (7, 7), (7, 4);
        }
    }
    var (way, travel) := CastleWay(side);
    var king;
    match p.squares[kingPos.0][kingPos.1] {
      case Some(piece) =>
        if piece.timesMoved == 0 { king := piece; } else { return false; }
      case None => return false;
    }
    match p.squares[rookPos.0][rookPos.1] {
      case Some(piece) =>
        if piece.timesMoved != 0 { return false; }
      case None => return false;
    }
    var travelSquares := GetRankMoves(p.squares, king, travel, way);
    assert travelSquares == TravelSquares(p, side, color);
    WalkOnBoard(p.squares, king, king.position, 0, FileStep(way), travel, true);
    ok := CheckTravel(p, rules, king, travelSquares);
  }

  /** The final loop of `can_castle`: every travel square empty and safe. */
  method CheckTravel(p: Position, rules: Rules, king: ChessPiece, travelSquares: seq<Square>) returns (ok: bool)
    requires forall k :: 0 <= k < |travelSquares| ==> OnBoard(travelSquares[k])
    ensures ok == TravelClear(p, rules, king, travelSquares)
  {
    for k := 0 to |travelSquares|
      invariant TravelClear(p, rules, king, travelSquares[..k])
    {
      var square := travelSquares[k];
      match p.squares[square.0][square.1] {
        case Some(_) =>
          assert At(p.squares, travelSquares[k]).Some?;
          return false;
        case None =>
          if rules.simulateMove(p, king, square) {
            return false;
          }
      }
    }
    assert travelSquares[..|travelSquares|] == travelSquares;
    ok := true;
  }

  // ------------------------------------------------------------------ lemmas

  /** A ray has at most `depth` squares, all on the board. */
  lemma {:induction false} WalkOnBoard(g: Grid, mover: ChessPiece, from: Square, dr: int, dc: int, depth: nat, rankScan: bool)
    ensures var w := Walk(g, mover, from, dr, dc, depth, rankScan);
      |w| <= depth && forall k :: 0 <= k < |w| ==> OnBoard(w[k])
    decreases depth
  {
    if depth > 0 {
      var next := (from.0 + dr, from.1 + dc);
      if OnBoard(next) && At(g, next).None? {
        WalkOnBoard(g, mover, next, dr, dc, depth - 1, rankScan);
      }
    }
  }

  /** The square `n` steps of (dr, dc) away from `from`. */
  function StepsFrom(from: Square, dr: int, dc: int, n: int): Square {
    (from.0 + n * dr, from.1 + n * dc)
  }

  /** The k-th square of a ray is k + 1 steps from its origin: the squares are consecutive. */
  lemma {:induction false} WalkIsRay(g: Grid, mover: ChessPiece, from: Square, dr: int, dc: int, depth: nat, rankScan: bool)
    ensures forall k :: 0 <= k < |Walk(g, mover, from, dr, dc, depth, rankScan)| ==>
      Walk(g, mover, from, dr, dc, depth, rankScan)[k] == StepsFrom(from, dr, dc, k + 1)
    decreases depth
  {
    if depth > 0 {
      var next := (from.0 + dr, from.1 + dc);
      if OnBoard(next) && At(g, next).None? {
        WalkIsRay(g, mover, next, dr, dc, depth - 1, rankScan);
        var w := Walk(g, mover, from, dr, dc, depth, rankScan);
        var w' := Walk(g, mover, next, dr, dc, depth - 1, rankScan);
        assert w == [next] + w';
        forall k | 1 <= k < |w|
          ensures w[k] == StepsFrom(from, dr, dc, k + 1)
        {
          assert w[k] == w'[k - 1] == StepsFrom(next, dr, dc, k);
          assert (k + 1) * dr == k * dr + dr && (k + 1) * dc == k * dc + dc;
        }
      }
    }
  }

  /**
   * A ray passes only over empty squares; the one occupied square it may
   * include is its last, and only if the mover takes that blocker.
   */
  predicate StopsAtFirstPiece(g: Grid, mover: ChessPiece, w: seq<Square>, rankScan: bool) {
    forall k :: 0 <= k < |w| ==>
      OnBoard(w[k]) && (At(g, w[k]).Some? ==> k == |w| - 1 && TakesBlocker(mover, At(g, w[k]).value, rankScan))
  }

  lemma {:induction false} WalkStopsAtFirstPiece(g: Grid, mover: ChessPiece, from: Square, dr: int, dc: int, depth: nat, rankScan: bool)
    ensures StopsAtFirstPiece(g, mover, Walk(g, mover, from, dr, dc, depth, rankScan), rankScan)
    decreases depth
  {
    if depth > 0 {
      var next := (from.0 + dr, from.1 + dc);
      if OnBoard(next) && At(g, next).None? {
        var w := Walk(g, mover, from, dr, dc, depth, rankScan);
        var w' := Walk(g, mover, next, dr, dc, depth - 1, rankScan);
        WalkStopsAtFirstPiece(g, mover, next, dr, dc, depth - 1, rankScan);
        assert w == [next] + w';
        forall k | 0 <= k < |w|
          ensures OnBoard(w[k]) && (At(g, w[k]).Some? ==> k == |w| - 1 && TakesBlocker(mover, At(g, w[k]).value, rankScan))
        {
          if k > 0 {
            assert w[k] == w'[k - 1];
          }
        }
      } else if OnBoard(next) {
        assert Walk(g, mover, from, dr, dc, depth, rankScan) ==
          if TakesBlocker(mover, At(g, next).value, rankScan) then [next] else [];
      }
    }
  }

  /**
   * A ray shorter than `depth` ended for a reason: its last square is
   * occupied, or the next step leaves the board, or meets a piece the mover
   * does not take.
   */
  lemma {:induction false} WalkIsMaximal(g: Grid, mover: ChessPiece, from: Square, dr: int, dc: int, depth: nat, rankScan: bool)
    ensures var w := Walk(g, mover, from, dr, dc, depth, rankScan);
      var n := StepsFrom(from, dr, dc, |w| + 1);
      |w| < depth ==>
        || (|w| > 0 && OnBoard(w[|w| - 1]) && At(g, w[|w| - 1]).Some?)
        || !OnBoard(n)
        || (At(g, n).Some? && !TakesBlocker(mover, At(g, n).value, rankScan))
    decreases depth
  {
    if depth > 0 {
      var next := (from.0 + dr, from.1 + dc);
      if OnBoard(next) && At(g, next).None? {
        WalkIsMaximal(g, mover, next, dr, dc, depth - 1, rankScan);
        var w' := Walk(g, mover, next, dr, dc, depth - 1, rankScan);
        var w := Walk(g, mover, from, dr, dc, depth, rankScan);
        assert w == [next] + w';
        StepsFromNext(from, dr, dc, |w'| + 1);
      }
    }
  }

  /** Stepping once and then `n` times is stepping `n + 1` times. */
  lemma StepsFromNext(from: Square, dr: int, dc: int, n: int)
    ensures StepsFrom((from.0 + dr, from.1 + dc), dr, dc, n) == StepsFrom(from, dr, dc, n + 1)
  {
    assert (n + 1) * dr == n * dr + dr && (n + 1) * dc == n * dc + dc;
  }

  /** Diagonal and file rays never include a friendly piece; an occupied square they include holds an enemy. */
  lemma DiagonalAndFileCaptureOnlyEnemies(g: Grid, piece: ChessPiece, depth: nat, line: Line)
    requires !line.Rank?
    ensures var w := LineMoves(g, piece, depth, line);
      forall k :: 0 <= k < |w| ==>
        OnBoard(w[k]) && (At(g, w[k]).Some? ==> k == |w| - 1 && At(g, w[k]).value.color != piece.color)
  {
    match line
    case Diagonal(v, h) =>
      assert LineMoves(g, piece, depth, line) == Walk(g, piece, piece.position, RankStep(piece.color, v), FileStep(h), depth, false);
      WalkStopsAtFirstPiece(g, piece, piece.position, RankStep(piece.color, v), FileStep(h), depth, false);
    case File(v) =>
      assert LineMoves(g, piece, depth, line) == Walk(g, piece, piece.position, RankStep(piece.color, v), 0, depth, false);
      WalkStopsAtFirstPiece(g, piece, piece.position, RankStep(piece.color, v), 0, depth, false);
  }

  /** A rank ray includes a friendly piece only when a king reaches a rook, and that ends the ray. */
  lemma RankRayFriendlyOnlyRookForKing(g: Grid, piece: ChessPiece, depth: nat, h: Horizontal)
    ensures var w := RankMoves(g, piece, depth, h);
      forall k :: 0 <= k < |w| && OnBoard(w[k]) && At(g, w[k]).Some? && At(g, w[k]).value.color == piece.color ==>
        piece.kind == King && At(g, w[k]).value.kind == Rook && k == |w| - 1
  {
    assert RankMoves(g, piece, depth, h) == Walk(g, piece, piece.position, 0, FileStep(h), depth, true);
    WalkStopsAtFirstPiece(g, piece, piece.position, 0, FileStep(h), depth, true);
  }

  /** A pawn's forward ray goes towards rank 0 when White and towards rank 7 when Black, whatever the point of view. */
  lemma PawnAdvanceIsColourKeyed(g: Grid, piece: ChessPiece, depth: nat)
    ensures var w := FileMoves(g, piece, depth, Up);
      forall k :: 0 <= k < |w| ==>
        w[k].1 == piece.position.1 && (if piece.color == White then w[k].0 < piece.position.0 else w[k].0 > piece.position.0)
  {
    var f := RankStep(piece.color, Up);
    var w := FileMoves(g, piece, depth, Up);
    assert w == Walk(g, piece, piece.position, f, 0, depth, false);
    WalkIsRay(g, piece, piece.position, f, 0, depth, false);
    forall k | 0 <= k < |w|
      ensures w[k].1 == piece.position.1
      ensures if piece.color == White then w[k].0 < piece.position.0 else w[k].0 > piece.position.0
    {
      assert w[k] == StepsFrom(piece.position, f, 0, k + 1);
      assert (k + 1) * 0 == 0;
      assert (k + 1) * f == if piece.color == White then -(k + 1) else k + 1;
    }
  }

  /** The squares reached through a list of offsets are exactly those on the board at one of the offsets. */
  lemma {:induction false} OffsetSquaresExact(from: Square, offsets: seq<(int, int)>)
    ensures |OffsetSquares(from, offsets)| <= |offsets|
    ensures forall s :: s in OffsetSquares(from, offsets) <==> OnBoard(s) && (s.0 - from.0, s.1 - from.1) in offsets
    decreases |offsets|
  {
    if offsets != [] {
      var init := offsets[..|offsets| - 1];
      OffsetSquaresExact(from, init);
      assert offsets == init + [offsets[|offsets| - 1]];
    }
  }

  /** A knight's jump: one rank and two files, or two ranks and one file. */
  predicate IsKnightJump(a: Square, b: Square) {
    (AbsDiff(a.0, b.0) == 1 && AbsDiff(a.1, b.1) == 2) || (AbsDiff(a.0, b.0) == 2 && AbsDiff(a.1, b.1) == 1)
  }

  /** The knight's pseudo-moves are at most eight, and are exactly the on-board knight jumps, whatever stands there. */
  lemma KnightMovesExact(from: Square)
    ensures |KnightMoves(from)| <= 8
    ensures forall s :: s in KnightMoves(from) <==> OnBoard(s) && IsKnightJump(from, s)
  {
    OffsetSquaresExact(from, KnightOffsets);
    forall s
      ensures s in KnightMoves(from) <==> OnBoard(s) && IsKnightJump(from, s)
    {
      KnightOffsetIsJump(from, s);
    }
  }

  /** The eight offsets are the knight's jumps. */
  lemma KnightOffsetIsJump(a: Square, b: Square)
    ensures (b.0 - a.0, b.1 - a.1) in KnightOffsets <==> IsKnightJump(a, b)
  {
  }

  /**
   * A pawn of the point-of-view colour attacks against its own advance; any
   * other pawn attacks the way it advances.
   */
  lemma PawnAttackDirection(c: PieceColor, pov: PieceColor)
    ensures PawnAttackStep(c, pov) == if c == pov then -RankStep(c, Up) else RankStep(c, Up)
  {
  }

  /** A pawn attacks at most two squares, on one adjacent rank at files c - 1 and c + 1, occupied or not. */
  lemma PawnAttacksExact(p: Position, piece: ChessPiece)
    requires piece.kind == Pawn
    ensures var a := AttackSquares(p, piece);
      var d := PawnAttackStep(piece.color, p.state.pov);
      && |a| <= 2
      && (d == 1 || d == -1)
      && forall s :: s in a <==> OnBoard(s) && s.0 == piece.position.0 + d && AbsDiff(s.1, piece.position.1) == 1
  {
    var d := PawnAttackStep(piece.color, p.state.pov);
    OffsetSquaresExact(piece.position, [(d, -1), (d, 1)]);
  }

  /** Every square of a fan of rays is on the board, and each is a step along one of its lines. */
  lemma {:induction false} FanOnBoard(g: Grid, piece: ChessPiece, depth: nat, lines: seq<Line>)
    ensures forall s :: s in Fan(g, piece, depth, lines) ==> OnBoard(s)
    decreases |lines|
  {
    if lines != [] {
      FanOnBoard(g, piece, depth, lines[..|lines| - 1]);
      var line := lines[|lines| - 1];
      match line
      case Diagonal(v, h) => WalkOnBoard(g, piece, piece.position, RankStep(piece.color, v), FileStep(h), depth, false);
      case File(v) => WalkOnBoard(g, piece, piece.position, RankStep(piece.color, v), 0, depth, false);
      case Rank(h) => WalkOnBoard(g, piece, piece.position, 0, FileStep(h), depth, true);
    }
  }

  /** Every generated square lies on the board. */
  lemma AllMovesOnBoard(g: Grid, piece: ChessPiece)
    ensures forall s :: s in AllMoves(g, piece) ==> OnBoard(s)
  {
    match piece.kind
    case Bishop =>
      FanOnBoard(g, piece, 8, Diagonals);
    case King =>
      FanOnBoard(g, piece, 1, Diagonals);
      FanOnBoard(g, piece, 1, Files);
      FanOnBoard(g, piece, 8, Ranks);
    case Knight =>
      KnightMovesExact(piece.position);
    case Queen =>
      FanOnBoard(g, piece, 8, Diagonals);
      FanOnBoard(g, piece, 8, Files);
      FanOnBoard(g, piece, 8, Ranks);
    case Rook =>
      FanOnBoard(g, piece, 8, Files);
      FanOnBoard(g, piece, 8, Ranks);
    case Pawn =>
      FanOnBoard(g, piece, 1, PawnCaptureDiagonals);
      WalkOnBoard(g, piece, piece.position, RankStep(piece.color, Up), 0, PawnDepth(piece), false);
  }

  /**
   * A pawn's candidates: at most four squares, each on a forward rank; the
   * two-square advance only for an unmoved pawn on its own file, and the
   * diagonal steps one file to either side. No candidate is on the pawn's
   * own rank.
   */
  lemma PawnMovesShape(g: Grid, piece: ChessPiece)
    requires piece.kind == Pawn
    ensures var f := RankStep(piece.color, Up);
      var m := AllMoves(g, piece);
      && |m| <= 4
      && forall s :: s in m ==>
        || (s.0 == piece.position.0 + f && AbsDiff(s.1, piece.position.1) <= 1)
        || (s.0 == piece.position.0 + 2 * f && s.1 == piece.position.1 && piece.timesMoved == 0)
  {
    PawnAdvanceShape(g, piece);
    PawnCaptureShape(g, piece);
  }

  /** The forward ray: one square ahead, and a second only for an unmoved pawn, on the pawn's file. */
  lemma PawnAdvanceShape(g: Grid, piece: ChessPiece)
    ensures var f := RankStep(piece.color, Up);
      var fwd := FileMoves(g, piece, PawnDepth(piece), Up);
      && |fwd| <= 2
      && forall s :: s in fwd ==>
        || (s.0 == piece.position.0 + f && s.1 == piece.position.1)
        || (s.0 == piece.position.0 + 2 * f && s.1 == piece.position.1 && piece.timesMoved == 0)
  {
    var f := RankStep(piece.color, Up);
    var fwd := FileMoves(g, piece, PawnDepth(piece), Up);
    WalkIsRay(g, piece, piece.position, f, 0, PawnDepth(piece), false);
    WalkOnBoard(g, piece, piece.position, f, 0, PawnDepth(piece), false);
    forall s | s in fwd
      ensures || (s.0 == piece.position.0 + f && s.1 == piece.position.1)
              || (s.0 == piece.position.0 + 2 * f && s.1 == piece.position.1 && piece.timesMoved == 0)
    {
      var k :| 0 <= k < |fwd| && fwd[k] == s;
      assert s == StepsFrom(piece.position, f, 0, k + 1);
      assert k == 0 || (k == 1 && piece.timesMoved == 0);
    }
  }

  /** The two capture diagonals: at most one square each, one rank ahead and one file aside. */
  lemma PawnCaptureShape(g: Grid, piece: ChessPiece)
    ensures var f := RankStep(piece.color, Up);
      var c := Fan(g, piece, 1, PawnCaptureDiagonals);
      && |c| <= 2
      && forall s :: s in c ==> s.0 == piece.position.0 + f && AbsDiff(s.1, piece.position.1) == 1
  {
    var f := RankStep(piece.color, Up);
    var left := DiagonalMoves(g, piece, 1, Up, Left);
    var right := DiagonalMoves(g, piece, 1, Up, Right);
    WalkIsRay(g, piece, piece.position, f, -1, 1, false);
    WalkOnBoard(g, piece, piece.position, f, -1, 1, false);
    WalkIsRay(g, piece, piece.position, f, 1, 1, false);
    WalkOnBoard(g, piece, piece.position, f, 1, 1, false);
    assert PawnCaptureDiagonals[..1] == [Diagonal(Up, Left)];
    assert Fan(g, piece, 1, PawnCaptureDiagonals) == left + right;
  }


  /** Every square of a depth-1 fan of diagonal and file rays is a neighbour of the origin. */
  lemma {:induction false} ShortFanIsNear(g: Grid, piece: ChessPiece, lines: seq<Line>)
    requires forall k :: 0 <= k < |lines| ==> !lines[k].Rank?
    ensures forall s :: s in Fan(g, piece, 1, lines) ==>
      AbsDiff(s.0, piece.position.0) <= 1 && AbsDiff(s.1, piece.position.1) <= 1
    decreases |lines|
  {
    if lines != [] {
      ShortFanIsNear(g, piece, lines[..|lines| - 1]);
      match lines[|lines| - 1]
      case Diagonal(v, h) =>
        WalkStep(g, piece, piece.position, RankStep(piece.color, v), FileStep(h), 1, false);
      case File(v) =>
        WalkStep(g, piece, piece.position, RankStep(piece.color, v), 0, 1, false);
    }
  }

  /** Every square of a fan of rank rays lies on the origin's rank. */
  lemma {:induction false} RankFanStaysOnRank(g: Grid, piece: ChessPiece, depth: nat, lines: seq<Line>)
    requires forall k :: 0 <= k < |lines| ==> lines[k].Rank?
    ensures forall s :: s in Fan(g, piece, depth, lines) ==> s.0 == piece.position.0
    decreases |lines|
  {
    if lines != [] {
      RankFanStaysOnRank(g, piece, depth, lines[..|lines| - 1]);
      var h := lines[|lines| - 1].rh;
      var w := RankMoves(g, piece, depth, h);
      assert w == Walk(g, piece, piece.position, 0, FileStep(h), depth, true);
      WalkIsRay(g, piece, piece.position, 0, FileStep(h), depth, true);
      forall k | 0 <= k < |w|
        ensures w[k].0 == piece.position.0
      {
        assert w[k] == StepsFrom(piece.position, 0, FileStep(h), k + 1);
        assert (k + 1) * 0 == 0;
      }
    }
  }

  /** A king steps one square in any direction; only its rank scans reach further, along its own rank. */
  lemma KingMovesShape(g: Grid, piece: ChessPiece)
    requires piece.kind == King
    ensures forall s :: s in AllMoves(g, piece) ==>
      (AbsDiff(s.0, piece.position.0) <= 1 && AbsDiff(s.1, piece.position.1) <= 1) || s.0 == piece.position.0
  {
    ShortFanIsNear(g, piece, Diagonals);
    ShortFanIsNear(g, piece, Files);
    RankFanStaysOnRank(g, piece, 8, Ranks);
  }

  /** Each reason `can_castle` refuses; when none holds it allows the castle. */
  lemma CastleAllowedExactly(p: Position, rules: Rules, side: CastleType, color: PieceColor)
    ensures var (rookPos, kingPos) := CastleSquares(side, color);
      CastleAllowed(p, rules, side, color) <==>
        && CastleRight(p, side, color)
        && At(p.squares, kingPos).Some? && At(p.squares, kingPos).value.timesMoved == 0
        && At(p.squares, rookPos).Some? && At(p.squares, rookPos).value.timesMoved == 0
        && forall s :: s in TravelSquares(p, side, color) ==>
             At(p.squares, s).None? && !rules.simulateMove(p, At(p.squares, kingPos).value, s)
  {
    var (rookPos, kingPos) := CastleSquares(side, color);
    if At(p.squares, kingPos).Some? {
      var king := At(p.squares, kingPos).value;
      WalkOnBoard(p.squares, king, king.position, 0, FileStep(CastleWay(side).0), CastleWay(side).1, true);
    }
  }

  /**
   * As written, a friendly piece other than a rook on the king's path ends
   * the king's rank ray without being included, so it does not block the
   * castle: in the initial position both king-side castles are allowed,
   * whatever `simulate_move` says.
   */
  lemma CastleIgnoresFriendlyBlocker(p: Position, rules: Rules)
    requires p.squares == InitialGrid()
    requires p.whiteSmallCastle && p.blackSmallCastle
    ensures CastleAllowed(p, rules, KingSide, White)
    ensures CastleAllowed(p, rules, KingSide, Black)
  {
    assert p.squares[7][5] == Some(ChessPiece(Bishop, White, (7, 5), 0));
    assert TravelSquares(p, KingSide, White) == [];
    assert p.squares[0][5] == Some(ChessPiece(Bishop, Black, (0, 5), 0));
    assert TravelSquares(p, KingSide, Black) == [];
  }

  /** The white queen-side check inspects the king-side rook square (7, 7), not (7, 0). */
  lemma WhiteQueenSideLooksAtKingRook(p: Position, rules: Rules)
    requires At(p.squares, (7, 7)).None?
    ensures !CastleAllowed(p, rules, QueenSide, White)
  {
  }

  /** The standard initial arrangement, every piece unmoved on its own square. */
  function InitialGrid(): Grid {
    [BackRow(0, Black), PawnRow(1, Black), EmptyRow(), EmptyRow(), EmptyRow(), EmptyRow(), PawnRow(6, White), BackRow(7, White)]
  }

  function BackRow(r: int, c: PieceColor): Row {
    [Some(ChessPiece(Rook, c, (r, 0), 0)), Some(ChessPiece(Knight, c, (r, 1), 0)), Some(ChessPiece(Bishop, c, (r, 2), 0)),
     Some(ChessPiece(Queen, c, (r, 3), 0)), Some(ChessPiece(King, c, (r, 4), 0)), Some(ChessPiece(Bishop, c, (r, 5), 0)),
     Some(ChessPiece(Knight, c, (r, 6), 0)), Some(ChessPiece(Rook, c, (r, 7), 0))]
  }

  function PawnRow(r: int, c: PieceColor): Row {
    [Some(ChessPiece(Pawn, c, (r, 0), 0)), Some(ChessPiece(Pawn, c, (r, 1), 0)), Some(ChessPiece(Pawn, c, (r, 2), 0)),
     Some(ChessPiece(Pawn, c, (r, 3), 0)), Some(ChessPiece(Pawn, c, (r, 4), 0)), Some(ChessPiece(Pawn, c, (r, 5), 0)),
     Some(ChessPiece(Pawn, c, (r, 6), 0)), Some(ChessPiece(Pawn, c, (r, 7), 0))]
  }
}

/**
 * The FEN codec of src/chess_utils.rs. `fen_parser` reads the board, the
 * side to move, the castling rights and the two clocks of a FEN record;
 * `to_string` writes a board back (without an en-passant field); `From`
 * and `Default` fall back to a fixed board when parsing fails.
 */
module Fen {
  import opened Wrappers
  import opened Pieces
  import opened Positions
  import opened Seqs
  import opened Text

  datatype FenError = InvalidChar(c: char)

  /** The piece letters of the board field: upper case white, lower case black. */
  function PieceForChar(c: char): Option<(PieceType, PieceColor)> {
    match c
    case 'r' => Some((Rook, Black))
    case 'n' => Some((Knight, Black))
    case 'b' => Some((Bishop, Black))
    case 'k' => Some((King, Black))
    case 'q' => Some((Queen, Black))
    case 'p' => Some((Pawn, Black))
    case 'R' => Some((Rook, White))
    case 'N' => Some((Knight, White))
    case 'B' => Some((Bishop, White))
    case 'K' => Some((King, White))
    case 'Q' => Some((Queen, White))
    case 'P' => Some((Pawn, White))
    case _ => None
  }

  /** The letter `to_string` writes for a piece. */
  function PieceLetter(kind: PieceType, color: PieceColor): char {
    match (kind, color)
    case (King, White) => 'K'
    case (Queen, White) => 'Q'
    case (Rook, White) => 'R'
    case (Knight, White) => 'N'
    case (Bishop, White) => 'B'
    case (Pawn, White) => 'P'
    case (King, Black) => 'k'
    case (Queen, Black) => 'q'
    case (Rook, Black) => 'r'
    case (Knight, Black) => 'n'
    case (Bishop, Black) => 'b'
    case (Pawn, Black) => 'p'
  }

  /** A character of the board field that is neither a digit nor a piece letter. */
  predicate Invalid(c: char) {
    !IsDigit(c) && PieceForChar(c).None?
  }

  predicate ValidRank(rank: string) {
    forall k :: 0 <= k < |rank| ==> !Invalid(rank[k])
  }

  predicate ValidRanks(ranks: seq<string>) {
    forall r :: 0 <= r < |ranks| ==> ValidRank(ranks[r])
  }

  /** `rank[k]` is the first invalid character of `rank`. */
  predicate FirstInvalidAt(rank: string, k: int) {
    0 <= k < |rank| && Invalid(rank[k]) && forall m :: 0 <= m < k ==> !Invalid(rank[m])
  }

  /** The number of squares a rank describes: a digit skips that many, a letter fills one. */
  function Width(rank: string): nat
    decreases |rank|
  {
    if rank == [] then 0
    else (if IsDigit(rank[0]) then DigitValue(rank[0]) else 1) + Width(rank[1..])
  }

  // ----------------------------------------------------------------- parsing

  /** `ps` in front of the pieces of a successful scan; an error passes through. */
  function Prepend(ps: seq<ChessPiece>, r: Result<seq<ChessPiece>, FenError>): Result<seq<ChessPiece>, FenError> {
    match r
    case Ok(rest) => Ok(ps + rest)
    case Err(e) => Err(e)
  }

  lemma PrependNil(r: Result<seq<ChessPiece>, FenError>)
    ensures Prepend([], r) == r
  {
    if r.Ok? {
      assert [] + r.value == r.value;
    }
  }

  lemma PrependAssoc(a: seq<ChessPiece>, b: seq<ChessPiece>, r: Result<seq<ChessPiece>, FenError>)
    ensures Prepend(a, Prepend(b, r)) == Prepend(a + b, r)
  {
    if r.Ok? {
      assert a + (b + r.value) == (a + b) + r.value;
    }
  }

  /**
   * The inner loop of `fen_parser` over one rank, at row `i` from column
   * `j`: a digit advances the column, a letter adds a never-moved piece and
   * advances one, any other character stops the parse.
   */
  function ScanRank(rank: string, i: int, j: int): Result<seq<ChessPiece>, FenError>
    decreases |rank|
  {
    if rank == [] then Ok([])
    else if IsDigit(rank[0]) then ScanRank(rank[1..], i, j + DigitValue(rank[0]))
    else
      match PieceForChar(rank[0])
      case Some((kind, color)) => Prepend([ChessPiece(kind, color, (i, j), 0)], ScanRank(rank[1..], i, j + 1))
      case None => Err(InvalidChar(rank[0]))
  }

  /** The outer loop of `fen_parser`: the ranks in order, from row `i`. */
  function ScanRanks(ranks: seq<string>, i: int): Result<seq<ChessPiece>, FenError>
    decreases |ranks|
  {
    if ranks == [] then Ok([])
    else
      match ScanRank(ranks[0], i, 0)
      case Err(e) => Err(e)
      case Ok(ps) => Prepend(ps, ScanRanks(ranks[1..], i + 1))
  }

  predicate PiecesOnBoard(ps: seq<ChessPiece>) {
    forall k :: 0 <= k < |ps| ==> OnBoard(ps[k].position)
  }

  /** The grid with each piece written to its own square, later pieces over earlier ones. */
  function Fill(g: Grid, pieces: seq<ChessPiece>): Grid
    requires PiecesOnBoard(pieces)
    decreases |pieces|
  {
    if pieces == [] then g
    else
      var last := pieces[|pieces| - 1];
      Put(Fill(g, pieces[..|pieces| - 1]), last.position, Some(last))
  }

  /** The cell at `s` after writing `pieces` in order over `c`: the last piece recorded at `s`, if any. */
  function CellAfter(c: Cell, pieces: seq<ChessPiece>, s: Square): Cell
    decreases |pieces|
  {
    if pieces == [] then c
    else if pieces[|pieces| - 1].position == s then Some(pieces[|pieces| - 1])
    else CellAfter(c, pieces[..|pieces| - 1], s)
  }

  /** Filling the grid acts on each square as `CellAfter` says. */
  lemma {:induction false} FillAt(g: Grid, pieces: seq<ChessPiece>, s: Square)
    requires PiecesOnBoard(pieces) && OnBoard(s)
    ensures At(Fill(g, pieces), s) == CellAfter(At(g, s), pieces, s)
    decreases |pieces|
  {
    if pieces != [] {
      FillAt(g, pieces[..|pieces| - 1], s);
    }
  }

  /** A square keeps its old cell or holds one of the pieces, recorded at that square. */
  lemma {:induction false} CellAfterIsAPiece(c: Cell, pieces: seq<ChessPiece>, s: Square)
    ensures CellAfter(c, pieces, s) == c
            || (CellAfter(c, pieces, s).Some? && CellAfter(c, pieces, s).value in pieces && CellAfter(c, pieces, s).value.position == s)
    decreases |pieces|
  {
    if pieces != [] {
      var init := pieces[..|pieces| - 1];
      CellAfterIsAPiece(c, init, s);
      if CellAfter(c, init, s) != c && pieces[|pieces| - 1].position != s {
        var k :| 0 <= k < |init| && init[k] == CellAfter(c, init, s).value;
        assert pieces[k] == init[k];
      }
    }
  }

  lemma {:induction false} CellAfterAppend(c: Cell, a: seq<ChessPiece>, b: seq<ChessPiece>, s: Square)
    ensures CellAfter(c, a + b, s) == CellAfter(CellAfter(c, a, s), b, s)
    decreases |b|
  {
    if b == [] {
      assert a + b == a;
    } else {
      var ab := a + b;
      assert ab[..|ab| - 1] == a + b[..|b| - 1];
      CellAfterAppend(c, a, b[..|b| - 1], s);
    }
  }

  /** The board-field pieces of a FEN record. */
  function BoardPieces(fen: string): Result<seq<ChessPiece>, FenError>
    requires |Words(fen)| >= 1
  {
    ScanRanks(Split(Words(fen)[0], '/'), 0)
  }

  /**
   * What `fen_parser` needs in order not to panic: six fields at least,
   * clocks that parse as u32, and, when the board field scans, every piece
   * inside the 8x8 array.
   */
  predicate FenWellFormed(fen: string) {
    var parts := Words(fen);
    && |parts| >= 6
    && IsU32Literal(parts[4]) && IsU32Literal(parts[5])
    && (BoardPieces(fen).Ok? ==> PiecesOnBoard(BoardPieces(fen).value))
  }

  /** `fen_parser`: the en-passant field is read past, and the selection state is the default. */
  function ParseFen(fen: string): Result<Position, FenError>
    requires FenWellFormed(fen)
  {
    var parts := Words(fen);
    match BoardPieces(fen)
    case Err(e) => Err(e)
    case Ok(pieces) =>
      var castling := parts[2];
      Ok(Position(Fill(EmptyGrid(), pieces), if parts[1] == "w" then White else Black,
                  'Q' in castling, 'q' in castling, 'K' in castling, 'k' in castling,
                  ParseU32(parts[4]), ParseU32(parts[5]), None, DefaultState()))
  }

  method FenParser(fen: string) returns (r: Result<Position, FenError>)
    requires FenWellFormed(fen)
    ensures r == ParseFen(fen)
  {
    var parts := Words(fen);
    var boardRepresentation := parts[0];
    var toMove := parts[1];
    var castlingRights := parts[2];
    var halfmoveClock := ParseU32(parts[4]);
    var fullmoveNumber := ParseU32(parts[5]);
    var fenFiles := Split(boardRepresentation, '/');
    var pieces: seq<ChessPiece> := [];
    var i := 0;
    assert fenFiles[0..] == fenFiles;
    PrependNil(ScanRanks(fenFiles, 0));
    while i < |fenFiles|
      invariant 0 <= i <= |fenFiles|
      invariant ScanRanks(fenFiles, 0) == Prepend(pieces, ScanRanks(fenFiles[i..], i))
    {
      var file := fenFiles[i];
      assert fenFiles[i..][0] == file && fenFiles[i..][1..] == fenFiles[i + 1..];
      var scanned := ScanFile(file, i);
      match scanned {
        case Err(e) =>
          assert ScanRanks(fenFiles[i..], i) == Err(e);
          assert BoardPieces(fen) == Err(e);
          return Err(e);
        case Ok(added) =>
          PrependAssoc(pieces, added, ScanRanks(fenFiles[i + 1..], i + 1));
          pieces := pieces + added;
      }
      i := i + 1;
    }
    assert fenFiles[|fenFiles|..] == [];
    assert pieces + [] == pieces;
    assert BoardPieces(fen) == Ok(pieces);
    var board := PlacePieces(pieces);
    r := Ok(Position(board, if toMove == "w" then White else Black,
                     'Q' in castlingRights, 'q' in castlingRights, 'K' in castlingRights, 'k' in castlingRights,
                     halfmoveClock, fullmoveNumber, None, DefaultState()));
  }

  /** The inner loop of `fen_parser`: the pieces of one rank, or the invalid character that stops it. */
  method ScanFile(file: string, i: int) returns (r: Result<seq<ChessPiece>, FenError>)
    ensures r == ScanRank(file, i, 0)
  {
    var added: seq<ChessPiece> := [];
    var j := 0;
    var k := 0;
    assert file[0..] == file;
    PrependNil(ScanRank(file, i, 0));
    while k < |file|
      invariant 0 <= k <= |file|
      invariant ScanRank(file, i, 0) == Prepend(added, ScanRank(file[k..], i, j))
    {
      var elem := file[k];
      assert file[k..][0] == elem && file[k..][1..] == file[k + 1..];
      if IsDigit(elem) {
        j := j + DigitValue(elem);
      } else {
        match PieceForChar(elem) {
          case Some((kind, color)) =>
            var piece := ChessPiece(kind, color, (i, j), 0);
            PrependAssoc(added, [piece], ScanRank(file[k + 1..], i, j + 1));
            added := added + [piece];
            j := j + 1;
          case None =>
            return Err(InvalidChar(elem));
        }
      }
      k := k + 1;
    }
    assert file[|file|..] == [];
    assert added + [] == added;
    r := Ok(added);
  }

  /** The placement loop of `fen_parser`: each piece written to its own square of an empty grid. */
  method PlacePieces(pieces: seq<ChessPiece>) returns (board: Grid)
    requires PiecesOnBoard(pieces)
    ensures board == Fill(EmptyGrid(), pieces)
  {
    board := EmptyGrid();
    for n := 0 to |pieces|
      invariant board == Fill(EmptyGrid(), pieces[..n])
    {
      var piece := pieces[n];
      assert pieces[..n + 1][..n] == pieces[..n];
      board := Put(board, piece.position, Some(piece));
    }
    assert pieces[..|pieces|] == pieces;
  }

  // ----------------------------------------------------------- serialising

  /** The decimal count of a run of empty squares, nothing for an empty run. */
  function EmptyRun(e: nat): string {
    if e != 0 then NatToString(e) else ""
  }

  /**
   * The inner loop of `to_string` over the cells of a row, after `empties`
   * empty squares: runs of empty squares become their count, pieces their
   * letter.
   */
  function EncodeCells(cells: seq<Cell>, empties: nat): string
    decreases |cells|
  {
    if cells == [] then EmptyRun(empties)
    else
      match cells[0]
      case None => EncodeCells(cells[1..], empties + 1)
      case Some(p) => EmptyRun(empties) + [PieceLetter(p.kind, p.color)] + EncodeCells(cells[1..], 0)
  }

  function RankString(row: Row): string {
    EncodeCells(row, 0)
  }

  function RankStrings(g: Grid): (ranks: seq<string>)
    ensures |ranks| == 8
  {
    seq(8, r requires 0 <= r < 8 => RankString(g[r]))
  }

  /** The board field: the ranks from row 0 (rank 8) down, separated by '/'. */
  function BoardField(g: Grid): string {
    Join(RankStrings(g), "/")
  }

  function SideField(c: PieceColor): string {
    if c == White then "w" else "b"
  }

  /** The castling field: K, Q, k, q for the rights still held, "-" for none. */
  function CastlingField(p: Position): string {
    var rights := (if p.whiteSmallCastle then "K" else "") + (if p.whiteBigCastle then "Q" else "")
                  + (if p.blackSmallCastle then "k" else "") + (if p.blackBigCastle then "q" else "");
    if rights == "" then "-" else rights
  }

  /** The fields `to_string` writes: no en-passant field. */
  function FenFields(p: Position): seq<string> {
    [BoardField(p.squares), SideField(p.turn), CastlingField(p), NatToString(p.halfmoveClock), NatToString(p.fullmoveNumber)]
  }

  function FenString(p: Position): string {
    Join(FenFields(p), " ")
  }

  /** The board field as the loop builds it: each of the first `n` ranks followed by '/'. */
  function RanksWithSlashes(g: Grid, n: nat): string
    requires n <= 8
  {
    if n == 0 then "" else RanksWithSlashes(g, n - 1) + RankString(g[n - 1]) + "/"
  }

  /** `to_string` for the board of src/chess_utils.rs. */
  method ToFenString(p: Position) returns (s: string)
    ensures s == FenString(p)
  {
    var boardString := "";
    var toMove := if p.turn == White then "w" else "b";
    var castleingRights := (if p.whiteSmallCastle then "K" else "") + (if p.whiteBigCastle then "Q" else "")
                           + (if p.blackSmallCastle then "k" else "") + (if p.blackBigCastle then "q" else "");
    if castleingRights == "" {
      castleingRights := "-";
    }
    for i := 0 to 8
      invariant boardString == RanksWithSlashes(p.squares, i)
    {
      var row := p.squares[i];
      ghost var start := boardString;
      var emptySquares := 0;
      for j := 0 to 8
        invariant start + RankString(row) == boardString + EncodeCells(row[j..], emptySquares)
      {
        assert row[j..][1..] == row[j + 1..];
        match row[j] {
          case Some(piece) =>
            ghost var run, letter := EmptyRun(emptySquares), [PieceLetter(piece.kind, piece.color)];
            ghost var tail := EncodeCells(row[j + 1..], 0);
            assert EncodeCells(row[j..], emptySquares) == run + letter + tail;
            AppendAssoc(run, letter, tail);
            AppendAssoc(boardString, run, letter + tail);
            AppendAssoc(boardString + run, letter, tail);
            if emptySquares != 0 {
              boardString := boardString + NatToString(emptySquares);
            }
            boardString := boardString + [PieceLetter(piece.kind, piece.color)];
            emptySquares := 0;
          case None =>
            emptySquares := emptySquares + 1;
        }
      }
      if emptySquares != 0 {
        boardString := boardString + NatToString(emptySquares);
      }
      boardString := boardString + "/";
    }
    BoardFieldTrimmed(p.squares);
    boardString := TrimEnd(boardString, '/');
    FenStringSpelled(p);
    s := boardString + " " + toMove + " " + castleingRights + " " + NatToString(p.halfmoveClock) + " " + NatToString(p.fullmoveNumber);
  }

  /** The record the loop builds is the fields joined by spaces. */
  lemma FenStringSpelled(p: Position)
    ensures FenString(p) == BoardField(p.squares) + " " + SideField(p.turn) + " " + CastlingField(p) + " "
                            + NatToString(p.halfmoveClock) + " " + NatToString(p.fullmoveNumber)
  {
    var f := FenFields(p);
    JoinSnoc([f[0]], f[1], " ");
    assert [f[0]] + [f[1]] == [f[0], f[1]];
    JoinSnoc([f[0], f[1]], f[2], " ");
    assert [f[0], f[1]] + [f[2]] == [f[0], f[1], f[2]];
    JoinSnoc([f[0], f[1], f[2]], f[3], " ");
    assert [f[0], f[1], f[2]] + [f[3]] == [f[0], f[1], f[2], f[3]];
    JoinSnoc([f[0], f[1], f[2], f[3]], f[4], " ");
    assert [f[0], f[1], f[2], f[3]] + [f[4]] == f;
  }

  /** Appending '/' after every rank and trimming the trailing '/' gives the board field. */
  lemma BoardFieldTrimmed(g: Grid)
    ensures TrimEnd(RanksWithSlashes(g, 8), '/') == BoardField(g)
  {
    var ranks := RankStrings(g);
    RanksWithSlashesJoin(g, 8);
    assert ranks[..8] == ranks;
    RankShape(g[7]);
    var field := Join(ranks, "/");
    assert ranks == ranks[..7] + [ranks[7]];
    JoinSnoc(ranks[..7], ranks[7], "/");
    assert field[|field| - 1] == ranks[7][|ranks[7]| - 1];
    TrimOneSeparator(field + "/", '/');
    assert (field + "/")[..|field + "/"| - 1] == field;
  }

  lemma {:induction false} RanksWithSlashesJoin(g: Grid, n: nat)
    requires 1 <= n <= 8
    ensures RanksWithSlashes(g, n) == Join(RankStrings(g)[..n], "/") + "/"
    decreases n
  {
    var ranks := RankStrings(g);
    if n == 1 {
      assert ranks[..1] == [RankString(g[0])];
    } else {
      RanksWithSlashesJoin(g, n - 1);
      assert ranks[..n] == ranks[..n - 1] + [ranks[n - 1]];
      JoinSnoc(ranks[..n - 1], ranks[n - 1], "/");
    }
  }

  // -------------------------------------------------------- shape of a rank

  predicate RankChar(c: char) {
    IsDigit(c) || PieceForChar(c).Some?
  }

  predicate NoAdjacentDigits(s: string) {
    forall k :: 0 <= k < |s| - 1 ==> !(IsDigit(s[k]) && IsDigit(s[k + 1]))
  }

  /** A rank string of width `width`: digits and piece letters only, never two digits in a row. */
  predicate RankShaped(s: string, width: nat) {
    && Width(s) == width
    && (forall k :: 0 <= k < |s| ==> RankChar(s[k]))
    && NoAdjacentDigits(s)
    && (width > 0 ==> |s| > 0)
  }

  lemma {:induction false} WidthAppend(a: string, b: string)
    ensures Width(a + b) == Width(a) + Width(b)
    decreases |a|
  {
    if a == [] {
      assert a + b == b;
    } else {
      assert (a + b)[1..] == a[1..] + b;
      WidthAppend(a[1..], b);
    }
  }

  lemma LettersAreInverse(c: char, kind: PieceType, color: PieceColor)
    ensures PieceForChar(c) == Some((kind, color)) <==> c == PieceLetter(kind, color)
  {
  }

  /** The encoding of a row segment after `e` empty squares is a well-shaped rank of the covered width. */
  lemma {:induction false} EncodeCellsShape(cells: seq<Cell>, e: nat)
    requires |cells| + e <= 8
    ensures RankShaped(EncodeCells(cells, e), |cells| + e)
    decreases |cells|
  {
    if cells == [] {
      if e != 0 {
        SmallNatToString(e);
      }
    } else {
      match cells[0]
      case None =>
        EncodeCellsShape(cells[1..], e + 1);
      case Some(p) =>
        EncodeCellsShape(cells[1..], 0);
        if e != 0 {
          SmallNatToString(e);
        }
        PieceJoinsRuns(EmptyRun(e), e, PieceLetter(p.kind, p.color), EncodeCells(cells[1..], 0), |cells| - 1);
    }
  }

  /** A (possibly empty) run, a piece letter and a well-shaped rest make a well-shaped rank. */
  lemma PieceJoinsRuns(run: string, e: nat, letter: char, rest: string, w: nat)
    requires RankShaped(run, e) && |run| <= 1
    requires PieceForChar(letter).Some?
    requires RankShaped(rest, w)
    ensures RankShaped(run + [letter] + rest, e + 1 + w)
  {
    var s := run + [letter] + rest;
    WidthAppend(run, [letter]);
    WidthAppend(run + [letter], rest);
    assert RankShaped([letter], 1);
    forall k | 0 <= k < |s|
      ensures RankChar(s[k])
    {
      if k >= |run| + 1 {
        assert s[k] == rest[k - |run| - 1];
      }
    }
    forall k | 0 <= k < |s| - 1
      ensures !(IsDigit(s[k]) && IsDigit(s[k + 1]))
    {
      if k >= |run| + 1 {
        assert s[k] == rest[k - |run| - 1] && s[k + 1] == rest[k - |run|];
      } else if k == |run| {
        assert s[k] == letter;
      } else {
        assert s[k + 1] == letter;
      }
    }
  }

  /** Every rank string covers 8 squares with digits and letters, no two digits in a row. */
  lemma RankShape(row: Row)
    ensures RankShaped(RankString(row), 8)
    ensures |RankString(row)| > 0 && '/' !in RankString(row) && NoWhitespace(RankString(row))
    ensures ValidRank(RankString(row))
  {
    EncodeCellsShape(row, 0);
  }

  // ---------------------------------------------------------------- lemmas

  /**
   * Scanning a rank fails exactly when it holds an invalid character, and
   * then it reports the first one.
   */
  lemma {:induction false} ScanRankErrors(rank: string, i: int, j: int)
    ensures ScanRank(rank, i, j).Ok? <==> ValidRank(rank)
    ensures ScanRank(rank, i, j).Err? ==>
      exists k :: FirstInvalidAt(rank, k) && ScanRank(rank, i, j).error == InvalidChar(rank[k])
    decreases |rank|
  {
    if rank != [] {
      var rest := rank[1..];
      var next := if IsDigit(rank[0]) then j + DigitValue(rank[0]) else j + 1;
      ScanRankErrors(rest, i, next);
      if Invalid(rank[0]) {
        assert FirstInvalidAt(rank, 0);
      } else {
        assert ScanRank(rank, i, j).Ok? == ScanRank(rest, i, next).Ok?;
        assert ValidRank(rank) <==> ValidRank(rest) by {
          if ValidRank(rest) {
            forall k | 1 <= k < |rank|
              ensures !Invalid(rank[k])
            {
              assert rank[k] == rest[k - 1];
            }
          }
        }
        if ScanRank(rank, i, j).Err? {
          assert ScanRank(rank, i, j).error == ScanRank(rest, i, next).error;
          var k :| FirstInvalidAt(rest, k) && ScanRank(rest, i, next).error == InvalidChar(rest[k]);
          assert FirstInvalidAt(rank, k + 1) by {
            forall m | 1 <= m < k + 1
              ensures !Invalid(rank[m])
            {
              assert rank[m] == rest[m - 1];
            }
          }
        }
      }
    }
  }

  /**
   * Scanning the ranks fails exactly when one of them holds an invalid
   * character, and then it reports the first invalid character of the
   * first such rank.
   */
  lemma {:induction false} ScanRanksErrors(ranks: seq<string>, i: int)
    ensures ScanRanks(ranks, i).Ok? <==> ValidRanks(ranks)
    ensures ScanRanks(ranks, i).Err? ==>
      exists r, k :: 0 <= r < |ranks| && ValidRanks(ranks[..r]) && FirstInvalidAt(ranks[r], k)
                     && ScanRanks(ranks, i).error == InvalidChar(ranks[r][k])
    decreases |ranks|
  {
    if ranks != [] {
      ScanRankErrors(ranks[0], i, 0);
      ScanRanksErrors(ranks[1..], i + 1);
      assert ValidRanks(ranks) <==> ValidRank(ranks[0]) && ValidRanks(ranks[1..]) by {
        if ValidRank(ranks[0]) && ValidRanks(ranks[1..]) {
          forall r | 1 <= r < |ranks|
            ensures ValidRank(ranks[r])
          {
            assert ranks[r] == ranks[1..][r - 1];
          }
        }
      }
      if ScanRanks(ranks, i).Err? {
        if ScanRank(ranks[0], i, 0).Err? {
          var k :| FirstInvalidAt(ranks[0], k) && ScanRank(ranks[0], i, 0).error == InvalidChar(ranks[0][k]);
          assert ValidRanks(ranks[..0]);
        } else {
          var tail := ranks[1..];
          var r, k :| 0 <= r < |tail| && ValidRanks(tail[..r]) && FirstInvalidAt(tail[r], k)
                      && ScanRanks(tail, i + 1).error == InvalidChar(tail[r][k]);
          assert ranks[r + 1] == tail[r];
          assert ValidRanks(ranks[..r + 1]) by {
            forall q | 0 <= q < r + 1
              ensures ValidRank(ranks[q])
            {
              if q > 0 {
                assert ranks[q] == tail[..r][q - 1];
              }
            }
          }
        }
      }
    }
  }

  /** A scanned rank puts never-moved pieces on its own row, within the width it describes. */
  lemma {:induction false} ScanRankPlaces(rank: string, i: int, j: int)
    requires ScanRank(rank, i, j).Ok?
    ensures forall k :: 0 <= k < |ScanRank(rank, i, j).value| ==>
      && ScanRank(rank, i, j).value[k].position.0 == i
      && j <= ScanRank(rank, i, j).value[k].position.1 < j + Width(rank)
      && ScanRank(rank, i, j).value[k].timesMoved == 0
    decreases |rank|
  {
    if rank != [] {
      var next := if IsDigit(rank[0]) then j + DigitValue(rank[0]) else j + 1;
      ScanRankPlaces(rank[1..], i, next);
    }
  }

  /** Scanned ranks that each fit in 8 columns put never-moved pieces inside the columns, on their rows. */
  lemma {:induction false} ScanRanksPlaces(ranks: seq<string>, i: int)
    requires forall r :: 0 <= r < |ranks| ==> Width(ranks[r]) <= 8
    requires ScanRanks(ranks, i).Ok?
    ensures forall k :: 0 <= k < |ScanRanks(ranks, i).value| ==>
      && i <= ScanRanks(ranks, i).value[k].position.0 < i + |ranks|
      && 0 <= ScanRanks(ranks, i).value[k].position.1 < 8
      && ScanRanks(ranks, i).value[k].timesMoved == 0
    decreases |ranks|
  {
    if ranks != [] {
      ScanRankPlaces(ranks[0], i, 0);
      assert forall r :: 0 <= r < |ranks[1..]| ==> ranks[1..][r] == ranks[r + 1];
      ScanRanksPlaces(ranks[1..], i + 1);
    }
  }

  /** A record whose board field has at most 8 ranks of at most 8 squares never indexes off the board. */
  lemma FittingRanksAreWellFormed(fen: string)
    requires |Words(fen)| >= 6 && IsU32Literal(Words(fen)[4]) && IsU32Literal(Words(fen)[5])
    requires |Split(Words(fen)[0], '/')| <= 8
    requires forall r :: 0 <= r < |Split(Words(fen)[0], '/')| ==> Width(Split(Words(fen)[0], '/')[r]) <= 8
    ensures FenWellFormed(fen)
  {
    if BoardPieces(fen).Ok? {
      ScanRanksPlaces(Split(Words(fen)[0], '/'), 0);
    }
  }

  /** `fen_parser` fails exactly on an invalid board character, and reports the first one. */
  lemma ParseFenErrors(fen: string)
    requires FenWellFormed(fen)
    ensures ParseFen(fen).Ok? <==> ValidRanks(Split(Words(fen)[0], '/'))
    ensures ParseFen(fen).Err? ==>
      var ranks := Split(Words(fen)[0], '/');
      exists r, k :: 0 <= r < |ranks| && ValidRanks(ranks[..r]) && FirstInvalidAt(ranks[r], k)
                     && ParseFen(fen).error == InvalidChar(ranks[r][k])
  {
    ScanRanksErrors(Split(Words(fen)[0], '/'), 0);
  }

  /** A parsed board keeps the board invariant, and every piece on it has never moved. */
  lemma ParsedConsistent(fen: string)
    requires FenWellFormed(fen) && ParseFen(fen).Ok?
    ensures Consistent(ParseFen(fen).value.squares)
    ensures forall s :: OnBoard(s) && At(ParseFen(fen).value.squares, s).Some? ==>
      At(ParseFen(fen).value.squares, s).value.timesMoved == 0
  {
    var pieces := BoardPieces(fen).value;
    var ranks := Split(Words(fen)[0], '/');
    assert forall k :: 0 <= k < |pieces| ==> pieces[k].timesMoved == 0 by {
      ScanRanksTimes(ranks, 0);
    }
    var g := ParseFen(fen).value.squares;
    assert g == Fill(EmptyGrid(), pieces);
    forall r, f | 0 <= r < 8 && 0 <= f < 8 && g[r][f].Some?
      ensures g[r][f].value.position == (r, f) && g[r][f].value.timesMoved == 0
    {
      assert At(g, (r, f)) == g[r][f];
      FillAt(EmptyGrid(), pieces, (r, f));
      EmptyGridAt((r, f));
      CellAfterIsAPiece(None, pieces, (r, f));
    }
  }

  /** Every scanned piece has never moved. */
  lemma {:induction false} ScanRanksTimes(ranks: seq<string>, i: int)
    requires ScanRanks(ranks, i).Ok?
    ensures forall k :: 0 <= k < |ScanRanks(ranks, i).value| ==> ScanRanks(ranks, i).value[k].timesMoved == 0
    decreases |ranks|
  {
    if ranks != [] {
      ScanRankPlaces(ranks[0], i, 0);
      ScanRanksTimes(ranks[1..], i + 1);
    }
  }

  // --------------------------------------------------------- the round trip

  /** The cell the parser rebuilds at square `s` from a cell `to_string` wrote: same kind and colour, position `s`, never moved. */
  function Rebuilt(c: Cell, s: Square): Cell {
    match c
    case None => None
    case Some(p) => Some(ChessPiece(p.kind, p.color, s, 0))
  }

  /** The pieces a row segment encodes, at row `i` from column `j`. */
  function PiecesOfCells(cells: seq<Cell>, i: int, j: int): (ps: seq<ChessPiece>)
    ensures forall k :: 0 <= k < |ps| ==> ps[k].position.0 == i && j <= ps[k].position.1 < j + |cells|
    decreases |cells|
  {
    if cells == [] then []
    else
      match cells[0]
      case None => PiecesOfCells(cells[1..], i, j + 1)
      case Some(p) => [ChessPiece(p.kind, p.color, (i, j), 0)] + PiecesOfCells(cells[1..], i, j + 1)
  }

  /** The pieces of rows `r` to 7, in scanning order. */
  function RowsPieces(g: Grid, r: nat): (ps: seq<ChessPiece>)
    requires r <= 8
    ensures forall k :: 0 <= k < |ps| ==> r <= ps[k].position.0 < 8 && 0 <= ps[k].position.1 < 8
    decreases 8 - r
  {
    if r == 8 then [] else PiecesOfCells(g[r], r, 0) + RowsPieces(g, r + 1)
  }

  lemma {:induction false} ScanEncodedCells(cells: seq<Cell>, e: nat, i: int, j: int)
    requires |cells| + e <= 8
    ensures ScanRank(EncodeCells(cells, e), i, j) == Ok(PiecesOfCells(cells, i, j + e))
    decreases |cells|
  {
    if cells == [] {
      if e != 0 {
        SmallNatToString(e);
        assert [DigitChar(e)][1..] == [];
      }
    } else {
      match cells[0]
      case None =>
        ScanEncodedCells(cells[1..], e + 1, i, j);
      case Some(p) =>
        var rest := EncodeCells(cells[1..], 0);
        var l := PieceLetter(p.kind, p.color);
        ScanEncodedCells(cells[1..], 0, i, j + e + 1);
        LettersAreInverse(l, p.kind, p.color);
        var tail := [l] + rest;
        assert tail[1..] == rest;
        assert ScanRank(tail, i, j + e) == Ok(PiecesOfCells(cells, i, j + e));
        if e != 0 {
          SmallNatToString(e);
          var s := [DigitChar(e)] + tail;
          assert EncodeCells(cells, e) == s;
          assert s[1..] == tail;
        } else {
          assert EncodeCells(cells, e) == tail;
        }
    }
  }

  lemma {:induction false} ScanRanksOfGrid(g: Grid, r: nat)
    requires r <= 8
    ensures ScanRanks(RankStrings(g)[r..], r) == Ok(RowsPieces(g, r))
    decreases 8 - r
  {
    if r < 8 {
      var ranks := RankStrings(g)[r..];
      assert ranks[0] == RankString(g[r]);
      assert ranks[1..] == RankStrings(g)[r + 1..];
      ScanEncodedCells(g[r], 0, r, 0);
      ScanRanksOfGrid(g, r + 1);
    } else {
      assert RankStrings(g)[r..] == [];
    }
  }

  /** The cell a row segment at row `i` from column `j` leaves at `s` over `c`. */
  function SegmentCell(c: Cell, cells: seq<Cell>, i: int, j: int, s: Square): Cell {
    if s.0 == i && j <= s.1 < j + |cells| && cells[s.1 - j].Some? then Rebuilt(cells[s.1 - j], s) else c
  }

  lemma {:induction false} CellsAfter(c: Cell, cells: seq<Cell>, i: int, j: int, s: Square)
    ensures CellAfter(c, PiecesOfCells(cells, i, j), s) == SegmentCell(c, cells, i, j, s)
    decreases |cells|
  {
    if cells != [] {
      var rest := cells[1..];
      match cells[0]
      case None =>
        CellsAfter(c, rest, i, j + 1, s);
        SegmentCellStep(c, cells, i, j, s);
      case Some(p) =>
        var x := ChessPiece(p.kind, p.color, (i, j), 0);
        var c' := CellAfter(c, [x], s);
        assert [x][..0] == [];
        assert CellAfter(c, [x][..0], s) == c;
        assert c' == if s == (i, j) then Some(x) else c;
        CellsAfter(c', rest, i, j + 1, s);
        CellAfterAppend(c, [x], PiecesOfCells(rest, i, j + 1), s);
        SegmentCellStep(c, cells, i, j, s);
    }
  }

  /** The first cell of a segment decides `s` only when `s` is its square. */
  lemma SegmentCellStep(c: Cell, cells: seq<Cell>, i: int, j: int, s: Square)
    requires cells != []
    ensures cells[0].None? ==> SegmentCell(c, cells, i, j, s) == SegmentCell(c, cells[1..], i, j + 1, s)
    ensures cells[0].Some? ==>
      var x := Some(ChessPiece(cells[0].value.kind, cells[0].value.color, (i, j), 0));
      SegmentCell(c, cells, i, j, s) == SegmentCell(if s == (i, j) then x else c, cells[1..], i, j + 1, s)
  {
    if s.0 == i && j + 1 <= s.1 < j + |cells| {
      assert cells[1..][s.1 - j - 1] == cells[s.1 - j];
    }
  }

  lemma {:induction false} RowsAfter(c: Cell, g: Grid, r: nat, s: Square)
    requires r <= 8 && OnBoard(s)
    ensures CellAfter(c, RowsPieces(g, r), s) == if s.0 >= r && At(g, s).Some? then Rebuilt(At(g, s), s) else c
    decreases 8 - r
  {
    if r < 8 {
      var a := PiecesOfCells(g[r], r, 0);
      CellsAfter(c, g[r], r, 0, s);
      RowsAfter(CellAfter(c, a, s), g, r + 1, s);
      CellAfterAppend(c, a, RowsPieces(g, r + 1), s);
    }
  }

  /**
   * The board field `to_string` writes splits into 8 well-shaped ranks of
   * 8 squares each and has no trailing '/'.
   */
  lemma BoardFieldShape(g: Grid)
    ensures Split(BoardField(g), '/') == RankStrings(g)
    ensures forall r :: 0 <= r < 8 ==> RankShaped(RankStrings(g)[r], 8)
    ensures |BoardField(g)| > 0 && BoardField(g)[|BoardField(g)| - 1] != '/'
    ensures NoWhitespace(BoardField(g))
  {
    var ranks := RankStrings(g);
    forall r | 0 <= r < 8
      ensures RankShaped(ranks[r], 8) && '/' !in ranks[r] && NoWhitespace(ranks[r]) && |ranks[r]| > 0
    {
      RankShape(g[r]);
    }
    SplitOfJoin(ranks, '/');
    JoinNoWhitespace(ranks, "/");
    assert ranks == ranks[..7] + [ranks[7]];
    JoinSnoc(ranks[..7], ranks[7], "/");
  }

  /**
   * Parsing the board field `to_string` writes gives back every square:
   * the same kind and colour where a piece stood, nothing where none stood.
   */
  lemma BoardFieldRoundTrip(g: Grid)
    ensures ScanRanks(Split(BoardField(g), '/'), 0).Ok?
    ensures PiecesOnBoard(ScanRanks(Split(BoardField(g), '/'), 0).value)
    ensures forall s :: OnBoard(s) ==>
      At(Fill(EmptyGrid(), ScanRanks(Split(BoardField(g), '/'), 0).value), s) == Rebuilt(At(g, s), s)
  {
    var ranks := RankStrings(g);
    BoardFieldShape(g);
    assert Split(BoardField(g), '/') == ranks;
    assert ranks[0..] == ranks;
    ScanRanksOfGrid(g, 0);
    var ps := RowsPieces(g, 0);
    assert ScanRanks(ranks, 0) == Ok(ps);
    forall s | OnBoard(s)
      ensures At(Fill(EmptyGrid(), ps), s) == Rebuilt(At(g, s), s)
    {
      FillAt(EmptyGrid(), ps, s);
      RowsAfter(None, g, 0, s);
      EmptyGridAt(s);
    }
  }

  lemma SideFieldParses(c: PieceColor)
    ensures SideField(c) == "w" <==> c == White
  {
  }

  /** The castling field holds each right's letter exactly when the right is held. */
  lemma CastlingFieldLetters(p: Position)
    ensures 'K' in CastlingField(p) <==> p.whiteSmallCastle
    ensures 'Q' in CastlingField(p) <==> p.whiteBigCastle
    ensures 'k' in CastlingField(p) <==> p.blackSmallCastle
    ensures 'q' in CastlingField(p) <==> p.blackBigCastle
    ensures |CastlingField(p)| > 0 && NoWhitespace(CastlingField(p))
  {
  }

  /** `to_string` writes five space-separated fields, one short of what `fen_parser` needs. */
  lemma FenStringFields(p: Position)
    ensures Words(FenString(p)) == FenFields(p)
    ensures |Words(FenString(p))| == 5
    ensures !FenWellFormed(FenString(p))
  {
    FieldsAreWords(p);
    WordsOfJoin(FenFields(p));
  }

  lemma FieldsAreWords(p: Position)
    ensures forall k :: 0 <= k < |FenFields(p)| ==> |FenFields(p)[k]| > 0 && NoWhitespace(FenFields(p)[k])
  {
    BoardFieldShape(p.squares);
    CastlingFieldLetters(p);
    NatToStringParses(p.halfmoveClock);
    NatToStringParses(p.fullmoveNumber);
  }

  /**
   * With an en-passant field put back in fourth place, the record
   * `to_string` writes parses into the same board: every square rebuilt,
   * the same side to move, castling rights and clocks, no en-passant
   * target and the default selection state.
   */
  lemma RoundTripWithEnPassantField(p: Position)
    requires p.halfmoveClock < U32Limit && p.fullmoveNumber < U32Limit
    ensures var f := FenFields(p);
      var fen := Join(f[..3] + ["-"] + f[3..], " ");
      && FenWellFormed(fen) && ParseFen(fen).Ok?
      && var q := ParseFen(fen).value;
      && (forall s :: OnBoard(s) ==> At(q.squares, s) == Rebuilt(At(p.squares, s), s))
      && q.turn == p.turn
      && q.whiteBigCastle == p.whiteBigCastle && q.blackBigCastle == p.blackBigCastle
      && q.whiteSmallCastle == p.whiteSmallCastle && q.blackSmallCastle == p.blackSmallCastle
      && q.halfmoveClock == p.halfmoveClock && q.fullmoveNumber == p.fullmoveNumber
      && q.enPassantTarget.None? && q.state == DefaultState()
  {
    var f := FenFields(p);
    var six := f[..3] + ["-"] + f[3..];
    var fen := Join(six, " ");
    FieldsAreWords(p);
    assert six == [f[0], f[1], f[2], "-", f[3], f[4]];
    WordsOfJoin(six);
    NatToStringParses(p.halfmoveClock);
    NatToStringParses(p.fullmoveNumber);
    BoardFieldRoundTrip(p.squares);
    CastlingFieldLetters(p);
  }

  // ------------------------------------------------------- default and From

  /** The eight ranks of `DEFAULT_FEN` in src/etc.rs. */
  const DefaultRanks: seq<string> := ["rnbqkbnr", "pppppppp", "1P2P3", "8", "8", "8", "PPPPPPPP", "RNBQKBNR"]

  /** `DEFAULT_FEN`: "rnbqkbnr/pppppppp/1P2P3/8/8/8/PPPPPPPP/RNBQKBNR w KQkq - 0 1". */
  const DefaultFen: string := Join([Join(DefaultRanks, "/"), "w", "KQkq", "-", "0", "1"], " ")

  /** The board `Default` builds when `DEFAULT_FEN` does not parse. */
  function FallbackPosition(): Position {
    Position(EmptyGrid(), White, true, true, true, true, 0, 1, None, DefaultState())
  }

  /** Every character of `rank` is a digit or a piece letter. */
  predicate PlainRank(rank: string)
    decreases |rank|
  {
    rank == [] || (RankChar(rank[0]) && PlainRank(rank[1..]))
  }

  lemma {:induction false} PlainRankFacts(rank: string)
    requires PlainRank(rank)
    ensures ValidRank(rank) && NoWhitespace(rank) && '/' !in rank
    decreases |rank|
  {
    if rank != [] {
      PlainRankFacts(rank[1..]);
      assert forall k :: 1 <= k < |rank| ==> rank[k] == rank[1..][k - 1];
    }
  }

  lemma DefaultRanksTop()
    ensures forall r :: 0 <= r < 4 ==> PlainRank(DefaultRanks[r]) && Width(DefaultRanks[r]) <= 8
  {
  }

  lemma DefaultRanksBottom()
    ensures forall r :: 4 <= r < 8 ==> PlainRank(DefaultRanks[r]) && Width(DefaultRanks[r]) <= 8
  {
  }

  /** Every rank of `DEFAULT_FEN` scans, fits in 8 columns and survives both splits. */
  lemma DefaultRanksShape()
    ensures ValidRanks(DefaultRanks)
    ensures forall r :: 0 <= r < |DefaultRanks| ==> Width(DefaultRanks[r]) <= 8
    ensures forall r :: 0 <= r < |DefaultRanks| ==> NoWhitespace(DefaultRanks[r]) && '/' !in DefaultRanks[r]
  {
    DefaultRanksTop();
    DefaultRanksBottom();
    forall r | 0 <= r < |DefaultRanks|
      ensures ValidRank(DefaultRanks[r]) && NoWhitespace(DefaultRanks[r]) && '/' !in DefaultRanks[r]
    {
      PlainRankFacts(DefaultRanks[r]);
    }
  }

  /**
   * A record with a board field of valid, fitting ranks, White to move,
   * every castling right and clocks 0 and 1 parses to a consistent board
   * with that side, those rights and those clocks.
   */
  lemma {:induction false} OpeningRecordParses(board: string)
    requires |board| > 0 && NoWhitespace(board)
    requires ValidRanks(Split(board, '/')) && |Split(board, '/')| <= 8
    requires forall r :: 0 <= r < |Split(board, '/')| ==> Width(Split(board, '/')[r]) <= 8
    ensures var fen := Join([board, "w", "KQkq", "-", "0", "1"], " ");
      && FenWellFormed(fen) && ParseFen(fen).Ok?
      && var p := ParseFen(fen).value;
      && p.turn == White
      && p.whiteBigCastle && p.blackBigCastle && p.whiteSmallCastle && p.blackSmallCastle
      && p.halfmoveClock == 0 && p.fullmoveNumber == 1
      && Consistent(p.squares)
  {
    var fields := [board, "w", "KQkq", "-", "0", "1"];
    var fen := Join(fields, " ");
    NatToStringParses(0);
    NatToStringParses(1);
    assert NatToString(0) == "0" && NatToString(1) == "1";
    forall k | 0 <= k < |fields|
      ensures |fields[k]| > 0 && NoWhitespace(fields[k])
    {
      if k == 2 {
        assert fields[k] == "KQkq";
      }
    }
    WordsOfJoin(fields);
    var ranks := Split(board, '/');
    ScanRanksErrors(ranks, 0);
    FittingRanksAreWellFormed(fen);
    ParsedConsistent(fen);
  }

  /** `DEFAULT_FEN` parses: White to move, every castling right, clocks 0 and 1. */
  lemma DefaultFenParses()
    ensures FenWellFormed(DefaultFen) && ParseFen(DefaultFen).Ok?
    ensures var p := ParseFen(DefaultFen).value;
      && p.turn == White
      && p.whiteBigCastle && p.blackBigCastle && p.whiteSmallCastle && p.blackSmallCastle
      && p.halfmoveClock == 0 && p.fullmoveNumber == 1
      && Consistent(p.squares)
  {
    var board := Join(DefaultRanks, "/");
    DefaultRanksShape();
    JoinNoWhitespace(DefaultRanks, "/");
    JoinNonEmpty(DefaultRanks, "/");
    SplitOfJoin(DefaultRanks, '/');
    OpeningRecordParses(board);
  }

  /** `Board::default`: the parse of `DEFAULT_FEN`, or the fallback board. */
  function DefaultPosition(): Position {
    DefaultFenParses();
    match ParseFen(DefaultFen)
    case Ok(b) => b
    case Err(_) => FallbackPosition()
  }

  /** `From<&String>`: the parsed board, or the default board when parsing fails. */
  function FromFen(fen: string): Position
    requires FenWellFormed(fen)
  {
    match ParseFen(fen)
    case Ok(b) => b
    case Err(_) => DefaultPosition()
  }

  /** `From` gives the default board exactly when some rank holds an invalid character (or the record is the default). */
  lemma FromFenFallsBack(fen: string)
    requires FenWellFormed(fen)
    ensures !ValidRanks(Split(Words(fen)[0], '/')) ==> FromFen(fen) == DefaultPosition()
    ensures ValidRanks(Split(Words(fen)[0], '/')) ==> ParseFen(fen).Ok? && FromFen(fen) == ParseFen(fen).value
  {
    ParseFenErrors(fen);
  }
}

/** Static evaluation of a position (`valuta_posizione`): material plus
    piece-square tables, from the point of view of one colour. */
module Evaluation {
  import opened Chess

  /** `VALORI_PEZZI`. */
  function PieceValue(k: Kind): int
  {
    match k
    case Pawn => 100
    case Knight => 320
    case Bishop => 330
    case Rook => 500
    case Queen => 900
    case King => 20000
  }

  predicate IsTable(t: seq<seq<int>>) { |t| == 8 && forall r :: 0 <= r < 8 ==> |t[r]| == 8 }

  const PawnWhite: seq<seq<int>> := [
    [0,  0,  0,  0,  0,  0,  0,  0],
    [50, 50, 50, 50, 50, 50, 50, 50],
    [10, 10, 20, 30, 30, 20, 10, 10],
    [5,  5, 10, 25, 25, 10,  5,  5],
    [0,  0,  0, 20, 20,  0,  0,  0],
    [5, -5,-10,  0,  0,-10, -5,  5],
    [5, 10, 10,-20,-20, 10, 10,  5],
    [0,  0,  0,  0,  0,  0,  0,  0]]

  function Reverse<T>(s: seq<T>): (r: seq<T>)
    ensures |r| == |s| && forall i :: 0 <= i < |s| ==> r[i] == s[|s| - 1 - i]
  {
    seq(|s|, i requires 0 <= i < |s| => s[|s| - 1 - i])
  }

  /** Black's pawn table: White's with the rows in reverse order and each
      row reversed. */
  function PawnBlack(): seq<seq<int>>
  {
    Reverse(seq(8, r requires 0 <= r < 8 => Reverse(PawnWhite[r])))
  }

  const KnightTable: seq<seq<int>> := [
    [-50,-40,-30,-30,-30,-30,-40,-50],
    [-40,-20,  0,  0,  0,  0,-20,-40],
    [-30,  0, 10, 15, 15, 10,  0,-30],
    [-30,  5, 15, 20, 20, 15,  5,-30],
    [-30,  0, 15, 20, 20, 15,  0,-30],
    [-30,  5, 10, 15, 15, 10,  5,-30],
    [-40,-20,  0,  5,  5,  0,-20,-40],
    [-50,-40,-30,-30,-30,-30,-40,-50]]

  const BishopTable: seq<seq<int>> := [
    [-20,-10,-10,-10,-10,-10,-10,-20],
    [-10,  0,  0,  0,  0,  0,  0,-10],
    [-10,  0,  5, 10, 10,  5,  0,-10],
    [-10,  5,  5, 10, 10,  5,  5,-10],
    [-10,  0, 10, 10, 10, 10,  0,-10],
    [-10, 10, 10, 10, 10, 10, 10,-10],
    [-10,  5,  0,  0,  0,  0,  5,-10],
    [-20,-10,-10,-10,-10,-10,-10,-20]]

  const RookTable: seq<seq<int>> := [
    [0,  0,  0,  0,  0,  0,  0,  0],
    [5, 10, 10, 10, 10, 10, 10,  5],
    [-5,  0,  0,  0,  0,  0,  0, -5],
    [-5,  0,  0,  0,  0,  0,  0, -5],
    [-5,  0,  0,  0,  0,  0,  0, -5],
    [-5,  0,  0,  0,  0,  0,  0, -5],
    [-5,  0,  0,  0,  0,  0,  0, -5],
    [0,  0,  0,  5,  5,  0,  0,  0]]

  const QueenTable: seq<seq<int>> := [
    [-20,-10,-10, -5, -5,-10,-10,-20],
    [-10,  0,  0,  0,  0,  0,  0,-10],
    [-10,  0,  5,  5,  5,  5,  0,-10],
    [-5,  0,  5,  5,  5,  5,  0, -5],
    [0,  0,  5,  5,  5,  5,  0, -5],
    [-10,  5,  5,  5,  5,  5,  0,-10],
    [-10,  0,  5,  0,  0,  0,  0,-10],
    [-20,-10,-10, -5, -5,-10,-10,-20]]

  const KingTable: seq<seq<int>> := [
    [-30,-40,-40,-50,-50,-40,-40,-30],
    [-30,-40,-40,-50,-50,-40,-40,-30],
    [-30,-40,-40,-50,-50,-40,-40,-30],
    [-30,-40,-40,-50,-50,-40,-40,-30],
    [-20,-30,-30,-40,-40,-30,-30,-20],
    [-10,-20,-20,-20,-20,-20,-20,-10],
    [20, 20,  0,  0,  0,  0, 20, 20],
    [20, 30, 10,  0,  0, 10, 30, 20]]

  /** `TABELLE_POSIZIONALI`: only pawns have a separate table for Black;
      every other kind uses one table for both colours, unmirrored. */
  function Table(k: Kind, col: Color): (t: seq<seq<int>>)
    ensures IsTable(t)
  {
    match k
    case Pawn => if col == White then PawnWhite else PawnBlack()
    case Knight => KnightTable
    case Bishop => BishopTable
    case Rook => RookTable
    case Queen => QueenTable
    case King => KingTable
  }

  /** Black's pawn table is White's turned by 180 degrees. */
  lemma PawnTableRotated(r: int, c: int)
    requires 0 <= r < 8 && 0 <= c < 8
    ensures PawnBlack()[r][c] == PawnWhite[7 - r][7 - c]
  {
  }

  /** What one square contributes: material plus table bonus, counted for
      `pov` when the piece is its own and against it otherwise. */
  function CellScore(cell: Cell, r: int, c: int, pov: Color): int
    requires 0 <= r < 8 && 0 <= c < 8
  {
    if cell == Empty then 0
    else if cell.color == pov then PieceValue(cell.kind) + Table(cell.kind, cell.color)[r][c]
    else -(PieceValue(cell.kind) + Table(cell.kind, cell.color)[r][c])
  }

  /** Sum of the scores of squares `0..n-1` of row `r`. */
  function RowScore(b: Board, pov: Color, r: int, n: nat): int
    requires 0 <= r < 8 && n <= 8
  {
    if n == 0 then 0 else RowScore(b, pov, r, n - 1) + CellScore(b[r][n - 1], r, n - 1, pov)
  }

  /** Sum of the scores of rows `0..m-1`. */
  function RowsScore(b: Board, pov: Color, m: nat): int
    requires m <= 8
  {
    if m == 0 then 0 else RowsScore(b, pov, m - 1) + RowScore(b, pov, m - 1, 8)
  }

  /** `valuta_posizione`: the sum over all squares, positive when `pov` is
      ahead. */
  function PositionScore(b: Board, pov: Color): int
  {
    RowsScore(b, pov, 8)
  }

  /** `valuta_posizione` as the source runs it: two nested loops adding or
      subtracting each piece's value. */
  method EvaluatePosition(b: Board, pov: Color) returns (score: int)
    ensures score == PositionScore(b, pov)
  {
    score := 0;
    for r := 0 to 8
      invariant score == RowsScore(b, pov, r)
    {
      for c := 0 to 8
        invariant score == RowsScore(b, pov, r) + RowScore(b, pov, r, c)
      {
        var piece := b[r][c];
        if piece == Empty {
          continue;
        }
        var value := PieceValue(piece.kind);
        value := value + Table(piece.kind, piece.color)[r][c];
        if piece.color == pov {
          score := score + value;
        } else {
          score := score - value;
        }
      }
    }
  }

  lemma {:induction false} RowScoreAntisymmetric(b: Board, r: int, n: nat)
    requires 0 <= r < 8 && n <= 8
    ensures RowScore(b, White, r, n) == -RowScore(b, Black, r, n)
  {
    if n > 0 { RowScoreAntisymmetric(b, r, n - 1); }
  }

  lemma {:induction false} RowsScoreAntisymmetric(b: Board, m: nat)
    requires m <= 8
    ensures RowsScore(b, White, m) == -RowsScore(b, Black, m)
  {
    if m > 0 {
      RowsScoreAntisymmetric(b, m - 1);
      RowScoreAntisymmetric(b, m - 1, 8);
    }
  }

  /** The evaluation is zero-sum: what one colour gains the other loses. */
  lemma ScoreZeroSum(b: Board)
    ensures PositionScore(b, White) == -PositionScore(b, Black)
  {
    RowsScoreAntisymmetric(b, 8);
  }

  lemma {:induction false} EmptyRowScore(b: Board, pov: Color, r: int, n: nat)
    requires 0 <= r < 8 && n <= 8
    requires forall c :: 0 <= c < 8 ==> b[r][c] == Empty
    ensures RowScore(b, pov, r, n) == 0
  {
    if n > 0 { EmptyRowScore(b, pov, r, n - 1); }
  }

  /** A board with no piece scores 0 for either side. */
  lemma {:induction false} EmptyBoardScore(b: Board, pov: Color, m: nat)
    requires m <= 8
    requires forall r, c :: 0 <= r < 8 && 0 <= c < 8 ==> b[r][c] == Empty
    ensures RowsScore(b, pov, m) == 0
  {
    if m > 0 {
      EmptyBoardScore(b, pov, m - 1);
      EmptyRowScore(b, pov, m - 1, 8);
    }
  }

  /** Rows `0..7` listed one by one. */
  lemma RowsScoreUnfolded(b: Board, pov: Color)
    ensures PositionScore(b, pov) ==
      RowScore(b, pov, 0, 8) + RowScore(b, pov, 1, 8) + RowScore(b, pov, 2, 8) + RowScore(b, pov, 3, 8) +
      RowScore(b, pov, 4, 8) + RowScore(b, pov, 5, 8) + RowScore(b, pov, 6, 8) + RowScore(b, pov, 7, 8)
  {
    assert RowsScore(b, pov, 1) == RowScore(b, pov, 0, 8);
    assert RowsScore(b, pov, 2) == RowScore(b, pov, 0, 8) + RowScore(b, pov, 1, 8);
    assert RowsScore(b, pov, 4) == RowsScore(b, pov, 2) + RowScore(b, pov, 2, 8) + RowScore(b, pov, 3, 8);
    assert RowsScore(b, pov, 6) == RowsScore(b, pov, 4) + RowScore(b, pov, 4, 8) + RowScore(b, pov, 5, 8);
    assert RowsScore(b, pov, 8) == RowsScore(b, pov, 6) + RowScore(b, pov, 6, 8) + RowScore(b, pov, 7, 8);
  }

  /** Squares `0..7` of row `r` listed one by one. */
  lemma RowScoreUnfolded(b: Board, pov: Color, r: int)
    requires 0 <= r < 8
    ensures RowScore(b, pov, r, 8) ==
      CellScore(b[r][0], r, 0, pov) + CellScore(b[r][1], r, 1, pov) + CellScore(b[r][2], r, 2, pov) +
      CellScore(b[r][3], r, 3, pov) + CellScore(b[r][4], r, 4, pov) + CellScore(b[r][5], r, 5, pov) +
      CellScore(b[r][6], r, 6, pov) + CellScore(b[r][7], r, 7, pov)
  {
    assert RowScore(b, pov, r, 1) == CellScore(b[r][0], r, 0, pov);
    assert RowScore(b, pov, r, 2) == CellScore(b[r][0], r, 0, pov) + CellScore(b[r][1], r, 1, pov);
    assert RowScore(b, pov, r, 4) == RowScore(b, pov, r, 2) + CellScore(b[r][2], r, 2, pov) + CellScore(b[r][3], r, 3, pov);
    assert RowScore(b, pov, r, 6) == RowScore(b, pov, r, 4) + CellScore(b[r][4], r, 4, pov) + CellScore(b[r][5], r, 5, pov);
  }

  /** Black's home rows in the starting position, from White's side. */
  lemma InitialBlackRowScores()
    ensures RowScore(InitialBoard(), White, 0, 8) == -23045
    ensures RowScore(InitialBoard(), White, 1, 8) == -810
  {
    RowScoreUnfolded(InitialBoard(), White, 0);
    RowScoreUnfolded(InitialBoard(), White, 1);
  }

  /** White's home rows in the starting position. */
  lemma InitialWhiteRowScores()
    ensures RowScore(InitialBoard(), White, 6, 8) == 810
    ensures RowScore(InitialBoard(), White, 7, 8) == 23095
  {
    RowScoreUnfolded(InitialBoard(), White, 6);
    RowScoreUnfolded(InitialBoard(), White, 7);
  }

  /** The four empty rows of the starting position score nothing. */
  lemma InitialMiddleRowScores()
    ensures RowScore(InitialBoard(), White, 2, 8) == 0 && RowScore(InitialBoard(), White, 3, 8) == 0
    ensures RowScore(InitialBoard(), White, 4, 8) == 0 && RowScore(InitialBoard(), White, 5, 8) == 0
  {
    var b := InitialBoard();
    EmptyRowScore(b, White, 2, 8);
    EmptyRowScore(b, White, 3, 8);
    EmptyRowScore(b, White, 4, 8);
    EmptyRowScore(b, White, 5, 8);
  }

  /** The starting position scores 50 for White rather than 0: the king
      table is shared by both colours without mirroring, so Black's king on
      e8 reads -50 where White's on e1 reads 0. */
  lemma InitialPositionScore()
    ensures PositionScore(InitialBoard(), White) == 50
    ensures PositionScore(InitialBoard(), Black) == -50
  {
    var b := InitialBoard();
    RowsScoreUnfolded(b, White);
    InitialBlackRowScores();
    InitialWhiteRowScores();
    InitialMiddleRowScores();
    ScoreZeroSum(b);
  }
}

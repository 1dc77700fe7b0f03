/** The board and the values every part of the engine shares: colours, piece
    kinds, squares, the 8x8 board and the castling/en-passant rule state that
    the move rules read. Row 0 is Black's back rank, row 7 is White's; column
    0..7 is file a..h. */
module Chess {

  datatype Option<+T> = None | Some(value: T)

  datatype Color = White | Black

  datatype Kind = Pawn | Knight | Bishop | Rook | Queen | King

  /** A square's content: the empty sentinel or a (colour, kind) piece code. */
  datatype Cell = Empty | Piece(color: Color, kind: Kind)

  datatype Pos = Pos(r: int, c: int)

  predicate InBounds(p: Pos) { 0 <= p.r < 8 && 0 <= p.c < 8 }

  type Square = p: Pos | InBounds(p) witness Pos(0, 0)

  predicate IsBoard(b: seq<seq<Cell>>) { |b| == 8 && forall r :: 0 <= r < 8 ==> |b[r]| == 8 }

  type Board = b: seq<seq<Cell>> | IsBoard(b) witness seq(8, _ => seq(8, _ => Empty))

  /** A move is a pair of squares; castling, en passant and promotion are
      read off the board when the move is applied. */
  datatype Move = Move(start: Square, end: Square)

  /** The six "has moved" flags that castling consults. */
  datatype CastleFlags = CastleFlags(wKing: bool, bKing: bool, wRookA: bool, wRookH: bool, bRookA: bool, bRookH: bool)

  /** The part of the game state that the move rules read. */
  datatype Rights = Rights(flags: CastleFlags, ep: Option<Square>)

  function Opp(c: Color): Color { if c == White then Black else White }

  function Abs(x: int): nat { if x < 0 then -x else x }

  function Max(x: int, y: int): int { if x < y then y else x }

  function At(b: Board, p: Square): Cell { b[p.r][p.c] }

  predicate IsColor(cell: Cell, col: Color) { cell.Piece? && cell.color == col }

  /** The board with one square overwritten. */
  function Put(b: Board, p: Square, v: Cell): (b': Board)
    ensures forall q: Square :: At(b', q) == if q == p then v else At(b, q)
  {
    b[p.r := b[p.r][p.c := v]]
  }

  /** `_applica_mossa_raw`: the piece on `s` goes to `e`, overwriting what
      was there, and `s` becomes empty. */
  function Relocate(b: Board, s: Square, e: Square): (b': Board)
    ensures forall q: Square :: At(b', q) == if q == s then Empty else if q == e then At(b, s) else At(b, q)
  {
    Put(Put(b, e, At(b, s)), s, Empty)
  }

  /** Two boards that agree on every square are the same board. */
  lemma BoardExt(x: Board, y: Board)
    requires forall p: Square :: At(x, p) == At(y, p)
    ensures x == y
  {
    forall r | 0 <= r < 8
      ensures x[r] == y[r]
    {
      forall c | 0 <= c < 8
        ensures x[r][c] == y[r][c]
      {
        assert At(x, Pos(r, c)) == At(y, Pos(r, c));
      }
    }
  }

  ghost predicate HasKing(b: Board, col: Color)
  {
    exists p: Square :: At(b, p) == Piece(col, King)
  }

  /** `crea_scacchiera`: the standard starting position. */
  function InitialBoard(): (b: Board)
    ensures At(b, Pos(7, 4)) == Piece(White, King) && At(b, Pos(0, 4)) == Piece(Black, King)
  {
    [ [Piece(Black, Rook), Piece(Black, Knight), Piece(Black, Bishop), Piece(Black, Queen),
       Piece(Black, King), Piece(Black, Bishop), Piece(Black, Knight), Piece(Black, Rook)],
      seq(8, _ => Piece(Black, Pawn)),
      seq(8, _ => Empty), seq(8, _ => Empty), seq(8, _ => Empty), seq(8, _ => Empty),
      seq(8, _ => Piece(White, Pawn)),
      [Piece(White, Rook), Piece(White, Knight), Piece(White, Bishop), Piece(White, Queen),
       Piece(White, King), Piece(White, Bishop), Piece(White, Knight), Piece(White, Rook)] ]
  }

  /** Does `cell` hold a piece of colour `col` (of kind `k`, when one is given)? */
  predicate Matches(cell: Cell, col: Color, k: Option<Kind>)
  {
    cell.Piece? && cell.color == col && (k.Some? ==> cell.kind == k.value)
  }

  /** Number of matching cells in `row[..n]`. */
  function CountRow(row: seq<Cell>, col: Color, k: Option<Kind>, n: nat): nat
    requires n <= |row|
  {
    if n == 0 then 0 else CountRow(row, col, k, n - 1) + (if Matches(row[n - 1], col, k) then 1 else 0)
  }

  /** Number of matching cells in rows `0..m-1`. */
  function CountBoard(b: Board, col: Color, k: Option<Kind>, m: nat): nat
    requires m <= 8
  {
    if m == 0 then 0 else CountBoard(b, col, k, m - 1) + CountRow(b[m - 1], col, k, 8)
  }

  /** A row in which every cell matches, or none does, counts all or nothing. */
  lemma {:induction false} CountRowUniform(row: seq<Cell>, col: Color, k: Option<Kind>, n: nat, m: bool)
    requires n <= |row|
    requires forall i :: 0 <= i < n ==> Matches(row[i], col, k) == m
    ensures CountRow(row, col, k, n) == if m then n else 0
  {
    if n > 0 { CountRowUniform(row, col, k, n - 1, m); }
  }

  lemma CountBoardRows(b: Board, col: Color, k: Option<Kind>)
    ensures CountBoard(b, col, k, 8) ==
      CountRow(b[0], col, k, 8) + CountRow(b[1], col, k, 8) + CountRow(b[2], col, k, 8) + CountRow(b[3], col, k, 8) +
      CountRow(b[4], col, k, 8) + CountRow(b[5], col, k, 8) + CountRow(b[6], col, k, 8) + CountRow(b[7], col, k, 8)
  {
    assert CountBoard(b, col, k, 1) == CountRow(b[0], col, k, 8);
    assert CountBoard(b, col, k, 2) == CountRow(b[0], col, k, 8) + CountRow(b[1], col, k, 8);
    assert CountBoard(b, col, k, 4) == CountBoard(b, col, k, 2) + CountRow(b[2], col, k, 8) + CountRow(b[3], col, k, 8);
    assert CountBoard(b, col, k, 6) == CountBoard(b, col, k, 4) + CountRow(b[4], col, k, 8) + CountRow(b[5], col, k, 8);
  }

  /** Rows 2 to 5 of the starting position are empty. */
  lemma InitialMiddleEmpty(col: Color, k: Option<Kind>)
    ensures CountRow(InitialBoard()[2], col, k, 8) + CountRow(InitialBoard()[3], col, k, 8) +
            CountRow(InitialBoard()[4], col, k, 8) + CountRow(InitialBoard()[5], col, k, 8) == 0
  {
    var b := InitialBoard();
    CountRowUniform(b[2], col, k, 8, false);
    CountRowUniform(b[3], col, k, 8, false);
    CountRowUniform(b[4], col, k, 8, false);
    CountRowUniform(b[5], col, k, 8, false);
  }

  /** Black's two home rows: eight pieces on row 0 (no pawn) and eight
      pawns on row 1; White has nothing there. */
  lemma InitialBlackRows(col: Color, k: Option<Kind>)
    requires k == None || k == Some(Pawn)
    ensures CountRow(InitialBoard()[0], col, k, 8) == if k == None && col == Black then 8 else 0
    ensures CountRow(InitialBoard()[1], col, k, 8) == if col == Black then 8 else 0
  {
    var b := InitialBoard();
    CountRowUniform(b[0], col, k, 8, k == None && col == Black);
    CountRowUniform(b[1], col, k, 8, col == Black);
  }

  /** White's two home rows, the mirror image of `InitialBlackRows`. */
  lemma InitialWhiteRows(col: Color, k: Option<Kind>)
    requires k == None || k == Some(Pawn)
    ensures CountRow(InitialBoard()[6], col, k, 8) == if col == White then 8 else 0
    ensures CountRow(InitialBoard()[7], col, k, 8) == if k == None && col == White then 8 else 0
  {
    var b := InitialBoard();
    CountRowUniform(b[6], col, k, 8, col == White);
    CountRowUniform(b[7], col, k, 8, k == None && col == White);
  }

  lemma InitialCensusFor(col: Color, k: Option<Kind>)
    requires k == None || k == Some(Pawn)
    ensures CountBoard(InitialBoard(), col, k, 8) == if k == None then 16 else 8
  {
    CountBoardRows(InitialBoard(), col, k);
    InitialMiddleEmpty(col, k);
    InitialBlackRows(col, k);
    InitialWhiteRows(col, k);
  }

  /** The starting position has 16 pieces of each colour, 8 of them pawns,
      and each king on its home square: e1 = (7,4) for White, e8 = (0,4)
      for Black. */
  lemma InitialBoardCensus(col: Color)
    ensures CountBoard(InitialBoard(), col, None, 8) == 16
    ensures CountBoard(InitialBoard(), col, Some(Pawn), 8) == 8
    ensures At(InitialBoard(), Pos(if col == White then 7 else 0, 4)) == Piece(col, King)
  {
    InitialCensusFor(col, None);
    InitialCensusFor(col, Some(Pawn));
  }
}

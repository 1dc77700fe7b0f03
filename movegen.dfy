/** The bot's move generator (`_tutte_mosse_pezzo`, `lista_mosse_valide`):
    every legal move of one colour, scanned in row-major order. */
module MoveGen {
  import opened Chess
  import opened Attacks
  import opened Legality

  /** `mossa_valida` may be asked about any destination for the piece on
      `s` (it needs that colour's king on the board). */
  ghost predicate KingOf(b: Board, s: Square)
  {
    At(b, s).Piece? ==> HasKing(b, At(b, s).color)
  }

  /** Legal destinations from `s` among squares `0..n-1` of row `r`. */
  ghost function DestRow(b: Board, rt: Rights, s: Square, r: int, n: nat): seq<Square>
    requires KingOf(b, s) && 0 <= r < 8 && n <= 8
  {
    if n == 0 then []
    else DestRow(b, rt, s, r, n - 1) + (if IsLegal(b, rt, s, Pos(r, n - 1)) then [Pos(r, n - 1)] else [])
  }

  /** Legal destinations from `s` in rows `0..m-1`. */
  ghost function DestRows(b: Board, rt: Rights, s: Square, m: nat): seq<Square>
    requires KingOf(b, s) && m <= 8
  {
    if m == 0 then [] else DestRows(b, rt, s, m - 1) + DestRow(b, rt, s, m - 1, 8)
  }

  /** `_tutte_mosse_pezzo`: the legal destinations of the piece on `s`, in
      row-major order. */
  ghost function Destinations(b: Board, rt: Rights, s: Square): seq<Square>
    requires KingOf(b, s)
  {
    DestRows(b, rt, s, 8)
  }

  /** `_tutte_mosse_pezzo` as the source runs it. */
  method PieceDestinations(b: Board, rt: Rights, s: Square) returns (dests: seq<Square>)
    requires KingOf(b, s)
    ensures dests == Destinations(b, rt, s)
  {
    dests := [];
    for r := 0 to 8
      invariant dests == DestRows(b, rt, s, r)
    {
      for c := 0 to 8
        invariant dests == DestRows(b, rt, s, r) + DestRow(b, rt, s, r, c)
      {
        var ok := ValidateMove(b, rt, s, Pos(r, c));
        if ok {
          dests := dests + [Pos(r, c)];
        }
      }
    }
  }

  /** The moves from `s` to each of `ds`, in order. */
  function Pair(s: Square, ds: seq<Square>): (ms: seq<Move>)
    ensures |ms| == |ds| && forall i :: 0 <= i < |ds| ==> ms[i] == Move(s, ds[i])
  {
    seq(|ds|, i requires 0 <= i < |ds| => Move(s, ds[i]))
  }

  /** Moves of colour `col` from squares `0..n-1` of row `r`. */
  ghost function MovesRow(b: Board, rt: Rights, col: Color, r: int, n: nat): seq<Move>
    requires HasKing(b, col) && 0 <= r < 8 && n <= 8
  {
    if n == 0 then []
    else
      var s := Pos(r, n - 1);
      MovesRow(b, rt, col, r, n - 1) + (if IsColor(b[r][n - 1], col) then Pair(s, Destinations(b, rt, s)) else [])
  }

  /** Moves of colour `col` from rows `0..m-1`. */
  ghost function MovesRows(b: Board, rt: Rights, col: Color, m: nat): seq<Move>
    requires HasKing(b, col) && m <= 8
  {
    if m == 0 then [] else MovesRows(b, rt, col, m - 1) + MovesRow(b, rt, col, m - 1, 8)
  }

  /** `lista_mosse_valide`: every legal move of colour `col`, by start square
      in row-major order, then by destination in row-major order. */
  ghost function LegalMoves(b: Board, rt: Rights, col: Color): seq<Move>
    requires HasKing(b, col)
  {
    MovesRows(b, rt, col, 8)
  }

  /** `lista_mosse_valide` as the source runs it. */
  method CollectLegalMoves(b: Board, rt: Rights, col: Color) returns (moves: seq<Move>)
    requires HasKing(b, col)
    ensures moves == LegalMoves(b, rt, col)
  {
    moves := [];
    for r := 0 to 8
      invariant moves == MovesRows(b, rt, col, r)
    {
      for c := 0 to 8
        invariant moves == MovesRows(b, rt, col, r) + MovesRow(b, rt, col, r, c)
      {
        var piece := b[r][c];
        if piece != Empty && piece.color == col {
          var dests := PieceDestinations(b, rt, Pos(r, c));
          ghost var before := moves;
          for k := 0 to |dests|
            invariant moves == before + Pair(Pos(r, c), dests[..k])
          {
            moves := moves + [Move(Pos(r, c), dests[k])];
          }
          assert dests[..|dests|] == dests;
        }
      }
    }
  }

  /** Row-major index of a square. */
  function Index(p: Pos): int { p.r * 8 + p.c }

  /** Row-major index of a move: start square first, then destination. */
  function Key(m: Move): int { Index(m.start) * 64 + Index(m.end) }

  predicate Increasing(s: seq<Square>)
  {
    forall i, j :: 0 <= i < j < |s| ==> Index(s[i]) < Index(s[j])
  }

  predicate KeysIncreasing(ms: seq<Move>)
  {
    forall i, j :: 0 <= i < j < |ms| ==> Key(ms[i]) < Key(ms[j])
  }

  lemma {:induction false} DestRowFacts(b: Board, rt: Rights, s: Square, r: int, n: nat)
    requires KingOf(b, s) && 0 <= r < 8 && n <= 8
    ensures forall e :: e in DestRow(b, rt, s, r, n) <==> e.r == r && 0 <= e.c < n && IsLegal(b, rt, s, e)
    ensures Increasing(DestRow(b, rt, s, r, n))
  {
    if n > 0 {
      DestRowFacts(b, rt, s, r, n - 1);
    }
  }

  lemma {:induction false} DestRowsFacts(b: Board, rt: Rights, s: Square, m: nat)
    requires KingOf(b, s) && m <= 8
    ensures forall e :: e in DestRows(b, rt, s, m) <==> e.r < m && IsLegal(b, rt, s, e)
    ensures Increasing(DestRows(b, rt, s, m))
  {
    if m > 0 {
      DestRowsFacts(b, rt, s, m - 1);
      DestRowFacts(b, rt, s, m - 1, 8);
      var x, y := DestRows(b, rt, s, m - 1), DestRow(b, rt, s, m - 1, 8);
      forall i, j | 0 <= i < j < |x + y| ensures Index((x + y)[i]) < Index((x + y)[j]) {
        if j >= |x| && i < |x| {
          assert x[i] in x && y[j - |x|] in y;
        }
      }
    }
  }

  /** `_tutte_mosse_pezzo` lists exactly the legal destinations of the
      piece on `s`, each once, in row-major order. */
  lemma DestinationsExact(b: Board, rt: Rights, s: Square)
    requires KingOf(b, s)
    ensures forall e :: e in Destinations(b, rt, s) <==> IsLegal(b, rt, s, e)
    ensures Increasing(Destinations(b, rt, s))
  {
    DestRowsFacts(b, rt, s, 8);
  }

  lemma PairFacts(b: Board, rt: Rights, s: Square)
    requires KingOf(b, s)
    ensures forall m :: m in Pair(s, Destinations(b, rt, s)) <==> m.start == s && IsLegal(b, rt, s, m.end)
    ensures KeysIncreasing(Pair(s, Destinations(b, rt, s)))
    ensures forall m :: m in Pair(s, Destinations(b, rt, s)) ==> Index(s) * 64 <= Key(m) < Index(s) * 64 + 64
  {
    var ds := Destinations(b, rt, s);
    DestinationsExact(b, rt, s);
    forall m ensures m in Pair(s, ds) <==> m.start == s && IsLegal(b, rt, s, m.end) {
      if m.start == s && IsLegal(b, rt, s, m.end) {
        var i :| 0 <= i < |ds| && ds[i] == m.end;
        assert Pair(s, ds)[i] == m;
      }
    }
  }

  /** Two increasing move lists, every key of the first below `bound` and
      every key of the second at or above it, join into an increasing list. */
  lemma JoinIncreasing(x: seq<Move>, y: seq<Move>, bound: int)
    requires KeysIncreasing(x) && KeysIncreasing(y)
    requires forall m :: m in x ==> Key(m) < bound
    requires forall m :: m in y ==> bound <= Key(m)
    ensures KeysIncreasing(x + y)
  {
    forall i, j | 0 <= i < j < |x + y| ensures Key((x + y)[i]) < Key((x + y)[j]) {
      if j >= |x| && i < |x| {
        assert x[i] in x && y[j - |x|] in y;
      }
    }
  }

  lemma {:induction false} MovesRowFacts(b: Board, rt: Rights, col: Color, r: int, n: nat)
    requires HasKing(b, col) && 0 <= r < 8 && n <= 8
    ensures forall m :: m in MovesRow(b, rt, col, r, n) <==>
      m.start.r == r && 0 <= m.start.c < n && LegalFrom(b, rt, col, m.start, m.end)
    ensures KeysIncreasing(MovesRow(b, rt, col, r, n))
    ensures forall m :: m in MovesRow(b, rt, col, r, n) ==> Key(m) < (r * 8 + n) * 64
  {
    if n > 0 {
      MovesRowFacts(b, rt, col, r, n - 1);
      var s := Pos(r, n - 1);
      if IsColor(b[r][n - 1], col) {
        PairFacts(b, rt, s);
        JoinIncreasing(MovesRow(b, rt, col, r, n - 1), Pair(s, Destinations(b, rt, s)), Index(s) * 64);
      } else {
        forall m: Move | m.start == s ensures !LegalFrom(b, rt, col, m.start, m.end) {
        }
      }
    }
  }

  lemma {:induction false} MovesRowsMembers(b: Board, rt: Rights, col: Color, m: nat)
    requires HasKing(b, col) && m <= 8
    ensures forall mv :: mv in MovesRows(b, rt, col, m) <==> mv.start.r < m && LegalFrom(b, rt, col, mv.start, mv.end)
  {
    if m > 0 {
      MovesRowsMembers(b, rt, col, m - 1);
      MovesRowFacts(b, rt, col, m - 1, 8);
    }
  }

  lemma {:induction false} MovesRowsOrdered(b: Board, rt: Rights, col: Color, m: nat)
    requires HasKing(b, col) && m <= 8
    ensures KeysIncreasing(MovesRows(b, rt, col, m))
    ensures forall mv :: mv in MovesRows(b, rt, col, m) ==> Key(mv) < m * 8 * 64
  {
    if m > 0 {
      MovesRowsOrdered(b, rt, col, m - 1);
      MovesRowFacts(b, rt, col, m - 1, 8);
      var y := MovesRow(b, rt, col, m - 1, 8);
      forall mv | mv in y ensures (m - 1) * 8 * 64 <= Key(mv) {
        assert mv.start.r == m - 1;
      }
      JoinIncreasing(MovesRows(b, rt, col, m - 1), y, (m - 1) * 8 * 64);
    }
  }

  /** `lista_mosse_valide` lists exactly the legal moves of colour `col`,
      each once, ordered by start square and then by destination. */
  lemma LegalMovesExact(b: Board, rt: Rights, col: Color)
    requires HasKing(b, col)
    ensures forall m :: m in LegalMoves(b, rt, col) <==> LegalFrom(b, rt, col, m.start, m.end)
    ensures KeysIncreasing(LegalMoves(b, rt, col))
  {
    MovesRowsMembers(b, rt, col, 8);
    MovesRowsOrdered(b, rt, col, 8);
  }

  /** The generator finds nothing exactly when `_has_legal_move` says there
      is no legal move. */
  lemma NoMovesIffNoLegalMove(b: Board, rt: Rights, col: Color)
    requires HasKing(b, col)
    ensures LegalMoves(b, rt, col) == [] <==> !HasLegalMove(b, rt, col)
  {
    LegalMovesExact(b, rt, col);
    if HasLegalMove(b, rt, col) {
      var s: Square, e: Square :| LegalFrom(b, rt, col, s, e);
      assert Move(s, e) in LegalMoves(b, rt, col);
    }
    if LegalMoves(b, rt, col) != [] {
      var m := LegalMoves(b, rt, col)[0];
      assert LegalFrom(b, rt, col, m.start, m.end);
    }
  }

  /** `stato_partita` in terms of the move list: the game is over (mate or
      stalemate) exactly when the generator finds no move, and which of the
      two depends only on whether the king is attacked. */
  lemma StatusByMoveList(b: Board, rt: Rights, col: Color)
    requires HasKing(b, col)
    ensures StatusOf(b, rt, col) == Checkmate <==> LegalMoves(b, rt, col) == [] && InCheck(b, rt, col)
    ensures StatusOf(b, rt, col) == Stalemate <==> LegalMoves(b, rt, col) == [] && !InCheck(b, rt, col)
    ensures StatusOf(b, rt, col) == Check <==> LegalMoves(b, rt, col) != [] && InCheck(b, rt, col)
    ensures StatusOf(b, rt, col) == Ok <==> LegalMoves(b, rt, col) != [] && !InCheck(b, rt, col)
  {
    NoMovesIffNoLegalMove(b, rt, col);
  }
}

/** King-safe legality, the legal-move scan and the game-status classifier
    (`mossa_valida`, `_has_legal_move`, `stato_partita`). */
module Legality {
  import opened Chess
  import opened Geometry
  import opened Attacks

  /** The king of colour `col` (the first one in row-major order) is
      attacked by the other colour. */
  ghost predicate InCheck(b: Board, rt: Rights, col: Color)
    requires HasKing(b, col)
  {
    FindKingFacts(b, col);
    Attacked(b, rt, FindKing(b, col).value, Opp(col))
  }

  /** A king move of two columns: the executor treats it as castling. */
  predicate IsCastleShape(b: Board, s: Square, e: Square)
  {
    At(b, s).Piece? && At(b, s).kind == King && Abs(e.c - s.c) == 2
  }

  /** No square of row `s.r` from column `s.c` to `e.c` inclusive is attacked
      by `attacker` on the board before the move. */
  ghost predicate CastlePathSafe(b: Board, rt: Rights, s: Square, e: Square, attacker: Color)
  {
    forall c | (if s.c < e.c then s.c else e.c) <= c <= (if s.c < e.c then e.c else s.c) ::
      !Attacked(b, rt, Pos(s.r, c), attacker)
  }

  /** Relocating a piece that passes raw geometry keeps its colour's king on
      the board (the mover never lands on its own king). */
  lemma RelocateKeepsKing(b: Board, rt: Rights, s: Square, e: Square)
    requires RawMove(b, rt, s, e) && HasKing(b, At(b, s).color)
    ensures HasKing(Relocate(b, s, e), At(b, s).color)
  {
    var col := At(b, s).color;
    var k: Square :| At(b, k) == Piece(col, King);
    if k == s {
      assert At(Relocate(b, s, e), e) == Piece(col, King);
    } else {
      assert At(Relocate(b, s, e), k) == Piece(col, King);
    }
  }

  /** `mossa_valida`: raw geometry holds, the mover's king is not attacked
      once the piece is relocated on a copy of the board, and for a castling
      move no square the king crosses (start and end included) is attacked
      on the board before the move. The source only needs a king of the
      mover's colour when raw geometry holds (it would fail on a missing
      king there). */
  ghost predicate IsLegal(b: Board, rt: Rights, s: Square, e: Square): (ok: bool)
    requires RawMove(b, rt, s, e) ==> HasKing(b, At(b, s).color)
    ensures ok ==> RawMove(b, rt, s, e) && At(b, s).Piece? && s != e
    ensures ok ==> HasKing(Relocate(b, s, e), At(b, s).color)
    ensures ok ==> !InCheck(Relocate(b, s, e), rt, At(b, s).color)
    ensures ok && IsCastleShape(b, s, e) ==> CastlePathSafe(b, rt, s, e, Opp(At(b, s).color))
  {
    RawMove(b, rt, s, e) &&
    var col := At(b, s).color;
    RelocateKeepsKing(b, rt, s, e);
    !InCheck(Relocate(b, s, e), rt, col) &&
    (IsCastleShape(b, s, e) ==> CastlePathSafe(b, rt, s, e, Opp(col)))
  }

  /** `mossa_valida` as the source runs it: raw check, simulate on a copy,
      find the king, test it, then walk the castling path. */
  method ValidateMove(b: Board, rt: Rights, s: Square, e: Square) returns (ok: bool)
    requires RawMove(b, rt, s, e) ==> HasKing(b, At(b, s).color)
    ensures ok == IsLegal(b, rt, s, e)
  {
    var raw := CheckRawMove(b, rt, s, e);
    if !raw {
      return false;
    }
    var temp := Relocate(b, s, e);
    var col := At(b, s).color;
    RelocateKeepsKing(b, rt, s, e);
    var kingSq := LocateKing(temp, col);
    FindKingFacts(temp, col);
    var attacked := SquareAttacked(temp, rt, kingSq.value, Opp(col));
    if attacked {
      return false;
    }
    var piece := At(b, s);
    if piece.kind == King && Abs(e.c - s.c) == 2 {
      ok := CastlePathClear(b, rt, s, e, Opp(piece.color));
      return;
    }
    return true;
  }

  /** The castling walk of `mossa_valida`: every square of the king's row
      between the two columns, both included, tested in turn; the first
      attacked one refuses the move. */
  method CastlePathClear(b: Board, rt: Rights, s: Square, e: Square, attacker: Color) returns (safe: bool)
    ensures safe == CastlePathSafe(b, rt, s, e, attacker)
  {
    var lo, hi := if e.c > s.c then s.c else e.c, if e.c > s.c then e.c else s.c;
    for c := lo to hi + 1
      invariant forall c' | lo <= c' < c :: !Attacked(b, rt, Pos(s.r, c'), attacker)
    {
      var hit := SquareAttacked(b, rt, Pos(s.r, c), attacker);
      if hit {
        return false;
      }
    }
    return true;
  }

  /** A king never steps next to the enemy king: after such a move the
      enemy king reaches the mover's king, so the move leaves it attacked. */
  lemma KingsNeverAdjacent(b: Board, rt: Rights, s: Square, e: Square, k: Square)
    requires At(b, s).Piece? && At(b, s).kind == King
    requires forall q: Square :: At(b, q) == At(b, s) ==> q == s
    requires At(b, k) == Piece(Opp(At(b, s).color), King)
    requires Max(Abs(e.r - k.r), Abs(e.c - k.c)) == 1
    ensures !IsLegal(b, rt, s, e)
  {
    var col := At(b, s).color;
    if RawMove(b, rt, s, e) {
      var b' := Relocate(b, s, e);
      assert At(b', e) == Piece(col, King);
      FindKingFacts(b', col);
      assert FindKing(b', col) == Some(e);
      assert At(b', k) == Piece(Opp(col), King);
      assert Reaches(b', rt, k, e, Opp(col));
    }
  }

  /** Castling is refused while the king stands attacked: its own square is
      the first square of the path that must be safe. */
  lemma NoCastlingOutOfCheck(b: Board, rt: Rights, s: Square, e: Square)
    requires At(b, s).Piece? && At(b, s).kind == King && Abs(e.c - s.c) == 2
    requires FindKing(b, At(b, s).color) == Some(s)
    requires InCheck(b, rt, At(b, s).color)
    ensures !IsLegal(b, rt, s, e)
  {
    FindKingFacts(b, At(b, s).color);
    assert !CastlePathSafe(b, rt, s, e, Opp(At(b, s).color)) by {
      assert Attacked(b, rt, Pos(s.r, s.c), Opp(At(b, s).color));
    }
  }

  /** A board holding only the two kings on their home squares. */
  function KingsOnly(): (b: Board)
    ensures forall q: Square ::
      At(b, q) == if q == Pos(7, 4) then Piece(White, King) else if q == Pos(0, 4) then Piece(Black, King) else Empty
  {
    Put(Put(seq(8, _ => seq(8, _ => Empty)), Pos(0, 4), Piece(Black, King)), Pos(7, 4), Piece(White, King))
  }

  /** Castling geometry ignores the destination row, so through attack
      detection an unmoved king "attacks" the square two columns away on any
      row. With only the two kings on their home squares and no flag set,
      the black king on e8 reaches g1, and White's king-side castle is
      refused as leaving the king attacked. */
  lemma PhantomCastleAttack()
    ensures var b := KingsOnly();
      var rt := Rights(CastleFlags(false, false, false, false, false, false), None);
      && RawMove(b, rt, Pos(7, 4), Pos(7, 6))
      && Attacked(Relocate(b, Pos(7, 4), Pos(7, 6)), rt, Pos(7, 6), Black)
      && !IsLegal(b, rt, Pos(7, 4), Pos(7, 6))
  {
    var b := KingsOnly();
    var rt := Rights(CastleFlags(false, false, false, false, false, false), None);
    assert b[7][5] == At(b, Pos(7, 5)) && b[7][6] == At(b, Pos(7, 6));
    assert RawMove(b, rt, Pos(7, 4), Pos(7, 6));
    var b' := Relocate(b, Pos(7, 4), Pos(7, 6));
    assert b'[0][5] == At(b', Pos(0, 5)) && b'[0][6] == At(b', Pos(0, 6));
    assert Reaches(b', rt, Pos(0, 4), Pos(7, 6), Black);
    FindKingFacts(b', White);
    assert At(b', Pos(7, 6)) == Piece(White, King);
    assert FindKing(b', White) == Some(Pos(7, 6));
  }

  /** A legal move from `s` to `e` by a piece of colour `col`. */
  ghost predicate LegalFrom(b: Board, rt: Rights, col: Color, s: Square, e: Square)
    requires HasKing(b, col)
  {
    IsColor(At(b, s), col) && IsLegal(b, rt, s, e)
  }

  /** `_has_legal_move`: some piece of colour `col` has a legal move. */
  ghost predicate HasLegalMove(b: Board, rt: Rights, col: Color)
    requires HasKing(b, col)
  {
    exists s: Square, e: Square :: LegalFrom(b, rt, col, s, e)
  }

  /** `_has_legal_move` as the source runs it: four nested loops over start
      and destination squares, stopping at the first legal move. */
  method ScanLegalMove(b: Board, rt: Rights, col: Color) returns (found: bool)
    requires HasKing(b, col)
    ensures found == HasLegalMove(b, rt, col)
  {
    for r0 := 0 to 8
      invariant forall s: Square, e: Square :: Before(s, r0, 0) ==> !LegalFrom(b, rt, col, s, e)
    {
      for c0 := 0 to 8
        invariant forall s: Square, e: Square :: Before(s, r0, c0) ==> !LegalFrom(b, rt, col, s, e)
      {
        if b[r0][c0] != Empty && b[r0][c0].color == col {
          for r1 := 0 to 8
            invariant forall e: Square :: Before(e, r1, 0) ==> !LegalFrom(b, rt, col, Pos(r0, c0), e)
          {
            for c1 := 0 to 8
              invariant forall e: Square :: Before(e, r1, c1) ==> !LegalFrom(b, rt, col, Pos(r0, c0), e)
            {
              var ok := ValidateMove(b, rt, Pos(r0, c0), Pos(r1, c1));
              if ok {
                assert LegalFrom(b, rt, col, Pos(r0, c0), Pos(r1, c1));
                return true;
              }
            }
          }
        }
      }
    }
    return false;
  }

  datatype Status = Ok | Check | Checkmate | Stalemate

  /** `stato_partita`: checkmate when the king is attacked and there is no
      legal move, stalemate when it is not attacked and there is none, check
      when it is attacked and a move exists, otherwise ok. */
  ghost function StatusOf(b: Board, rt: Rights, col: Color): Status
    requires HasKing(b, col)
  {
    var inCheck := InCheck(b, rt, col);
    var hasMove := HasLegalMove(b, rt, col);
    if inCheck && !hasMove then Checkmate
    else if !inCheck && !hasMove then Stalemate
    else if inCheck then Check
    else Ok
  }

  /** `stato_partita` as the source runs it. */
  method GameStatus(b: Board, rt: Rights, col: Color) returns (st: Status)
    requires HasKing(b, col)
    ensures st == StatusOf(b, rt, col)
  {
    var kingSq := LocateKing(b, col);
    FindKingFacts(b, col);
    var inCheck := SquareAttacked(b, rt, kingSq.value, Opp(col));
    var hasMove := ScanLegalMove(b, rt, col);
    if inCheck && !hasMove {
      return Checkmate;
    }
    if !inCheck && !hasMove {
      return Stalemate;
    }
    if inCheck {
      return Check;
    }
    return Ok;
  }
}

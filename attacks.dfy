/** King lookup and attack detection (`_trova_re`, `_square_attacked`). */
module Attacks {
  import opened Chess
  import opened Geometry

  /** `q` comes strictly before row `r`, column `c` in row-major order. */
  predicate Before(q: Pos, r: int, c: int) { q.r < r || (q.r == r && q.c < c) }

  /** The first king of colour `col` at or after (`r`, `c`) in row-major
      order. */
  ghost function ScanKing(b: Board, col: Color, r: int, c: int): Option<Square>
    requires 0 <= r <= 8 && 0 <= c <= 8
    decreases 8 - r, 9 - c
  {
    if r == 8 then None
    else if c == 8 then ScanKing(b, col, r + 1, 0)
    else if b[r][c] == Piece(col, King) then Some(Pos(r, c))
    else ScanKing(b, col, r, c + 1)
  }

  /** `_trova_re`: the first king of colour `col` in row-major order, or
      None when there is none. */
  ghost function FindKing(b: Board, col: Color): Option<Square>
  {
    ScanKing(b, col, 0, 0)
  }

  lemma {:induction false} ScanKingFacts(b: Board, col: Color, r: int, c: int)
    requires 0 <= r <= 8 && 0 <= c <= 8
    ensures var k := ScanKing(b, col, r, c);
      (k.Some? ==>
        && At(b, k.value) == Piece(col, King) && !Before(k.value, r, c)
        && forall q: Square :: !Before(q, r, c) && Before(q, k.value.r, k.value.c) ==> At(b, q) != Piece(col, King)) &&
      (k.None? ==> forall q: Square :: !Before(q, r, c) ==> At(b, q) != Piece(col, King))
    decreases 8 - r, 9 - c
  {
    if r == 8 {
    } else if c == 8 {
      ScanKingFacts(b, col, r + 1, 0);
    } else if b[r][c] == Piece(col, King) {
    } else {
      ScanKingFacts(b, col, r, c + 1);
    }
  }

  /** `_trova_re` finds a king exactly when there is one; what it finds is a
      king of that colour and no king of that colour comes before it. */
  lemma FindKingFacts(b: Board, col: Color)
    ensures FindKing(b, col).Some? <==> HasKing(b, col)
    ensures FindKing(b, col).Some? ==> At(b, FindKing(b, col).value) == Piece(col, King)
    ensures FindKing(b, col).Some? ==> forall q: Square ::
      Before(q, FindKing(b, col).value.r, FindKing(b, col).value.c) ==> At(b, q) != Piece(col, King)
  {
    ScanKingFacts(b, col, 0, 0);
    if FindKing(b, col).Some? {
      assert At(b, FindKing(b, col).value) == Piece(col, King);
    }
  }

  /** `_trova_re` as the source runs it: two nested loops, returning at the
      first king found. */
  method LocateKing(b: Board, col: Color) returns (k: Option<Square>)
    ensures k == FindKing(b, col)
  {
    for r := 0 to 8
      invariant ScanKing(b, col, r, 0) == FindKing(b, col)
    {
      for c := 0 to 8
        invariant ScanKing(b, col, r, c) == FindKing(b, col)
      {
        if b[r][c] == Piece(col, King) {
          return Some(Pos(r, c));
        }
      }
    }
    return None;
  }

  /** The piece on `p` belongs to `attacker` and its raw geometry reaches `sq`. */
  ghost predicate Reaches(b: Board, rt: Rights, p: Square, sq: Square, attacker: Color)
  {
    IsColor(At(b, p), attacker) && RawMove(b, rt, p, sq)
  }

  /** `_square_attacked`: some piece of colour `attacker` has `sq` among its raw
      destinations. */
  ghost predicate Attacked(b: Board, rt: Rights, sq: Square, attacker: Color)
  {
    exists p: Square :: Reaches(b, rt, p, sq, attacker)
  }

  /** `_square_attacked` as the source runs it: scan the board and stop at
      the first attacker. */
  method SquareAttacked(b: Board, rt: Rights, sq: Square, attacker: Color) returns (hit: bool)
    ensures hit == Attacked(b, rt, sq, attacker)
  {
    for r := 0 to 8
      invariant forall p: Square :: Before(p, r, 0) ==> !Reaches(b, rt, p, sq, attacker)
    {
      for c := 0 to 8
        invariant forall p: Square :: Before(p, r, c) ==> !Reaches(b, rt, p, sq, attacker)
      {
        var cell := b[r][c];
        if cell != Empty && cell.color == attacker {
          var reach := CheckRawMove(b, rt, Pos(r, c), sq);
          if reach {
            assert Reaches(b, rt, Pos(r, c), sq, attacker);
            return true;
          }
        }
      }
    }
    return false;
  }

  /** The pawn quirk of attack detection: a pawn reaches a diagonal square
      only when an enemy piece stands there or it is the en-passant target,
      so an empty diagonal square other than the target is never attacked
      by that pawn. */
  lemma PawnDiagonalQuirk(b: Board, rt: Rights, p: Square, sq: Square, attacker: Color)
    requires At(b, p) == Piece(attacker, Pawn)
    requires Abs(sq.c - p.c) == 1 && At(b, sq) == Empty && rt.ep != Some(sq)
    ensures !Reaches(b, rt, p, sq, attacker)
  {
  }
}

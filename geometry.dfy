/** Raw piece geometry: where a piece may go by its movement rules alone,
    ignoring whether the mover's own king is left attacked
    (`_mossa_valida_grezza`, `_direzione_libera`, `_libero`). */
module Geometry {
  import opened Chess

  function Sign(x: int): int { if x > 0 then 1 else if x < 0 then -1 else 0 }

  /** `k * d` for a direction component `d` in {-1, 0, 1}, kept linear. */
  function Mul(k: int, d: int): int { if d > 0 then k else if d < 0 then -k else 0 }

  /** `s` and `e` share a rank, a file or a diagonal. */
  predicate Aligned(s: Pos, e: Pos)
  {
    s.r == e.r || s.c == e.c || Abs(e.r - s.r) == Abs(e.c - s.c)
  }

  /** Number of steps from `s` to `e` along their line. */
  function Dist(s: Pos, e: Pos): nat
  {
    if Abs(e.r - s.r) < Abs(e.c - s.c) then Abs(e.c - s.c) else Abs(e.r - s.r)
  }

  /** The square `k` steps from `s` in the direction of `e`. */
  function Step(s: Pos, e: Pos, k: int): Pos
  {
    Pos(s.r + Mul(k, Sign(e.r - s.r)), s.c + Mul(k, Sign(e.c - s.c)))
  }

  lemma StepFacts(s: Square, e: Square, k: int)
    requires Aligned(s, e) && 0 <= k <= Dist(s, e)
    ensures InBounds(Step(s, e, k))
    ensures Step(s, e, Dist(s, e)) == e
    ensures Step(s, e, k) == e <==> k == Dist(s, e)
  {
  }

  /** The first `k - 1` squares after `s` on the way to `e` are empty. */
  ghost predicate ClearBefore(b: Board, s: Square, e: Square, k: int)
    requires Aligned(s, e) && k <= Dist(s, e) + 1
  {
    forall j | 0 < j < k :: StepFacts(s, e, j); At(b, Step(s, e, j)) == Empty
  }

  /** Every square strictly between `s` and `e` on their line is empty. */
  ghost predicate PathClear(b: Board, s: Square, e: Square)
    requires Aligned(s, e)
  {
    ClearBefore(b, s, e, Dist(s, e))
  }

  /** `_direzione_libera`: walk from `s` towards `e` one square at a time
      and report whether every square before `e` is empty. */
  method DirectionFree(b: Board, s: Square, e: Square) returns (free: bool)
    requires Aligned(s, e)
    ensures free == PathClear(b, s, e)
  {
    var dr, dc := Sign(e.r - s.r), Sign(e.c - s.c);
    var r, c := s.r + dr, s.c + dc;
    ghost var k := 1;
    StepFacts(s, e, 0);
    while Pos(r, c) != e
      invariant Pos(r, c) == Step(s, e, k)
      invariant 1 <= k <= Dist(s, e) || (k == 1 && Dist(s, e) == 0)
      invariant ClearBefore(b, s, e, k)
      decreases Dist(s, e) - k
    {
      StepFacts(s, e, k);
      if b[r][c] != Empty {
        return false;
      }
      r, c := r + dr, c + dc;
      k := k + 1;
    }
    if Dist(s, e) > 0 {
      StepFacts(s, e, k);
    }
    return true;
  }

  /** `_libero`: squares `ca..cb` (inclusive) of row `row` are all empty. */
  predicate RowFree(b: Board, row: int, ca: int, cb: int): (free: bool)
    requires 0 <= row < 8 && 0 <= ca && cb < 8
    ensures cb < ca ==> free
  {
    forall c | ca <= c <= cb :: b[row][c] == Empty
  }

  predicate KnightJump(s: Pos, e: Pos)
  {
    (Abs(e.r - s.r) == 1 && Abs(e.c - s.c) == 2) || (Abs(e.r - s.r) == 2 && Abs(e.c - s.c) == 1)
  }

  /** Pawn geometry for a piece of colour `col` on `s`: one step forward onto
      an empty square, two steps from the home rank over two empty squares,
      or one diagonal step onto an enemy piece or onto the en-passant target. */
  predicate PawnMove(b: Board, ep: Option<Square>, col: Color, s: Square, e: Square)
  {
    var dir := if col == White then -1 else 1;
    var base := if col == White then 6 else 1;
    (s.c == e.c && e.r == s.r + dir && At(b, e) == Empty) ||
    (s.c == e.c && s.r == base && e.r == s.r + 2 * dir && b[s.r + dir][s.c] == Empty && At(b, e) == Empty) ||
    (Abs(e.c - s.c) == 1 && e.r == s.r + dir &&
      ((At(b, e).Piece? && At(b, e).color != col) || ep == Some(e)))
  }

  /** Castling geometry for a king of colour `col` on `s`: on its home rank
      with its own flag clear, two columns towards an unmoved rook with the
      squares in between empty. The destination row and the rook itself are
      not looked at. */
  predicate Castling(b: Board, f: CastleFlags, col: Color, s: Square, e: Square)
  {
    (col == White && s.r == 7 && !f.wKing &&
      ((e.c - s.c == 2 && !f.wRookH && RowFree(b, 7, 5, 6)) ||
       (s.c - e.c == 2 && !f.wRookA && b[7][1] == Empty && b[7][2] == Empty && b[7][3] == Empty))) ||
    (col == Black && s.r == 0 && !f.bKing &&
      ((e.c - s.c == 2 && !f.bRookH && RowFree(b, 0, 5, 6)) ||
       (s.c - e.c == 2 && !f.bRookA && b[0][1] == Empty && b[0][2] == Empty && b[0][3] == Empty)))
  }

  predicate Straight(s: Pos, e: Pos) { s.r == e.r || s.c == e.c }

  predicate Diagonal(s: Pos, e: Pos) { Abs(e.r - s.r) == Abs(e.c - s.c) }

  /** `_mossa_valida_grezza`: the move satisfies the moving piece's geometry.
      It never accepts an empty start square, a destination holding a piece
      of the mover's colour, or (therefore) a null move. */
  ghost predicate RawMove(b: Board, rt: Rights, s: Square, e: Square): (ok: bool)
    ensures ok ==> At(b, s).Piece? && !IsColor(At(b, e), At(b, s).color) && s != e
  {
    match At(b, s)
    case Empty => false
    case Piece(col, tp) =>
      !IsColor(At(b, e), col) &&
      match tp
      case Pawn => PawnMove(b, rt.ep, col, s, e)
      case Rook => Straight(s, e) && PathClear(b, s, e)
      case Knight => KnightJump(s, e)
      case Bishop => Diagonal(s, e) && PathClear(b, s, e)
      case Queen => (Straight(s, e) && PathClear(b, s, e)) || (Diagonal(s, e) && PathClear(b, s, e))
      case King => Castling(b, rt.flags, col, s, e) || Max(Abs(e.r - s.r), Abs(e.c - s.c)) == 1
  }

  /** `_mossa_valida_grezza` as the source runs it, branch by branch. */
  method CheckRawMove(b: Board, rt: Rights, s: Square, e: Square) returns (ok: bool)
    ensures ok == RawMove(b, rt, s, e)
  {
    var piece := At(b, s);
    if piece == Empty {
      return false;
    }
    var col, tp := piece.color, piece.kind;
    var dest := At(b, e);
    if dest != Empty && dest.color == col {
      return false;
    }
    match tp
    case Pawn =>
      ok := PawnMove(b, rt.ep, col, s, e);
    case Rook =>
      if !Straight(s, e) {
        return false;
      }
      ok := DirectionFree(b, s, e);
    case Knight =>
      ok := KnightJump(s, e);
    case Bishop =>
      if !Diagonal(s, e) {
        return false;
      }
      ok := DirectionFree(b, s, e);
    case Queen =>
      var line, diag := false, false;
      if Straight(s, e) {
        line := DirectionFree(b, s, e);
      }
      if Diagonal(s, e) {
        diag := DirectionFree(b, s, e);
      }
      ok := line || diag;
    case King =>
      if Castling(b, rt.flags, col, s, e) {
        return true;
      }
      ok := Max(Abs(e.r - s.r), Abs(e.c - s.c)) == 1;
  }

  /** A rook, bishop or queen cannot pass an occupied square: if any square
      strictly between `s` and `e` holds a piece, the slide is rejected. */
  lemma BlockedSlideRejected(b: Board, rt: Rights, s: Square, e: Square, k: int)
    requires At(b, s).Piece? && At(b, s).kind in {Rook, Bishop, Queen}
    requires Aligned(s, e) && 0 < k < Dist(s, e)
    requires InBounds(Step(s, e, k)) && At(b, Step(s, e, k)) != Empty
    ensures !RawMove(b, rt, s, e)
  {
    StepFacts(s, e, k);
  }
}

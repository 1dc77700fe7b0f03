/** Move execution with history: the mutable game state (`turno`, the six
    castling flags, the en-passant target and the undo history), applying a
    move to the board in place (`esegui_mossa`), taking it back
    (`annulla_mossa`), saving and restoring the replay state
    (`salva_stato_completo`, `ripristina_stato_completo`) and resetting it
    (`reset_completo`). */
module Executor {
  import opened Chess
  import opened Geometry
  import opened Attacks
  import opened Legality

  /** One history entry: the move, what stood on the destination, and the
      en-passant target and castling flags from before the move. */
  datatype UndoRecord = UndoRecord(start: Square, end: Square, captured: Cell, ep: Option<Square>, flags: CastleFlags)

  /** The game state as a value. */
  datatype State = State(turn: Color, flags: CastleFlags, ep: Option<Square>, history: seq<UndoRecord>)

  /** What `salva_stato_completo` keeps: everything but the history itself,
      of which only the length is kept. */
  datatype Saved = Saved(turn: Color, ep: Option<Square>, flags: CastleFlags, historyLen: nat)

  const NoneMoved := CastleFlags(false, false, false, false, false, false)

  function RightsOf(st: State): Rights { Rights(st.flags, st.ep) }

  /** The state at program start and after `reset_completo`: White to move,
      nothing has moved, no en-passant target, empty history. */
  function InitialState(): State { State(White, NoneMoved, None, []) }

  /** The board after `esegui_mossa` has accepted the move: a two-column
      king move castles (the king to column 6 or 2 of its start row, the
      corner rook next to it), a pawn landing on the en-passant target also
      clears the square beside its start, anything else relocates. */
  function MoveBoard(b: Board, ep: Option<Square>, s: Square, e: Square): Board
  {
    var piece := At(b, s);
    if piece.Piece? && piece.kind == King && Abs(e.c - s.c) == 2 then
      if e.c > s.c then
        var b1 := Put(b, Pos(s.r, 6), piece);
        var b2 := Put(b1, Pos(s.r, 5), At(b1, Pos(s.r, 7)));
        Put(Put(b2, Pos(s.r, 7), Empty), s, Empty)
      else
        var b1 := Put(b, Pos(s.r, 2), piece);
        var b2 := Put(b1, Pos(s.r, 3), At(b1, Pos(s.r, 0)));
        Put(Put(b2, Pos(s.r, 0), Empty), s, Empty)
    else if piece.Piece? && piece.kind == Pawn && ep == Some(e) then
      Put(Put(Put(b, e, piece), s, Empty), Pos(s.r, e.c), Empty)
    else
      Relocate(b, s, e)
  }

  /** A king's first move sets its flag; a rook's first move from its corner
      sets that rook's flag. Flags are never cleared. */
  function UpdateFlags(f: CastleFlags, piece: Cell, s: Square): CastleFlags
  {
    CastleFlags(
      f.wKing || piece == Piece(White, King),
      f.bKing || piece == Piece(Black, King),
      f.wRookA || (piece == Piece(White, Rook) && s == Pos(7, 0)),
      f.wRookH || (piece == Piece(White, Rook) && s == Pos(7, 7)),
      f.bRookA || (piece == Piece(Black, Rook) && s == Pos(0, 0)),
      f.bRookH || (piece == Piece(Black, Rook) && s == Pos(0, 7)))
  }

  /** The en-passant target after a move: the square a pawn skipped with a
      two-row advance, otherwise none. */
  function NextEp(piece: Cell, s: Square, e: Square): Option<Square>
  {
    if piece.Piece? && piece.kind == Pawn && Abs(e.r - s.r) == 2 then Some(Pos((s.r + e.r) / 2, s.c)) else None
  }

  /** The game state after `esegui_mossa` has accepted the move. */
  function Executed(b: Board, st: State, s: Square, e: Square): State
  {
    State(Opp(st.turn), UpdateFlags(st.flags, At(b, s), s), NextEp(At(b, s), s, e),
      st.history + [UndoRecord(s, e, At(b, e), st.ep, st.flags)])
  }

  /** `annulla_mossa` reads the moved piece from the destination, or from
      the start when the destination is empty; with both empty it fails. */
  predicate UndoReady(b: Board, rec: UndoRecord)
  {
    At(b, rec.end) != Empty || At(b, rec.start) != Empty
  }

  /** The board after `annulla_mossa` takes back `rec`. */
  function UndoBoard(b: Board, rec: UndoRecord): Board
    requires UndoReady(b, rec)
  {
    var s, e := rec.start, rec.end;
    var piece := if At(b, e) != Empty then At(b, e) else At(b, s);
    if piece.kind == King && Abs(e.c - s.c) == 2 then
      if e.c > s.c then
        var b1 := Put(b, s, piece);
        var b2 := Put(b1, Pos(s.r, 7), At(b1, Pos(s.r, 5)));
        Put(Put(b2, Pos(s.r, 5), Empty), Pos(s.r, 6), Empty)
      else
        var b1 := Put(b, s, piece);
        var b2 := Put(b1, Pos(s.r, 0), At(b1, Pos(s.r, 3)));
        Put(Put(b2, Pos(s.r, 3), Empty), Pos(s.r, 2), Empty)
    else if piece.kind == Pawn && Some(e) == rec.ep && rec.captured == Empty then
      Put(Put(Put(b, s, piece), e, Empty), Pos(s.r, e.c),
        if piece.color == White then Piece(Black, Pawn) else Piece(White, Pawn))
    else
      Put(Put(b, s, piece), e, rec.captured)
  }

  /** The game state after `annulla_mossa` pops the last record. */
  function Undone(st: State): State
    requires st.history != []
  {
    var rec := st.history[|st.history| - 1];
    State(Opp(st.turn), rec.flags, rec.ep, st.history[..|st.history| - 1])
  }

  function Save(st: State): Saved
  {
    Saved(st.turn, st.ep, st.flags, |st.history|)
  }

  function Min(x: int, y: int): int { if x < y then x else y }

  /** The state after `ripristina_stato_completo`: turn, target and flags
      from the saved state, history cut back to the saved length (a longer
      saved length leaves it as it is). */
  function Restored(st: State, sv: Saved): State
  {
    State(sv.turn, sv.flags, sv.ep, st.history[..Min(|st.history|, sv.historyLen)])
  }

  /** The en-passant target is consistent with the board for the side
      `mover` to play: it is empty and the pawn that just skipped it stands
      right behind it. */
  predicate EpConsistent(b: Board, mover: Color, ep: Option<Square>)
  {
    ep.None? ||
    (At(b, ep.value) == Empty &&
     (mover == White ==> ep.value.r == 2 && b[3][ep.value.c] == Piece(Black, Pawn)) &&
     (mover == Black ==> ep.value.r == 5 && b[4][ep.value.c] == Piece(White, Pawn)))
  }

  /** The cases in which the source's undo restores the board exactly:
      castling starts from the king's home column and stays on its row. */
  ghost predicate Undoable(b: Board, st: State, s: Square, e: Square)
  {
    RawMove(b, RightsOf(st), s, e) &&
    EpConsistent(b, At(b, s).color, st.ep) &&
    (At(b, s).kind == King && Abs(e.c - s.c) == 2 ==> s.c == 4 && e.r == s.r)
  }

  lemma CastleShortRoundTrip(b: Board, st: State, s: Square, e: Square)
    requires Undoable(b, st, s, e) && At(b, s).kind == King && e.c - s.c == 2
    ensures UndoReady(MoveBoard(b, st.ep, s, e), UndoRecord(s, e, At(b, e), st.ep, st.flags))
    ensures UndoBoard(MoveBoard(b, st.ep, s, e), UndoRecord(s, e, At(b, e), st.ep, st.flags)) == b
  {
    var b' := MoveBoard(b, st.ep, s, e);
    assert At(b', e) == At(b, s);
    var u := UndoBoard(b', UndoRecord(s, e, At(b, e), st.ep, st.flags));
    forall p: Square ensures At(u, p) == At(b, p) {
    }
    BoardExt(u, b);
  }

  lemma CastleLongRoundTrip(b: Board, st: State, s: Square, e: Square)
    requires Undoable(b, st, s, e) && At(b, s).kind == King && s.c - e.c == 2
    ensures UndoReady(MoveBoard(b, st.ep, s, e), UndoRecord(s, e, At(b, e), st.ep, st.flags))
    ensures UndoBoard(MoveBoard(b, st.ep, s, e), UndoRecord(s, e, At(b, e), st.ep, st.flags)) == b
  {
    var b' := MoveBoard(b, st.ep, s, e);
    assert At(b', e) == At(b, s);
    var u := UndoBoard(b', UndoRecord(s, e, At(b, e), st.ep, st.flags));
    forall p: Square ensures At(u, p) == At(b, p) {
    }
    BoardExt(u, b);
  }

  lemma EnPassantRoundTrip(b: Board, st: State, s: Square, e: Square)
    requires Undoable(b, st, s, e) && At(b, s).kind == Pawn && st.ep == Some(e)
    ensures UndoReady(MoveBoard(b, st.ep, s, e), UndoRecord(s, e, At(b, e), st.ep, st.flags))
    ensures UndoBoard(MoveBoard(b, st.ep, s, e), UndoRecord(s, e, At(b, e), st.ep, st.flags)) == b
  {
    var b' := MoveBoard(b, st.ep, s, e);
    var col := At(b, s).color;
    assert s.r == (if col == White then 3 else 4);
    assert At(b, Pos(s.r, e.c)) == Piece(Opp(col), Pawn);
    assert At(b', e) == At(b, s);
    var u := UndoBoard(b', UndoRecord(s, e, At(b, e), st.ep, st.flags));
    forall p: Square ensures At(u, p) == At(b, p) {
    }
    BoardExt(u, b);
  }

  lemma PlainRoundTrip(b: Board, st: State, s: Square, e: Square)
    requires Undoable(b, st, s, e)
    requires !(At(b, s).kind == King && Abs(e.c - s.c) == 2)
    requires !(At(b, s).kind == Pawn && st.ep == Some(e))
    ensures UndoReady(MoveBoard(b, st.ep, s, e), UndoRecord(s, e, At(b, e), st.ep, st.flags))
    ensures UndoBoard(MoveBoard(b, st.ep, s, e), UndoRecord(s, e, At(b, e), st.ep, st.flags)) == b
  {
    var b' := MoveBoard(b, st.ep, s, e);
    assert At(b', e) == At(b, s);
    var u := UndoBoard(b', UndoRecord(s, e, At(b, e), st.ep, st.flags));
    forall p: Square ensures At(u, p) == At(b, p) {
    }
    BoardExt(u, b);
  }

  /** `annulla_mossa` takes back what `esegui_mossa` did: board, turn,
      castling flags, en-passant target and history all return to what they
      were, for every move the source's undo can reconstruct. */
  lemma UndoAfterMove(b: Board, st: State, s: Square, e: Square)
    requires Undoable(b, st, s, e)
    ensures var st' := Executed(b, st, s, e);
      && st'.history != []
      && UndoReady(MoveBoard(b, st.ep, s, e), st'.history[|st'.history| - 1])
      && UndoBoard(MoveBoard(b, st.ep, s, e), st'.history[|st'.history| - 1]) == b
      && Undone(st') == st
  {
    var st' := Executed(b, st, s, e);
    assert st'.history[|st'.history| - 1] == UndoRecord(s, e, At(b, e), st.ep, st.flags);
    assert st'.history[..|st'.history| - 1] == st.history;
    if At(b, s).kind == King && e.c - s.c == 2 {
      CastleShortRoundTrip(b, st, s, e);
    } else if At(b, s).kind == King && s.c - e.c == 2 {
      CastleLongRoundTrip(b, st, s, e);
    } else if At(b, s).kind == Pawn && st.ep == Some(e) {
      EnPassantRoundTrip(b, st, s, e);
    } else {
      PlainRoundTrip(b, st, s, e);
    }
  }

  /** A move by the side to play keeps the en-passant target consistent for
      the side that plays next. */
  lemma EpConsistentAfterMove(b: Board, st: State, s: Square, e: Square)
    requires RawMove(b, RightsOf(st), s, e) && EpConsistent(b, At(b, s).color, st.ep)
    ensures EpConsistent(MoveBoard(b, st.ep, s, e), Opp(At(b, s).color), NextEp(At(b, s), s, e))
  {
    var piece := At(b, s);
    if NextEp(piece, s, e).Some? {
      assert s.c == e.c && s.r == (if piece.color == White then 6 else 1);
      var b' := MoveBoard(b, st.ep, s, e);
      assert b' == Relocate(b, s, e);
      var mid := Pos((s.r + e.r) / 2, s.c);
      assert At(b', mid) == At(b, mid) == Empty;
      assert At(b', e) == piece;
    }
  }

  /** Castling flags only ever go from clear to set, and moving a king sets
      its own flag. */
  lemma FlagsOnlyRise(f: CastleFlags, piece: Cell, s: Square)
    ensures var f' := UpdateFlags(f, piece, s);
      && (f.wKing ==> f'.wKing) && (f.bKing ==> f'.bKing)
      && (f.wRookA ==> f'.wRookA) && (f.wRookH ==> f'.wRookH)
      && (f.bRookA ==> f'.bRookA) && (f.bRookH ==> f'.bRookH)
      && (piece.Piece? && piece.kind == King ==> (if piece.color == White then f'.wKing else f'.bKing))
      && (piece == Piece(White, Rook) && s == Pos(7, 0) ==> f'.wRookA)
      && (piece == Piece(White, Rook) && s == Pos(7, 7) ==> f'.wRookH)
      && (piece == Piece(Black, Rook) && s == Pos(0, 0) ==> f'.bRookA)
      && (piece == Piece(Black, Rook) && s == Pos(0, 7) ==> f'.bRookH)
      && (piece.Piece? && piece.kind != King && piece.kind != Rook ==> f' == f)
  {
  }

  const AllMoved := CastleFlags(true, true, true, true, true, true)

  /** White Ka5 and Pb5; Black Pc5, Rh5 and Kh8; en-passant target c6. */
  function EnPassantPin(): (b: Board)
    ensures forall q: Square ::
      At(b, q) ==
        if q == Pos(3, 0) then Piece(White, King)
        else if q == Pos(3, 1) then Piece(White, Pawn)
        else if q == Pos(3, 2) then Piece(Black, Pawn)
        else if q == Pos(3, 7) then Piece(Black, Rook)
        else if q == Pos(0, 7) then Piece(Black, King)
        else Empty
  {
    var b0 := seq(8, _ => seq(8, _ => Empty));
    var b1 := Put(Put(b0, Pos(3, 0), Piece(White, King)), Pos(3, 1), Piece(White, Pawn));
    Put(Put(Put(b1, Pos(3, 2), Piece(Black, Pawn)), Pos(3, 7), Piece(Black, Rook)), Pos(0, 7), Piece(Black, King))
  }

  /** Before bxc6 e.p. both kings are on the board and Black is not in
      check: neither white piece reaches h8. */
  lemma EnPassantPinReady()
    ensures var b := EnPassantPin();
      && HasKing(b, White) && HasKing(b, Black)
      && !InCheck(b, Rights(AllMoved, Some(Pos(2, 2))), Black)
  {
    var b := EnPassantPin();
    var rt := Rights(AllMoved, Some(Pos(2, 2)));
    assert At(b, Pos(3, 0)) == Piece(White, King) && At(b, Pos(0, 7)) == Piece(Black, King);
    FindKingFacts(b, Black);
    assert FindKing(b, Black) == Some(Pos(0, 7));
    forall p: Square
      ensures !Reaches(b, rt, p, Pos(0, 7), White)
    {
    }
  }

  /** bxc6 e.p. is legal: on the relocated board the black pawn on c5 still
      shields the white king on a5 from the rook on h5. */
  lemma EnPassantPinLegal()
    ensures HasKing(EnPassantPin(), White)
    ensures IsLegal(EnPassantPin(), Rights(AllMoved, Some(Pos(2, 2))), Pos(3, 1), Pos(2, 2))
  {
    var b := EnPassantPin();
    var rt := Rights(AllMoved, Some(Pos(2, 2)));
    var s, e := Pos(3, 1), Pos(2, 2);
    assert At(b, Pos(3, 0)) == Piece(White, King);
    assert RawMove(b, rt, s, e);
    var r := Relocate(b, s, e);
    FindKingFacts(r, White);
    assert At(r, Pos(3, 0)) == Piece(White, King);
    assert FindKing(r, White) == Some(Pos(3, 0));
    forall p: Square
      ensures !Reaches(r, rt, p, Pos(3, 0), Black)
    {
      if p == Pos(3, 7) {
        assert At(r, Step(p, Pos(3, 0), 5)) != Empty;
        BlockedSlideRejected(r, rt, p, Pos(3, 0), 5);
      }
    }
    assert !IsCastleShape(b, s, e);
  }

  /** The executed capture also empties c5, so the rook on h5 attacks the
      white king along the fifth rank. */
  lemma EnPassantPinCheck()
    ensures var b' := MoveBoard(EnPassantPin(), Some(Pos(2, 2)), Pos(3, 1), Pos(2, 2));
      HasKing(b', White) && InCheck(b', Rights(AllMoved, None), White)
  {
    var b := EnPassantPin();
    var s, e := Pos(3, 1), Pos(2, 2);
    var b' := MoveBoard(b, Some(e), s, e);
    var rt' := Rights(AllMoved, None);
    assert forall q: Square :: At(b', q) == if q == s || q == Pos(3, 2) then Empty else if q == e then Piece(White, Pawn) else At(b, q);
    FindKingFacts(b', White);
    assert At(b', Pos(3, 0)) == Piece(White, King);
    assert FindKing(b', White) == Some(Pos(3, 0));
    assert PathClear(b', Pos(3, 7), Pos(3, 0));
    assert Reaches(b', rt', Pos(3, 7), Pos(3, 0), Black);
  }

  /** Legality is judged on a plain relocation, but `esegui_mossa` also
      removes the pawn taken en passant. From a position where both kings
      stand and Black is not in check, the legal capture bxc6 e.p. leaves
      White's own king attacked by the rook on h5. */
  lemma EnPassantDiscoveredCheck()
    ensures var b := EnPassantPin();
      var st := State(White, AllMoved, Some(Pos(2, 2)), []);
      var b' := MoveBoard(b, st.ep, Pos(3, 1), Pos(2, 2));
      var st' := Executed(b, st, Pos(3, 1), Pos(2, 2));
      && HasKing(b, White) && HasKing(b, Black) && !InCheck(b, RightsOf(st), Black)
      && IsLegal(b, RightsOf(st), Pos(3, 1), Pos(2, 2))
      && HasKing(b', White) && InCheck(b', RightsOf(st'), White)
  {
    EnPassantPinReady();
    EnPassantPinLegal();
    EnPassantPinCheck();
    var st := State(White, AllMoved, Some(Pos(2, 2)), []);
    assert RightsOf(Executed(EnPassantPin(), st, Pos(3, 1), Pos(2, 2))) == Rights(AllMoved, None);
  }

  /** No piece of the starting layout reaches the enemy king's home square:
      pawns, knights and the king move at most two rows, and no rook,
      bishop or queen shares a line with it. The verdict depends only on
      the piece on `p`, so it holds on any board that agrees there. */
  lemma InitialPieceNoReach(b: Board, rt: Rights, p: Square, attacker: Color)
    requires At(b, p) == At(InitialBoard(), p) || !IsColor(At(b, p), attacker)
    ensures !Reaches(b, rt, p, Pos(if attacker == White then 0 else 7, 4), attacker)
  {
    if IsColor(At(b, p), attacker) {
      if p.r == 0 {
        assert At(b, p) == InitialBoard()[0][p.c];
      } else if p.r == 7 {
        assert At(b, p) == InitialBoard()[7][p.c];
      } else {
        assert p.r == 1 || p.r == 6;
      }
    }
  }

  /** Neither king is attacked in the starting position. */
  lemma InitialNoCheck(col: Color)
    ensures HasKing(InitialBoard(), col)
    ensures !InCheck(InitialBoard(), RightsOf(InitialState()), col)
  {
    var b := InitialBoard();
    var k := Pos(if col == White then 7 else 0, 4);
    assert At(b, k) == Piece(col, King);
    FindKingFacts(b, col);
    assert FindKing(b, col) == Some(k);
    forall p: Square
      ensures !Reaches(b, RightsOf(InitialState()), p, k, Opp(col))
    {
      InitialPieceNoReach(b, RightsOf(InitialState()), p, Opp(col));
    }
  }

  /** The knight on b1 (for White) or b8 (for Black) may jump to c3 or c6:
      the jump leaves the own king unattacked. */
  lemma InitialKnightMove(col: Color)
    ensures HasKing(InitialBoard(), col)
    ensures var r := if col == White then 7 else 0;
      var d := if col == White then 5 else 2;
      LegalFrom(InitialBoard(), RightsOf(InitialState()), col, Pos(r, 1), Pos(d, 2))
  {
    var b := InitialBoard();
    var rt := RightsOf(InitialState());
    var r := if col == White then 7 else 0;
    var s, e := Pos(r, 1), Pos(if col == White then 5 else 2, 2);
    var k := Pos(r, 4);
    assert At(b, k) == Piece(col, King);
    assert At(b, s) == Piece(col, Knight) && At(b, e) == Empty;
    assert RawMove(b, rt, s, e);
    var b' := Relocate(b, s, e);
    assert At(b', k) == Piece(col, King);
    FindKingFacts(b', col);
    assert FindKing(b', col) == Some(k);
    forall p: Square
      ensures !Reaches(b', rt, p, k, Opp(col))
    {
      InitialPieceNoReach(b', rt, p, Opp(col));
    }
  }

  /** `stato_partita` reports the starting position as ordinary play for
      both colours: no check, and a legal move exists. */
  lemma InitialStatusOk(col: Color)
    ensures HasKing(InitialBoard(), col)
    ensures StatusOf(InitialBoard(), RightsOf(InitialState()), col) == Ok
  {
    InitialNoCheck(col);
    InitialKnightMove(col);
  }

  /** Once a king has moved, its side can never castle again: a two-column
      king move fails raw geometry. */
  lemma NoCastlingAfterKingMoved(b: Board, rt: Rights, s: Square, e: Square)
    requires At(b, s).Piece? && At(b, s).kind == King && Abs(e.c - s.c) == 2
    requires if At(b, s).color == White then rt.flags.wKing else rt.flags.bKing
    ensures !RawMove(b, rt, s, e)
  {
  }

  /** Restoring a saved state after any number of further moves (which only
      extend the history) gives back exactly the saved state. */
  lemma RestoreAfterSave(st: State, later: State)
    requires st.history <= later.history
    ensures Restored(later, Save(st)) == st
  {
    assert later.history[..|st.history|] == st.history;
  }

  /** The board held in a row-major 8x8 array, as a value. */
  function Snapshot(a: array2<Cell>): Board
    requires a.Length0 == 8 && a.Length1 == 8
    reads a
  {
    seq(8, r requires 0 <= r < 8 reads a => seq(8, c requires 0 <= c < 8 reads a => a[r, c]))
  }

  /** One assignment `board[r][c] = v`. */
  method SetCell(a: array2<Cell>, p: Square, v: Cell)
    requires a.Length0 == 8 && a.Length1 == 8
    modifies a
    ensures Snapshot(a) == Put(old(Snapshot(a)), p, v)
  {
    a[p.r, p.c] := v;
    BoardExt(Snapshot(a), Put(old(Snapshot(a)), p, v));
  }

  /** The board half of `esegui_mossa`, once the move is accepted. */
  method MoveOnBoard(board: array2<Cell>, ep: Option<Square>, s: Square, e: Square)
    requires board.Length0 == 8 && board.Length1 == 8
    requires board[s.r, s.c] != Empty
    modifies board
    ensures Snapshot(board) == MoveBoard(old(Snapshot(board)), ep, s, e)
  {
    var piece := board[s.r, s.c];
    if piece.kind == King && Abs(e.c - s.c) == 2 {
      if e.c > s.c {
        SetCell(board, Pos(s.r, 6), piece);
        var rook := board[s.r, 7];
        SetCell(board, Pos(s.r, 5), rook);
        SetCell(board, Pos(s.r, 7), Empty);
        SetCell(board, s, Empty);
      } else {
        SetCell(board, Pos(s.r, 2), piece);
        var rook := board[s.r, 0];
        SetCell(board, Pos(s.r, 3), rook);
        SetCell(board, Pos(s.r, 0), Empty);
        SetCell(board, s, Empty);
      }
    } else if piece.kind == Pawn && ep == Some(e) {
      SetCell(board, e, piece);
      SetCell(board, s, Empty);
      SetCell(board, Pos(s.r, e.c), Empty);
    } else {
      SetCell(board, e, piece);
      SetCell(board, s, Empty);
    }
  }

  /** The board half of `annulla_mossa` for the popped record `rec`. */
  method UndoOnBoard(board: array2<Cell>, rec: UndoRecord)
    requires board.Length0 == 8 && board.Length1 == 8
    requires UndoReady(Snapshot(board), rec)
    modifies board
    ensures Snapshot(board) == UndoBoard(old(Snapshot(board)), rec)
  {
    var s, e := rec.start, rec.end;
    var piece := if board[e.r, e.c] != Empty then board[e.r, e.c] else board[s.r, s.c];
    if piece.kind == King && Abs(e.c - s.c) == 2 {
      if e.c > s.c {
        SetCell(board, s, piece);
        var rook := board[s.r, 5];
        SetCell(board, Pos(s.r, 7), rook);
        SetCell(board, Pos(s.r, 5), Empty);
        SetCell(board, Pos(s.r, 6), Empty);
      } else {
        SetCell(board, s, piece);
        var rook := board[s.r, 3];
        SetCell(board, Pos(s.r, 0), rook);
        SetCell(board, Pos(s.r, 3), Empty);
        SetCell(board, Pos(s.r, 2), Empty);
      }
    } else if piece.kind == Pawn && Some(e) == rec.ep && rec.captured == Empty {
      SetCell(board, s, piece);
      SetCell(board, e, Empty);
      SetCell(board, Pos(s.r, e.c), if piece.color == White then Piece(Black, Pawn) else Piece(White, Pawn));
    } else {
      SetCell(board, s, piece);
      SetCell(board, e, rec.captured);
    }
  }

  /** The engine's global game state. */
  class GameState {
    var turn: Color
    var wKingMoved: bool
    var bKingMoved: bool
    var wRookAMoved: bool
    var wRookHMoved: bool
    var bRookAMoved: bool
    var bRookHMoved: bool
    var epTarget: Option<Square>
    var history: seq<UndoRecord>

    function Flags(): CastleFlags
      reads this
    {
      CastleFlags(wKingMoved, bKingMoved, wRookAMoved, wRookHMoved, bRookAMoved, bRookHMoved)
    }

    function Value(): State
      reads this
    {
      State(turn, Flags(), epTarget, history)
    }

    constructor ()
      ensures Value() == InitialState()
    {
      turn := White;
      wKingMoved, bKingMoved := false, false;
      wRookAMoved, wRookHMoved := false, false;
      bRookAMoved, bRookHMoved := false, false;
      epTarget := None;
      history := [];
    }

    /** `reset_completo`: back to the initial state (the board is not
        touched). */
    method Reset()
      modifies this
      ensures Value() == InitialState()
    {
      history := [];
      turn := White;
      epTarget := None;
      wKingMoved, bKingMoved := false, false;
      wRookAMoved, wRookHMoved := false, false;
      bRookAMoved, bRookHMoved := false, false;
    }

    /** `esegui_mossa`: a move that `mossa_valida` refuses changes nothing
        and reports false; otherwise the history gains a record, the board
        changes as `MoveBoard` says, the flags and the en-passant target are
        updated and the turn passes. The turn is not checked. */
    method ApplyMove(board: array2<Cell>, s: Square, e: Square) returns (ok: bool)
      requires board.Length0 == 8 && board.Length1 == 8
      requires RawMove(Snapshot(board), Rights(Flags(), epTarget), s, e) ==>
        HasKing(Snapshot(board), At(Snapshot(board), s).color)
      modifies this, board
      ensures ok == IsLegal(old(Snapshot(board)), old(RightsOf(Value())), s, e)
      ensures ok ==> Snapshot(board) == MoveBoard(old(Snapshot(board)), old(epTarget), s, e)
      ensures ok ==> Value() == Executed(old(Snapshot(board)), old(Value()), s, e)
      ensures !ok ==> Snapshot(board) == old(Snapshot(board)) && Value() == old(Value())
    {
      var b := Snapshot(board);
      ok := ValidateMove(b, Rights(Flags(), epTarget), s, e);
      if ok {
        Commit(board, s, e);
      }
    }

    /** The part of `esegui_mossa` after the move has been accepted. */
    method Commit(board: array2<Cell>, s: Square, e: Square)
      requires board.Length0 == 8 && board.Length1 == 8
      requires board[s.r, s.c] != Empty
      modifies this, board
      ensures Snapshot(board) == MoveBoard(old(Snapshot(board)), old(epTarget), s, e)
      ensures Value() == Executed(old(Snapshot(board)), old(Value()), s, e)
    {
      var piece := board[s.r, s.c];
      var dest := board[e.r, e.c];
      MoveOnBoard(board, epTarget, s, e);
      ghost var after := Snapshot(board);
      Advance(piece, dest, s, e);
      assert Snapshot(board) == after;
    }

    /** The state updates of `esegui_mossa` once `piece` has gone from `s`
        to `e` over `dest`: the history record, the flags, the new
        en-passant target and the turn. */
    method Advance(piece: Cell, dest: Cell, s: Square, e: Square)
      requires piece != Empty
      modifies this
      ensures Value() == State(Opp(old(turn)), UpdateFlags(old(Flags()), piece, s), NextEp(piece, s, e),
                               old(history) + [UndoRecord(s, e, dest, old(epTarget), old(Flags()))])
    {
      history := history + [UndoRecord(s, e, dest, epTarget, Flags())];
      MarkMoved(piece, s);
      epTarget := if piece.kind == Pawn && Abs(e.r - s.r) == 2 then Some(Pos((s.r + e.r) / 2, s.c)) else None;
      turn := Opp(turn);
    }

    /** The flag updates of `esegui_mossa` for `piece` leaving `s`. */
    method MarkMoved(piece: Cell, s: Square)
      modifies this
      ensures Flags() == UpdateFlags(old(Flags()), piece, s)
      ensures turn == old(turn) && epTarget == old(epTarget) && history == old(history)
    {
      if piece == Piece(White, King) { wKingMoved := true; }
      if piece == Piece(Black, King) { bKingMoved := true; }
      if piece == Piece(White, Rook) && s == Pos(7, 0) { wRookAMoved := true; }
      if piece == Piece(White, Rook) && s == Pos(7, 7) { wRookHMoved := true; }
      if piece == Piece(Black, Rook) && s == Pos(0, 0) { bRookAMoved := true; }
      if piece == Piece(Black, Rook) && s == Pos(0, 7) { bRookHMoved := true; }
    }

    /** `annulla_mossa`: with an empty history nothing happens; otherwise
        the last record is popped, the board is put back as `UndoBoard`
        says, target and flags come from the record and the turn passes
        back. */
    method UndoMove(board: array2<Cell>)
      requires board.Length0 == 8 && board.Length1 == 8
      requires history != [] ==> UndoReady(Snapshot(board), history[|history| - 1])
      modifies this, board
      ensures old(history) == [] ==> Snapshot(board) == old(Snapshot(board)) && Value() == old(Value())
      ensures old(history) != [] ==>
        Snapshot(board) == UndoBoard(old(Snapshot(board)), old(history[|history| - 1])) &&
        Value() == Undone(old(Value()))
    {
      if history == [] {
        return;
      }
      var rec := history[|history| - 1];
      history := history[..|history| - 1];
      UndoOnBoard(board, rec);
      ghost var after := Snapshot(board);
      SetRights(rec.ep, rec.flags);
      turn := Opp(turn);
      assert Snapshot(board) == after;
    }

    /** Put back an en-passant target and the six "has moved" flags. */
    method SetRights(ep: Option<Square>, flags: CastleFlags)
      modifies this
      ensures epTarget == ep && Flags() == flags
      ensures turn == old(turn) && history == old(history)
    {
      epTarget := ep;
      wKingMoved, bKingMoved := flags.wKing, flags.bKing;
      wRookAMoved, wRookHMoved := flags.wRookA, flags.wRookH;
      bRookAMoved, bRookHMoved := flags.bRookA, flags.bRookH;
    }

    /** `salva_stato_completo`. */
    method SaveState() returns (sv: Saved)
      ensures sv == Save(Value())
    {
      sv := Saved(turn, epTarget, Flags(), |history|);
    }

    /** `ripristina_stato_completo`: copy the saved fields back, then pop
        records while the history is longer than the saved length. */
    method RestoreState(sv: Saved)
      modifies this
      ensures Value() == Restored(old(Value()), sv)
    {
      turn := sv.turn;
      SetRights(sv.ep, sv.flags);
      while |history| > sv.historyLen
        invariant turn == sv.turn && epTarget == sv.ep && Flags() == sv.flags
        invariant history == old(history)[..|history|]
        invariant |history| >= Min(|old(history)|, sv.historyLen)
        decreases |history|
      {
        history := history[..|history| - 1];
      }
    }
  }

  /** A move followed by its undo on the live state leaves board and game
      state as they were. */
  method ApplyThenUndo(g: GameState, board: array2<Cell>, s: Square, e: Square) returns (ok: bool)
    requires board.Length0 == 8 && board.Length1 == 8
    requires Undoable(Snapshot(board), g.Value(), s, e)
    requires HasKing(Snapshot(board), At(Snapshot(board), s).color)
    modifies g, board
    ensures Snapshot(board) == old(Snapshot(board)) && g.Value() == old(g.Value())
  {
    ghost var b0, st0 := Snapshot(board), g.Value();
    ok := g.ApplyMove(board, s, e);
    if ok {
      UndoAfterMove(b0, st0, s, e);
      g.UndoMove(board);
    }
  }
}

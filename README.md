# Chess rules engine and minimax bot, modelled in Dafny

This project models the core of a small teaching chess program. It has two parts.

**The rules engine (`chess_core.py`).**

- **Raw geometry:** `_mossa_valida_grezza`, with `_direzione_libera` and `_libero`.
- **Attack detection:** `_square_attacked` and `_trova_re`.
- **King-safe legality:** `mossa_valida`.
- **Executor with undo:** `esegui_mossa` and `annulla_mossa` work on the board and on the global game state. That state is `turno`, six "has moved" flags, `en_passant_target` and the `storico_mosse` history.
- **Status:** `_has_legal_move` and `stato_partita`.
- **Replay state:** `salva_stato_completo`, `ripristina_stato_completo` and `reset_completo`.
- **Notation:** `converti_mossa_notazione`.

**The bot (`bot.py`).**

- The material plus piece-square evaluator `valuta_posizione`, with its tables.
- The move generator `_tutte_mosse_pezzo` and `lista_mosse_valide`.
- The MVV-LVA and centrality orderer `ordina_mosse`.
- The depth-limited alpha-beta `minimax`.
- The root chooser `scegli_mossa_bot`.

## Files

| File | Module | Models |
|---|---|---|
| `board.dfy` | `Chess` | Colours, piece kinds, cells, squares, the 8x8 board, moves, castling flags and the starting position. |
| `geometry.dfy` | `Geometry` | Raw move geometry. |
| `attacks.dfy` | `Attacks` | King lookup and attack detection. |
| `legality.dfy` | `Legality` | `mossa_valida`, `_has_legal_move` and `stato_partita`. |
| `executor.dfy` | `Executor` | The board in place as an `array2`, and the global state as the class `GameState`. |
| `notation.dfy` | `Notation` | The move labeller. |
| `evaluation.dfy` | `Evaluation` | The evaluator. |
| `movegen.dfy` | `MoveGen` | The move generator. |
| `ordering.dfy` | `Ordering` | The orderer. |
| `search.dfy` | `Search` | `minimax` and `scegli_mossa_bot`. |

Each loop of the source is a `method` proved against a specification function.

- `DirectionFree` is proved against `PathClear`, and `SquareAttacked` against `Attacked`.
- `ValidateMove` is proved against `IsLegal`, and `CollectLegalMoves` against `LegalMoves`.
- `Minimax` is proved against `AlphaBeta`, and `ChooseMove` against `MinimaxChoice`.

The lemmas then relate those specification functions to the rules and promises around them:

- alpha-beta agrees with plain minimax;
- the generator lists exactly the legal moves;
- the ordering is a stable sort;
- undo reverses a move;
- the evaluator is zero-sum.

Quirks of the source that the model keeps:

- A pawn "reaches" a diagonal square only if an enemy piece stands there or it is the en-passant target. So attack detection does not see pawn cover of empty squares.
- Castling geometry does not look at the destination row or at the rook itself.
- The executor castles on the start row.
- `esegui_mossa` does not check whose turn it is.
- Search children are made by plain relocation. They keep the real game's castling flags and en-passant target at every depth.
- An unmoved king standing anywhere on its home row "attacks" a square two columns away on any row, provided the matching rook flag is clear. It reaches two columns to the right when f and g of its home row are empty, and two columns to the left when b, c and d are empty. This is because castling geometry ignores the king's column and the destination row, and attack detection reuses raw geometry. So while Black's king-side castle is open, with the black king on e8, White's king can neither castle king-side nor stand on any square of the g-file. `Legality.PhantomCastleAttack` shows the castling case with only the two kings on the board.
- Legality is judged on a plain relocation, but `esegui_mossa` also removes the pawn taken en passant (chess_core.py:161-163). So a legal en-passant capture can uncover an attack along the rank on the capturer's own king. `Executor.EnPassantDiscoveredCheck` shows this with White Ka5 and Pb5 against Black Pc5, Rh5 and Kh8, the target being c6: after bxc6 e.p. the rook on h5 attacks the white king. In the source the bot, now to move, searches the king capture, and that child's `stato_partita` fails on the missing king. The search model excludes such positions by its requirement.
- The king table is shared by both colours without mirroring, so the starting position scores +50 for White.
- The documentation of `converti_mossa_notazione` (chess_core.py:298-300) gives "e2-e4" as an example. The code writes a pawn push as the destination alone ("e4"), and the model follows the code.

## Model

| member | source | states |
|---|---|---|
| `Chess.Put` | chess_core.py:134-135 | Writing one cell changes that square and no other. |
| `Chess.InitialBoard` | chess_core.py:20-27 | The white king stands on (7,4) and the black king on (0,4). The full census of the starting board is stated by `Chess.InitialBoardCensus`. |
| `Chess.Relocate` | chess_core.py:132-135 | After `_applica_mossa_raw` the start square is empty and the destination holds the moved piece. Every other square is unchanged. |
| `Chess.InitialBoardCensus` | chess_core.py:20-27 | The starting board has 16 pieces and 8 pawns of each colour, the white king on (7,4) and the black king on (0,4). |
| `Geometry.DirectionFree` | chess_core.py:30-37 | The walk returns true exactly when every square strictly between start and end on their line is empty. |
| `Geometry.RowFree` | chess_core.py:39-40 | `_libero` is true on an empty column range, like Python's `all` on an empty generator. Otherwise it holds when every square from `ca` to `cb` inclusive is empty; `Geometry.CheckRawMove` and `Legality.PhantomCastleAttack` use it for castling. |
| `Geometry.RawMove` | chess_core.py:61-67 | Raw geometry never accepts an empty start square, a destination holding the mover's colour, or a null move. |
| `Geometry.CheckRawMove` | chess_core.py:61-109 | The branch-by-branch check agrees with the raw-geometry rule for every piece kind. That includes the diagonal-pawn and castling quirks. |
| `Geometry.BlockedSlideRejected` | chess_core.py:83-97 | A rook, bishop or queen move with any occupied square strictly between start and end is rejected. |
| `Attacks.FindKingFacts` | chess_core.py:43-48 | `_trova_re` finds a king exactly when one is on the board. The square found holds that king, and no king of that colour comes earlier in row-major order. |
| `Attacks.LocateKing` | chess_core.py:43-48 | The nested scan returns the first king of the colour, or None. |
| `Attacks.SquareAttacked` | chess_core.py:50-58 | The scan returns true exactly when some piece of the attacker's colour reaches the square by raw geometry. |
| `Attacks.PawnDiagonalQuirk` | chess_core.py:78-81 | A pawn never reaches an empty diagonal square other than the en-passant target. |
| `Legality.RelocateKeepsKing` | chess_core.py:116-119 | After relocating a raw-valid move on the copy, the mover's king is still on the board, so `_trova_re` finds it. |
| `Legality.IsLegal` | chess_core.py:112-130 | A legal move passes raw geometry. It does not leave the mover's king attacked after relocation. For a two-column king move, no square of the row from start to end inclusive is attacked before the move. |
| `Legality.ValidateMove` | chess_core.py:112-130 | `mossa_valida` as run (raw check, copy, king lookup, attack test, castling walk) decides exactly the legality rule. The input board is a value and is never changed. |
| `Legality.CastlePathClear` | chess_core.py:125-129 | The castling walk succeeds exactly when no column from start to end inclusive is attacked on the pre-move board. |
| `Legality.KingsNeverAdjacent` | chess_core.py:112-121 | A king move next to the enemy king is never legal. |
| `Legality.NoCastlingOutOfCheck` | chess_core.py:125-129 | A king in check cannot castle. |
| `Legality.PhantomCastleAttack` | chess_core.py:104-105 | On a board with only the two kings at home and no flag set, White's king-side castle passes raw geometry. The black king on e8 "reaches" g1 through its own castling geometry, so the castle is refused. |
| `Legality.ScanLegalMove` | chess_core.py:216-224 | The four nested loops return true exactly when some piece of the colour has a legal move. |
| `Legality.GameStatus` | chess_core.py:226-233 | The result is checkmate, stalemate, check or ok, from whether the king is attacked and whether a legal move exists, in the source's order. |
| `MoveGen.PieceDestinations` | bot.py:137-144 | The loop returns the row-major list of the piece's legal destinations. |
| `MoveGen.DestinationsExact` | bot.py:137-144 | That list holds exactly the legal destinations of the piece, each once, in increasing row-major order. |
| `MoveGen.CollectLegalMoves` | bot.py:147-156 | The loops return the generator's list: moves by start square in row-major order, then by destination. |
| `MoveGen.LegalMovesExact` | bot.py:147-156 | The generator lists exactly the legal moves from squares of the colour, each once, strictly increasing by (start, destination). |
| `MoveGen.NoMovesIffNoLegalMove` | chess_core.py:216-224 | The generator's list is empty exactly when `_has_legal_move` is false. |
| `MoveGen.StatusByMoveList` | chess_core.py:226-233 | Checkmate iff no move is generated and the king is attacked. Stalemate iff no move and not attacked. Check iff there are moves and it is attacked. Ok iff there are moves and it is not attacked. |
| `Notation.ParseSquareName` | chess_core.py:307-308 | A square name reads back as the square it names, with row 0 written as rank 8. |
| `Notation.MoveNotation` | chess_core.py:297-329 | Every label is 2 to 5 characters long. Its exact shape is stated by `Notation.NotationDescribesMove`, `Notation.CastlingNotation` and `Notation.UnknownOnlyForEmpty`. |
| `Notation.NotationDescribesMove` | chess_core.py:319-329 | Outside castling, the label fixes every character. Its length is 4 on a capture, 2 for a pawn push and 3 for any other move. The last two characters name the destination, and "x" appears exactly on a capture. A pawn capture starts with the start file and "x". Any other piece starts with its letter, followed by "x" on a capture. |
| `Notation.CastlingNotation` | chess_core.py:315-317 | A two-column king move is "O-O" towards the h-file and "O-O-O" towards the a-file, whatever the destination row. |
| `Notation.UnknownOnlyForEmpty` | chess_core.py:310-311 | "???" is produced exactly for an empty start square. |
| `Evaluation.PawnTableRotated` | bot.py:25 | Black's pawn table is White's turned by 180 degrees. |
| `Evaluation.EvaluatePosition` | bot.py:97-130 | The accumulator loop computes the sum over all squares of material plus table bonus, counted for the point-of-view colour and against the other. |
| `Evaluation.ScoreZeroSum` | bot.py:97-130 | The score for White is the negation of the score for Black on every board. |
| `Evaluation.EmptyBoardScore` | bot.py:104-108 | A board with no pieces scores 0. |
| `Evaluation.InitialPositionScore` | bot.py:87-94 | The starting position scores +50 for White and -50 for Black, because the king table is shared unmirrored. |
| `Ordering.Centrality` | bot.py:178-181 | The centrality term lies in 0..12, and it is 12 exactly on the four central squares. |
| `Ordering.CentralityIsExact` | bot.py:179-181 | The floating-point term `(7 - (abs(3.5-r) + abs(3.5-c))) * 2` equals the integer centrality exactly. |
| `Ordering.MoveScore` | bot.py:166-183 | A move to an empty square scores 0..12. A capture by any piece but the king scores above 12, so it always ranks before every quiet move. |
| `Ordering.OrderMoves` | bot.py:159-185 | `ordina_mosse` keeps every move scorable. The sort is stated by `Ordering.OrderMovesSorts` (a permutation, sorted by score) and `Ordering.OrderKeepsTies` (stable). |
| `Ordering.OrderMovesSorts` | bot.py:159-185 | The ordered list is a permutation (same multiset) of the generator's list, and its scores are non-increasing. |
| `Ordering.OrderKeepsTies` | bot.py:185 | The sort is stable: for each score, moves with that score keep their generator order. |
| `Executor.MoveOnBoard` | chess_core.py:152-166 | The in-place board writes of `esegui_mossa` produce the castling, en-passant or plain relocation board. |
| `Executor.UndoOnBoard` | chess_core.py:194-207 | The in-place board writes of `annulla_mossa` produce the undo board for the popped record. |
| `Executor.CastleShortRoundTrip` | chess_core.py:197-199 | Undoing a king-side castle from the king's home column restores king and rook exactly. |
| `Executor.CastleLongRoundTrip` | chess_core.py:200-201 | Undoing a queen-side castle from the king's home column restores king and rook exactly. |
| `Executor.EnPassantRoundTrip` | chess_core.py:202-205 | Undoing an en-passant capture puts back the mover and the captured pawn beside its start. |
| `Executor.PlainRoundTrip` | chess_core.py:206-207 | Undoing any other move puts back the mover and what stood on the destination. |
| `Executor.UndoAfterMove` | chess_core.py:188-213 | After a move the undo can reconstruct, undo gives back the board, turn, flags, en-passant target and history exactly. |
| `Executor.EpConsistentAfterMove` | chess_core.py:182 | The en-passant target set by a double pawn push is empty, with the pushed pawn right behind it. This is the state that makes the next undo exact. |
| `Executor.FlagsOnlyRise` | chess_core.py:169-174 | Moved flags only ever go from false to true. Moving a king sets its own flag, and moving a rook from its corner sets that corner's flag. A move by any other kind of piece leaves the flags unchanged. |
| `Executor.EnPassantDiscoveredCheck` | chess_core.py:112-163 | Legality is judged on a plain relocation, while the executor also removes the captured pawn. There is a position with both kings on the board and Black not in check in which bxc6 e.p. is legal, yet after the executed capture White's own king is attacked. |
| `Executor.InitialStatusOk` | chess_core.py:226-233 | In the starting position `stato_partita` reports "ok" for both colours: the king is not attacked, and the knight jump to c3 or c6 is a legal move. So the phantom castling attack causes no false check at the start. |
| `Executor.NoCastlingAfterKingMoved` | chess_core.py:101-106 | Once a king's flag is set, no two-column move of that king passes raw geometry. |
| `Executor.RestoreAfterSave` | chess_core.py:254-275 | Restoring a save after moves that only extended the history gives back exactly the saved turn, target, flags and history. |
| `Executor.GameState.constructor` | chess_core.py:8-17 | The initial game state: White to move, no flag set, no en-passant target, empty history. |
| `Executor.GameState.Reset` | chess_core.py:278-289 | `reset_completo` returns to the initial game state. |
| `Executor.GameState.ApplyMove` | chess_core.py:138-185 | A move `mossa_valida` rejects returns false and changes neither board nor state. Otherwise board and state become the executed ones: one more history record, flags updated, new en-passant target, turn passed. |
| `Executor.GameState.Commit` | chess_core.py:143-185 | The accepted-move part of `esegui_mossa` sets board and state to the executed ones. |
| `Executor.GameState.Advance` | chess_core.py:147-184 | The history gains exactly the record of the move. Flags are updated, the target becomes the skipped square of a double pawn push or none, and the turn flips. |
| `Executor.GameState.MarkMoved` | chess_core.py:168-174 | The flags become the updated flags for the moved piece and start square; nothing else changes. |
| `Executor.GameState.UndoMove` | chess_core.py:188-213 | On an empty history, nothing changes. Otherwise the last record is popped, the board becomes the undo board, target and flags come from the record, and the turn flips back. |
| `Executor.GameState.SetRights` | chess_core.py:209-212 | The target and the six flags are set from a record, and turn and history are kept. |
| `Executor.GameState.SaveState` | chess_core.py:236-251 | The save holds the turn, target, flags and the history length. |
| `Executor.GameState.RestoreState` | chess_core.py:254-275 | Turn, target and flags come from the save. The history is cut to the saved length and never lengthened. |
| `Executor.ApplyThenUndo` | chess_core.py:138-213 | `esegui_mossa` followed by `annulla_mossa` on the live state leaves board and game state exactly as they were. |
| `Search.ChildReady` | bot.py:238-241 | A child made by relocating a legal move still has both kings, and the side that just moved is not in check, so the search never meets a missing king. |
| `Search.Ordered` | bot.py:227-228 | The ordered moves are all legal, and they are empty exactly when the generator finds none. |
| `Search.OrderedExact` | bot.py:227-228 | The ordered list holds exactly the legal moves of the side to move. |
| `Search.GenerateOrdered` | bot.py:227-228 | Generation followed by ordering gives the ordered legal moves. |
| `Search.MaxSweep` | bot.py:234-252 | The maximizing loop's best value is finite once at least one child has been searched. |
| `Search.MinSweep` | bot.py:253-271 | The minimizing loop's best value is finite once at least one child has been searched. |
| `Search.AlphaBeta` | bot.py:192-271 | Every call counts at least its own node. Its value is related to plain minimax by `Search.AlphaBetaSound` and `Search.FullWindowIsMinimax`. |
| `Search.AlphaBetaSound` | bot.py:192-271 | For every window with alpha < beta, the pruned value relates to plain minimax as fail-soft alpha-beta promises. At or below alpha it is an upper bound, at or above beta a lower bound, and strictly inside it is exact. |
| `Search.ChildSound` | bot.py:238-244 | The same for the child reached by a legal move. |
| `Search.MaxNodeSound` | bot.py:234-252 | The same at a maximizing node with children. |
| `Search.MinNodeSound` | bot.py:253-271 | The same at a minimizing node with children. |
| `Search.MaxSweepSound` | bot.py:236-250 | The maximizing loop, stopped at the first `beta <= alpha`, approximates the maximum of the children's minimax values. |
| `Search.MinSweepSound` | bot.py:255-269 | The minimizing loop, stopped at the first `beta <= alpha`, approximates the minimum of the children's minimax values. |
| `Search.FullWindowIsMinimax` | bot.py:192-271 | With the window (-inf, +inf) the pruned search returns exactly the plain minimax value. |
| `Search.NoMovesBranchUnreachable` | bot.py:230-232 | Past the checkmate and stalemate tests the side to move always has a move, so the "no moves" leaf is never reached. |
| `Search.SearchStats.constructor` | bot.py:309 | The counters start at zero. |
| `Search.Minimax` | bot.py:192-271 | `minimax` as run returns the alpha-beta value. The node counter grows by the nodes of this subtree, one per call, and the cut-off counter by its cut-offs. |
| `Search.Expand` | bot.py:234-271 | The inner-node branch returns the loop's value for the side to move, and counts the subtree's nodes and cut-offs. |
| `Search.SearchChild` | bot.py:238-244 | Searching a child searches the relocated copy and leaves the caller's board untouched. |
| `Search.MaxTurn` | bot.py:236-250 | One maximizing iteration reduces the remaining loop to the loop from the next child, or ends it on a counted cut-off. |
| `Search.MaxBranch` | bot.py:234-252 | The maximizing loop returns the loop's best value, with nodes and cut-offs counted. |
| `Search.MinTurn` | bot.py:255-269 | One minimizing iteration reduces the remaining loop to the loop from the next child, or ends it on a counted cut-off. |
| `Search.MinBranch` | bot.py:253-271 | The minimizing loop returns the loop's best value, with nodes and cut-offs counted. |
| `Search.FirstBestIsFirstMax` | bot.py:323-326 | The strict "better than" update keeps a largest value, and every earlier value is strictly smaller. |
| `Search.MinimaxChoice` | bot.py:290-331 | The root choice is None exactly when there are no ordered moves. `Search.MinimaxChoiceNone`, `Search.MinimaxChoiceIsBest` and `Search.MinimaxChoiceIsFirst` state that this means no legal move, that the choice is a best move, and that it is the first best move. |
| `Search.MinimaxChoiceNone` | bot.py:296-298 | The root choice is None exactly when there is no legal move. |
| `Search.MinimaxChoiceIsBest` | bot.py:313-326 | The chosen move is legal, and no legal move has a larger minimax value. |
| `Search.MinimaxChoiceIsFirst` | bot.py:323-326 | Every ordered move before the chosen one has a strictly smaller minimax value. |
| `Search.RootStep` | bot.py:321-326 | Searching with the window from the best value so far to +inf, a child's pruned value beats the best exactly when its minimax value does, and then equals it. |
| `Search.RootLoop` | bot.py:313-326 | The root loop keeps the first ordered move with the largest minimax value. |
| `Search.ChooseMove` | bot.py:278-331 | With depth `bot_depth` (default 3), the result is None when no move is generated. Otherwise it is the first ordered move whose child, searched `depth - 1` plies, has the largest minimax value. |

## Left out

- main.py and gui.py are not part of this model. They hold the pygame event loop, rendering, configuration loading and the choice of the promoted piece.
- The random bots `scegli_mossa_random` and `scegli_mossa_random_plus` (bot.py:338-361) are left out, because they depend on randomness.
- The console output of `scegli_mossa_bot` (bot.py:311, 328-329) is left out.
- Floating-point infinities (bot.py:235, 254, 304-306) are the extended integers `NegInf | Fin | PosInf`. The centrality float is an integer, proved exact by `Ordering.CentralityIsExact`.
- The `promo` flag (chess_core.py:176-179) is left out: it is computed but never used or returned.
- `ottieni_storico_mosse` is left out: it only copies the history list, which the model holds as an immutable sequence.
- Piece codes are the datatype `Cell`. Malformed strings on the board are not modelled.
- `config` is a `map<string, int>`, with None read as the empty map. A non-integer `bot_depth` is not modelled.
- The search counters are not modelled in full:
  - `Search.RootLoop` and `Search.ChooseMove` keep the counters but state nothing about them, because the source only prints them.
  - `Search.Minimax` states exactly how they grow.
- Search.ChooseMove: requires `bot_depth >= 1`. With a smaller depth `minimax` is called with a negative depth, never reaches its depth-0 leaf, and recurses until terminal positions. That unbounded search is not modelled.
- Search.ChooseMove: also requires a ready position, for the reasons given under Search.Minimax below.
- Search.Minimax: requires both kings on the board and the side that has just moved not in check (`Search.SearchReady`). `Search.ChooseMove` has the same requirement. The requirement is sufficient, not necessary. The source fails only when the search reaches a child in which a king was captured: that child's `stato_partita` hands the None from `_trova_re` to `_square_attacked` (chess_core.py:51). At depth 0, at terminal nodes, and when every capture of the exposed king is illegal, `minimax` runs normally. The model does not cover those cases. Search children made from a ready position stay ready (`Search.ChildReady`), because they are plain relocations. Real play does not keep a position ready: see the en-passant quirk above.
- Legality.ValidateMove: requires the mover's king whenever raw geometry holds. The source fails there on a board without that king.
- Legality.GameStatus: requires the king of the side to move; the source fails without it.
- Legality.ScanLegalMove: requires the king of the side to move. Without it the source fails only when some piece of that colour has a move passing raw geometry: `mossa_valida` then hands None to `_square_attacked`, which unpacks it (chess_core.py:51). With no such move it returns false, and the model does not cover that case.
- MoveGen.PieceDestinations: requires the king of the moving piece's colour, for the same reason. Without it `_tutte_mosse_pezzo` fails only when the piece has a move passing raw geometry; otherwise it returns the empty list, and the model does not cover that case.
- MoveGen.CollectLegalMoves: requires the king of the colour, for the same reason. Without it `lista_mosse_valide` fails only when some piece of that colour has a move passing raw geometry; otherwise it returns the empty list, and the model does not cover that case.
- MoveGen.CollectLegalMoves: the default colour "b" of `lista_mosse_valide` (bot.py:147) is not modelled. The colour is always an explicit argument.
- Search.ChooseMove: the default colour "b" of `scegli_mossa_bot` (bot.py:278) is not modelled. The colour is always an explicit argument.
- Executor.GameState.ApplyMove: requires the mover's king whenever raw geometry holds, for the same reason.
- Executor.UndoAfterMove: requires the move to pass raw geometry and the en-passant target to be consistent with the board. Castling must start on the king's home column and stay on its row. These conditions are sufficient for an exact undo, not necessary: many excluded moves, such as a knight move while the target points at an occupied square, are also undone exactly by the plain branch (chess_core.py:206-207). In some excluded cases the source's undo does fail to restore the board. For example, a castle from another column leaves the king on column 6 or 2, not on the recorded end square, so undo reads the wrong square.
- Executor.GameState.UndoMove: requires that the destination or the start square of the popped record holds a piece. With both empty, the source fails reading the piece code.

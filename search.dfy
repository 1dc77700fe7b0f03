/** The bot's search (`minimax`, `scegli_mossa_bot`): depth-limited minimax
    with alpha-beta pruning over the ordered legal moves, and the root loop
    that picks the move to play. Children are made by plain relocation of
    the piece, and the castling flags and en-passant target stay those of
    the real game throughout the search. */
module Search {
  import opened Chess
  import opened Geometry
  import opened Attacks
  import opened Legality
  import opened Evaluation
  import opened MoveGen
  import opened Ordering

  /** Integers extended with the two infinities the source uses as initial
      bounds. */
  datatype Ext = NegInf | Fin(n: int) | PosInf

  predicate Le(x: Ext, y: Ext)
  {
    x == NegInf || y == PosInf || (x.Fin? && y.Fin? && x.n <= y.n)
  }

  predicate Lt(x: Ext, y: Ext) { !Le(y, x) }

  function MaxE(x: Ext, y: Ext): Ext { if Le(x, y) then y else x }

  function MinE(x: Ext, y: Ext): Ext { if Le(x, y) then x else y }

  const MateScore := 100000

  /** The colour to move at a node: the bot's at a maximizing node. */
  function ToMove(maximizing: bool, bot: Color): Color { if maximizing then bot else Opp(bot) }

  /** What the search needs of a position with `col` to move: both kings on
      the board and the king of the side that has just moved not attacked
      (otherwise it could be captured, and the source fails on a child
      position without that king). This is sufficient for the search, not
      necessary, and real play does not preserve it: see
      `Executor.EnPassantDiscoveredCheck`. */
  ghost predicate SearchReady(b: Board, rt: Rights, col: Color)
  {
    HasKing(b, col) && HasKing(b, Opp(col)) && !InCheck(b, rt, Opp(col))
  }

  /** A move the generator may list: legal for `col`. */
  ghost predicate LegalMove(b: Board, rt: Rights, col: Color, m: Move)
    requires HasKing(b, col)
  {
    LegalFrom(b, rt, col, m.start, m.end)
  }

  /** After any legal move the position is ready again with the other side
      to move: the mover's king is safe by legality, and the captured
      square cannot hold the opponent's king because that king was not
      attacked. */
  lemma ChildReady(b: Board, rt: Rights, col: Color, m: Move)
    requires SearchReady(b, rt, col) && LegalMove(b, rt, col, m)
    ensures SearchReady(Relocate(b, m.start, m.end), rt, Opp(col))
  {
    var c := Relocate(b, m.start, m.end);
    FindKingFacts(b, Opp(col));
    var k := FindKing(b, Opp(col)).value;
    assert Reaches(b, rt, m.start, m.end, col);
    assert k != m.end;
    assert At(c, k) == Piece(Opp(col), King);
    assert Opp(Opp(col)) == col;
  }

  /** Every move of `ms` is legal for `col`. */
  ghost predicate AllLegal(b: Board, rt: Rights, col: Color, ms: seq<Move>)
    requires HasKing(b, col)
  {
    forall m {:trigger LegalMove(b, rt, col, m)} :: m in ms ==> LegalMove(b, rt, col, m)
  }

  /** The generator's moves in the order `ordina_mosse` gives them. */
  ghost function Ordered(b: Board, rt: Rights, col: Color): (ms: seq<Move>)
    requires HasKing(b, col)
    ensures AllLegal(b, rt, col, ms)
    ensures ms == [] <==> LegalMoves(b, rt, col) == []
  {
    LegalMovesExact(b, rt, col);
    var r := OrderMoves(b, LegalMoves(b, rt, col));
    OrderMovesSorts(b, LegalMoves(b, rt, col));
    assert forall m :: m in r ==> m in multiset(LegalMoves(b, rt, col));
    assert r == [] <==> |multiset(r)| == 0;
    r
  }

  /** Plain minimax, the reference the pruned search is measured against:
      the same terminal tests and leaf scores, and the maximum or minimum
      of the children's values everywhere else. */
  ghost function MinimaxValue(b: Board, rt: Rights, depth: nat, maximizing: bool, bot: Color): int
    requires SearchReady(b, rt, ToMove(maximizing, bot))
    decreases depth, 1, 0
  {
    var col := ToMove(maximizing, bot);
    var status := StatusOf(b, rt, col);
    if status == Checkmate then (if maximizing then -MateScore else MateScore)
    else if status == Stalemate then 0
    else if depth == 0 then PositionScore(b, bot)
    else
      var moves := Ordered(b, rt, col);
      if moves == [] then PositionScore(b, bot)
      else if maximizing then ChildrenMax(b, rt, moves, 0, depth - 1, bot).n
      else ChildrenMin(b, rt, moves, 0, depth - 1, bot).n
  }

  /** The minimax value of the child reached by the legal move `m` of
      `col`, with the other side to move. */
  ghost function ChildMinimax(b: Board, rt: Rights, col: Color, m: Move, depth: nat, maximizing: bool, bot: Color): int
    requires SearchReady(b, rt, col) && LegalMove(b, rt, col, m) && ToMove(maximizing, bot) == Opp(col)
    decreases depth, 2, 0
  {
    ChildReady(b, rt, col, m);
    MinimaxValue(Relocate(b, m.start, m.end), rt, depth, maximizing, bot)
  }

  /** The largest minimax value among the children reached by `moves[i..]`. */
  ghost function ChildrenMax(b: Board, rt: Rights, moves: seq<Move>, i: nat, depth: nat, bot: Color): (r: Ext)
    requires i <= |moves| && SearchReady(b, rt, bot)
    requires AllLegal(b, rt, bot, moves)
    ensures r != PosInf && (i < |moves| ==> r.Fin?)
    decreases depth + 1, 0, |moves| - i
  {
    if i == |moves| then NegInf
    else
      MaxE(Fin(ChildMinimax(b, rt, bot, moves[i], depth, false, bot)), ChildrenMax(b, rt, moves, i + 1, depth, bot))
  }

  /** The smallest minimax value among the children reached by `moves[i..]`. */
  ghost function ChildrenMin(b: Board, rt: Rights, moves: seq<Move>, i: nat, depth: nat, bot: Color): (r: Ext)
    requires i <= |moves| && SearchReady(b, rt, Opp(bot))
    requires AllLegal(b, rt, Opp(bot), moves)
    ensures r != NegInf && (i < |moves| ==> r.Fin?)
    decreases depth + 1, 0, |moves| - i
  {
    if i == |moves| then PosInf
    else
      MinE(Fin(ChildMinimax(b, rt, Opp(bot), moves[i], depth, true, bot)), ChildrenMin(b, rt, moves, i + 1, depth, bot))
  }

  /** A node's value with the number of nodes visited and cut-offs taken
      below and including it (the source's `stats`). */
  datatype Outcome = Outcome(value: int, nodes: nat, prunes: nat)

  /** Where the loop over a node's children stops: the running best value,
      the nodes visited and the cut-offs taken. */
  datatype Sweep = Sweep(best: Ext, nodes: nat, prunes: nat)

  /** `minimax`: alpha-beta search as the source writes it. */
  ghost function AlphaBeta(b: Board, rt: Rights, depth: nat, alpha: Ext, beta: Ext, maximizing: bool, bot: Color): (o: Outcome)
    requires SearchReady(b, rt, ToMove(maximizing, bot))
    ensures o.nodes >= 1
    decreases depth, 2, 0
  {
    var col := ToMove(maximizing, bot);
    var status := StatusOf(b, rt, col);
    if status == Checkmate then Outcome(if maximizing then -MateScore else MateScore, 1, 0)
    else if status == Stalemate then Outcome(0, 1, 0)
    else if depth == 0 then Outcome(PositionScore(b, bot), 1, 0)
    else
      var moves := Ordered(b, rt, col);
      if moves == [] then Outcome(PositionScore(b, bot), 1, 0)
      else Expansion(b, rt, moves, depth, alpha, beta, maximizing, bot)
  }

  /** A node with children to search: the loop of the side to move over
      the ordered moves, plus one for the node itself. */
  ghost function Expansion(b: Board, rt: Rights, moves: seq<Move>, depth: nat, alpha: Ext, beta: Ext,
                           maximizing: bool, bot: Color): Outcome
    requires SearchReady(b, rt, ToMove(maximizing, bot)) && depth > 0 && moves != []
    requires AllLegal(b, rt, ToMove(maximizing, bot), moves)
    decreases depth, 1, 0
  {
    if maximizing then
      var sw := MaxSweep(b, rt, moves, 0, depth - 1, alpha, beta, NegInf, bot);
      Outcome(sw.best.n, 1 + sw.nodes, sw.prunes)
    else
      var sw := MinSweep(b, rt, moves, 0, depth - 1, alpha, beta, PosInf, bot);
      Outcome(sw.best.n, 1 + sw.nodes, sw.prunes)
  }

  /** The child reached by the legal move `m` of `col`, searched with the
      other side to move. */
  ghost function ChildOutcome(b: Board, rt: Rights, col: Color, m: Move, depth: nat, alpha: Ext, beta: Ext,
                              maximizing: bool, bot: Color): Outcome
    requires SearchReady(b, rt, col) && LegalMove(b, rt, col, m) && ToMove(maximizing, bot) == Opp(col)
    decreases depth, 3, 0
  {
    ChildReady(b, rt, col, m);
    AlphaBeta(Relocate(b, m.start, m.end), rt, depth, alpha, beta, maximizing, bot)
  }

  /** The maximizing loop from child `i` on, with the current `alpha` and
      best value: search the child, raise both, stop once `beta <= alpha`. */
  ghost function MaxSweep(b: Board, rt: Rights, moves: seq<Move>, i: nat, depth: nat,
                          alpha: Ext, beta: Ext, best: Ext, bot: Color): (r: Sweep)
    requires i <= |moves| && SearchReady(b, rt, bot)
    requires AllLegal(b, rt, bot, moves)
    ensures best != PosInf ==> r.best != PosInf
    ensures best != PosInf && i < |moves| ==> r.best.Fin?
    decreases depth + 1, 0, |moves| - i
  {
    if i == |moves| then Sweep(best, 0, 0)
    else
      var m := moves[i];
      var o := ChildOutcome(b, rt, bot, m, depth, alpha, beta, false, bot);
      var best' := MaxE(best, Fin(o.value));
      var alpha' := MaxE(alpha, Fin(o.value));
      if Le(beta, alpha') then Sweep(best', o.nodes, o.prunes + 1)
      else
        var rest := MaxSweep(b, rt, moves, i + 1, depth, alpha', beta, best', bot);
        Sweep(rest.best, o.nodes + rest.nodes, o.prunes + rest.prunes)
  }

  /** The minimizing loop from child `i` on: lower the best value and
      `beta`, stop once `beta <= alpha`. */
  ghost function MinSweep(b: Board, rt: Rights, moves: seq<Move>, i: nat, depth: nat,
                          alpha: Ext, beta: Ext, best: Ext, bot: Color): (r: Sweep)
    requires i <= |moves| && SearchReady(b, rt, Opp(bot))
    requires AllLegal(b, rt, Opp(bot), moves)
    ensures best != NegInf ==> r.best != NegInf
    ensures best != NegInf && i < |moves| ==> r.best.Fin?
    decreases depth + 1, 0, |moves| - i
  {
    if i == |moves| then Sweep(best, 0, 0)
    else
      var m := moves[i];
      var o := ChildOutcome(b, rt, Opp(bot), m, depth, alpha, beta, true, bot);
      var best' := MinE(best, Fin(o.value));
      var beta' := MinE(beta, Fin(o.value));
      if Le(beta', alpha) then Sweep(best', o.nodes, o.prunes + 1)
      else
        var rest := MinSweep(b, rt, moves, i + 1, depth, alpha, beta', best', bot);
        Sweep(rest.best, o.nodes + rest.nodes, o.prunes + rest.prunes)
  }

  /** The fail-soft alpha-beta contract: a result at or below `alpha` is an
      upper bound of the true value `m`, one at or above `beta` a lower
      bound, and one strictly inside the window is exact. */
  predicate Approx(v: Ext, m: Ext, alpha: Ext, beta: Ext)
  {
    (Le(v, alpha) ==> Le(m, v)) && (Le(beta, v) ==> Le(v, m)) && (Lt(alpha, v) && Lt(v, beta) ==> m == v)
  }

  /** Whether `best` relates correctly to `pre`, the true maximum of the
      children already searched: an upper bound of it while `best` is at
      most `alpha0`, equal to it above. */
  predicate MaxTracks(best: Ext, pre: Ext, alpha0: Ext)
  {
    (Le(best, alpha0) ==> Le(pre, best)) && (Lt(alpha0, best) ==> pre == best)
  }

  /** The mirror image of `MaxTracks` for the minimizing loop. */
  predicate MinTracks(best: Ext, pre: Ext, beta0: Ext)
  {
    (Le(beta0, best) ==> Le(best, pre)) && (Lt(best, beta0) ==> pre == best)
  }

  lemma MaxAssoc(x: Ext, y: Ext, z: Ext)
    ensures MaxE(MaxE(x, y), z) == MaxE(x, MaxE(y, z))
  {
  }

  lemma MinAssoc(x: Ext, y: Ext, z: Ext)
    ensures MinE(MinE(x, y), z) == MinE(x, MinE(y, z))
  {
  }

  /** One step of the maximizing loop on values alone: the child's result
      `v` approximates its true value `mv` in the window `alpha..beta`. */
  lemma MaxStep(alpha0: Ext, alpha: Ext, beta: Ext, best: Ext, pre: Ext, v: Ext, mv: Ext, rest: Ext)
    requires alpha == MaxE(alpha0, best) && Lt(alpha, beta) && MaxTracks(best, pre, alpha0)
    requires v.Fin? && Approx(v, mv, alpha, beta)
    ensures MaxE(alpha, v) == MaxE(alpha0, MaxE(best, v))
    ensures Le(beta, MaxE(alpha, v)) ==> Approx(MaxE(best, v), MaxE(pre, MaxE(mv, rest)), alpha0, beta)
    ensures !Le(beta, MaxE(alpha, v)) ==> MaxTracks(MaxE(best, v), MaxE(pre, mv), alpha0)
  {
    MaxAssoc(alpha0, best, v);
  }

  lemma MinStep(alpha: Ext, beta0: Ext, beta: Ext, best: Ext, pre: Ext, v: Ext, mv: Ext, rest: Ext)
    requires beta == MinE(beta0, best) && Lt(alpha, beta) && MinTracks(best, pre, beta0)
    requires v.Fin? && Approx(v, mv, alpha, beta)
    ensures MinE(beta, v) == MinE(beta0, MinE(best, v))
    ensures Le(MinE(beta, v), alpha) ==> Approx(MinE(best, v), MinE(pre, MinE(mv, rest)), alpha, beta0)
    ensures !Le(MinE(beta, v), alpha) ==> MinTracks(MinE(best, v), MinE(pre, mv), beta0)
  {
    MinAssoc(beta0, best, v);
  }

  lemma ApproxSelf(v: Ext, alpha: Ext, beta: Ext)
    ensures Approx(v, v, alpha, beta)
  {
  }

  /** Alpha-beta is sound with respect to plain minimax for every window
      with `alpha < beta`. */
  lemma {:induction false} AlphaBetaSound(b: Board, rt: Rights, depth: nat, alpha: Ext, beta: Ext, maximizing: bool, bot: Color)
    requires SearchReady(b, rt, ToMove(maximizing, bot)) && Lt(alpha, beta)
    ensures Approx(Fin(AlphaBeta(b, rt, depth, alpha, beta, maximizing, bot).value),
                   Fin(MinimaxValue(b, rt, depth, maximizing, bot)), alpha, beta)
    decreases depth, 2, 0
  {
    var col := ToMove(maximizing, bot);
    var status := StatusOf(b, rt, col);
    if status == Checkmate || status == Stalemate || depth == 0 || Ordered(b, rt, col) == [] {
      ApproxSelf(Fin(MinimaxValue(b, rt, depth, maximizing, bot)), alpha, beta);
    } else if maximizing {
      MaxNodeSound(b, rt, depth, alpha, beta, bot);
    } else {
      MinNodeSound(b, rt, depth, alpha, beta, bot);
    }
  }

  /** `AlphaBetaSound` for the child reached by a legal move. */
  lemma ChildSound(b: Board, rt: Rights, col: Color, m: Move, depth: nat, alpha: Ext, beta: Ext, maximizing: bool, bot: Color)
    requires SearchReady(b, rt, col) && LegalMove(b, rt, col, m) && ToMove(maximizing, bot) == Opp(col) && Lt(alpha, beta)
    ensures Approx(Fin(ChildOutcome(b, rt, col, m, depth, alpha, beta, maximizing, bot).value),
                   Fin(ChildMinimax(b, rt, col, m, depth, maximizing, bot)), alpha, beta)
    decreases depth, 3, 0
  {
    ChildReady(b, rt, col, m);
    AlphaBetaSound(Relocate(b, m.start, m.end), rt, depth, alpha, beta, maximizing, bot);
  }

  /** A maximizing node with children to search. */
  lemma {:induction false} MaxNodeSound(b: Board, rt: Rights, depth: nat, alpha: Ext, beta: Ext, bot: Color)
    requires SearchReady(b, rt, bot) && Lt(alpha, beta) && depth > 0
    requires StatusOf(b, rt, bot) != Checkmate && StatusOf(b, rt, bot) != Stalemate && Ordered(b, rt, bot) != []
    ensures Approx(Fin(AlphaBeta(b, rt, depth, alpha, beta, true, bot).value),
                   Fin(MinimaxValue(b, rt, depth, true, bot)), alpha, beta)
    decreases depth, 1, 0
  {
    var moves := Ordered(b, rt, bot);
    var sw := MaxSweep(b, rt, moves, 0, depth - 1, alpha, beta, NegInf, bot);
    var all := ChildrenMax(b, rt, moves, 0, depth - 1, bot);
    assert ToMove(true, bot) == bot;
    assert AlphaBeta(b, rt, depth, alpha, beta, true, bot).value == sw.best.n;
    assert MinimaxValue(b, rt, depth, true, bot) == all.n;
    MaxSweepSound(b, rt, moves, 0, depth - 1, alpha, alpha, beta, NegInf, NegInf, bot);
    assert MaxE(NegInf, all) == all;
  }

  /** A minimizing node with children to search. */
  lemma {:induction false} MinNodeSound(b: Board, rt: Rights, depth: nat, alpha: Ext, beta: Ext, bot: Color)
    requires SearchReady(b, rt, Opp(bot)) && Lt(alpha, beta) && depth > 0
    requires StatusOf(b, rt, Opp(bot)) != Checkmate && StatusOf(b, rt, Opp(bot)) != Stalemate && Ordered(b, rt, Opp(bot)) != []
    ensures Approx(Fin(AlphaBeta(b, rt, depth, alpha, beta, false, bot).value),
                   Fin(MinimaxValue(b, rt, depth, false, bot)), alpha, beta)
    decreases depth, 1, 0
  {
    var moves := Ordered(b, rt, Opp(bot));
    var sw := MinSweep(b, rt, moves, 0, depth - 1, alpha, beta, PosInf, bot);
    var all := ChildrenMin(b, rt, moves, 0, depth - 1, bot);
    assert ToMove(false, bot) == Opp(bot);
    assert AlphaBeta(b, rt, depth, alpha, beta, false, bot).value == sw.best.n;
    assert MinimaxValue(b, rt, depth, false, bot) == all.n;
    MinSweepSound(b, rt, moves, 0, depth - 1, alpha, beta, beta, PosInf, PosInf, bot);
    assert MinE(PosInf, all) == all;
  }

  /** The maximizing loop, from child `i` on. `alpha0` is the window's lower
      bound at entry, `alpha` the current one, `best` the running best and
      `pre` the true maximum of the children already searched. */
  lemma {:induction false} MaxSweepSound(b: Board, rt: Rights, moves: seq<Move>, i: nat, depth: nat,
                                         alpha0: Ext, alpha: Ext, beta: Ext, best: Ext, pre: Ext, bot: Color)
    requires i <= |moves| && SearchReady(b, rt, bot)
    requires AllLegal(b, rt, bot, moves)
    requires alpha == MaxE(alpha0, best) && Lt(alpha, beta) && best != PosInf
    requires MaxTracks(best, pre, alpha0)
    ensures Approx(MaxSweep(b, rt, moves, i, depth, alpha, beta, best, bot).best,
                   MaxE(pre, ChildrenMax(b, rt, moves, i, depth, bot)), alpha0, beta)
    decreases depth + 1, 0, |moves| - i
  {
    if i < |moves| {
      var m := moves[i];
      var v := Fin(ChildOutcome(b, rt, bot, m, depth, alpha, beta, false, bot).value);
      var mv := Fin(ChildMinimax(b, rt, bot, m, depth, false, bot));
      ChildSound(b, rt, bot, m, depth, alpha, beta, false, bot);
      var rest := ChildrenMax(b, rt, moves, i + 1, depth, bot);
      MaxStep(alpha0, alpha, beta, best, pre, v, mv, rest);
      if !Le(beta, MaxE(alpha, v)) {
        MaxSweepSound(b, rt, moves, i + 1, depth, alpha0, MaxE(alpha, v), beta, MaxE(best, v), MaxE(pre, mv), bot);
        MaxAssoc(pre, mv, rest);
      }
    }
  }

  /** The minimizing loop, the mirror image of `MaxSweepSound`. */
  lemma {:induction false} MinSweepSound(b: Board, rt: Rights, moves: seq<Move>, i: nat, depth: nat,
                                         alpha: Ext, beta0: Ext, beta: Ext, best: Ext, pre: Ext, bot: Color)
    requires i <= |moves| && SearchReady(b, rt, Opp(bot))
    requires AllLegal(b, rt, Opp(bot), moves)
    requires beta == MinE(beta0, best) && Lt(alpha, beta) && best != NegInf
    requires MinTracks(best, pre, beta0)
    ensures Approx(MinSweep(b, rt, moves, i, depth, alpha, beta, best, bot).best,
                   MinE(pre, ChildrenMin(b, rt, moves, i, depth, bot)), alpha, beta0)
    decreases depth + 1, 0, |moves| - i
  {
    if i < |moves| {
      var m := moves[i];
      var v := Fin(ChildOutcome(b, rt, Opp(bot), m, depth, alpha, beta, true, bot).value);
      var mv := Fin(ChildMinimax(b, rt, Opp(bot), m, depth, true, bot));
      ChildSound(b, rt, Opp(bot), m, depth, alpha, beta, true, bot);
      var rest := ChildrenMin(b, rt, moves, i + 1, depth, bot);
      MinStep(alpha, beta0, beta, best, pre, v, mv, rest);
      if !Le(MinE(beta, v), alpha) {
        MinSweepSound(b, rt, moves, i + 1, depth, alpha, beta0, MinE(beta, v), MinE(best, v), MinE(pre, mv), bot);
        MinAssoc(pre, mv, rest);
      }
    }
  }

  /** With the full window the pruned search returns exactly the minimax
      value. */
  lemma FullWindowIsMinimax(b: Board, rt: Rights, depth: nat, maximizing: bool, bot: Color)
    requires SearchReady(b, rt, ToMove(maximizing, bot))
    ensures AlphaBeta(b, rt, depth, NegInf, PosInf, maximizing, bot).value == MinimaxValue(b, rt, depth, maximizing, bot)
  {
    AlphaBetaSound(b, rt, depth, NegInf, PosInf, maximizing, bot);
  }

  /** Past the checkmate and stalemate tests the side to move always has a
      move, so the `if not mosse` leaf of `minimax` is never reached. */
  lemma NoMovesBranchUnreachable(b: Board, rt: Rights, col: Color)
    requires HasKing(b, col)
    requires StatusOf(b, rt, col) != Checkmate && StatusOf(b, rt, col) != Stalemate
    ensures Ordered(b, rt, col) != []
  {
    StatusByMoveList(b, rt, col);
  }

  /** `lista_mosse_valide` followed by `ordina_mosse`. */
  method GenerateOrdered(b: Board, rt: Rights, col: Color) returns (moves: seq<Move>)
    requires HasKing(b, col)
    ensures moves == Ordered(b, rt, col)
  {
    var legal := CollectLegalMoves(b, rt, col);
    LegalMovesExact(b, rt, col);
    moves := OrderMoves(b, legal);
  }

  /** The source's `stats` dictionary: nodes visited and cut-offs taken. */
  class SearchStats {
    var nodes: nat
    var prunes: nat

    constructor ()
      ensures nodes == 0 && prunes == 0
    {
      nodes := 0;
      prunes := 0;
    }
  }

  /** `minimax` as the source runs it: the value is the pruned search's and
      the counters grow by the nodes and cut-offs of this subtree. */
  method Minimax(b: Board, rt: Rights, depth: nat, alpha: Ext, beta: Ext, maximizing: bool, bot: Color,
                 stats: SearchStats) returns (value: int)
    requires SearchReady(b, rt, ToMove(maximizing, bot))
    modifies stats
    ensures value == AlphaBeta(b, rt, depth, alpha, beta, maximizing, bot).value
    ensures stats.nodes == old(stats.nodes) + AlphaBeta(b, rt, depth, alpha, beta, maximizing, bot).nodes
    ensures stats.prunes == old(stats.prunes) + AlphaBeta(b, rt, depth, alpha, beta, maximizing, bot).prunes
    decreases depth, 2
  {
    ghost var o := AlphaBeta(b, rt, depth, alpha, beta, maximizing, bot);
    stats.nodes := stats.nodes + 1;
    var col := ToMove(maximizing, bot);
    var status := GameStatus(b, rt, col);
    if status == Checkmate {
      value := if maximizing then -MateScore else MateScore;
      assert o == Outcome(value, 1, 0);
      return;
    }
    if status == Stalemate {
      value := 0;
      assert o == Outcome(value, 1, 0);
      return;
    }
    if depth == 0 {
      value := EvaluatePosition(b, bot);
      assert o == Outcome(value, 1, 0);
      return;
    }
    var moves := GenerateOrdered(b, rt, col);
    if moves == [] {
      value := EvaluatePosition(b, bot);
      assert o == Outcome(value, 1, 0);
      return;
    }
    assert o == Expansion(b, rt, moves, depth, alpha, beta, maximizing, bot);
    value := Expand(b, rt, moves, depth, alpha, beta, maximizing, bot, stats);
  }

  /** The branch of `minimax` on the side to move, once the node has
      children: the node itself was already counted. */
  method Expand(b: Board, rt: Rights, moves: seq<Move>, depth: nat, alpha: Ext, beta: Ext,
                maximizing: bool, bot: Color, stats: SearchStats) returns (value: int)
    requires SearchReady(b, rt, ToMove(maximizing, bot)) && depth > 0 && moves != []
    requires AllLegal(b, rt, ToMove(maximizing, bot), moves)
    modifies stats
    ensures value == Expansion(b, rt, moves, depth, alpha, beta, maximizing, bot).value
    ensures stats.nodes + 1 == old(stats.nodes) + Expansion(b, rt, moves, depth, alpha, beta, maximizing, bot).nodes
    ensures stats.prunes == old(stats.prunes) + Expansion(b, rt, moves, depth, alpha, beta, maximizing, bot).prunes
    decreases depth, 1
  {
    ghost var o := Expansion(b, rt, moves, depth, alpha, beta, maximizing, bot);
    if maximizing {
      ghost var sw := MaxSweep(b, rt, moves, 0, depth - 1, alpha, beta, NegInf, bot);
      assert o == Outcome(sw.best.n, 1 + sw.nodes, sw.prunes);
      value := MaxBranch(b, rt, moves, depth - 1, alpha, beta, bot, stats);
    } else {
      ghost var sw := MinSweep(b, rt, moves, 0, depth - 1, alpha, beta, PosInf, bot);
      assert o == Outcome(sw.best.n, 1 + sw.nodes, sw.prunes);
      value := MinBranch(b, rt, moves, depth - 1, alpha, beta, bot, stats);
    }
  }

  /** Make the move on a copy of the board and search the child. */
  method SearchChild(b: Board, rt: Rights, col: Color, m: Move, depth: nat, alpha: Ext, beta: Ext,
                     maximizing: bool, bot: Color, stats: SearchStats) returns (value: int)
    requires SearchReady(b, rt, col) && LegalMove(b, rt, col, m) && ToMove(maximizing, bot) == Opp(col)
    modifies stats
    ensures value == ChildOutcome(b, rt, col, m, depth, alpha, beta, maximizing, bot).value
    ensures stats.nodes == old(stats.nodes) + ChildOutcome(b, rt, col, m, depth, alpha, beta, maximizing, bot).nodes
    ensures stats.prunes == old(stats.prunes) + ChildOutcome(b, rt, col, m, depth, alpha, beta, maximizing, bot).prunes
    decreases depth, 3
  {
    ChildReady(b, rt, col, m);
    var child := Relocate(b, m.start, m.end);
    value := Minimax(child, rt, depth, alpha, beta, maximizing, bot, stats);
  }

  /** One turn of the maximizing loop of `minimax`: search child `i`,
      raise the best value and `alpha`, and count a cut-off when
      `beta <= alpha`. The new state is the sweep from child `i` reduced
      to the sweep from child `i + 1`, or the whole of it on a cut. */
  method MaxTurn(b: Board, rt: Rights, moves: seq<Move>, i: nat, depth: nat, alpha: Ext, beta: Ext, best: Ext,
                 bot: Color, stats: SearchStats) returns (best': Ext, alpha': Ext, cut: bool)
    requires SearchReady(b, rt, bot) && AllLegal(b, rt, bot, moves) && i < |moves| && best != PosInf
    modifies stats
    ensures best' != PosInf
    ensures var sw := MaxSweep(b, rt, moves, i, depth, alpha, beta, best, bot);
      if cut then
        sw.best == best' && stats.nodes == old(stats.nodes) + sw.nodes && stats.prunes == old(stats.prunes) + sw.prunes
      else
        var rest := MaxSweep(b, rt, moves, i + 1, depth, alpha', beta, best', bot);
        && sw.best == rest.best
        && stats.nodes + rest.nodes == old(stats.nodes) + sw.nodes
        && stats.prunes + rest.prunes == old(stats.prunes) + sw.prunes
    decreases depth, 4
  {
    var v := SearchChild(b, rt, bot, moves[i], depth, alpha, beta, false, bot, stats);
    best' := MaxE(best, Fin(v));
    alpha' := MaxE(alpha, Fin(v));
    cut := Le(beta, alpha');
    if cut {
      stats.prunes := stats.prunes + 1;
    }
  }

  /** The maximizing loop of `minimax`: raise the best value and `alpha`
      after each child, stop at the first `beta <= alpha`. */
  method MaxBranch(b: Board, rt: Rights, moves: seq<Move>, depth: nat, alpha: Ext, beta: Ext, bot: Color,
                   stats: SearchStats) returns (value: int)
    requires SearchReady(b, rt, bot) && moves != []
    requires AllLegal(b, rt, bot, moves)
    modifies stats
    ensures var sw := MaxSweep(b, rt, moves, 0, depth, alpha, beta, NegInf, bot);
      Fin(value) == sw.best && stats.nodes == old(stats.nodes) + sw.nodes && stats.prunes == old(stats.prunes) + sw.prunes
    decreases depth + 1, 0
  {
    ghost var total := MaxSweep(b, rt, moves, 0, depth, alpha, beta, NegInf, bot);
    var best, a := NegInf, alpha;
    for i := 0 to |moves|
      invariant best != PosInf
      invariant var rest := MaxSweep(b, rt, moves, i, depth, a, beta, best, bot);
        && rest.best == total.best
        && stats.nodes + rest.nodes == old(stats.nodes) + total.nodes
        && stats.prunes + rest.prunes == old(stats.prunes) + total.prunes
    {
      var cut;
      best, a, cut := MaxTurn(b, rt, moves, i, depth, a, beta, best, bot, stats);
      if cut {
        break;
      }
    }
    value := best.n;
  }

  /** One turn of the minimizing loop of `minimax`: search child `i`,
      lower the best value and `beta`, and count a cut-off when
      `beta <= alpha`. */
  method MinTurn(b: Board, rt: Rights, moves: seq<Move>, i: nat, depth: nat, alpha: Ext, beta: Ext, best: Ext,
                 bot: Color, stats: SearchStats) returns (best': Ext, beta': Ext, cut: bool)
    requires SearchReady(b, rt, Opp(bot)) && AllLegal(b, rt, Opp(bot), moves) && i < |moves| && best != NegInf
    modifies stats
    ensures best' != NegInf
    ensures var sw := MinSweep(b, rt, moves, i, depth, alpha, beta, best, bot);
      if cut then
        sw.best == best' && stats.nodes == old(stats.nodes) + sw.nodes && stats.prunes == old(stats.prunes) + sw.prunes
      else
        var rest := MinSweep(b, rt, moves, i + 1, depth, alpha, beta', best', bot);
        && sw.best == rest.best
        && stats.nodes + rest.nodes == old(stats.nodes) + sw.nodes
        && stats.prunes + rest.prunes == old(stats.prunes) + sw.prunes
    decreases depth, 4
  {
    var v := SearchChild(b, rt, Opp(bot), moves[i], depth, alpha, beta, true, bot, stats);
    best' := MinE(best, Fin(v));
    beta' := MinE(beta, Fin(v));
    cut := Le(beta', alpha);
    if cut {
      stats.prunes := stats.prunes + 1;
    }
  }

  /** The minimizing loop of `minimax`: lower the best value and `beta`
      after each child, stop at the first `beta <= alpha`. */
  method MinBranch(b: Board, rt: Rights, moves: seq<Move>, depth: nat, alpha: Ext, beta: Ext, bot: Color,
                   stats: SearchStats) returns (value: int)
    requires SearchReady(b, rt, Opp(bot)) && moves != []
    requires AllLegal(b, rt, Opp(bot), moves)
    modifies stats
    ensures var sw := MinSweep(b, rt, moves, 0, depth, alpha, beta, PosInf, bot);
      Fin(value) == sw.best && stats.nodes == old(stats.nodes) + sw.nodes && stats.prunes == old(stats.prunes) + sw.prunes
    decreases depth + 1, 0
  {
    ghost var total := MinSweep(b, rt, moves, 0, depth, alpha, beta, PosInf, bot);
    var best, bt := PosInf, beta;
    for i := 0 to |moves|
      invariant best != NegInf
      invariant var rest := MinSweep(b, rt, moves, i, depth, alpha, bt, best, bot);
        && rest.best == total.best
        && stats.nodes + rest.nodes == old(stats.nodes) + total.nodes
        && stats.prunes + rest.prunes == old(stats.prunes) + total.prunes
    {
      var cut;
      best, bt, cut := MinTurn(b, rt, moves, i, depth, alpha, bt, best, bot, stats);
      if cut {
        break;
      }
    }
    value := best.n;
  }

  /** Every move the generator lists is in the ordered list and nothing
      else is. */
  lemma OrderedExact(b: Board, rt: Rights, col: Color)
    requires HasKing(b, col)
    ensures forall m :: m in Ordered(b, rt, col) <==> LegalMove(b, rt, col, m)
  {
    LegalMovesExact(b, rt, col);
    OrderMovesSorts(b, LegalMoves(b, rt, col));
    forall m ensures m in Ordered(b, rt, col) <==> m in multiset(LegalMoves(b, rt, col)) {
    }
  }

  /** `config.get("bot_depth", 3)`. */
  function BotDepth(config: map<string, int>): int
  {
    if "bot_depth" in config then config["bot_depth"] else 3
  }

  /** The true minimax value, for the bot playing `col`, of the child
      reached by the legal move `m`, searched `depth` plies deep with the
      opponent to move. */
  ghost function ChildValue(b: Board, rt: Rights, col: Color, m: Move, depth: nat): int
    requires SearchReady(b, rt, col) && LegalMove(b, rt, col, m)
  {
    ChildMinimax(b, rt, col, m, depth, false, col)
  }

  /** `vs` lists the child values of `moves`, in order. */
  ghost predicate ValuesOf(b: Board, rt: Rights, col: Color, moves: seq<Move>, depth: nat, vs: seq<int>)
    requires SearchReady(b, rt, col) && AllLegal(b, rt, col, moves)
  {
    |vs| == |moves| && forall j :: 0 <= j < |moves| ==> vs[j] == ChildValue(b, rt, col, moves[j], depth)
  }

  /** The child values of `moves`, in order. */
  ghost function ChildValues(b: Board, rt: Rights, col: Color, moves: seq<Move>, depth: nat): (vs: seq<int>)
    requires SearchReady(b, rt, col) && AllLegal(b, rt, col, moves)
    ensures ValuesOf(b, rt, col, moves, depth, vs)
  {
    seq(|moves|, j requires 0 <= j < |moves| => ChildValue(b, rt, col, moves[j], depth))
  }

  /** Index of the first largest value of `vs`, `k` being the first
      largest of `vs[..i]`. */
  function FirstBest(vs: seq<int>, i: nat, k: nat): (r: nat)
    requires k < i <= |vs|
    ensures k <= r < |vs|
    decreases |vs| - i
  {
    if i == |vs| then k
    else if vs[k] < vs[i] then FirstBest(vs, i + 1, i)
    else FirstBest(vs, i + 1, k)
  }

  /** `FirstBest` finds a largest value, and every value before it is
      strictly smaller. */
  lemma {:induction false} FirstBestIsFirstMax(vs: seq<int>, i: nat, k: nat)
    requires k < i <= |vs|
    requires forall j :: 0 <= j < i ==> vs[j] <= vs[k]
    requires forall j :: 0 <= j < k ==> vs[j] < vs[k]
    ensures var r := FirstBest(vs, i, k);
      && (forall j :: 0 <= j < |vs| ==> vs[j] <= vs[r])
      && (forall j :: 0 <= j < r ==> vs[j] < vs[r])
    decreases |vs| - i
  {
    if i < |vs| {
      if vs[k] < vs[i] {
        FirstBestIsFirstMax(vs, i + 1, i);
      } else {
        FirstBestIsFirstMax(vs, i + 1, k);
      }
    }
  }

  /** The choice plain minimax makes at the root: no move when there is
      none, otherwise the first of the ordered moves whose child has the
      largest value. */
  ghost function MinimaxChoice(b: Board, rt: Rights, col: Color, depth: nat): (choice: Option<Move>)
    requires SearchReady(b, rt, col)
    ensures choice.None? <==> Ordered(b, rt, col) == []
  {
    var moves := Ordered(b, rt, col);
    if moves == [] then None else Some(moves[FirstBest(ChildValues(b, rt, col, moves, depth), 1, 0)])
  }

  /** Plain minimax at the root returns no move exactly when there is no
      legal move. */
  lemma MinimaxChoiceNone(b: Board, rt: Rights, col: Color, depth: nat)
    requires SearchReady(b, rt, col)
    ensures MinimaxChoice(b, rt, col, depth) == None <==> !HasLegalMove(b, rt, col)
  {
    NoMovesIffNoLegalMove(b, rt, col);
  }

  /** The move plain minimax chooses at the root is legal, and no legal
      move has a larger child value. */
  lemma MinimaxChoiceIsBest(b: Board, rt: Rights, col: Color, depth: nat)
    requires SearchReady(b, rt, col) && MinimaxChoice(b, rt, col, depth).Some?
    ensures LegalMove(b, rt, col, MinimaxChoice(b, rt, col, depth).value)
    ensures forall m' :: LegalMove(b, rt, col, m') ==>
      ChildValue(b, rt, col, m', depth) <= ChildValue(b, rt, col, MinimaxChoice(b, rt, col, depth).value, depth)
  {
    var moves := Ordered(b, rt, col);
    var vs := ChildValues(b, rt, col, moves, depth);
    FirstBestIsFirstMax(vs, 1, 0);
    var r := FirstBest(vs, 1, 0);
    assert LegalMove(b, rt, col, moves[r]);
    OrderedExact(b, rt, col);
    forall m' | LegalMove(b, rt, col, m')
      ensures ChildValue(b, rt, col, m', depth) <= vs[r]
    {
      var j :| 0 <= j < |moves| && moves[j] == m';
      assert vs[j] <= vs[r];
    }
  }

  /** The move plain minimax chooses at the root is the first of the
      ordered moves with the largest child value: every move before it
      scores strictly less. */
  lemma MinimaxChoiceIsFirst(b: Board, rt: Rights, col: Color, depth: nat)
    requires SearchReady(b, rt, col) && MinimaxChoice(b, rt, col, depth).Some?
    ensures var moves := Ordered(b, rt, col); var m := MinimaxChoice(b, rt, col, depth).value;
      exists j :: 0 <= j < |moves| && moves[j] == m &&
        forall i :: 0 <= i < j ==> ChildValue(b, rt, col, moves[i], depth) < ChildValue(b, rt, col, m, depth)
  {
    var moves := Ordered(b, rt, col);
    var vs := ChildValues(b, rt, col, moves, depth);
    FirstBestIsFirstMax(vs, 1, 0);
    var r := FirstBest(vs, 1, 0);
    forall i | 0 <= i < r
      ensures ChildValue(b, rt, col, moves[i], depth) < vs[r]
    {
      assert vs[i] < vs[r];
    }
  }

  /** One step of the root loop: searched with the window from `best` to
      plus infinity, the pruned value of move `i` beats `best` exactly when
      its true value does, and then it is the true value. */
  lemma RootStep(b: Board, rt: Rights, col: Color, moves: seq<Move>, depth: nat, vs: seq<int>, i: nat, best: Ext)
    requires SearchReady(b, rt, col) && AllLegal(b, rt, col, moves) && ValuesOf(b, rt, col, moves, depth, vs)
    requires i < |moves| && best != PosInf
    ensures var v := ChildOutcome(b, rt, col, moves[i], depth, best, PosInf, false, col).value;
      && (Lt(best, Fin(v)) <==> Lt(best, Fin(vs[i])))
      && (Lt(best, Fin(vs[i])) ==> v == vs[i])
  {
    assert LegalMove(b, rt, col, moves[i]);
    ChildSound(b, rt, col, moves[i], depth, best, PosInf, false, col);
  }

  /** The loop of `scegli_mossa_bot` over the ordered moves: each child is
      searched `depth` plies deep with the window from the best value so
      far to plus infinity (the source's `alpha` always equals its
      `migliore_valore`), and a strictly better value replaces the choice.
      It keeps the first move with the largest minimax value. The counters
      are kept but not reported. */
  method RootLoop(b: Board, rt: Rights, col: Color, moves: seq<Move>, depth: nat) returns (choice: Option<Move>)
    requires SearchReady(b, rt, col) && AllLegal(b, rt, col, moves) && moves != []
    ensures choice == Some(moves[FirstBest(ChildValues(b, rt, col, moves, depth), 1, 0)])
  {
    ghost var vs := ChildValues(b, rt, col, moves, depth);
    ghost var k := 0;
    choice := None;
    var bestValue, alpha, beta := NegInf, NegInf, PosInf;
    var stats := new SearchStats();
    for i := 0 to |moves|
      invariant alpha == bestValue && beta == PosInf
      invariant i == 0 ==> bestValue == NegInf
      invariant i > 0 ==> k < i && bestValue == Fin(vs[k]) && choice == Some(moves[k])
      invariant i > 0 ==> FirstBest(vs, i, k) == FirstBest(vs, 1, 0)
    {
      var m := moves[i];
      assert LegalMove(b, rt, col, m);
      var v := SearchChild(b, rt, col, m, depth, alpha, beta, false, col, stats);
      RootStep(b, rt, col, moves, depth, vs, i, bestValue);
      if Lt(bestValue, Fin(v)) {
        bestValue := Fin(v);
        choice := Some(m);
        alpha := MaxE(alpha, Fin(v));
        k := i;
      }
    }
  }

  /** `scegli_mossa_bot`: no move when the generator finds none; otherwise
      the ordered moves are searched one by one, `depth - 1` plies below
      each child, and the first move with the best minimax value is kept. */
  method ChooseMove(b: Board, rt: Rights, col: Color, config: map<string, int>) returns (choice: Option<Move>)
    requires SearchReady(b, rt, col) && BotDepth(config) >= 1
    ensures choice == MinimaxChoice(b, rt, col, BotDepth(config) - 1)
  {
    var depth := BotDepth(config);
    var legal := CollectLegalMoves(b, rt, col);
    if legal == [] {
      return None;
    }
    LegalMovesExact(b, rt, col);
    var moves := OrderMoves(b, legal);
    assert moves == Ordered(b, rt, col);
    choice := RootLoop(b, rt, col, moves, depth - 1);
  }
}

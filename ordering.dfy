/** Move ordering for the search (`ordina_mosse`): captures of valuable
    pieces by cheap ones first, then moves towards the centre; a stable
    sort on a descending score. */
module Ordering {
  import opened Chess
  import opened Evaluation

  /** Twice the distance gained towards the centre: 14 minus the doubled
      distances of row and column from 3.5, from 0 in a corner to 12 on the
      four central squares. */
  function Centrality(e: Square): (v: int)
    ensures 0 <= v <= 12
    ensures v == 12 <==> 3 <= e.r <= 4 && 3 <= e.c <= 4
  {
    14 - Abs(7 - 2 * e.r) - Abs(7 - 2 * e.c)
  }

  function RealAbs(x: real): real { if x < 0.0 then -x else x }

  /** The source computes `(7 - (|3.5 - r| + |3.5 - c|)) * 2` in floating
      point; every such value is an exact integer, namely `Centrality`. */
  lemma CentralityIsExact(e: Square)
    ensures (7.0 - (RealAbs(3.5 - e.r as real) + RealAbs(3.5 - e.c as real))) * 2.0 == Centrality(e) as real
  {
  }

  /** A move whose destination is occupied has a piece on its start (the
      source reads the attacker's letter there). */
  predicate Scorable(b: Board, m: Move)
  {
    At(b, m.end) != Empty ==> At(b, m.start) != Empty
  }

  predicate AllScorable(b: Board, ms: seq<Move>)
  {
    forall i :: 0 <= i < |ms| ==> Scorable(b, ms[i])
  }

  /** `punteggio_mossa`: ten times the victim's value minus the attacker's
      value on a capture (most valuable victim, least valuable attacker),
      plus the centrality of the destination. */
  function MoveScore(b: Board, m: Move): (v: int)
    requires Scorable(b, m)
    ensures At(b, m.end) == Empty ==> 0 <= v <= 12
    ensures At(b, m.end) != Empty && At(b, m.start).kind != King ==> v > 12
  {
    (if At(b, m.end) != Empty then PieceValue(At(b, m.end).kind) * 10 - PieceValue(At(b, m.start).kind) else 0)
    + Centrality(m.end)
  }

  ghost predicate Descending(b: Board, ms: seq<Move>)
    requires AllScorable(b, ms)
  {
    forall i, j :: 0 <= i < j < |ms| ==> MoveScore(b, ms[i]) >= MoveScore(b, ms[j])
  }

  /** Put `m`, which came before every element of `s`, in front of the
      first element scoring no more than it does. */
  function Insert(b: Board, m: Move, s: seq<Move>): (r: seq<Move>)
    requires Scorable(b, m) && AllScorable(b, s)
    ensures AllScorable(b, r)
  {
    if s == [] then [m]
    else if MoveScore(b, s[0]) > MoveScore(b, m) then [s[0]] + Insert(b, m, s[1..])
    else [m] + s
  }

  lemma {:induction false} InsertPermutes(b: Board, m: Move, s: seq<Move>)
    requires Scorable(b, m) && AllScorable(b, s)
    ensures multiset(Insert(b, m, s)) == multiset(s) + multiset{m}
  {
    if s != [] && MoveScore(b, s[0]) > MoveScore(b, m) {
      InsertPermutes(b, m, s[1..]);
      assert s == [s[0]] + s[1..];
    }
  }

  /** Inserting a move into a list leaves every score at or below a bound
      that `m` and all of `s` respect. */
  lemma {:induction false} InsertBelow(b: Board, m: Move, s: seq<Move>, x: int)
    requires Scorable(b, m) && AllScorable(b, s) && MoveScore(b, m) <= x
    requires forall j :: 0 <= j < |s| ==> MoveScore(b, s[j]) <= x
    ensures forall j :: 0 <= j < |Insert(b, m, s)| ==> MoveScore(b, Insert(b, m, s)[j]) <= x
  {
    if s != [] && MoveScore(b, s[0]) > MoveScore(b, m) {
      InsertBelow(b, m, s[1..], x);
    }
  }

  lemma {:induction false} InsertDescending(b: Board, m: Move, s: seq<Move>)
    requires Scorable(b, m) && AllScorable(b, s) && Descending(b, s)
    ensures Descending(b, Insert(b, m, s))
  {
    if s != [] && MoveScore(b, s[0]) > MoveScore(b, m) {
      var t := Insert(b, m, s[1..]);
      InsertDescending(b, m, s[1..]);
      InsertBelow(b, m, s[1..], MoveScore(b, s[0]));
      assert Insert(b, m, s) == [s[0]] + t;
    }
  }

  /** `ordina_mosse`: Python's `sorted(..., reverse=True)` on the move
      score, which keeps moves of equal score in their original order. */
  function OrderMoves(b: Board, ms: seq<Move>): (r: seq<Move>)
    requires AllScorable(b, ms)
    ensures AllScorable(b, r)
  {
    if ms == [] then [] else Insert(b, ms[0], OrderMoves(b, ms[1..]))
  }

  /** The ordering is a permutation of the generator's list, sorted by
      descending score. */
  lemma {:induction false} OrderMovesSorts(b: Board, ms: seq<Move>)
    requires AllScorable(b, ms)
    ensures multiset(OrderMoves(b, ms)) == multiset(ms)
    ensures Descending(b, OrderMoves(b, ms))
  {
    if ms != [] {
      assert ms == [ms[0]] + ms[1..];
      var rest := OrderMoves(b, ms[1..]);
      OrderMovesSorts(b, ms[1..]);
      InsertPermutes(b, ms[0], rest);
      InsertDescending(b, ms[0], rest);
    }
  }

  /** The moves of `ms` that score exactly `k`, in their order in `ms`. */
  function WithScore(b: Board, ms: seq<Move>, k: int): seq<Move>
    requires AllScorable(b, ms)
  {
    if ms == [] then []
    else (if MoveScore(b, ms[0]) == k then [ms[0]] else []) + WithScore(b, ms[1..], k)
  }

  /** `WithScore` on a list with one more move in front. */
  lemma WithScoreCons(b: Board, x: Move, s: seq<Move>, k: int)
    requires Scorable(b, x) && AllScorable(b, s)
    ensures AllScorable(b, [x] + s)
    ensures WithScore(b, [x] + s, k) == (if MoveScore(b, x) == k then [x] else []) + WithScore(b, s, k)
  {
    assert ([x] + s)[1..] == s;
  }

  lemma {:induction false} InsertKeepsTies(b: Board, m: Move, s: seq<Move>, k: int)
    requires Scorable(b, m) && AllScorable(b, s)
    ensures WithScore(b, Insert(b, m, s), k) == (if MoveScore(b, m) == k then [m] else []) + WithScore(b, s, k)
    decreases |s|, 1
  {
    if s != [] && MoveScore(b, s[0]) > MoveScore(b, m) {
      InsertPastKeepsTies(b, m, s, k);
    } else {
      WithScoreCons(b, m, s, k);
    }
  }

  /** `InsertKeepsTies` when `m` goes past the first move of `s`: at most
      one of the two has score `k`, so their order does not matter. */
  lemma {:induction false} InsertPastKeepsTies(b: Board, m: Move, s: seq<Move>, k: int)
    requires Scorable(b, m) && AllScorable(b, s) && s != [] && MoveScore(b, s[0]) > MoveScore(b, m)
    ensures WithScore(b, Insert(b, m, s), k) == (if MoveScore(b, m) == k then [m] else []) + WithScore(b, s, k)
    decreases |s|, 0
  {
    var t := Insert(b, m, s[1..]);
    var mine: seq<Move> := if MoveScore(b, m) == k then [m] else [];
    var first: seq<Move> := if MoveScore(b, s[0]) == k then [s[0]] else [];
    var rest := WithScore(b, s[1..], k);
    InsertKeepsTies(b, m, s[1..], k);
    WithScoreCons(b, s[0], t, k);
    assert WithScore(b, Insert(b, m, s), k) == first + (mine + rest);
    WithScoreCons(b, s[0], s[1..], k);
    assert s == [s[0]] + s[1..];
    assert WithScore(b, s, k) == first + rest;
    if mine == [] {
      assert mine + rest == rest && mine + (first + rest) == first + rest;
    } else {
      assert first == [];
      assert first + (mine + rest) == mine + rest && first + rest == rest;
    }
  }

  /** The sort is stable: for every score, the moves with that score appear
      in the result in the order the generator listed them. */
  lemma {:induction false} OrderKeepsTies(b: Board, ms: seq<Move>, k: int)
    requires AllScorable(b, ms)
    ensures WithScore(b, OrderMoves(b, ms), k) == WithScore(b, ms, k)
  {
    if ms != [] {
      OrderKeepsTies(b, ms[1..], k);
      InsertKeepsTies(b, ms[0], OrderMoves(b, ms[1..]), k);
    }
  }
}

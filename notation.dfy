/** Simplified algebraic notation for the move list (`converti_mossa_notazione`). */
module Notation {
  import opened Chess

  const Files: string := "abcdefgh"
  const Ranks: string := "87654321"

  /** The letter of a piece kind, as in the two-character piece codes. */
  function KindLetter(k: Kind): char
  {
    match k
    case Pawn => 'P'
    case Knight => 'N'
    case Bishop => 'B'
    case Rook => 'R'
    case Queen => 'Q'
    case King => 'K'
  }

  /** File letter then rank digit; row 0 is rank 8. */
  function SquareName(p: Square): string
  {
    [Files[p.c], Ranks[p.r]]
  }

  /** `converti_mossa_notazione`: "???" for an empty start square, "O-O" or
      "O-O-O" for a two-column king move, for a pawn the destination
      (prefixed by the start file and "x" on a capture), for any other piece
      its letter, "x" on a capture, and the destination. A capture is any
      move onto an occupied square. */
  function MoveNotation(b: Board, s: Square, e: Square): (n: string)
    ensures 2 <= |n| <= 5
  {
    var piece := At(b, s);
    var capture := At(b, e) != Empty;
    if piece == Empty then "???"
    else if piece.kind == King && Abs(e.c - s.c) == 2 then
      if e.c > s.c then "O-O" else "O-O-O"
    else if piece.kind == Pawn then
      if capture then [Files[s.c], 'x'] + SquareName(e) else SquareName(e)
    else
      [KindLetter(piece.kind)] + (if capture then "x" else "") + SquareName(e)
  }

  /** Position of the first occurrence of `ch` in `t`, or |t| when absent. */
  function IndexOf(t: string, ch: char): (i: nat)
    ensures i <= |t|
    ensures i < |t| ==> t[i] == ch
    ensures forall j :: 0 <= j < i ==> t[j] != ch
  {
    if t == [] then 0 else if t[0] == ch then 0 else 1 + IndexOf(t[1..], ch)
  }

  predicate Distinct(t: string)
  {
    forall i, j :: 0 <= i < j < |t| ==> t[i] != t[j]
  }

  /** In a string without repeated characters, looking up the character at
      position `i` gives back `i`. */
  lemma IndexOfDistinct(t: string, i: nat)
    requires Distinct(t) && i < |t|
    ensures IndexOf(t, t[i]) == i
  {
  }

  /** Reads a square name back: a file letter and a rank digit. */
  function ParseSquare(n: string): Option<Square>
  {
    if |n| == 2 && IndexOf(Files, n[0]) < 8 && IndexOf(Ranks, n[1]) < 8 then
      Some(Pos(IndexOf(Ranks, n[1]), IndexOf(Files, n[0])))
    else None
  }

  /** Square names read back as the square they name. */
  lemma ParseSquareName(p: Square)
    ensures ParseSquare(SquareName(p)) == Some(p)
  {
    IndexOfDistinct(Files, p.c);
    IndexOfDistinct(Ranks, p.r);
  }

  /** A square name is a file letter then a rank digit, so it holds no "x". */
  lemma SquareNameFacts(p: Square)
    ensures |SquareName(p)| == 2 && SquareName(p)[0] in Files && 'x' !in SquareName(p)
  {
    assert SquareName(p)[0] in Files && SquareName(p)[1] in Ranks;
  }

  /** For every move other than castling from an occupied square, the last
      two characters name the destination and an "x" appears exactly on a
      capture. A pawn push is the destination alone; a pawn capture puts
      the start file and "x" in front of it. Any other piece writes its
      letter, then "x" on a capture, then the destination. Together these
      fix every character of the string. */
  lemma NotationDescribesMove(b: Board, s: Square, e: Square)
    requires At(b, s).Piece? && !(At(b, s).kind == King && Abs(e.c - s.c) == 2)
    ensures var n := MoveNotation(b, s, e);
      && |n| == (if At(b, e) != Empty then 4 else if At(b, s).kind == Pawn then 2 else 3)
      && ParseSquare(n[|n| - 2..]) == Some(e)
      && ('x' in n <==> At(b, e) != Empty)
      && (At(b, s).kind != Pawn ==> n[0] == KindLetter(At(b, s).kind))
      && (At(b, s).kind != Pawn && At(b, e) != Empty ==> n[1] == 'x')
      && (At(b, s).kind == Pawn && At(b, e) != Empty ==> n[..2] == [Files[s.c], 'x'])
      && (At(b, s).kind == Pawn ==> n[0] in Files)
  {
    var n := MoveNotation(b, s, e);
    var name := SquareName(e);
    var capture := At(b, e) != Empty;
    ParseSquareName(e);
    SquareNameFacts(e);
    var head := if At(b, s).kind == Pawn then (if capture then [Files[s.c], 'x'] else [])
                else [KindLetter(At(b, s).kind)] + (if capture then "x" else "");
    assert n == head + name;
    assert n[|n| - 2..] == name;
    assert 'x' in n <==> 'x' in head;
    if At(b, s).kind == Pawn && !capture {
      assert n[0] == name[0];
    }
  }

  /** A two-column king move is written "O-O" towards the h-file and
      "O-O-O" towards the a-file, whatever the rest of the board holds. */
  lemma CastlingNotation(b: Board, s: Square, e: Square)
    requires At(b, s).Piece? && At(b, s).kind == King && Abs(e.c - s.c) == 2
    ensures MoveNotation(b, s, e) == (if e.c > s.c then "O-O" else "O-O-O")
    ensures |MoveNotation(b, s, e)| == (if e.c > s.c then 3 else 5)
  {
  }

  /** "???" is written exactly for a move from an empty square: every other
      notation starts with a piece letter, a file letter or "O". */
  lemma UnknownOnlyForEmpty(b: Board, s: Square, e: Square)
    ensures MoveNotation(b, s, e) == "???" <==> At(b, s) == Empty
  {
    if At(b, s).Piece? {
      if At(b, s).kind == King && Abs(e.c - s.c) == 2 {
        CastlingNotation(b, s, e);
        assert MoveNotation(b, s, e)[0] == 'O';
      } else {
        var n := MoveNotation(b, s, e);
        NotationDescribesMove(b, s, e);
        if At(b, s).kind == Pawn {
          assert n[0] in Files;
        } else {
          assert n[0] == KindLetter(At(b, s).kind);
        }
        assert n[0] != '?';
      }
    }
  }
}

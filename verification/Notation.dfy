/** Square names: sq of hooks/useChessGame.js and squareToRC of engine/chessEngine.js. */
module Notation {
  import opened Basics
  import opened ChessBoard

  const FILES: string := "abcdefgh"
  const DIGITS: string := "0123456789"

  function SqName(s: Sq): string
    requires On(s)
  {
    [FILES[s.c], DIGITS[8 - s.r]]
  }

  /** Files run from a to h with the columns, ranks from 8 down to 1 with the rows. */
  lemma NameIs(s: Sq)
    requires On(s)
    ensures |SqName(s)| == 2
    ensures SqName(s)[0] as int == 'a' as int + s.c && SqName(s)[1] as int == '8' as int - s.r
  {
  }

  /** FILES.indexOf or DIGITS.indexOf */
  function IndexIn(text: string, ch: char): Option<nat> {
    if text == "" then None
    else if text[0] == ch then Some(0)
    else
      match IndexIn(text[1..], ch)
      case None => None
      case Some(i) => Some(i + 1)
  }

  lemma {:induction false} IndexOfUnique(text: string, i: nat)
    requires i < |text| && forall j :: 0 <= j < i ==> text[j] != text[i]
    ensures IndexIn(text, text[i]) == Some(i)
  {
    if i > 0 {
      assert text[0] != text[i];
      IndexOfUnique(text[1..], i - 1);
    }
  }

  /** None where JavaScript would produce -1, NaN or an exception. */
  function SquareToRC(name: string): Option<Sq> {
    if |name| < 2 then None
    else
      match (IndexIn(FILES, name[0]), IndexIn(DIGITS, name[1]))
      case (Some(c), Some(rank)) => Some(Sq(8 - (rank as int), c))
      case _ => None
  }

  lemma NamesDiffer(s: Sq, t: Sq)
    requires On(s) && On(t) && SqName(s) == SqName(t)
    ensures s == t
  {
    NameIs(s);
    NameIs(t);
  }

  /** Reading a printed square gives the square back. */
  lemma NameRoundTrip(s: Sq)
    requires On(s)
    ensures SquareToRC(SqName(s)) == Some(s)
  {
    IndexOfUnique(FILES, s.c);
    IndexOfUnique(DIGITS, 8 - s.r);
  }
}

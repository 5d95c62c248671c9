/** engine/chessEngine.js, lines 8-18 and 64-68: squares, boards and moving a piece. */
module ChessBoard {
  import opened Basics

  datatype Kind = Pawn | Knight | Bishop | Rook | Queen | King
  datatype Piece = Piece(color: Color, kind: Kind)
  type Cell = Option<Piece>

  /** Row 0 is the eighth rank, column 0 the a-file. */
  datatype Sq = Sq(r: int, c: int)

  predicate On(s: Sq) {
    0 <= s.r < 8 && 0 <= s.c < 8
  }

  predicate IsBoard(b: seq<seq<Cell>>) {
    |b| == 8 && forall r :: 0 <= r < 8 ==> |b[r]| == 8
  }

  const EMPTY: seq<seq<Cell>> := seq(8, _ => seq(8, _ => None))

  type Board = b: seq<seq<Cell>> | IsBoard(b) witness EMPTY

  function At(b: Board, s: Sq): Cell {
    if On(s) then b[s.r][s.c] else None
  }

  function Put(b: Board, s: Sq, x: Cell): (nb: Board)
    requires On(s)
    ensures forall t :: At(nb, t) == if t == s then x else At(b, t)
  {
    b[s.r := b[s.r][s.c := x]]
  }

  lemma BoardEqual(a: Board, b: Board)
    requires forall t :: On(t) ==> At(a, t) == At(b, t)
    ensures a == b
  {
    forall r | 0 <= r < 8 ensures a[r] == b[r] {
      forall c | 0 <= c < 8 ensures a[r][c] == b[r][c] {
        assert At(a, Sq(r, c)) == At(b, Sq(r, c));
      }
    }
  }

  /** appMv */
  function AppMv(b: Board, from: Sq, to: Sq): (nb: Board)
    requires On(from) && On(to)
    ensures forall t :: At(nb, t) == if t == from then None else if t == to then At(b, from) else At(b, t)
  {
    Put(Put(b, to, At(b, from)), from, None)
  }

  predicate Has(b: Board, s: Sq, col: Color) {
    At(b, s).Some? && At(b, s).value.color == col
  }

  predicate IsPiece(b: Board, s: Sq, col: Color, kind: Kind) {
    At(b, s) == Some(Piece(col, kind))
  }

  const BACK_RANK: seq<Kind> := [Rook, Knight, Bishop, Queen, King, Bishop, Knight, Rook]

  function InitCell(r: nat, c: nat): Cell
    requires c < 8
  {
    if r == 0 then Some(Piece(Black, BACK_RANK[c]))
    else if r == 1 then Some(Piece(Black, Pawn))
    else if r == 6 then Some(Piece(White, Pawn))
    else if r == 7 then Some(Piece(White, BACK_RANK[c]))
    else None
  }

  function InitBoard(): (b: Board)
    ensures forall t :: On(t) ==> At(b, t) == InitCell(t.r, t.c)
  {
    seq(8, r requires 0 <= r < 8 => seq(8, c requires 0 <= c < 8 => InitCell(r, c)))
  }

  datatype Rights = Rights(wK: bool, wQ: bool, bK: bool, bQ: bool)

  /** cast[col + "K"] or cast[col + "Q"] */
  function Right(cast: Rights, col: Color, kingside: bool): bool {
    if col == White then if kingside then cast.wK else cast.wQ
    else if kingside then cast.bK else cast.bQ
  }

  function HomeRow(col: Color): int {
    if col == White then 7 else 0
  }
}

/** What getLegal asks of a castling move, and where that differs from Article 3.8 of the
    FIDE Laws of Chess: the square the king leaves is never looked at. */
module Castling {
  import opened Basics
  import opened ChessBoard
  import opened MoveGeneration
  import opened ChessRules
  import opened ChessPosition

  lemma RookMovedAside(b: Board, col: Color, t: Sq)
    requires KingAt(b, col, t) && t.r == HomeRow(col) && (t.c == 2 || t.c == 6)
    requires !IsPiece(b, RookFrom(t, col), col, King)
    ensures KingAt(MoveRook(b, t, col), col, t)
  {
    hide At;
    var nb := MoveRook(b, t, col);
    forall x | IsPiece(nb, x, col, King) ensures x == t {
      assert x != RookTo(t, col) && x != RookFrom(t, col);
      assert IsPiece(b, x, col, King);
    }
  }

  /** What getLegal looks at: the right and the empty way, then the square the king crosses with
      the king stepped onto it, then the square it reaches with king and rook moved. */
  ghost predicate Guards(b: Board, col: Color, s: Sq, t: Sq, cast: Rights)
    requires On(s) && On(t)
  {
    && CastleTo(b, s, t, col, cast)
    && !Attacked(AppMv(b, s, RookTo(t, col)), RookTo(t, col), Flip(col))
    && !Attacked(MoveRook(AppMv(b, s, t), t, col), t, Flip(col))
  }

  /** A castling move is legal exactly when its right is held, the squares between are empty
      and neither the square the king crosses nor the one it reaches is attacked. Whether the
      king is in check now does not matter. */
  lemma CastlingExactlyWhen(b: Board, col: Color, s: Sq, t: Sq, ep: Option<Sq>, cast: Rights)
    requires KingAt(b, col, s) && On(t) && IsCastle(Piece(col, King), s, t)
    ensures Legal(b, s, t, ep, cast) <==> Guards(b, col, s, t, cast)
  {
    hide RawMoves, InChk, Attacks, MoveRook;
    RawMembers(b, s, ep, Some(cast), t);
    NoKingStep(b, col, s, t);
    if CastleTo(b, s, t, col, cast) {
      KingMovedTo(b, col, s, RookTo(t, col));
      CheckIsAttack(AppMv(b, s, RookTo(t, col)), col, RookTo(t, col));
      KingMovedTo(b, col, s, t);
      RookMovedAside(AppMv(b, s, t), col, t);
      CheckIsAttack(MoveRook(AppMv(b, s, t), t, col), col, t);
    }
  }

  lemma NoKingStep(b: Board, col: Color, s: Sq, t: Sq)
    requires IsPiece(b, s, col, King) && IsCastle(Piece(col, King), s, t)
    ensures !Attacks(b, s, t)
  {
  }

  // ---- Article 3.8 on the board as it stands ----

  /** The right is held, so neither piece has moved, and both stand on their home squares with
      nothing between them. */
  ghost predicate Ready(b: Board, col: Color, s: Sq, t: Sq, cast: Rights) {
    CastleTo(b, s, t, col, cast) && IsPiece(b, s, col, King) && IsPiece(b, RookFrom(t, col), col, Rook)
  }

  /** Castling as the Laws allow it: the king's square, the square it crosses and the square it
      reaches are not attacked either. */
  ghost predicate FideCastle(b: Board, col: Color, s: Sq, t: Sq, cast: Rights) {
    && Ready(b, col, s, t, cast)
    && !Attacked(b, s, Flip(col)) && !Attacked(b, RookTo(t, col), Flip(col)) && !Attacked(b, t, Flip(col))
  }

  /** `b'` differs from `b` only in empty or own-occupied squares of one row. */
  ghost predicate SameOffRow(b: Board, b': Board, row: int, col: Color) {
    && (forall x: Sq :: x.r != row ==> At(b', x) == At(b, x))
    && (forall x: Sq :: Has(b', x, Flip(col)) <==> Has(b, x, Flip(col)))
    && (forall x: Sq :: Has(b, x, Flip(col)) ==> At(b', x) == At(b, x))
  }

  lemma OffRowRay(b: Board, b': Board, row: int, col: Color, q: Sq, x: Sq, dr: int, dc: int)
    requires SameOffRow(b, b', row, col) && x.r == row && dr != 0
    ensures OpenRay(b, q, x, dr, dc, 1) ==> OpenRay(b', q, x, dr, dc, 1)
  {
    hide At;
    if OpenRay(b, q, x, dr, dc, 1) {
      var m :| 1 <= m <= 8 && x == Off(q, dr, dc, m) && ClearTo(b, q, dr, dc, 1, m);
      forall k | 1 <= k < m ensures At(b', Off(q, dr, dc, k)).None? {
        assert At(b, Off(q, dr, dc, k)).None?;
        assert Off(q, dr, dc, k).r != row;
      }
      assert ClearTo(b', q, dr, dc, 1, m);
    }
  }

  /** An enemy rook or queen of the row sees `x` along it. */
  ghost predicate SeesFlat(b: Board, col: Color, q: Sq, x: Sq, dc: int) {
    && On(q) && q.r == x.r && (IsPiece(b, q, Flip(col), Rook) || IsPiece(b, q, Flip(col), Queen))
    && (dc == 1 || dc == -1) && OpenRay(b, q, x, 0, dc, 1)
  }

  ghost predicate RowQuiet(b: Board, col: Color, x: Sq) {
    forall q, dc :: !SeesFlat(b, col, q, x, dc)
  }

  lemma FlatRay(b: Board, q: Sq, x: Sq, dc: int)
    requires OpenRay(b, q, x, 0, dc, 1)
    ensures q.r == x.r
  {
  }

  /** When the row is quiet on both boards, the attacks on a square of it are the same. */
  lemma SameAttack(b: Board, b': Board, row: int, col: Color, q: Sq, x: Sq)
    requires SameOffRow(b, b', row, col) && x.r == row && On(x) && On(q) && Has(b, q, Flip(col))
    requires RowQuiet(b, col, x) && RowQuiet(b', col, x) && Attacks(b, q, x)
    ensures Attacks(b', q, x)
  {
    hide At, OpenRay;
    var p := At(b, q).value;
    assert At(b', q) == At(b, q);
    if p.kind == Bishop || p.kind == Rook || p.kind == Queen {
      SliderAttacks(b, q, x);
      SliderAttacks(b', q, x);
      var d :| d in Dirs(p.kind) && OpenRay(b, q, x, d.0, d.1, 1);
      assert d.0 == 0 ==> SeesFlat(b, col, q, x, d.1) by {
        if d.0 == 0 {
          FlatRay(b, q, x, d.1);
        }
      }
      OffRowRay(b, b', row, col, q, x, d.0, d.1);
    }
  }

  lemma SameAttacked(b: Board, b': Board, row: int, col: Color, x: Sq)
    requires SameOffRow(b, b', row, col) && x.r == row && On(x) && RowQuiet(b, col, x) && RowQuiet(b', col, x)
    ensures Attacked(b, x, Flip(col)) <==> Attacked(b', x, Flip(col))
  {
    hide At, Attacks, OpenRay, RowQuiet;
    assert SameOffRow(b', b, row, col);
    if Attacked(b, x, Flip(col)) {
      var q :| On(q) && Has(b, q, Flip(col)) && Attacks(b, q, x);
      SameAttack(b, b', row, col, q, x);
    }
    if Attacked(b', x, Flip(col)) {
      var q :| On(q) && Has(b', q, Flip(col)) && Attacks(b', q, x);
      SameAttack(b', b, row, col, q, x);
    }
  }

  /** A piece in the way closes a row. */
  lemma BlockedFlat(b: Board, col: Color, q: Sq, x: Sq, dc: int, w: Sq)
    requires SeesFlat(b, col, q, x, dc) && w.r == x.r && At(b, w).Some?
    ensures !(q.c < w.c < x.c) && !(x.c < w.c < q.c)
  {
    hide At;
    var m :| 1 <= m <= 8 && x == Off(q, 0, dc, m) && ClearTo(b, q, 0, dc, 1, m);
    var k := Abs(w.c - q.c);
    assert q.c < w.c < x.c || x.c < w.c < q.c ==> w == Off(q, 0, dc, k) && 1 <= k < m;
    assert 1 <= k < m ==> At(b, Off(q, 0, dc, k)).None?;
  }

  /** Every enemy piece of the home row stands beyond the king. */
  lemma BeyondKing(b: Board, col: Color, s: Sq, t: Sq, cast: Rights, q: Sq, x: Sq)
    requires Ready(b, col, s, t, cast) && (x == t || x == RookTo(t, col)) && On(q) && q.r == x.r && Has(b, q, Flip(col))
    ensures q.c < s.c < x.c || x.c < s.c < q.c
  {
    hide At;
    assert q != s && q != t && q != RookTo(t, col) && q != RookFrom(t, col);
    assert t.c == 2 ==> q != Sq(HomeRow(col), 1);
  }

  lemma KingBlocks(b: Board, col: Color, s: Sq, t: Sq, cast: Rights, x: Sq)
    requires Ready(b, col, s, t, cast) && (x == t || x == RookTo(t, col))
    ensures RowQuiet(b, col, x)
  {
    hide At, OpenRay;
    forall q, dc ensures !SeesFlat(b, col, q, x, dc) {
      if SeesFlat(b, col, q, x, dc) {
        assert Has(b, q, Flip(col));
        BeyondKing(b, col, s, t, cast, q, x);
        BlockedFlat(b, col, q, x, dc, s);
        assert false;
      }
    }
  }

  lemma RookBlocks(b: Board, col: Color, s: Sq, t: Sq, cast: Rights)
    requires Ready(b, col, s, t, cast)
    ensures var nb := MoveRook(AppMv(b, s, t), t, col);
            SameOffRow(b, nb, HomeRow(col), col) && RowQuiet(nb, col, t)
  {
    hide At;
    var nb := MoveRook(AppMv(b, s, t), t, col);
    assert SameOffRow(b, nb, HomeRow(col), col);
    forall q, dc ensures !SeesFlat(nb, col, q, t, dc) {
      if SeesFlat(nb, col, q, t, dc) {
        assert Has(nb, q, Flip(col)) && Has(b, q, Flip(col));
        BlockedFlat(nb, col, q, t, dc, RookTo(t, col));
        assert false;
      }
    }
  }

  /** With the king stepped aside, a rook that sees the crossed square saw the king. */
  lemma KingAside(b: Board, col: Color, s: Sq, t: Sq, cast: Rights)
    requires Ready(b, col, s, t, cast) && !Attacked(b, s, Flip(col))
    ensures var x := RookTo(t, col);
            SameOffRow(b, AppMv(b, s, x), HomeRow(col), col) && RowQuiet(AppMv(b, s, x), col, x)
  {
    hide At, Attacked;
    var x := RookTo(t, col);
    var nb := AppMv(b, s, x);
    assert SameOffRow(b, nb, HomeRow(col), col);
    forall q, dc ensures !SeesFlat(nb, col, q, x, dc) {
      if SeesFlat(nb, col, q, x, dc) {
        assert Has(nb, q, Flip(col)) && Has(b, q, Flip(col));
        SeenThrough(b, nb, col, q, s, x, dc);
        assert false;
      }
    }
  }

  lemma SeenThrough(b: Board, nb: Board, col: Color, q: Sq, s: Sq, x: Sq, dc: int)
    requires On(s) && On(x) && s.r == x.r && SeesFlat(nb, col, q, x, dc) && At(b, q) == At(nb, q)
    requires (q.c < s.c < x.c || x.c < s.c < q.c) && forall y :: y != s && y != x ==> At(b, y) == At(nb, y)
    ensures Attacked(b, s, Flip(col))
  {
    hide At;
    var m :| 1 <= m <= 8 && x == Off(q, 0, dc, m) && ClearTo(nb, q, 0, dc, 1, m);
    var n := Abs(s.c - q.c);
    assert s == Off(q, 0, dc, n);
    forall k | 1 <= k < n ensures At(b, Off(q, 0, dc, k)).None? {
      assert At(nb, Off(q, 0, dc, k)).None?;
    }
    assert ClearTo(b, q, 0, dc, 1, n);
    assert OpenRay(b, q, s, 0, dc, 1);
    assert (0, dc) in STRAIGHT;
    var p := At(b, q).value;
    assert (0, dc) in Dirs(p.kind);
    SliderAttacks(b, q, s);
    assert Attacks(b, q, s);
  }

  lemma RightMeansReady(b: Board, col: Color, s: Sq, t: Sq, cast: Rights)
    requires RightsOk(b, cast) && CastleTo(b, s, t, col, cast)
    ensures Ready(b, col, s, t, cast)
  {
    assert Right(cast, col, t.c == 6);
  }

  /** In a position with one king and truthful rights Article 3.8 allows a castling move exactly
      when getLegal does and the king is not attacked where it stands. So the two disagree
      exactly when the king is attacked and all that getLegal looks at is in order. */
  lemma AgreesWithLawsExactlyWhen(b: Board, col: Color, s: Sq, t: Sq, ep: Option<Sq>, cast: Rights)
    requires KingAt(b, col, s) && RightsOk(b, cast) && On(t) && IsCastle(Piece(col, King), s, t)
    ensures FideCastle(b, col, s, t, cast) <==> Legal(b, s, t, ep, cast) && !InChk(b, col)
    ensures (Legal(b, s, t, ep, cast) <==> FideCastle(b, col, s, t, cast))
            <==> !(Attacked(b, s, Flip(col)) && Guards(b, col, s, t, cast))
  {
    hide Legal, InChk, Attacks, MoveRook, RightsOk, RowQuiet, SameOffRow;
    CheckIsAttack(b, col, s);
    CastlingExactlyWhen(b, col, s, t, ep, cast);
    if CastleTo(b, s, t, col, cast) && !Attacked(b, s, Flip(col)) {
      RightMeansReady(b, col, s, t, cast);
      KingBlocks(b, col, s, t, cast, t);
      KingBlocks(b, col, s, t, cast, RookTo(t, col));
      RookBlocks(b, col, s, t, cast);
      KingAside(b, col, s, t, cast);
      SameAttacked(b, AppMv(b, s, RookTo(t, col)), HomeRow(col), col, RookTo(t, col));
      SameAttacked(b, MoveRook(AppMv(b, s, t), t, col), HomeRow(col), col, t);
    }
  }

  function CheckedCell(s: Sq): Cell {
    if s == Sq(7, 4) then Some(Piece(White, King))
    else if s == Sq(7, 7) then Some(Piece(White, Rook))
    else if s == Sq(0, 0) then Some(Piece(Black, King))
    else if s == Sq(0, 4) then Some(Piece(Black, Rook))
    else None
  }

  /** White: Ke1, Rh1; black: Ka8, Re8. */
  function CheckedKing(): (b: Board)
    ensures forall s :: On(s) ==> At(b, s) == CheckedCell(s)
  {
    seq(8, r requires 0 <= r < 8 => seq(8, c requires 0 <= c < 8 => CheckedCell(Sq(r, c))))
  }

  lemma CheckedFacts()
    ensures var b := CheckedKing();
            && KingAt(b, White, Sq(7, 4)) && InChk(b, White)
            && At(b, Sq(7, 5)).None? && At(b, Sq(7, 6)).None? && At(b, Sq(7, 7)) == Some(Piece(White, Rook))
            && Lurking(b)
  {
    hide At, InChk;
    var b, s, t := CheckedKing(), Sq(0, 4), Sq(7, 4);
    forall x ensures At(b, x) == CheckedCell(x) {
      CheckedCellAt(x);
    }
    CheckIsAttack(b, White, t);
    assert (1, 0) in STRAIGHT;
    assert t == Off(s, 1, 0, 7) && ClearTo(b, s, 1, 0, 1, 7);
    assert OpenRay(b, s, t, 1, 0, 1);
    assert Attacks(b, s, t);
  }

  lemma CheckedCellAt(x: Sq)
    ensures At(CheckedKing(), x) == CheckedCell(x)
  {
  }

  /** The only black pieces are a king on a8 and a rook on e8. */
  ghost predicate Lurking(b: Board) {
    && (forall s :: Has(b, s, Black) ==> s == Sq(0, 0) || s == Sq(0, 4))
    && IsPiece(b, Sq(0, 0), Black, King) && IsPiece(b, Sq(0, 4), Black, Rook)
  }

  /** They attack neither f1 nor g1, however the rest of the board looks. */
  lemma QuietSquare(b: Board, k: Sq)
    requires Lurking(b) && (k == Sq(7, 5) || k == Sq(7, 6))
    ensures !Attacked(b, k, Black)
  {
    hide At;
    assert !Attacks(b, Sq(0, 0), k);
    forall dr, dc | (dr, dc) in STRAIGHT ensures !OpenRay(b, Sq(0, 4), k, dr, dc, 1) {
    }
    assert !Attacks(b, Sq(0, 4), k);
  }

  lemma KingStands(b: Board, col: Color, k: Sq)
    requires KingAt(b, col, k)
    ensures IsPiece(b, k, col, King)
  {
  }

  lemma StillLurking(b: Board)
    requires Lurking(b) && IsPiece(b, Sq(7, 4), White, King) && At(b, Sq(7, 7)) == Some(Piece(White, Rook))
    ensures Lurking(AppMv(b, Sq(7, 4), Sq(7, 5)))
    ensures Lurking(MoveRook(AppMv(b, Sq(7, 4), Sq(7, 6)), Sq(7, 6), White))
  {
    hide At;
    var one := AppMv(b, Sq(7, 4), Sq(7, 5));
    var both := MoveRook(AppMv(b, Sq(7, 4), Sq(7, 6)), Sq(7, 6), White);
    forall x ensures Has(one, x, Black) ==> Has(b, x, Black) {
    }
    forall x ensures Has(both, x, Black) ==> Has(b, x, Black) {
    }
  }

  const KINGSIDE_ONLY := Rights(true, false, false, false)

  lemma CheckedPosition()
    ensures PosOk(CheckedKing(), White, None, KINGSIDE_ONLY)
  {
    hide At, InChk, CheckedKing;
    CheckedFacts();
    var b, k := CheckedKing(), Sq(0, 0);
    forall x ensures At(b, x) == CheckedCell(x) {
      CheckedCellAt(x);
    }
    assert KingAt(b, Black, k);
    CheckIsAttack(b, Black, k);
    forall s | On(s) && Has(b, s, White) ensures !Attacks(b, s, k) {
      HarmlessWhite(b, s);
    }
  }

  /** From e1 the king and from h1 the rook do not reach a8. */
  lemma HarmlessWhite(b: Board, s: Sq)
    requires On(s) && At(b, s) == CheckedCell(s) && Has(b, s, White)
    ensures !Attacks(b, s, Sq(0, 0))
  {
    hide At;
    forall dr, dc | (dr, dc) in STRAIGHT ensures !OpenRay(b, Sq(7, 7), Sq(0, 0), dr, dc, 1) {
    }
  }

  /** In a well formed position getLegal lets a king castle out of check. */
  lemma CastlesOutOfCheck(cast: Rights)
    requires cast.wK
    ensures InChk(CheckedKing(), White) && Legal(CheckedKing(), Sq(7, 4), Sq(7, 6), None, cast)
    ensures PosOk(CheckedKing(), White, None, KINGSIDE_ONLY)
  {
    CheckedPosition();
    hide At, CheckedKing, InChk, Legal, Attacked, KingAt;
    CheckedFacts();
    var b, s, t := CheckedKing(), Sq(7, 4), Sq(7, 6);
    CastlingExactlyWhen(b, White, s, t, None, cast);
    KingStands(b, White, s);
    StillLurking(b);
    QuietSquare(AppMv(b, s, Sq(7, 5)), Sq(7, 5));
    QuietSquare(MoveRook(AppMv(b, s, t), t, White), t);
  }
}

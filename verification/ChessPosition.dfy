/** The invariant of a chess position under play, and the proof that committing a legal
    move keeps it (applyMove and doPromo of hooks/useChessGame.js). */
module ChessPosition {
  import opened Basics
  import opened ChessBoard
  import opened MoveGeneration
  import opened ChessRules

  // ---- the state a move leaves ----

  /** Castling rights after the move, as applyMove clears them. */
  function RightsAfter(p: Piece, s: Sq, t: Sq, cast: Rights): Rights {
    var king := p.kind == King;
    var rook := p.kind == Rook;
    Rights(
      cast.wK && !(king && p.color == White) && !(rook && s == Sq(7, 7)) && t != Sq(7, 7),
      cast.wQ && !(king && p.color == White) && !(rook && s == Sq(7, 0)) && t != Sq(7, 0),
      cast.bK && !(king && p.color == Black) && !(rook && s == Sq(0, 7)) && t != Sq(0, 7),
      cast.bQ && !(king && p.color == Black) && !(rook && s == Sq(0, 0)) && t != Sq(0, 0))
  }

  function EpAfter(p: Piece, s: Sq, t: Sq): Option<Sq> {
    if p.kind == Pawn && Abs(t.r - s.r) == 2 then Some(Sq((s.r + t.r) / 2, t.c)) else None
  }

  predicate Promotes(p: Piece, t: Sq) {
    p.kind == Pawn && (t.r == 0 || t.r == 7)
  }

  predicate Choice(kind: Kind) {
    kind == Queen || kind == Rook || kind == Bishop || kind == Knight
  }

  /** The committed board: the moved board, with the chosen piece in place of a promoted pawn. */
  function Committed(b: Board, s: Sq, t: Sq, ep: Option<Sq>, promo: Option<Kind>): Board
    requires On(s) && On(t)
  {
    var nb := Moved(b, s, t, ep);
    if promo.Some? && At(b, s).Some? then Put(nb, t, Some(Piece(At(b, s).value.color, promo.value))) else nb
  }

  // ---- the invariant ----

  ghost predicate OneKing(b: Board, col: Color) {
    exists k :: KingAt(b, col, k)
  }

  ghost predicate RightsOk(b: Board, cast: Rights) {
    forall col: Color, kingside: bool :: Right(cast, col, kingside) ==>
      && IsPiece(b, Sq(HomeRow(col), 4), col, King)
      && IsPiece(b, Sq(HomeRow(col), if kingside then 7 else 0), col, Rook)
  }

  /** The en-passant square is empty, as is the square the pawn came from, and the enemy pawn
      that was just pushed stands behind it. */
  ghost predicate EpOk(b: Board, turn: Color, ep: Option<Sq>) {
    ep.Some? ==>
      && var e, enemy := ep.value, Flip(turn);
      && On(e) && e.r == StartRow(enemy) + Forward(enemy)
      && At(b, e).None? && At(b, Sq(StartRow(enemy), e.c)).None?
      && IsPiece(b, Behind(e, turn), enemy, Pawn)
  }

  ghost predicate NoPawnsOnEnds(b: Board) {
    forall s: Sq :: s.r == 0 || s.r == 7 ==> At(b, s).None? || At(b, s).value.kind != Pawn
  }

  ghost predicate PosOk(b: Board, turn: Color, ep: Option<Sq>, cast: Rights) {
    && OneKing(b, White) && OneKing(b, Black)
    && !InChk(b, Flip(turn))
    && RightsOk(b, cast)
    && EpOk(b, turn, ep)
    && NoPawnsOnEnds(b)
  }

  // ---- what a legal move looks like ----

  /** Everything later steps need to know about a legal move. */
  ghost predicate MoveFacts(b: Board, s: Sq, t: Sq, turn: Color, ep: Option<Sq>, cast: Rights) {
    && On(s) && On(t) && s != t && Has(b, s, turn) && !Has(b, t, turn)
    && !IsPiece(b, t, Flip(turn), King)
    && var p := At(b, s).value;
    && (IsEnPassant(p, t, ep) ==>
         && At(b, t).None? && On(Behind(t, turn)) && Behind(t, turn) != s && Behind(t, turn) != t && t.c != s.c
         && IsPiece(b, Behind(t, turn), Flip(turn), Pawn))
    && (p.kind == Pawn && t.c != s.c && At(b, t).None? ==> IsEnPassant(p, t, ep))
    && (p.kind == Pawn && t.c == s.c ==> At(b, t).None?)
    && (p.kind == Pawn ==> Abs(t.r - s.r) <= 2)
    && (p.kind == Pawn && Abs(t.r - s.r) == 2 ==>
         && s.r == StartRow(turn) && t == Sq(s.r + 2 * Forward(turn), s.c)
         && At(b, Sq(s.r + Forward(turn), s.c)).None?)
    && (IsCastle(p, s, t) ==>
         && s == Sq(HomeRow(turn), 4) && t.r == HomeRow(turn) && (t.c == 6 || t.c == 2)
         && At(b, t).None? && At(b, RookTo(t, turn)).None?
         && IsPiece(b, RookFrom(t, turn), turn, Rook))
  }

  lemma PawnFacts(b: Board, s: Sq, t: Sq, turn: Color, ep: Option<Sq>, cast: Rights)
    requires On(s) && IsPiece(b, s, turn, Pawn) && Pseudo(b, s, t, ep, Some(cast)) && EpOk(b, turn, ep)
    requires !IsPiece(b, t, Flip(turn), King)
    ensures MoveFacts(b, s, t, turn, ep, cast)
  {
    assert Push(b, s, t, turn) || (Attacks(b, s, t) && (Has(b, t, Flip(turn)) || ep == Some(t)));
  }

  lemma PieceFacts(b: Board, s: Sq, t: Sq, turn: Color, ep: Option<Sq>, cast: Rights)
    requires On(s) && Has(b, s, turn) && At(b, s).value.kind != Pawn && Pseudo(b, s, t, ep, Some(cast))
    requires RightsOk(b, cast) && !IsPiece(b, t, Flip(turn), King)
    ensures MoveFacts(b, s, t, turn, ep, cast)
  {
    hide OpenRay;
    var p := At(b, s).value;
    if p.kind == King && CastleTo(b, s, t, turn, cast) {
      assert Right(cast, turn, t.c == 6);
    }
  }

  /** A raw move never takes the enemy king: that king would be in check already. */
  lemma NeverTakesKing(b: Board, s: Sq, t: Sq, turn: Color, ep: Option<Sq>, cast: Rights)
    requires PosOk(b, turn, ep, cast) && On(s) && Has(b, s, turn) && Pseudo(b, s, t, ep, Some(cast))
    ensures !IsPiece(b, t, Flip(turn), King)
  {
    hide InChk, OpenRay, RightsOk, NoPawnsOnEnds;
    if IsPiece(b, t, Flip(turn), King) {
      var k :| KingAt(b, Flip(turn), k);
      assert Attacks(b, s, t);
      CheckIsAttack(b, Flip(turn), k);
      assert false;
    }
  }

  lemma PseudoFacts(b: Board, s: Sq, t: Sq, turn: Color, ep: Option<Sq>, cast: Rights)
    requires PosOk(b, turn, ep, cast) && On(s) && Has(b, s, turn) && Pseudo(b, s, t, ep, Some(cast))
    ensures MoveFacts(b, s, t, turn, ep, cast)
  {
    hide InChk, Pseudo, MoveFacts, NoPawnsOnEnds, OneKing;
    NeverTakesKing(b, s, t, turn, ep, cast);
    if At(b, s).value.kind == Pawn {
      PawnFacts(b, s, t, turn, ep, cast);
    } else {
      PieceFacts(b, s, t, turn, ep, cast);
    }
  }

  lemma LegalFacts(b: Board, s: Sq, t: Sq, turn: Color, ep: Option<Sq>, cast: Rights)
    requires PosOk(b, turn, ep, cast) && Has(b, s, turn) && Legal(b, s, t, ep, cast)
    ensures MoveFacts(b, s, t, turn, ep, cast)
  {
    hide InChk, RawMoves, Pseudo, MoveFacts, PosOk, Safe;
    RawMembers(b, s, ep, Some(cast), t);
    PseudoFacts(b, s, t, turn, ep, cast);
  }

  // ---- cell by cell ----

  /** What stands on `x` after the move: the mover on `t`, nothing on `s`, the pawn taken en
      passant gone from behind `t`, and the castled rook between king and home square. */
  function CellAfter(b: Board, s: Sq, t: Sq, turn: Color, ep: Option<Sq>, promo: Option<Kind>, x: Sq): Cell
    requires On(s) && Has(b, s, turn)
  {
    var p := At(b, s).value;
    if x == t then Some(Piece(turn, if promo.Some? then promo.value else p.kind))
    else if x == s then None
    else if p.kind == Pawn && ep == Some(t) && x == Sq(if turn == White then t.r + 1 else t.r - 1, t.c) then None
    else if p.kind == King && Abs(t.c - s.c) == 2 && x == Sq(s.r, if t.c == 6 then 5 else 3) then Some(Piece(turn, Rook))
    else if p.kind == King && Abs(t.c - s.c) == 2 && x == Sq(s.r, if t.c == 6 then 7 else 0) then None
    else At(b, x)
  }

  lemma CommittedCells(b: Board, s: Sq, t: Sq, turn: Color, ep: Option<Sq>, cast: Rights, promo: Option<Kind>)
    requires MoveFacts(b, s, t, turn, ep, cast)
    ensures forall x :: At(Committed(b, s, t, ep, promo), x) == CellAfter(b, s, t, turn, ep, promo, x)
  {
    hide At;
  }

  // ---- each part of the invariant ----

  lemma KingsKept(b: Board, nb: Board, s: Sq, t: Sq, turn: Color, ep: Option<Sq>, cast: Rights, promo: Option<Kind>)
    requires MoveFacts(b, s, t, turn, ep, cast) && OneKing(b, White) && OneKing(b, Black)
    requires forall x :: At(nb, x) == CellAfter(b, s, t, turn, ep, promo, x)
    requires promo.Some? ==> Choice(promo.value) && At(b, s).value.kind == Pawn
    ensures OneKing(nb, White) && OneKing(nb, Black)
  {
    hide KingAt, MoveFacts, CellAfter;
    var w :| KingAt(b, White, w);
    var k :| KingAt(b, Black, k);
    KingMoved(b, nb, s, t, turn, ep, cast, promo, White, w);
    KingMoved(b, nb, s, t, turn, ep, cast, promo, Black, k);
  }

  lemma KingMoved(b: Board, nb: Board, s: Sq, t: Sq, turn: Color, ep: Option<Sq>, cast: Rights, promo: Option<Kind>,
                  col: Color, k: Sq)
    requires MoveFacts(b, s, t, turn, ep, cast) && KingAt(b, col, k)
    requires forall x :: At(nb, x) == CellAfter(b, s, t, turn, ep, promo, x)
    requires promo.Some? ==> Choice(promo.value) && At(b, s).value.kind == Pawn
    ensures KingAt(nb, col, if k == s then t else k)
  {
    hide At;
    var k' := if k == s then t else k;
    assert At(nb, k') == CellAfter(b, s, t, turn, ep, promo, k');
    assert IsPiece(b, s, col, King) ==> s == k;
    forall x | IsPiece(nb, x, col, King) ensures x == k' {
      assert IsPiece(b, x, col, King) ==> x == k;
      assert At(nb, x) == CellAfter(b, s, t, turn, ep, promo, x);
    }
  }

  lemma RightsKept(b: Board, nb: Board, s: Sq, t: Sq, turn: Color, ep: Option<Sq>, cast: Rights, promo: Option<Kind>)
    requires MoveFacts(b, s, t, turn, ep, cast) && RightsOk(b, cast)
    requires forall x :: At(nb, x) == CellAfter(b, s, t, turn, ep, promo, x)
    ensures RightsOk(nb, RightsAfter(At(b, s).value, s, t, cast))
  {
    hide At;
    var p := At(b, s).value;
    var cast' := RightsAfter(p, s, t, cast);
    forall col: Color, kingside: bool | Right(cast', col, kingside)
      ensures IsPiece(nb, Sq(HomeRow(col), 4), col, King)
      ensures IsPiece(nb, Sq(HomeRow(col), if kingside then 7 else 0), col, Rook)
    {
      assert Right(cast, col, kingside);
      var home, corner := Sq(HomeRow(col), 4), Sq(HomeRow(col), if kingside then 7 else 0);
      assert At(nb, home) == CellAfter(b, s, t, turn, ep, promo, home);
      assert At(nb, corner) == CellAfter(b, s, t, turn, ep, promo, corner);
    }
  }

  lemma EpSet(b: Board, nb: Board, s: Sq, t: Sq, turn: Color, ep: Option<Sq>, cast: Rights, promo: Option<Kind>)
    requires MoveFacts(b, s, t, turn, ep, cast)
    requires forall x :: At(nb, x) == CellAfter(b, s, t, turn, ep, promo, x)
    requires promo.Some? <==> Promotes(At(b, s).value, t)
    ensures EpOk(nb, Flip(turn), EpAfter(At(b, s).value, s, t))
  {
    hide At;
    if EpAfter(At(b, s).value, s, t).Some? {
      var e := EpAfter(At(b, s).value, s, t).value;
      assert e == Sq(s.r + Forward(turn), s.c);
      assert At(nb, e) == CellAfter(b, s, t, turn, ep, promo, e);
      assert At(nb, s) == CellAfter(b, s, t, turn, ep, promo, s);
      assert At(nb, t) == CellAfter(b, s, t, turn, ep, promo, t);
    }
  }

  lemma PawnsKept(b: Board, nb: Board, s: Sq, t: Sq, turn: Color, ep: Option<Sq>, cast: Rights, promo: Option<Kind>)
    requires MoveFacts(b, s, t, turn, ep, cast) && NoPawnsOnEnds(b)
    requires forall x :: At(nb, x) == CellAfter(b, s, t, turn, ep, promo, x)
    requires promo.Some? <==> Promotes(At(b, s).value, t)
    requires promo.Some? ==> Choice(promo.value)
    ensures NoPawnsOnEnds(nb)
  {
    hide At;
    forall x: Sq | x.r == 0 || x.r == 7 ensures At(nb, x).None? || At(nb, x).value.kind != Pawn {
      assert At(nb, x) == CellAfter(b, s, t, turn, ep, promo, x);
    }
  }

  /** The mover is not in check on the committed board, promoted or not. */
  lemma MoverSafe(b: Board, s: Sq, t: Sq, turn: Color, ep: Option<Sq>, cast: Rights, promo: Option<Kind>)
    requires MoveFacts(b, s, t, turn, ep, cast) && !InChk(Moved(b, s, t, ep), turn)
    requires promo.Some? ==> Choice(promo.value) && At(b, s).value.kind == Pawn
    ensures !InChk(Committed(b, s, t, ep, promo), turn)
  {
    hide InChk;
    var nb, nb' := Moved(b, s, t, ep), Committed(b, s, t, ep, promo);
    PromotionInvisible(b, s, t, turn, ep, cast, promo);
    SameCheck(nb, nb', turn);
  }

  lemma PromotionInvisible(b: Board, s: Sq, t: Sq, turn: Color, ep: Option<Sq>, cast: Rights, promo: Option<Kind>)
    requires MoveFacts(b, s, t, turn, ep, cast)
    requires promo.Some? ==> Choice(promo.value) && At(b, s).value.kind == Pawn
    ensures SameFor(Moved(b, s, t, ep), Committed(b, s, t, ep, promo), turn)
  {
    hide At;
    CommittedCells(b, s, t, turn, ep, cast, None);
    CommittedCells(b, s, t, turn, ep, cast, promo);
    var nb, nb' := Committed(b, s, t, ep, None), Committed(b, s, t, ep, promo);
    forall x ensures At(nb, x) == At(nb', x) || (Has(nb, x, turn) && Has(nb', x, turn)) {
      assert At(nb, x) == CellAfter(b, s, t, turn, ep, None, x);
      assert At(nb', x) == CellAfter(b, s, t, turn, ep, promo, x);
    }
    forall x ensures IsPiece(nb, x, turn, King) <==> IsPiece(nb', x, turn, King) {
      assert At(nb, x) == CellAfter(b, s, t, turn, ep, None, x);
      assert At(nb', x) == CellAfter(b, s, t, turn, ep, promo, x);
    }
  }

  /** Committing a legal move keeps the invariant for the other side to move. */
  lemma CommitKeeps(b: Board, s: Sq, t: Sq, turn: Color, ep: Option<Sq>, cast: Rights, promo: Option<Kind>)
    requires PosOk(b, turn, ep, cast) && Has(b, s, turn) && Legal(b, s, t, ep, cast)
    requires promo.Some? <==> Promotes(At(b, s).value, t)
    requires promo.Some? ==> Choice(promo.value)
    ensures PosOk(Committed(b, s, t, ep, promo), Flip(turn), EpAfter(At(b, s).value, s, t),
                  RightsAfter(At(b, s).value, s, t, cast))
  {
    hide InChk, OneKing, RightsOk, EpOk, NoPawnsOnEnds, MoveFacts, CellAfter, Committed, Moved, RawMoves, EpAfter,
         RightsAfter;
    LegalFacts(b, s, t, turn, ep, cast);
    var nb := Committed(b, s, t, ep, promo);
    CommittedCells(b, s, t, turn, ep, cast, promo);
    KingsKept(b, nb, s, t, turn, ep, cast, promo);
    RightsKept(b, nb, s, t, turn, ep, cast, promo);
    EpSet(b, nb, s, t, turn, ep, cast, promo);
    PawnsKept(b, nb, s, t, turn, ep, cast, promo);
    MoverSafe(b, s, t, turn, ep, cast, promo);
  }

  // ---- which moves are legal ----

  lemma MovedIs(b: Board, s: Sq, t: Sq, turn: Color, ep: Option<Sq>, cast: Rights, nb: Board)
    requires MoveFacts(b, s, t, turn, ep, cast)
    requires forall x :: On(x) ==> At(nb, x) == CellAfter(b, s, t, turn, ep, None, x)
    ensures Moved(b, s, t, ep) == nb
  {
    CommittedCells(b, s, t, turn, ep, cast, None);
    hide MoveFacts, CellAfter, At;
    BoardEqual(Moved(b, s, t, ep), nb);
  }

  lemma CrossingIs(b: Board, s: Sq, t: Sq, turn: Color, ep: Option<Sq>, cast: Rights, mid: Board)
    requires MoveFacts(b, s, t, turn, ep, cast) && IsPiece(b, s, turn, King) && Abs(t.c - s.c) == 2
    requires var x := Sq(s.r, (s.c + t.c) / 2);
             forall y :: On(y) ==> At(mid, y) == if y == x then At(b, s) else if y == s then None else At(b, y)
    ensures RookTo(t, turn) == Sq(s.r, (s.c + t.c) / 2) && AppMv(b, s, RookTo(t, turn)) == mid
  {
    hide At;
    BoardEqual(AppMv(b, s, RookTo(t, turn)), mid);
  }

  /** A move of a well formed position is legal exactly when the piece moves that way and its
      own king is attacked neither on the board `nb` it leaves nor, castling, on the board
      `mid` on which the king stands on the square it crosses. */
  lemma LegalExactlyWhen(b: Board, s: Sq, t: Sq, turn: Color, ep: Option<Sq>, cast: Rights, k: Sq, nb: Board, mid: Board)
    requires PosOk(b, turn, ep, cast) && On(s) && On(t) && Has(b, s, turn) && KingAt(b, turn, k)
    requires forall x :: On(x) ==> At(nb, x) == CellAfter(b, s, t, turn, ep, None, x)
    requires var x := Sq(s.r, (s.c + t.c) / 2);
             forall y :: On(y) ==> At(mid, y) == if y == x then At(b, s) else if y == s then None else At(b, y)
    ensures Legal(b, s, t, ep, cast) <==>
              && Pseudo(b, s, t, ep, Some(cast))
              && !Attacked(nb, if s == k then t else k, Flip(turn))
              && (s == k && Abs(t.c - s.c) == 2 ==> !Attacked(mid, Sq(s.r, (s.c + t.c) / 2), Flip(turn)))
  {
    hide At, InChk, RawMoves, Pseudo, MoveFacts, PosOk, CellAfter, Moved, MoveRook, Attacked;
    RawMembers(b, s, ep, Some(cast), t);
    var p := At(b, s).value;
    assert IsPiece(b, s, turn, p.kind);
    assert p.kind == King <==> s == k;
    if Pseudo(b, s, t, ep, Some(cast)) {
      PseudoFacts(b, s, t, turn, ep, cast);
      MovedIs(b, s, t, turn, ep, cast, nb);
      CommittedCells(b, s, t, turn, ep, cast, None);
      KingMoved(b, nb, s, t, turn, ep, cast, None, turn, k);
      CheckIsAttack(nb, turn, if s == k then t else k);
      if s == k && Abs(t.c - s.c) == 2 {
        CrossingIs(b, s, t, turn, ep, cast, mid);
        KingMovedTo(b, turn, s, RookTo(t, turn));
        CheckIsAttack(mid, turn, RookTo(t, turn));
      }
    }
  }

  // ---- the initial position ----

  lemma InitRay(s: Sq, d: (int, int), k: Sq)
    requires On(s) && (s.r == 0 || s.r == 7) && IsDir(d.0, d.1) && k.c == 4 && k.r == 7 - s.r
    requires At(InitBoard(), s).Some?
    ensures !OpenRay(InitBoard(), s, k, d.0, d.1, 1)
  {
    hide InitBoard;
    var b := InitBoard();
    forall c | 0 <= c < 8 ensures At(b, Sq(1, c)).Some? && At(b, Sq(6, c)).Some? {
      assert At(b, Sq(1, c)) == InitCell(1, c) && At(b, Sq(6, c)) == InitCell(6, c);
    }
    var first := Off(s, d.0, d.1, 1);
    assert On(first) && (first.r == 1 || first.r == 6) ==> At(b, first).Some? by {
      assert first == Sq(first.r, first.c);
    }
  }

  lemma InitSafe(col: Color)
    ensures KingAt(InitBoard(), col, Sq(HomeRow(col), 4)) && !InChk(InitBoard(), col)
  {
    hide InChk;
    var b, k := InitBoard(), Sq(HomeRow(col), 4);
    InitKing(col);
    forall s | On(s) && Has(b, s, Flip(col)) ensures !Attacks(b, s, k) {
      InitNoAttack(col, s);
    }
    CheckIsAttack(b, col, k);
  }

  lemma InitKing(col: Color)
    ensures KingAt(InitBoard(), col, Sq(HomeRow(col), 4))
  {
    var b, k := InitBoard(), Sq(HomeRow(col), 4);
    assert At(b, k) == InitCell(k.r, k.c);
    forall t | IsPiece(b, t, col, King) ensures t == k {
      assert On(t);
      assert At(b, t) == InitCell(t.r, t.c);
    }
  }

  lemma InitNoAttack(col: Color, s: Sq)
    requires On(s) && Has(InitBoard(), s, Flip(col))
    ensures !Attacks(InitBoard(), s, Sq(HomeRow(col), 4))
  {
    hide OpenRay, InitBoard;
    var b, k := InitBoard(), Sq(HomeRow(col), 4);
    assert At(b, s) == InitCell(s.r, s.c);
    if s.r == 0 || s.r == 7 {
      forall d <- Dirs(At(b, s).value.kind) ensures !OpenRay(b, s, k, d.0, d.1, 1) {
        InitRay(s, d, k);
      }
    }
  }

  lemma InitOk()
    ensures PosOk(InitBoard(), White, None, Rights(true, true, true, true))
  {
    hide InChk, InitBoard;
    var b := InitBoard();
    InitSafe(White);
    InitSafe(Black);
    forall col: Color, kingside: bool | Right(Rights(true, true, true, true), col, kingside)
      ensures IsPiece(b, Sq(HomeRow(col), 4), col, King)
      ensures IsPiece(b, Sq(HomeRow(col), if kingside then 7 else 0), col, Rook)
    {
      var corner := Sq(HomeRow(col), if kingside then 7 else 0);
      assert At(b, corner) == InitCell(corner.r, corner.c);
    }
    forall s: Sq | s.r == 0 || s.r == 7 ensures At(b, s).None? || At(b, s).value.kind != Pawn {
      if On(s) {
        assert At(b, s) == InitCell(s.r, s.c);
      }
    }
  }
}

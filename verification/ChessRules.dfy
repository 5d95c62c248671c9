/** inChk, getLegal and hasAny of engine/chessEngine.js as predicates on boards, and the
    facts about them that play relies on. */
module ChessRules {
  import opened Basics
  import opened ChessBoard
  import opened MoveGeneration

  // ---- check ----

  function SquareAt(i: nat): Sq
    requires i < 64
  {
    Sq(i / 8, i % 8)
  }

  lemma SquareIndex(s: Sq)
    requires On(s)
    ensures 0 <= 8 * s.r + s.c < 64 && SquareAt(8 * s.r + s.c) == s
  {
  }

  /** The king the scan ends up with: the last one among the first n squares. */
  function LastKing(b: Board, col: Color, n: nat): Option<Sq>
    requires n <= 64
  {
    if n == 0 then None
    else if IsPiece(b, SquareAt(n - 1), col, King) then Some(SquareAt(n - 1))
    else LastKing(b, col, n - 1)
  }

  /** inChk: some enemy piece has a raw move onto the king's square. */
  ghost predicate InChk(b: Board, col: Color) {
    var k := LastKing(b, col, 64);
    k.Some? && exists s :: On(s) && Has(b, s, Flip(col)) && k.value in RawMoves(b, s, None, None)
  }

  /** `k` is the only king of this colour. */
  ghost predicate KingAt(b: Board, col: Color, k: Sq) {
    On(k) && IsPiece(b, k, col, King) && forall t :: IsPiece(b, t, col, King) ==> t == k
  }

  lemma {:induction false} LastKingFinds(b: Board, col: Color, k: Sq, n: nat)
    requires KingAt(b, col, k) && n <= 64
    ensures LastKing(b, col, n) == if 8 * k.r + k.c < n then Some(k) else None
  {
    SquareIndex(k);
    if n > 0 {
      LastKingFinds(b, col, k, n - 1);
    }
  }

  /** Some piece of the colour attacks the square. */
  ghost predicate Attacked(b: Board, k: Sq, foe: Color) {
    exists s :: On(s) && Has(b, s, foe) && Attacks(b, s, k)
  }

  lemma KingMovedTo(b: Board, col: Color, s: Sq, t: Sq)
    requires KingAt(b, col, s) && On(t) && s != t
    ensures KingAt(AppMv(b, s, t), col, t)
  {
    hide At;
    forall x | IsPiece(AppMv(b, s, t), x, col, King) ensures x == t {
      assert x != t ==> IsPiece(b, x, col, King);
    }
  }

  /** With one king, inChk is the attack relation: pawn pushes never give check. */
  lemma CheckIsAttack(b: Board, col: Color, k: Sq)
    requires KingAt(b, col, k)
    ensures InChk(b, col) <==> Attacked(b, k, Flip(col))
  {
    hide RawMoves, Attacks, Pseudo;
    LastKingFinds(b, col, k, 64);
    SquareIndex(k);
    forall s | On(s) && Has(b, s, Flip(col))
      ensures k in RawMoves(b, s, None, None) <==> Attacks(b, s, k)
    {
      RawMembers(b, s, None, None, k);
      TakesTheKing(b, s, k, col);
    }
  }

  lemma TakesTheKing(b: Board, s: Sq, k: Sq, col: Color)
    requires On(s) && On(k) && IsPiece(b, k, col, King) && Has(b, s, Flip(col))
    ensures Pseudo(b, s, k, None, None) <==> Attacks(b, s, k)
  {
    hide OpenRay;
  }

  /** Check against `col` depends only on `col`'s king and on which squares hold which enemy
      piece or an own piece of whatever kind. */
  ghost predicate SameFor(b: Board, b': Board, col: Color) {
    && (forall s :: At(b, s) == At(b', s) || (Has(b, s, col) && Has(b', s, col)))
    && (forall s :: IsPiece(b, s, col, King) <==> IsPiece(b', s, col, King))
  }

  lemma {:induction false} SameRay(b: Board, b': Board, col: Color, s: Sq, dr: int, dc: int, n: nat)
    requires SameFor(b, b', col) && On(s) && IsDir(dr, dc) && 1 <= n <= 8
    ensures Ray(b, Flip(col), s, dr, dc, n) == Ray(b', Flip(col), s, dr, dc, n)
    decreases 8 - n
  {
    hide At;
    var t := Off(s, dr, dc, n);
    assert At(b, t).None? <==> At(b', t).None?;
    assert Has(b, t, col) <==> Has(b', t, col);
    if n < 8 {
      SameRay(b, b', col, s, dr, dc, n + 1);
    }
  }

  lemma {:induction false} SameRays(b: Board, b': Board, col: Color, s: Sq, dirs: seq<(int, int)>)
    requires SameFor(b, b', col) && On(s) && forall d <- dirs :: IsDir(d.0, d.1)
    ensures Rays(b, Flip(col), s, dirs) == Rays(b', Flip(col), s, dirs)
  {
    if dirs != [] {
      SameRays(b, b', col, s, dirs[..|dirs| - 1]);
      SameRay(b, b', col, s, dirs[|dirs| - 1].0, dirs[|dirs| - 1].1, 1);
    }
  }

  lemma {:induction false} SameHops(b: Board, b': Board, col: Color, s: Sq, offsets: seq<(int, int)>)
    requires SameFor(b, b', col)
    ensures Hops(b, Flip(col), s, offsets) == Hops(b', Flip(col), s, offsets)
  {
    hide At, IsPiece, On;
    if offsets != [] {
      SameHops(b, b', col, s, offsets[..|offsets| - 1]);
      var t := Sq(s.r + offsets[|offsets| - 1].0, s.c + offsets[|offsets| - 1].1);
      assert Has(b, t, Flip(col)) <==> Has(b', t, Flip(col));
    }
  }

  lemma SamePawn(b: Board, b': Board, col: Color, s: Sq)
    requires SameFor(b, b', col)
    ensures Pushes(b, Flip(col), s) == Pushes(b', Flip(col), s)
    ensures forall dc :: Takes(b, Flip(col), s, None, dc) == Takes(b', Flip(col), s, None, dc)
  {
    hide At, IsPiece;
    assert forall t :: At(b, t).None? <==> At(b', t).None?;
    assert forall t :: Has(b, t, col) <==> Has(b', t, col);
  }

  lemma SameMoves(b: Board, b': Board, col: Color, s: Sq)
    requires SameFor(b, b', col) && On(s) && Has(b, s, Flip(col))
    ensures RawMoves(b, s, None, None) == RawMoves(b', s, None, None)
  {
    hide Hops, Rays, Pushes, Takes;
    var p := At(b, s).value;
    assert At(b', s) == At(b, s);
    match p.kind
    case Pawn => SamePawn(b, b', col, s);
    case Knight => SameHops(b, b', col, s, KNIGHT);
    case King => SameHops(b, b', col, s, KING);
    case _ => SameRays(b, b', col, s, Dirs(p.kind));
  }

  lemma {:induction false} SameKing(b: Board, b': Board, col: Color, n: nat)
    requires SameFor(b, b', col) && n <= 64
    ensures LastKing(b, col, n) == LastKing(b', col, n)
  {
    if n > 0 {
      SameKing(b, b', col, n - 1);
    }
  }

  /** Exchanging an own piece for another (a promotion) does not change check against oneself. */
  lemma SameCheck(b: Board, b': Board, col: Color)
    requires SameFor(b, b', col)
    ensures InChk(b, col) <==> InChk(b', col)
  {
    hide RawMoves;
    SameKing(b, b', col, 64);
    forall s | On(s) ensures Has(b, s, Flip(col)) <==> Has(b', s, Flip(col)) {
    }
    forall s | On(s) && Has(b, s, Flip(col))
      ensures RawMoves(b, s, None, None) == RawMoves(b', s, None, None)
    {
      SameMoves(b, b', col, s);
    }
  }

  // ---- the board after a move ----

  function Clear(b: Board, s: Sq): Board {
    if On(s) then Put(b, s, None) else b
  }

  predicate IsEnPassant(p: Piece, t: Sq, ep: Option<Sq>) {
    p.kind == Pawn && ep == Some(t)
  }

  /** The pawn an en-passant capture removes. */
  function Behind(t: Sq, col: Color): Sq {
    Sq(t.r - Forward(col), t.c)
  }

  predicate IsCastle(p: Piece, s: Sq, t: Sq) {
    p.kind == King && Abs(t.c - s.c) == 2
  }

  function RookFrom(t: Sq, col: Color): Sq {
    Sq(HomeRow(col), if t.c == 6 then 7 else 0)
  }

  function RookTo(t: Sq, col: Color): Sq {
    Sq(HomeRow(col), if t.c == 6 then 5 else 3)
  }

  function MoveRook(b: Board, t: Sq, col: Color): Board {
    Put(Put(b, RookTo(t, col), At(b, RookFrom(t, col))), RookFrom(t, col), None)
  }

  /** The board getLegal tests and applyMove commits, before any promotion. */
  function Moved(b: Board, s: Sq, t: Sq, ep: Option<Sq>): Board
    requires On(s) && On(t)
  {
    match At(b, s)
    case None => b
    case Some(p) =>
      var nb := AppMv(b, s, t);
      if IsEnPassant(p, t, ep) then Clear(nb, Behind(t, p.color))
      else if IsCastle(p, s, t) then MoveRook(nb, t, p.color)
      else nb
  }

  // ---- legal moves ----

  /** The filter of getLegal. The square the king crosses is tested, the square it leaves
      is not. */
  ghost predicate Safe(b: Board, s: Sq, t: Sq, ep: Option<Sq>)
    requires On(s) && On(t) && At(b, s).Some?
  {
    var p := At(b, s).value;
    && (IsCastle(p, s, t) ==> !InChk(AppMv(b, s, RookTo(t, p.color)), p.color))
    && !InChk(Moved(b, s, t, ep), p.color)
  }

  ghost predicate Legal(b: Board, s: Sq, t: Sq, ep: Option<Sq>, cast: Rights) {
    && On(s) && On(t) && At(b, s).Some?
    && t in RawMoves(b, s, ep, Some(cast))
    && Safe(b, s, t, ep)
  }

  /** The legal targets among a list of raw ones, in order. */
  ghost function Filtered(b: Board, s: Sq, raw: seq<Sq>, ep: Option<Sq>): seq<Sq>
    requires On(s) && At(b, s).Some? && forall t <- raw :: On(t)
  {
    if raw == [] then []
    else
      var rest := Filtered(b, s, raw[..|raw| - 1], ep);
      if Safe(b, s, raw[|raw| - 1], ep) then rest + [raw[|raw| - 1]] else rest
  }

  lemma {:induction false} FilteredMembers(b: Board, s: Sq, raw: seq<Sq>, ep: Option<Sq>, t: Sq)
    requires On(s) && At(b, s).Some? && forall u <- raw :: On(u)
    ensures t in Filtered(b, s, raw, ep) <==> t in raw && Safe(b, s, t, ep)
  {
    hide Safe;
    if raw != [] {
      FilteredMembers(b, s, raw[..|raw| - 1], ep, t);
      assert raw == raw[..|raw| - 1] + [raw[|raw| - 1]];
    }
  }

  lemma RawOnBoard(b: Board, s: Sq, ep: Option<Sq>, cast: Option<Rights>)
    requires On(s)
    ensures forall t <- RawMoves(b, s, ep, cast) :: On(t)
  {
    hide RawMoves;
    forall t <- RawMoves(b, s, ep, cast) ensures On(t) {
      RawMembers(b, s, ep, cast, t);
    }
  }

  /** getLegal(board, r, c, ep, cast) */
  ghost function LegalMoves(b: Board, s: Sq, ep: Option<Sq>, cast: Rights): seq<Sq>
    requires On(s)
  {
    if At(b, s).None? then []
    else
      RawOnBoard(b, s, ep, Some(cast));
      Filtered(b, s, RawMoves(b, s, ep, Some(cast)), ep)
  }

  lemma LegalMembers(b: Board, s: Sq, ep: Option<Sq>, cast: Rights, t: Sq)
    requires On(s)
    ensures t in LegalMoves(b, s, ep, cast) <==> Legal(b, s, t, ep, cast)
  {
    hide RawMoves, Safe;
    RawOnBoard(b, s, ep, Some(cast));
    if At(b, s).Some? {
      FilteredMembers(b, s, RawMoves(b, s, ep, Some(cast)), ep, t);
    }
  }

  /** hasAny: some piece of the colour has a legal move. */
  ghost predicate HasAny(b: Board, col: Color, ep: Option<Sq>, cast: Rights) {
    exists s, t :: Has(b, s, col) && Legal(b, s, t, ep, cast)
  }
}

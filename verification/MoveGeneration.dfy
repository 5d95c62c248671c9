/** rawMoves and inChk of engine/chessEngine.js: move generation, and its meaning as an
    attack relation. */
module MoveGeneration {
  import opened Basics
  import opened ChessBoard

  // ---- sliding pieces ----

  function Step(d: int, n: int): int {
    if d == 0 then 0 else if d > 0 then n else -n
  }

  /** The square n steps away in direction (dr, dc), each of -1, 0, 1. */
  function Off(s: Sq, dr: int, dc: int, n: int): Sq {
    Sq(s.r + Step(dr, n), s.c + Step(dc, n))
  }

  predicate IsDir(dr: int, dc: int) {
    -1 <= dr <= 1 && -1 <= dc <= 1 && (dr != 0 || dc != 0)
  }

  /** The squares the slider loop collects from its n-th step on. */
  function Ray(b: Board, col: Color, s: Sq, dr: int, dc: int, n: nat): seq<Sq>
    requires On(s) && IsDir(dr, dc) && 1 <= n <= 8
    decreases 8 - n
  {
    var t := Off(s, dr, dc, n);
    if !On(t) then []
    else if At(b, t).None? then [t] + if n < 8 then Ray(b, col, s, dr, dc, n + 1) else []
    else if Has(b, t, Flip(col)) then [t] else []
  }

  /** `t` lies on the ray after at least n steps and nothing stands in between. */
  ghost predicate OpenRay(b: Board, s: Sq, t: Sq, dr: int, dc: int, n: nat) {
    exists m :: n <= m <= 8 && t == Off(s, dr, dc, m) && ClearTo(b, s, dr, dc, n, m)
  }

  ghost predicate ClearTo(b: Board, s: Sq, dr: int, dc: int, n: nat, m: int) {
    forall k :: n <= k < m ==> At(b, Off(s, dr, dc, k)).None?
  }

  lemma OpenRayStep(b: Board, s: Sq, t: Sq, dr: int, dc: int, n: nat)
    requires n <= 8
    ensures OpenRay(b, s, t, dr, dc, n) <==>
            t == Off(s, dr, dc, n) || (At(b, Off(s, dr, dc, n)).None? && OpenRay(b, s, t, dr, dc, n + 1))
  {
    hide At, Off;
    if OpenRay(b, s, t, dr, dc, n) && t != Off(s, dr, dc, n) {
      var m :| n <= m <= 8 && t == Off(s, dr, dc, m) && ClearTo(b, s, dr, dc, n, m);
      assert ClearTo(b, s, dr, dc, n + 1, m);
    }
    if At(b, Off(s, dr, dc, n)).None? && OpenRay(b, s, t, dr, dc, n + 1) {
      var m :| n + 1 <= m <= 8 && t == Off(s, dr, dc, m) && ClearTo(b, s, dr, dc, n + 1, m);
      assert ClearTo(b, s, dr, dc, n, m);
    }
    if t == Off(s, dr, dc, n) {
      assert ClearTo(b, s, dr, dc, n, n);
    }
  }

  /** A ray that has left the board does not come back. */
  lemma RayLeaves(b: Board, s: Sq, t: Sq, dr: int, dc: int, n: nat)
    requires On(s) && IsDir(dr, dc) && 1 <= n && !On(Off(s, dr, dc, n)) && On(t)
    ensures !OpenRay(b, s, t, dr, dc, n)
  {
    hide ClearTo;
  }

  /** The slider loop yields exactly the squares of the open ray that are not own-occupied. */
  lemma {:induction false} RayMembers(b: Board, col: Color, s: Sq, dr: int, dc: int, n: nat, t: Sq)
    requires On(s) && IsDir(dr, dc) && 1 <= n <= 8
    ensures t in Ray(b, col, s, dr, dc, n) <==> On(t) && !Has(b, t, col) && OpenRay(b, s, t, dr, dc, n)
    decreases 8 - n
  {
    hide OpenRay;
    var u := Off(s, dr, dc, n);
    assert On(u) ==> n < 8;
    OpenRayStep(b, s, t, dr, dc, n);
    if !On(u) {
      if On(t) {
        RayLeaves(b, s, t, dr, dc, n);
      }
    } else if At(b, u).None? {
      RayMembers(b, col, s, dr, dc, n + 1, t);
    }
  }

  // ---- the other pieces ----

  const KNIGHT: seq<(int, int)> := [(-2, -1), (-2, 1), (-1, -2), (-1, 2), (1, -2), (1, 2), (2, -1), (2, 1)]
  const KING: seq<(int, int)> := [(-1, -1), (-1, 0), (-1, 1), (0, -1), (0, 1), (1, -1), (1, 0), (1, 1)]

  function Hops(b: Board, col: Color, s: Sq, offsets: seq<(int, int)>): seq<Sq> {
    if offsets == [] then []
    else
      var rest := Hops(b, col, s, offsets[..|offsets| - 1]);
      var (dr, dc) := offsets[|offsets| - 1];
      var t := Sq(s.r + dr, s.c + dc);
      if On(t) && !Has(b, t, col) then rest + [t] else rest
  }

  lemma {:induction false} HopMembers(b: Board, col: Color, s: Sq, offsets: seq<(int, int)>, t: Sq)
    ensures t in Hops(b, col, s, offsets) <==> On(t) && !Has(b, t, col) && (t.r - s.r, t.c - s.c) in offsets
  {
    if offsets != [] {
      HopMembers(b, col, s, offsets[..|offsets| - 1], t);
      var o := offsets[|offsets| - 1];
      assert offsets == offsets[..|offsets| - 1] + [o];
      assert t == Sq(s.r + o.0, s.c + o.1) <==> (t.r - s.r, t.c - s.c) == o;
    }
  }

  function Forward(col: Color): int {
    if col == White then -1 else 1
  }

  function StartRow(col: Color): int {
    if col == White then 6 else 1
  }

  function Pushes(b: Board, col: Color, s: Sq): seq<Sq> {
    var d := Forward(col);
    var one, two := Sq(s.r + d, s.c), Sq(s.r + 2 * d, s.c);
    if On(one) && At(b, one).None? then
      [one] + if s.r == StartRow(col) && At(b, two).None? then [two] else []
    else []
  }

  function Takes(b: Board, col: Color, s: Sq, ep: Option<Sq>, dc: int): seq<Sq> {
    var t := Sq(s.r + Forward(col), s.c + dc);
    if On(t) then (if Has(b, t, Flip(col)) then [t] else []) + (if ep == Some(t) then [t] else [])
    else []
  }

  function Castles(b: Board, col: Color, s: Sq, cast: Option<Rights>): seq<Sq> {
    var row := HomeRow(col);
    if cast.Some? && s == Sq(row, 4) then
      (if Right(cast.value, col, true) && At(b, Sq(row, 5)).None? && At(b, Sq(row, 6)).None?
       then [Sq(row, 6)] else [])
      + (if Right(cast.value, col, false) && At(b, Sq(row, 3)).None? && At(b, Sq(row, 2)).None? && At(b, Sq(row, 1)).None?
         then [Sq(row, 2)] else [])
    else []
  }

  const DIAGONAL: seq<(int, int)> := [(-1, -1), (-1, 1), (1, -1), (1, 1)]
  const STRAIGHT: seq<(int, int)> := [(-1, 0), (1, 0), (0, -1), (0, 1)]

  function Rays(b: Board, col: Color, s: Sq, dirs: seq<(int, int)>): seq<Sq>
    requires On(s) && forall d <- dirs :: IsDir(d.0, d.1)
  {
    if dirs == [] then []
    else
      var d := dirs[|dirs| - 1];
      Rays(b, col, s, dirs[..|dirs| - 1]) + Ray(b, col, s, d.0, d.1, 1)
  }

  lemma {:induction false} RaysMembers(b: Board, col: Color, s: Sq, dirs: seq<(int, int)>, t: Sq)
    requires On(s) && forall d <- dirs :: IsDir(d.0, d.1)
    ensures t in Rays(b, col, s, dirs) <==>
              On(t) && !Has(b, t, col) && exists d <- dirs :: OpenRay(b, s, t, d.0, d.1, 1)
  {
    if dirs != [] {
      var d := dirs[|dirs| - 1];
      RaysMembers(b, col, s, dirs[..|dirs| - 1], t);
      RayMembers(b, col, s, d.0, d.1, 1, t);
      assert dirs == dirs[..|dirs| - 1] + [d];
    }
  }

  function Dirs(kind: Kind): (dirs: seq<(int, int)>)
    ensures forall d <- dirs :: IsDir(d.0, d.1)
  {
    match kind
    case Bishop => DIAGONAL
    case Rook => STRAIGHT
    case Queen => DIAGONAL + STRAIGHT
    case _ => []
  }

  /** rawMoves(board, r, c, ep, cast) */
  function RawMoves(b: Board, s: Sq, ep: Option<Sq>, cast: Option<Rights>): seq<Sq>
    requires On(s)
  {
    match At(b, s)
    case None => []
    case Some(p) =>
      match p.kind
      case Pawn => Pushes(b, p.color, s) + Takes(b, p.color, s, ep, -1) + Takes(b, p.color, s, ep, 1)
      case Knight => Hops(b, p.color, s, KNIGHT)
      case King => Hops(b, p.color, s, KING) + Castles(b, p.color, s, cast)
      case _ => Rays(b, p.color, s, Dirs(p.kind))
  }

  // ---- what the moves mean ----

  function Abs(n: int): nat {
    if n < 0 then -n else n
  }

  /** k squares from line `from` towards line `to`. */
  function Toward(from: int, to: int, k: nat): int {
    if to > from then from + k else if to < from then from - k else from
  }

  /** Every square strictly between `s` and `t` is empty. */
  ghost predicate EmptyBetween(b: Board, s: Sq, t: Sq) {
    forall k: nat :: 0 < k && (k < Abs(t.r - s.r) || k < Abs(t.c - s.c)) ==>
      At(b, Sq(Toward(s.r, t.r, k), Toward(s.c, t.c, k))).None?
  }

  predicate OnDiagonal(s: Sq, t: Sq) {
    Abs(t.r - s.r) == Abs(t.c - s.c) > 0
  }

  predicate OnLine(s: Sq, t: Sq) {
    (t.r == s.r) != (t.c == s.c)
  }

  /** The piece on `s` attacks `t`, as Article 3 of the FIDE Laws of Chess describes the pieces. */
  ghost predicate Attacks(b: Board, s: Sq, t: Sq) {
    && At(b, s).Some?
    && var p, dr, dc := At(b, s).value, Abs(t.r - s.r), Abs(t.c - s.c);
    && match p.kind
       case Pawn => t.r == (if p.color == White then s.r - 1 else s.r + 1) && dc == 1
       case Knight => (dr == 1 && dc == 2) || (dr == 2 && dc == 1)
       case King => dr <= 1 && dc <= 1 && t != s
       case Bishop => OnDiagonal(s, t) && EmptyBetween(b, s, t)
       case Rook => OnLine(s, t) && EmptyBetween(b, s, t)
       case Queen => (OnDiagonal(s, t) || OnLine(s, t)) && EmptyBetween(b, s, t)
  }

  /** A pawn steps to the empty square before it, or two squares from its home row when both
      are empty. */
  ghost predicate Push(b: Board, s: Sq, t: Sq, col: Color) {
    && t.c == s.c && At(b, t).None?
    && if col == White then t.r == s.r - 1 || (s.r == 6 && t.r == 4 && At(b, Sq(5, s.c)).None?)
       else t.r == s.r + 1 || (s.r == 1 && t.r == 3 && At(b, Sq(2, s.c)).None?)
  }

  /** The king on e1 or e8 goes to the g- or c-file with the right held and the way empty. */
  ghost predicate CastleTo(b: Board, s: Sq, t: Sq, col: Color, cast: Rights) {
    || (col == White && s == Sq(7, 4) && t == Sq(7, 6) && cast.wK && At(b, Sq(7, 5)).None? && At(b, Sq(7, 6)).None?)
    || (col == White && s == Sq(7, 4) && t == Sq(7, 2) && cast.wQ
        && At(b, Sq(7, 3)).None? && At(b, Sq(7, 2)).None? && At(b, Sq(7, 1)).None?)
    || (col == Black && s == Sq(0, 4) && t == Sq(0, 6) && cast.bK && At(b, Sq(0, 5)).None? && At(b, Sq(0, 6)).None?)
    || (col == Black && s == Sq(0, 4) && t == Sq(0, 2) && cast.bQ
        && At(b, Sq(0, 3)).None? && At(b, Sq(0, 2)).None? && At(b, Sq(0, 1)).None?)
  }

  /** A pawn moves by pushing, taking or capturing en passant; every other piece moves to the
      squares it attacks that are not its own side's; the king may also castle. */
  ghost predicate Pseudo(b: Board, s: Sq, t: Sq, ep: Option<Sq>, cast: Option<Rights>) {
    && On(t) && At(b, s).Some?
    && var p := At(b, s).value;
    && if p.kind == Pawn then
         || Push(b, s, t, p.color)
         || (Attacks(b, s, t) && (Has(b, t, Flip(p.color)) || ep == Some(t)))
       else
         || (Attacks(b, s, t) && !Has(b, t, p.color))
         || (p.kind == King && cast.Some? && CastleTo(b, s, t, p.color, cast.value))
  }

  // ---- rays and lines ----

  function Sgn(n: int): int {
    if n < 0 then -1 else if n > 0 then 1 else 0
  }

  lemma OffIsToward(s: Sq, t: Sq, dr: int, dc: int, k: nat)
    requires k > 0 && dr == Sgn(t.r - s.r) && dc == Sgn(t.c - s.c)
    ensures Off(s, dr, dc, k) == Sq(Toward(s.r, t.r, k), Toward(s.c, t.c, k))
  {
  }

  lemma OffAligned(s: Sq, t: Sq, dr: int, dc: int, m: nat)
    requires m > 0 && IsDir(dr, dc) && t == Off(s, dr, dc, m)
    ensures dr == Sgn(t.r - s.r) && dc == Sgn(t.c - s.c) && (OnDiagonal(s, t) || OnLine(s, t))
    ensures Abs(t.r - s.r) <= m && Abs(t.c - s.c) <= m
  {
  }

  lemma AlignedOff(s: Sq, t: Sq) returns (m: nat)
    requires On(s) && On(t) && (OnDiagonal(s, t) || OnLine(s, t))
    ensures 1 <= m <= 8 && t == Off(s, Sgn(t.r - s.r), Sgn(t.c - s.c), m)
    ensures m <= Abs(t.r - s.r) || m <= Abs(t.c - s.c)
  {
    m := if t.r != s.r then Abs(t.r - s.r) else Abs(t.c - s.c);
  }

  /** An open ray in one direction is a line or diagonal in that direction with nothing between. */
  lemma RayIsLine(b: Board, s: Sq, t: Sq, dr: int, dc: int)
    requires On(s) && On(t) && IsDir(dr, dc)
    ensures OpenRay(b, s, t, dr, dc, 1) <==>
              && (OnDiagonal(s, t) || OnLine(s, t)) && dr == Sgn(t.r - s.r) && dc == Sgn(t.c - s.c)
              && EmptyBetween(b, s, t)
  {
    hide At, Off, Toward, Sgn, OnDiagonal, OnLine, Abs;
    if OpenRay(b, s, t, dr, dc, 1) {
      var m :| 1 <= m <= 8 && t == Off(s, dr, dc, m) && ClearTo(b, s, dr, dc, 1, m);
      OffAligned(s, t, dr, dc, m);
      forall k: nat | 0 < k < m ensures At(b, Sq(Toward(s.r, t.r, k), Toward(s.c, t.c, k))).None? {
        OffIsToward(s, t, dr, dc, k);
        assert At(b, Off(s, dr, dc, k)).None?;
      }
    }
    if (OnDiagonal(s, t) || OnLine(s, t)) && dr == Sgn(t.r - s.r) && dc == Sgn(t.c - s.c) && EmptyBetween(b, s, t) {
      var m := AlignedOff(s, t);
      forall k | 1 <= k < m ensures At(b, Off(s, dr, dc, k)).None? {
        OffIsToward(s, t, dr, dc, k);
      }
      assert t == Off(s, dr, dc, m) && ClearTo(b, s, dr, dc, 1, m);
    }
  }

  lemma DirsOf(kind: Kind, dr: int, dc: int)
    requires kind == Bishop || kind == Rook || kind == Queen
    ensures (dr, dc) in Dirs(kind) <==>
              || (kind != Rook && Abs(dr) == 1 && Abs(dc) == 1)
              || (kind != Bishop && ((dr == 0 && Abs(dc) == 1) || (Abs(dr) == 1 && dc == 0)))
  {
  }

  /** A slider attacks along its open rays. */
  lemma SliderAttacks(b: Board, s: Sq, t: Sq)
    requires On(s) && On(t) && At(b, s).Some?
    requires var kind := At(b, s).value.kind; kind == Bishop || kind == Rook || kind == Queen
    ensures Attacks(b, s, t) <==> exists d <- Dirs(At(b, s).value.kind) :: OpenRay(b, s, t, d.0, d.1, 1)
  {
    hide OpenRay, EmptyBetween, At;
    var kind := At(b, s).value.kind;
    forall d <- Dirs(kind) ensures Attacks(b, s, t) || !OpenRay(b, s, t, d.0, d.1, 1) {
      RayIsLine(b, s, t, d.0, d.1);
      DirsOf(kind, d.0, d.1);
    }
    var d := (Sgn(t.r - s.r), Sgn(t.c - s.c));
    if Attacks(b, s, t) {
      RayIsLine(b, s, t, d.0, d.1);
      DirsOf(kind, d.0, d.1);
      assert d in Dirs(kind) && OpenRay(b, s, t, d.0, d.1, 1);
    }
  }

  lemma KnightOffsets(s: Sq, t: Sq)
    ensures (t.r - s.r, t.c - s.c) in KNIGHT <==>
            var dr, dc := Abs(t.r - s.r), Abs(t.c - s.c); (dr == 1 && dc == 2) || (dr == 2 && dc == 1)
  {
  }

  lemma KingOffsets(s: Sq, t: Sq)
    ensures (t.r - s.r, t.c - s.c) in KING <==> Abs(t.r - s.r) <= 1 && Abs(t.c - s.c) <= 1 && t != s
  {
  }

  lemma PawnMembers(b: Board, s: Sq, col: Color, ep: Option<Sq>, t: Sq)
    requires On(s) && IsPiece(b, s, col, Pawn)
    ensures t in Pushes(b, col, s) <==> On(t) && Push(b, s, t, col)
    ensures t in Takes(b, col, s, ep, -1) + Takes(b, col, s, ep, 1) <==>
            On(t) && Attacks(b, s, t) && (Has(b, t, Flip(col)) || ep == Some(t))
  {
    hide Pushes, Push, Takes, EmptyBetween, OnDiagonal, OnLine;
    PushMembers(b, s, col, t);
    TakeMembers(b, s, col, ep, -1, t);
    TakeMembers(b, s, col, ep, 1, t);
  }

  lemma TakeMembers(b: Board, s: Sq, col: Color, ep: Option<Sq>, dc: int, t: Sq)
    ensures t in Takes(b, col, s, ep, dc) <==>
              On(t) && t.r == s.r + Forward(col) && t.c == s.c + dc && (Has(b, t, Flip(col)) || ep == Some(t))
  {
    hide At;
  }

  lemma PushMembers(b: Board, s: Sq, col: Color, t: Sq)
    requires On(s) && IsPiece(b, s, col, Pawn)
    ensures t in Pushes(b, col, s) <==> On(t) && Push(b, s, t, col)
  {
    hide At;
    var two := Sq(s.r + 2 * Forward(col), s.c);
    assert s.r == StartRow(col) ==> On(two);
  }

  lemma CastleMembers(b: Board, s: Sq, col: Color, cast: Option<Rights>, t: Sq)
    requires On(s)
    ensures t in Castles(b, col, s, cast) <==> cast.Some? && CastleTo(b, s, t, col, cast.value)
    ensures t in Castles(b, col, s, cast) ==> On(t)
  {
    hide At;
  }

  /** The generated list holds exactly the pseudo-legal targets. */
  lemma RawMembers(b: Board, s: Sq, ep: Option<Sq>, cast: Option<Rights>, t: Sq)
    requires On(s)
    ensures t in RawMoves(b, s, ep, cast) <==> Pseudo(b, s, t, ep, cast)
  {
    hide At, Hops, Castles, Rays, Pushes, Takes, Push, CastleTo, OpenRay, EmptyBetween;
    if At(b, s).Some? {
      var p := At(b, s).value;
      match p.kind
      case Pawn =>
        PawnMembers(b, s, p.color, ep, t);
      case Knight =>
        HopMembers(b, p.color, s, KNIGHT, t);
        KnightOffsets(s, t);
      case King =>
        HopMembers(b, p.color, s, KING, t);
        KingOffsets(s, t);
        CastleMembers(b, s, p.color, cast, t);
      case _ =>
        RaysMembers(b, p.color, s, Dirs(p.kind), t);
        if On(t) {
          SliderAttacks(b, s, t);
        }
    }
  }
}

/** engine/chessEngine.js as it runs: loops that push onto move lists, scan the board and
    rebuild boards. Each method is proved equal to its function or predicate. */
module Engine {
  import opened Basics
  import opened ChessBoard
  import opened MoveGeneration
  import opened ChessRules
  import opened Play

  /** The sl closure: walk until the edge, an own piece, or just onto an enemy piece. */
  method Slide(b: Board, col: Color, s: Sq, dr: int, dc: int) returns (mv: seq<Sq>)
    requires On(s) && IsDir(dr, dc)
    ensures mv == Ray(b, col, s, dr, dc, 1)
  {
    mv := [];
    var nr, nc := s.r + dr, s.c + dc;
    ghost var n := 1;
    while On(Sq(nr, nc))
      invariant 1 <= n <= 8 && Sq(nr, nc) == Off(s, dr, dc, n)
      invariant mv + Ray(b, col, s, dr, dc, n) == Ray(b, col, s, dr, dc, 1)
      decreases 8 - n
    {
      LeavesByEight(s, dr, dc, n);
      RayUnfolds(b, col, s, dr, dc, n, mv);
      if At(b, Sq(nr, nc)).None? {
        mv := mv + [Sq(nr, nc)];
      } else {
        if Has(b, Sq(nr, nc), Flip(col)) {
          mv := mv + [Sq(nr, nc)];
        }
        return;
      }
      hide Ray, At;
      nr, nc, n := nr + dr, nc + dc, n + 1;
    }
  }

  lemma LeavesByEight(s: Sq, dr: int, dc: int, n: nat)
    requires On(s) && IsDir(dr, dc) && On(Off(s, dr, dc, n))
    ensures n < 8
  {
  }

  /** One turn of the slider loop. */
  lemma RayUnfolds(b: Board, col: Color, s: Sq, dr: int, dc: int, n: nat, mv: seq<Sq>)
    requires On(s) && IsDir(dr, dc) && 1 <= n < 8 && On(Off(s, dr, dc, n))
    ensures var t := Off(s, dr, dc, n);
            mv + Ray(b, col, s, dr, dc, n) ==
              if At(b, t).None? then (mv + [t]) + Ray(b, col, s, dr, dc, n + 1)
              else if Has(b, t, Flip(col)) then mv + [t] else mv
  {
    hide Off, At;
  }

  method SlideAll(b: Board, col: Color, s: Sq, dirs: seq<(int, int)>) returns (mv: seq<Sq>)
    requires On(s) && forall d <- dirs :: IsDir(d.0, d.1)
    ensures mv == Rays(b, col, s, dirs)
  {
    mv := [];
    for i := 0 to |dirs|
      invariant mv == Rays(b, col, s, dirs[..i])
    {
      var ray := Slide(b, col, s, dirs[i].0, dirs[i].1);
      assert dirs[..i + 1][..i] == dirs[..i];
      mv := mv + ray;
    }
    assert dirs[..|dirs|] == dirs;
  }

  method HopAll(b: Board, col: Color, s: Sq, offsets: seq<(int, int)>) returns (mv: seq<Sq>)
    ensures mv == Hops(b, col, s, offsets)
  {
    mv := [];
    for i := 0 to |offsets|
      invariant mv == Hops(b, col, s, offsets[..i])
    {
      assert offsets[..i + 1][..i] == offsets[..i];
      var t := Sq(s.r + offsets[i].0, s.c + offsets[i].1);
      if On(t) && !Has(b, t, col) {
        mv := mv + [t];
      }
    }
    assert offsets[..|offsets|] == offsets;
  }

  /** rawMoves */
  method RawMoveList(b: Board, s: Sq, ep: Option<Sq>, cast: Option<Rights>) returns (mv: seq<Sq>)
    requires On(s)
    ensures mv == RawMoves(b, s, ep, cast)
    ensures forall t :: t in mv <==> Pseudo(b, s, t, ep, cast)
  {
    mv := [];
    if At(b, s).Some? {
      var p := At(b, s).value;
      match p.kind {
        case Pawn => mv := Pushes(b, p.color, s) + Takes(b, p.color, s, ep, -1) + Takes(b, p.color, s, ep, 1);
        case Knight => mv := HopAll(b, p.color, s, KNIGHT);
        case King =>
          mv := HopAll(b, p.color, s, KING);
          mv := mv + Castles(b, p.color, s, cast);
        case _ => mv := SlideAll(b, p.color, s, Dirs(p.kind));
      }
    }
    hide RawMoves, Pseudo;
    forall t ensures t in mv <==> Pseudo(b, s, t, ep, cast) {
      RawMembers(b, s, ep, cast, t);
    }
  }

  /** inChk: find the king, then ask every enemy piece. */
  method InCheck(b: Board, col: Color) returns (chk: bool)
    ensures chk <==> InChk(b, col)
  {
    hide RawMoves, Pseudo;
    var king: Option<Sq> := None;
    for i := 0 to 64
      invariant king == LastKing(b, col, i)
    {
      if IsPiece(b, SquareAt(i), col, King) {
        king := Some(SquareAt(i));
      }
    }
    if king.None? { return false; }
    for i := 0 to 64
      invariant forall j :: 0 <= j < i ==> !Hits(b, col, SquareAt(j), king.value)
    {
      if Has(b, SquareAt(i), Flip(col)) {
        var mv := RawMoveList(b, SquareAt(i), None, None);
        if king.value in mv {
          return true;
        }
      }
    }
    forall s | On(s) && Has(b, s, Flip(col)) ensures king.value !in RawMoves(b, s, None, None) {
      SquareIndex(s);
      assert !Hits(b, col, SquareAt(8 * s.r + s.c), king.value);
    }
    return false;
  }

  ghost predicate Hits(b: Board, col: Color, s: Sq, k: Sq) {
    On(s) && Has(b, s, Flip(col)) && k in RawMoves(b, s, None, None)
  }

  /** The callback getLegal filters with: edit a copied board, then test for check. */
  method IsSafe(b: Board, s: Sq, t: Sq, ep: Option<Sq>) returns (ok: bool)
    requires On(s) && On(t) && At(b, s).Some?
    ensures ok <==> Safe(b, s, t, ep)
  {
    hide InChk;
    var p := At(b, s).value;
    var nb := AppMv(b, s, t);
    if IsEnPassant(p, t, ep) {
      nb := Clear(nb, Behind(t, p.color));
    }
    if IsCastle(p, s, t) {
      nb := MoveRook(nb, t, p.color);
      var crossed := InCheck(AppMv(b, s, RookTo(t, p.color)), p.color);
      if crossed { return false; }
    }
    var chk := InCheck(nb, p.color);
    return !chk;
  }

  /** getLegal */
  method LegalMoveList(b: Board, s: Sq, ep: Option<Sq>, cast: Rights) returns (mv: seq<Sq>)
    requires On(s)
    ensures mv == LegalMoves(b, s, ep, cast)
    ensures forall t :: t in mv <==> Legal(b, s, t, ep, cast)
  {
    hide Safe, Pseudo, RawMoves, Legal;
    mv := [];
    if At(b, s).Some? {
      var raw := RawMoveList(b, s, ep, Some(cast));
      RawOnBoard(b, s, ep, Some(cast));
      for i := 0 to |raw|
        invariant mv == Filtered(b, s, raw[..i], ep)
      {
        assert raw[..i + 1][..i] == raw[..i];
        var ok := IsSafe(b, s, raw[i], ep);
        if ok {
          mv := mv + [raw[i]];
        }
      }
      assert raw[..|raw|] == raw;
    }
    forall t ensures t in mv <==> Legal(b, s, t, ep, cast) {
      LegalMembers(b, s, ep, cast, t);
    }
  }

  /** hasAny */
  method HasAnyMove(b: Board, col: Color, ep: Option<Sq>, cast: Rights) returns (any: bool)
    ensures any <==> HasAny(b, col, ep, cast)
  {
    hide Legal, LegalMoves;
    for i := 0 to 64
      invariant forall j, t :: 0 <= j < i ==> !(Has(b, SquareAt(j), col) && Legal(b, SquareAt(j), t, ep, cast))
    {
      if Has(b, SquareAt(i), col) {
        var mv := LegalMoveList(b, SquareAt(i), ep, cast);
        if |mv| > 0 {
          assert mv[0] in mv;
          return true;
        }
      }
    }
    forall s, t | Has(b, s, col) ensures !Legal(b, s, t, ep, cast) {
      assert On(s);
      SquareIndex(s);
      assert !(Has(b, SquareAt(8 * s.r + s.c), col) && Legal(b, SquareAt(8 * s.r + s.c), t, ep, cast));
    }
    return false;
  }

  /** replayToSnapshots: None where a malformed entry would throw. */
  method ReplayToSnapshots(log: seq<LogEntry>) returns (boards: Option<seq<Board>>)
    ensures boards.None? ==> exists k :: 0 <= k <= |log| && BoardAfter(log[..k]).None?
    ensures boards.Some? ==>
              && |boards.value| == |log| + 1
              && forall k :: 0 <= k <= |log| ==> BoardAfter(log[..k]) == Some(boards.value[k])
  {
    hide ReplayStep;
    var board := InitBoard();
    var out := [board];
    for i := 0 to |log|
      invariant |out| == i + 1 && out[i] == board
      invariant forall k :: 0 <= k <= i ==> BoardAfter(log[..k]) == Some(out[k])
    {
      assert log[..i + 1][..i] == log[..i];
      assert BoardAfter(log[..i]) == Some(board);
      var next := ReplayStep(board, log[i]);
      if next.None? {
        assert BoardAfter(log[..i + 1]).None?;
        return None;
      }
      board := next.value;
      out := out + [board];
    }
    return Some(out);
  }
}

/** What one click, promotion or undo does, square by square and field by field. */
module PlayMoves {
  import opened Basics
  import opened ChessBoard
  import opened MoveGeneration
  import opened ChessRules
  import opened ChessPosition
  import opened Notation
  import opened Play
  import opened PlayInvariant
  import Fen

  /** A new or restarted game: nothing selected, taken, pending or to undo, and the position is
      the one every new multiplayer game is stored with. */
  lemma StartsFresh()
    ensures var x := Reset().now;
            && Fen.ToFen(Fen.Loaded(x.board, x.turn, x.cast, x.ep), |x.log|)
               == "rnbqkbnr/pppppppp/8/8/8/8/PPPPPPPP/RNBQKBNR w KQkq - 0 1"
            && x.status == Ongoing && x.capt == Taken([], []) && x.sel == None && x.moves == [] && x.lastMv == None
            && Reset().promo == None && Reset().past == []
  {
    hide InitBoard, Fen.ToFen;
    Fen.InitialFen();
  }

  predicate Over(x: Snap) {
    x.status in {Checkmate, Stalemate, Timeout}
  }

  /** What a move from `s` to `t` takes. */
  function Victim(b: Board, s: Sq, t: Sq, turn: Color, ep: Option<Sq>): Option<Piece> {
    if At(b, t).Some? then At(b, t)
    else if IsPiece(b, s, turn, Pawn) && ep == Some(t) then Some(Piece(if turn == White then Black else White, Pawn))
    else None
  }

  /** The mover's list of captures grows by the victim. */
  predicate Collected(x: Taken, y: Taken, turn: Color, victim: Option<Piece>) {
    var more := if victim.Some? then [victim.value] else [];
    if turn == White then y.w == x.w + more && y.b == x.b else y.b == x.b + more && y.w == x.w
  }

  /** A pawn that moved two rows leaves the square it passed, anything else leaves none. */
  predicate EpLeft(b: Board, s: Sq, t: Sq, turn: Color, ep: Option<Sq>) {
    && (ep.Some? <==> IsPiece(b, s, turn, Pawn) && (t.r == s.r + 2 || t.r == s.r - 2))
    && (ep.Some? ==> ep.value.c == s.c && (s.r < ep.value.r < t.r || t.r < ep.value.r < s.r))
  }

  /** A right survives unless its king moves or a move starts or ends on its rook's corner. */
  predicate RightsLeft(b: Board, s: Sq, t: Sq, x: Rights, y: Rights) {
    && (y.wK <==> x.wK && !IsPiece(b, s, White, King) && s != Sq(7, 7) && t != Sq(7, 7))
    && (y.wQ <==> x.wQ && !IsPiece(b, s, White, King) && s != Sq(7, 0) && t != Sq(7, 0))
    && (y.bK <==> x.bK && !IsPiece(b, s, Black, King) && s != Sq(0, 7) && t != Sq(0, 7))
    && (y.bQ <==> x.bQ && !IsPiece(b, s, Black, King) && s != Sq(0, 0) && t != Sq(0, 0))
  }

  /** `y` is `x` after the move from `s` to `t`, with the promotion if any. */
  ghost predicate Moves(x: Snap, y: Snap, s: Sq, t: Sq, promo: Option<Kind>)
    requires On(s) && On(t) && Has(x.board, s, x.turn)
  {
    var victim := Victim(x.board, s, t, x.turn, x.ep);
    && (forall q :: On(q) ==> At(y.board, q) == CellAfter(x.board, s, t, x.turn, x.ep, promo, q))
    && y.turn == (if x.turn == White then Black else White)
    && EpLeft(x.board, s, t, x.turn, y.ep)
    && RightsLeft(x.board, s, t, x.cast, y.cast)
    && y.lastMv == Some((s, t)) && y.sel == None && y.moves == []
    && Collected(x.capt, y.capt, x.turn, victim)
    && y.log == x.log + [LogEntry(x.turn, SqName(s), SqName(t), At(x.board, s).value, victim, promo)]
  }

  predicate LastRank(b: Board, s: Sq, t: Sq, turn: Color) {
    IsPiece(b, s, turn, Pawn) && (t.r == 0 || t.r == 7)
  }

  // ---- the parts of a move ----

  lemma VictimIs(b: Board, s: Sq, t: Sq, turn: Color, ep: Option<Sq>, cast: Rights)
    requires MoveFacts(b, s, t, turn, ep, cast)
    ensures Captured(b, s, t, ep) == Victim(b, s, t, turn, ep)
  {
    hide At;
  }

  lemma EpIs(b: Board, s: Sq, t: Sq, turn: Color, ep: Option<Sq>, cast: Rights)
    requires MoveFacts(b, s, t, turn, ep, cast)
    ensures EpLeft(b, s, t, turn, EpAfter(At(b, s).value, s, t))
  {
    hide At;
  }

  lemma RightsAre(b: Board, s: Sq, t: Sq, turn: Color, ep: Option<Sq>, cast: Rights)
    requires MoveFacts(b, s, t, turn, ep, cast) && RightsOk(b, cast)
    ensures RightsLeft(b, s, t, cast, RightsAfter(At(b, s).value, s, t, cast))
  {
    hide At;
    assert Right(cast, White, true) == cast.wK && Right(cast, White, false) == cast.wQ;
    assert Right(cast, Black, true) == cast.bK && Right(cast, Black, false) == cast.bQ;
    assert IsPiece(b, s, turn, At(b, s).value.kind);
  }

  /** What a legal move of a well formed snapshot looks like. */
  lemma Ingredients(x: Snap, s: Sq, t: Sq)
    requires SnapOk(x) && Has(x.board, s, x.turn) && Legal(x.board, s, t, x.ep, x.cast)
    ensures MoveFacts(x.board, s, t, x.turn, x.ep, x.cast)
    ensures Captured(x.board, s, t, x.ep) == Victim(x.board, s, t, x.turn, x.ep)
    ensures EpLeft(x.board, s, t, x.turn, EpAfter(At(x.board, s).value, s, t))
    ensures RightsLeft(x.board, s, t, x.cast, RightsAfter(At(x.board, s).value, s, t, x.cast))
  {
    hide MoveFacts, Legal, EpLeft, RightsLeft, EpAfter, RightsAfter, Captured, Victim;
    LegalFacts(x.board, s, t, x.turn, x.ep, x.cast);
    VictimIs(x.board, s, t, x.turn, x.ep, x.cast);
    EpIs(x.board, s, t, x.turn, x.ep, x.cast);
    RightsAndKing(x.board, x.turn, x.ep, x.cast);
    RightsAre(x.board, s, t, x.turn, x.ep, x.cast);
  }

  lemma OkNow(g: Game)
    requires Ok(g)
    ensures SnapOk(g.now)
  {
  }

  lemma NeverOntoOwn(x: Snap, s: Sq, t: Sq)
    requires SnapOk(x) && Has(x.board, s, x.turn) && Legal(x.board, s, t, x.ep, x.cast)
    ensures On(s) && On(t) && s != t && !Has(x.board, t, x.turn)
  {
    hide Legal, PosOk;
    LegalFacts(x.board, s, t, x.turn, x.ep, x.cast);
  }

  lemma PlainMove(g: Game, s: Sq, t: Sq)
    requires Ok(g) && g.promo.None? && Has(g.now.board, s, g.now.turn)
    requires Legal(g.now.board, s, t, g.now.ep, g.now.cast) && !LastRank(g.now.board, s, t, g.now.turn)
    ensures var g' := ApplyMove(g, s, t, None);
            g'.promo.None? && g'.past == g.past + [g.now] && Moves(g.now, g'.now, s, t, None)
  {
    hide SnapOk, Legal, MoveFacts, EpAfter, RightsAfter, EpLeft, RightsLeft, Captured, Victim, Verdict, Committed,
         Moved, CellAfter, RawMoves, Safe;
    var x := g.now;
    Ingredients(x, s, t);
    CommittedCells(x.board, s, t, x.turn, x.ep, x.cast, None);
  }

  lemma WaitingPawn(g: Game, s: Sq, t: Sq)
    requires On(s) && On(t) && LastRank(g.now.board, s, t, g.now.turn)
    ensures var b, p, cp := g.now.board, Piece(g.now.turn, Pawn), Captured(g.now.board, s, t, g.now.ep);
            var nb := Moved(b, s, t, g.now.ep);
            && At(b, s) == Some(p)
            && ApplyMove(g, s, t, None)
               == Game(g.now.(lastMv := Some((s, t)), capt := AddCaptured(g.now.capt, g.now.turn, cp)),
                       Some(Pending(s, t, g.now.turn, nb, Flip(g.now.turn), EpAfter(p, s, t),
                                    RightsAfter(p, s, t, g.now.cast), cp)),
                       g.past + [g.now])
            && Committed(b, s, t, g.now.ep, None) == nb
            && forall kind :: Committed(b, s, t, g.now.ep, Some(kind)) == Put(nb, t, Some(Piece(g.now.turn, kind)))
  {
    hide Captured, Moved, EpAfter, RightsAfter;
  }

  lemma PendingMove(g: Game, s: Sq, t: Sq)
    requires Ok(g) && g.promo.None? && Has(g.now.board, s, g.now.turn)
    requires Legal(g.now.board, s, t, g.now.ep, g.now.cast) && LastRank(g.now.board, s, t, g.now.turn)
    ensures var g' := ApplyMove(g, s, t, None);
            && g'.promo.Some? && g'.past == g.past + [g.now]
            && g'.now == g.now.(lastMv := Some((s, t)), capt := g'.now.capt)
            && Collected(g.now.capt, g'.now.capt, g.now.turn, Victim(g.now.board, s, t, g.now.turn, g.now.ep))
  {
    hide Ok, SnapOk, Legal, MoveFacts, EpAfter, RightsAfter, EpLeft, RightsLeft, Captured, Victim, Verdict, Moved,
         Committed, CellAfter, RawMoves, Safe, ApplyMove, LastRank, At, Put;
    var x := g.now;
    OkNow(g);
    NeverOntoOwn(x, s, t);
    Ingredients(x, s, t);
    WaitingPawn(g, s, t);
  }

  lemma PromotedMove(g: Game, s: Sq, t: Sq, kind: Kind)
    requires Ok(g) && g.promo.None? && Has(g.now.board, s, g.now.turn)
    requires Legal(g.now.board, s, t, g.now.ep, g.now.cast) && LastRank(g.now.board, s, t, g.now.turn)
    ensures var g' := DoPromo(ApplyMove(g, s, t, None), kind);
            g'.promo.None? && g'.past == g.past + [g.now] && Moves(g.now, g'.now, s, t, Some(kind))
  {
    hide Ok, SnapOk, Legal, MoveFacts, EpAfter, RightsAfter, EpLeft, RightsLeft, Captured, Victim, Verdict, Moved,
         Committed, CellAfter, RawMoves, Safe, ApplyMove, LastRank, At, Put;
    var x := g.now;
    OkNow(g);
    NeverOntoOwn(x, s, t);
    Ingredients(x, s, t);
    CommittedCells(x.board, s, t, x.turn, x.ep, x.cast, Some(kind));
    WaitingPawn(g, s, t);
  }

  // ---- clicks ----

  /** When a click plays a move: the game is not over, no promotion is pending, and the selected
      piece may go there. */
  ghost predicate Playable(g: Game, t: Sq) {
    && !Over(g.now) && g.promo.None? && g.now.sel.Some?
    && Has(g.now.board, g.now.sel.value, g.now.turn)
    && Legal(g.now.board, g.now.sel.value, t, g.now.ep, g.now.cast)
  }

  lemma ClickPlays(g: Game, t: Sq)
    requires Ok(g) && On(t) && Playable(g, t)
    ensures Click(g, t) == ApplyMove(g, g.now.sel.value, t, None)
  {
    hide Legal, LegalMoves, ApplyMove, PosOk, Verdict, BoardAfter, LogRights;
    LegalMembers(g.now.board, g.now.sel.value, g.now.ep, g.now.cast, t);
  }

  /** A click on a legal target of the selected piece plays that move; a pawn that reaches the
      last rank waits there for the choice, which then completes the move. */
  lemma ClickPlaysMove(g: Game, t: Sq, kind: Kind)
    requires Ok(g) && On(t) && Playable(g, t)
    ensures var s, g' := g.now.sel.value, Click(g, t);
            && g'.past == g.past + [g.now]
            && if !LastRank(g.now.board, s, t, g.now.turn) then g'.promo.None? && Moves(g.now, g'.now, s, t, None)
               else
                 && g'.promo.Some? && g'.now == g.now.(lastMv := Some((s, t)), capt := g'.now.capt)
                 && Collected(g.now.capt, g'.now.capt, g.now.turn, Victim(g.now.board, s, t, g.now.turn, g.now.ep))
                 && DoPromo(g', kind).promo.None? && DoPromo(g', kind).past == g.past + [g.now]
                 && Moves(g.now, DoPromo(g', kind).now, s, t, Some(kind))
  {
    hide Ok, Moves, LastRank, Click, ApplyMove, DoPromo, Legal, Victim, Collected;
    var s := g.now.sel.value;
    ClickPlays(g, t);
    if LastRank(g.now.board, s, t, g.now.turn) {
      PendingMove(g, s, t);
      PromotedMove(g, s, t, kind);
    } else {
      PlainMove(g, s, t);
    }
  }

  /** Any other click: nothing when the game is over or a promotion is pending; on an own
      piece it selects that piece and lists exactly its legal targets; elsewhere it deselects. */
  lemma ClickElsewhere(g: Game, t: Sq)
    requires Ok(g) && On(t) && !Playable(g, t)
    ensures var g' := Click(g, t);
            && g'.past == g.past && g'.promo == g.promo
            && if Over(g.now) || g.promo.Some? then g' == g
               else if Has(g.now.board, t, g.now.turn) then
                 && g'.now == g.now.(sel := Some(t), moves := g'.now.moves)
                 && forall q :: q in g'.now.moves <==> Legal(g.now.board, t, q, g.now.ep, g.now.cast)
               else g'.now == g.now.(sel := None, moves := [])
  {
    hide Legal, LegalMoves, ApplyMove, PosOk, Verdict, BoardAfter, LogRights;
    var x := g.now;
    if x.sel.Some? {
      LegalMembers(x.board, x.sel.value, x.ep, x.cast, t);
    }
    forall q ensures q in LegalMoves(x.board, t, x.ep, x.cast) <==> Legal(x.board, t, q, x.ep, x.cast) {
      LegalMembers(x.board, t, x.ep, x.cast, q);
    }
  }

  /** Every legal move can be played: two clicks, whatever was selected before. */
  lemma TwoClicksPlay(g: Game, s: Sq, t: Sq)
    requires Ok(g) && !Over(g.now) && g.promo.None? && Has(g.now.board, s, g.now.turn)
    requires Legal(g.now.board, s, t, g.now.ep, g.now.cast)
    ensures On(s) && On(t) && Playable(Click(g, s), t) && Click(g, s).now.sel == Some(s)
    ensures Click(g, s).now == g.now.(sel := Some(s), moves := Click(g, s).now.moves)
  {
    hide Legal, PosOk, Verdict, BoardAfter, LogRights, Click, LegalMoves;
    NeverOntoOwn(g.now, s, t);
    if Playable(g, s) {
      NeverOntoOwn(g.now, g.now.sel.value, s);
      assert false;
    }
    ClickElsewhere(g, s);
  }

  /** Undo takes back the last committed move, and does nothing at the start or while a
      promotion is pending. */
  lemma UndoExactly(g: Game)
    requires Ok(g)
    ensures var g' := Undo(g);
            if g.now.log == [] || g.promo.Some? then g' == g
            else
              && g'.now.log == g.now.log[..|g.now.log| - 1] && g'.promo.None?
              && g'.now == g.past[|g.past| - 1] && g.past == g'.past + [g'.now]
              && BoardAfter(g'.now.log) == Some(g'.now.board)
  {
    hide BoardAfter, PosOk, Verdict, LogRights, SelectionOk, PendingOk;
    if g.past != [] {
      assert SnapOk(g.past[|g.past| - 1]);
    }
  }

  // ---- castling rights over a whole game ----

  /** No committed move started or ended on either square. */
  ghost predicate NeverTouched(log: seq<LogEntry>, king: string, rook: string) {
    forall k :: 0 <= k < |log| ==> log[k].from !in {king, rook} && log[k].to !in {king, rook}
  }

  /** After any events a castling right is held exactly when no committed move touched the home
      square of its king or of its rook. */
  lemma RightsTellTheLog(events: seq<Event>)
    requires forall e <- events :: Offered(e)
    ensures var x := After(events).now;
            && (x.cast.wK <==> NeverTouched(x.log, "e1", "h1")) && (x.cast.wQ <==> NeverTouched(x.log, "e1", "a1"))
            && (x.cast.bK <==> NeverTouched(x.log, "e8", "h8")) && (x.cast.bQ <==> NeverTouched(x.log, "e8", "a8"))
  {
    var x := After(events).now;
    RightsRecorded(events);
    hide After, NeverTouched, LogRights, Offered;
    assert Right(x.cast, White, true) == x.cast.wK && Right(x.cast, White, false) == x.cast.wQ;
    assert Right(x.cast, Black, true) == x.cast.bK && Right(x.cast, Black, false) == x.cast.bQ;
    RightTellsTheLog(x, White, true);
    RightTellsTheLog(x, White, false);
    RightTellsTheLog(x, Black, true);
    RightTellsTheLog(x, Black, false);
  }

  lemma RightsRecorded(events: seq<Event>)
    requires forall e <- events :: Offered(e)
    ensures LogRights(After(events).now.log, After(events).now.cast)
  {
    hide After, LogRights, PosOk, SelectionOk, PendingOk, BoardAfter, Verdict;
    AfterOk(events);
  }

  lemma RightTellsTheLog(x: Snap, col: Color, kingside: bool)
    requires LogRights(x.log, x.cast)
    ensures Right(x.cast, col, kingside) <==> NeverTouched(x.log, HomeName(col), CornerName(col, kingside))
  {
    hide Right, HomeName, CornerName;
  }
}

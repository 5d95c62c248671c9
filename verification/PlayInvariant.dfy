/** What holds after every sequence of clicks, promotions, undos and restarts. */
module PlayInvariant {
  import opened Basics
  import opened ChessBoard
  import opened MoveGeneration
  import opened ChessRules
  import opened ChessPosition
  import opened Notation
  import opened Play

  // ---- the invariant ----

  ghost predicate SelectionOk(x: Snap) {
    match x.sel
    case None => x.moves == []
    case Some(s) => On(s) && Has(x.board, s, x.turn) && x.moves == LegalMoves(x.board, s, x.ep, x.cast)
  }

  function HomeName(col: Color): string {
    if col == White then "e1" else "e8"
  }

  function CornerName(col: Color, kingside: bool): string {
    if col == White then if kingside then "h1" else "a1"
    else if kingside then "h8" else "a8"
  }

  /** No move of the log started or ended on this square. */
  ghost predicate Untouched(log: seq<LogEntry>, name: string) {
    forall k :: 0 <= k < |log| ==> log[k].from != name && log[k].to != name
  }

  /** A castling right is held as long as no move touched the home square of its king or rook. */
  ghost predicate LogRights(log: seq<LogEntry>, cast: Rights) {
    forall col: Color, kingside: bool ::
      Right(cast, col, kingside) <==> Untouched(log, HomeName(col)) && Untouched(log, CornerName(col, kingside))
  }

  ghost predicate SnapOk(x: Snap) {
    && PosOk(x.board, x.turn, x.ep, x.cast)
    && SelectionOk(x)
    && (x.turn == White <==> |x.log| % 2 == 0)
    && x.status == (if x.log == [] then Ongoing else Verdict(x.board, x.turn, x.ep, x.cast))
    && BoardAfter(x.log) == Some(x.board)
    && LogRights(x.log, x.cast)
  }

  /** A pending promotion is a legal pawn move to the last rank, not yet on the board. */
  ghost predicate PendingOk(x: Snap, pm: Pending) {
    && Has(x.board, pm.from, x.turn) && Legal(x.board, pm.from, pm.to, x.ep, x.cast)
    && var p := At(x.board, pm.from).value;
    && Promotes(p, pm.to)
    && pm == Pending(pm.from, pm.to, x.turn, Moved(x.board, pm.from, pm.to, x.ep), Flip(x.turn),
                     EpAfter(p, pm.from, pm.to), RightsAfter(p, pm.from, pm.to, x.cast),
                     Captured(x.board, pm.from, pm.to, x.ep))
  }

  ghost predicate Ok(g: Game) {
    && SnapOk(g.now)
    && |g.past| == |g.now.log| + (if g.promo.Some? then 1 else 0)
    && (forall k :: 0 <= k < |g.past| ==>
          SnapOk(g.past[k]) && k <= |g.now.log| && g.past[k].log == g.now.log[..k])
    && (g.promo.Some? ==> PendingOk(g.now, g.promo.value))
  }

  // ---- replay agrees with live play ----

  lemma CapturedFacts(b: Board, s: Sq, t: Sq, turn: Color, ep: Option<Sq>, cast: Rights)
    requires MoveFacts(b, s, t, turn, ep, cast)
    ensures var p := At(b, s).value;
            (p.kind == Pawn && s.c != t.c && Captured(b, s, t, ep).Some? && At(b, t).None?) <==> IsEnPassant(p, t, ep)
  {
    hide At;
  }

  /** Replaying the entry of a committed move gives the committed board, although replay
      infers en passant from the entry and play from the en-passant square. */
  lemma ReplayMatches(b: Board, s: Sq, t: Sq, turn: Color, ep: Option<Sq>, cast: Rights, promo: Option<Kind>)
    requires MoveFacts(b, s, t, turn, ep, cast)
    ensures var p := At(b, s).value;
            var entry := LogEntry(turn, SqName(s), SqName(t), p, Captured(b, s, t, ep), promo);
            ReplayStep(b, entry) == Some(Committed(b, s, t, ep, promo))
  {
    hide At, Captured, MoveRook, Clear;
    NameRoundTrip(s);
    NameRoundTrip(t);
    CapturedFacts(b, s, t, turn, ep, cast);
  }

  // ---- castling rights agree with the log ----

  lemma SquareNames(col: Color, kingside: bool)
    ensures SqName(Sq(HomeRow(col), 4)) == HomeName(col)
    ensures SqName(Sq(HomeRow(col), if kingside then 7 else 0)) == CornerName(col, kingside)
  {
  }

  lemma TouchedNext(log: seq<LogEntry>, entry: LogEntry, name: string)
    ensures Untouched(log + [entry], name) <==> Untouched(log, name) && entry.from != name && entry.to != name
  {
    var log' := log + [entry];
    if Untouched(log', name) {
      assert log'[|log|] == entry;
      forall k | 0 <= k < |log| ensures log[k].from != name && log[k].to != name {
        assert log'[k] == log[k];
      }
    }
  }

  /** While a right is held, a move loses it exactly by starting or ending on one of its two
      home squares. */
  lemma RightTouched(b: Board, s: Sq, t: Sq, turn: Color, ep: Option<Sq>, cast: Rights, col: Color, kingside: bool)
    requires MoveFacts(b, s, t, turn, ep, cast) && RightsOk(b, cast) && OneKing(b, turn)
    ensures var home, corner := Sq(HomeRow(col), 4), Sq(HomeRow(col), if kingside then 7 else 0);
            Right(RightsAfter(At(b, s).value, s, t, cast), col, kingside) <==>
              Right(cast, col, kingside) && s != home && t != home && s != corner && t != corner
  {
    hide At;
    var k :| KingAt(b, turn, k);
    var home, corner := Sq(HomeRow(col), 4), Sq(HomeRow(col), if kingside then 7 else 0);
    if Right(cast, col, kingside) {
      assert IsPiece(b, home, col, King) && IsPiece(b, corner, col, Rook);
      assert IsPiece(b, s, turn, King) <==> s == k;
    }
  }

  lemma LogRightsNext(b: Board, s: Sq, t: Sq, turn: Color, ep: Option<Sq>, cast: Rights, log: seq<LogEntry>,
                      entry: LogEntry)
    requires MoveFacts(b, s, t, turn, ep, cast) && RightsOk(b, cast) && OneKing(b, turn) && LogRights(log, cast)
    requires entry.from == SqName(s) && entry.to == SqName(t)
    ensures LogRights(log + [entry], RightsAfter(At(b, s).value, s, t, cast))
  {
    assert On(s) && On(t) && At(b, s).Some?;
    hide MoveFacts, RightsOk, OneKing, RightsAfter, Untouched, SqName;
    forall col: Color, kingside: bool
      ensures Right(RightsAfter(At(b, s).value, s, t, cast), col, kingside) <==>
                Untouched(log + [entry], HomeName(col)) && Untouched(log + [entry], CornerName(col, kingside))
    {
      RightTouched(b, s, t, turn, ep, cast, col, kingside);
      SquareNames(col, kingside);
      TouchedNext(log, entry, HomeName(col));
      TouchedNext(log, entry, CornerName(col, kingside));
      SameName(s, Sq(HomeRow(col), 4));
      SameName(t, Sq(HomeRow(col), 4));
      SameName(s, Sq(HomeRow(col), if kingside then 7 else 0));
      SameName(t, Sq(HomeRow(col), if kingside then 7 else 0));
      hide Right;
    }
  }

  lemma SameName(s: Sq, t: Sq)
    requires On(s) && On(t)
    ensures SqName(s) == SqName(t) <==> s == t
  {
    if SqName(s) == SqName(t) {
      NamesDiffer(s, t);
    }
  }

  // ---- each event ----

  /** A committed legal move leads to a well formed snapshot. */
  lemma CommitOk(x: Snap, y: Snap, s: Sq, t: Sq, promo: Option<Kind>)
    requires SnapOk(x) && Has(x.board, s, x.turn) && Legal(x.board, s, t, x.ep, x.cast)
    requires promo.Some? <==> Promotes(At(x.board, s).value, t)
    requires promo.Some? ==> Choice(promo.value)
    requires var p := At(x.board, s).value;
             var entry := LogEntry(x.turn, SqName(s), SqName(t), p, Captured(x.board, s, t, x.ep), promo);
             exists mid: Snap :: mid.log == x.log
               && y == Finish(mid, Committed(x.board, s, t, x.ep, promo), Flip(x.turn), EpAfter(p, s, t),
                              RightsAfter(p, s, t, x.cast), entry)
    ensures SnapOk(y)
  {
    hide PosOk, Legal, MoveFacts, Committed, EpAfter, RightsAfter, Captured, Verdict, ReplayStep, LegalMoves;
    LegalFacts(x.board, s, t, x.turn, x.ep, x.cast);
    CommitKeeps(x.board, s, t, x.turn, x.ep, x.cast, promo);
    RightsAndKing(x.board, x.turn, x.ep, x.cast);
    LogRightsNext(x.board, s, t, x.turn, x.ep, x.cast, x.log, y.log[|x.log|]);
    hide LogRights, RightsOk, OneKing;
    ReplayMatches(x.board, s, t, x.turn, x.ep, x.cast, promo);
    assert y.log[..|y.log| - 1] == x.log;
  }

  lemma RightsAndKing(b: Board, turn: Color, ep: Option<Sq>, cast: Rights)
    requires PosOk(b, turn, ep, cast)
    ensures RightsOk(b, cast) && OneKing(b, turn)
  {
  }

  lemma SamePosition(x: Snap, y: Snap)
    requires SnapOk(x)
    requires y == x.(sel := y.sel, moves := y.moves, lastMv := y.lastMv, capt := y.capt) && SelectionOk(y)
    ensures SnapOk(y)
  {
    hide PosOk, SelectionOk, Verdict, BoardAfter;
  }

  lemma SelectOk(g: Game, x: Snap)
    requires Ok(g) && x == g.now.(sel := x.sel, moves := x.moves) && SelectionOk(x) && g.promo.None?
    ensures Ok(g.(now := x))
  {
    hide SnapOk;
    SamePosition(g.now, x);
  }

  lemma ApplyOk(g: Game, s: Sq, t: Sq)
    requires Ok(g) && g.promo.None? && Has(g.now.board, s, g.now.turn)
    requires Legal(g.now.board, s, t, g.now.ep, g.now.cast)
    ensures Ok(ApplyMove(g, s, t, None))
  {
    hide SnapOk, Committed, EpAfter, RightsAfter, Captured, Verdict, Moved, RawMoves, Safe;
    var now, p := g.now, At(g.now.board, s).value;
    var g' := ApplyMove(g, s, t, None);
    var mid := now.(lastMv := Some((s, t)), capt := AddCaptured(now.capt, p.color, Captured(now.board, s, t, now.ep)));
    forall k | 0 <= k < |g'.past|
      ensures SnapOk(g'.past[k]) && k <= |g'.now.log| && g'.past[k].log == g'.now.log[..k]
    {
      if k < |g.past| {
        assert g'.past[k] == g.past[k];
      }
    }
    if Promotes(p, t) {
      SelectionKept(now, mid);
      SamePosition(now, mid);
    } else {
      var entry := LogEntry(now.turn, SqName(s), SqName(t), p, Captured(now.board, s, t, now.ep), None);
      assert g'.now == Finish(mid, Committed(now.board, s, t, now.ep, None), Flip(now.turn), EpAfter(p, s, t),
                              RightsAfter(p, s, t, now.cast), entry);
      CommitOk(now, g'.now, s, t, None);
    }
  }

  lemma SelectionKept(x: Snap, y: Snap)
    requires SnapOk(x) && y == x.(lastMv := y.lastMv, capt := y.capt)
    ensures SelectionOk(y)
  {
    hide PosOk, Verdict, BoardAfter, LegalMoves;
  }

  lemma PromoOk(g: Game, kind: Kind)
    requires Ok(g) && Choice(kind)
    ensures Ok(DoPromo(g, kind))
  {
    hide SnapOk, EpAfter, RightsAfter, Captured, Verdict, Moved, RawMoves, Safe;
    if g.promo.Some? {
      var now, pm := g.now, g.promo.value;
      var s, t, p := pm.from, pm.to, At(now.board, pm.from).value;
      var g' := DoPromo(g, kind);
      var mid := now.(lastMv := Some((s, t)));
      var entry := LogEntry(now.turn, SqName(s), SqName(t), p, Captured(now.board, s, t, now.ep), Some(kind));
      assert g'.now == Finish(mid, Committed(now.board, s, t, now.ep, Some(kind)), Flip(now.turn), EpAfter(p, s, t),
                              RightsAfter(p, s, t, now.cast), entry);
      CommitOk(now, g'.now, s, t, Some(kind));
      forall k | 0 <= k < |g'.past|
        ensures SnapOk(g'.past[k]) && k <= |g'.now.log| && g'.past[k].log == g'.now.log[..k]
      {
        assert g'.past[k] == g.past[k];
      }
    }
  }

  lemma ClickOk(g: Game, s: Sq)
    requires Ok(g) && On(s)
    ensures Ok(Click(g, s))
  {
    hide Ok, LegalMoves, ApplyMove, Legal, PosOk, Verdict, BoardAfter;
    OkSelection(g);
    var now := g.now;
    if now.status in {Checkmate, Stalemate, Timeout} || g.promo.Some? {
    } else if now.sel.Some? && s in now.moves {
      LegalMembers(now.board, now.sel.value, now.ep, now.cast, s);
      ApplyOk(g, now.sel.value, s);
    } else if Has(now.board, s, now.turn) {
      SelectOk(g, Select(now, s));
    } else if now.sel.Some? {
      SelectOk(g, now.(sel := None, moves := []));
    }
  }

  lemma OkSelection(g: Game)
    requires Ok(g)
    ensures SelectionOk(g.now)
  {
  }

  lemma UndoOk(g: Game)
    requires Ok(g)
    ensures Ok(Undo(g))
  {
    hide SnapOk, PendingOk;
    if g.past != [] && g.promo.None? {
      var g', n := Undo(g), |g.past| - 1;
      forall k | 0 <= k < n
        ensures SnapOk(g'.past[k]) && k <= |g'.now.log| && g'.past[k].log == g'.now.log[..k]
      {
        assert g'.past[k] == g.past[k];
        assert g.now.log[..n][..k] == g.now.log[..k];
      }
    }
  }

  lemma ResetOk()
    ensures Ok(Reset())
  {
    hide PosOk, Verdict;
    InitOk();
  }

  lemma HandleOk(g: Game, e: Event)
    requires Ok(g) && Offered(e)
    ensures Ok(Handle(g, e))
  {
    hide Ok, Click, DoPromo, Undo, Reset;
    match e
    case Clicked(s) => ClickOk(g, s);
    case Promoted(kind) => PromoOk(g, kind);
    case Undone => UndoOk(g);
    case Restarted => ResetOk();
  }

  lemma {:induction false} AfterOk(events: seq<Event>)
    requires forall e <- events :: Offered(e)
    ensures Ok(After(events))
  {
    hide Ok, Handle, Reset;
    if events == [] {
      ResetOk();
    } else {
      AfterOk(events[..|events| - 1]);
      assert events[|events| - 1] in events;
      HandleOk(After(events[..|events| - 1]), events[|events| - 1]);
    }
  }

  // ---- the theorems ----

  /** After any events: one king each, the side that just moved is not in check, castling
      rights and the en-passant square mean what they should, no pawn stands on a last rank. */
  lemma ReachablePositions(events: seq<Event>)
    requires forall e <- events :: Offered(e)
    ensures var x := After(events).now;
            && (exists k :: KingAt(x.board, White, k)) && (exists k :: KingAt(x.board, Black, k))
            && !InChk(x.board, Flip(x.turn))
            && RightsOk(x.board, x.cast) && EpOk(x.board, x.turn, x.ep) && NoPawnsOnEnds(x.board)
  {
    hide After, InChk, KingAt, RightsOk, EpOk, NoPawnsOnEnds;
    AfterOk(events);
  }

  /** After any events: the k-th replay snapshot of the log is the board as it stood after k
      moves, which is also what undo would restore. */
  lemma ReplayReproducesPlay(events: seq<Event>, k: nat)
    requires (forall e <- events :: Offered(e)) && k <= |After(events).now.log|
    ensures var g := After(events);
            var x := if k < |g.past| then g.past[k] else g.now;
            && x.log == g.now.log[..k]
            && BoardAfter(g.now.log[..k]) == Some(x.board)
            && (k == |g.now.log| ==> x.board == g.now.board)
  {
    hide After, PosOk, Verdict, SelectionOk, PendingOk, BoardAfter;
    AfterOk(events);
    var g := After(events);
    assert g.now.log[..|g.now.log|] == g.now.log;
  }

  /** Before the first move a game is ongoing; after any committed move the status says whether
      the side to move is in check and whether any of its pieces has a legal move. */
  lemma StatusIsExact(events: seq<Event>)
    requires forall e <- events :: Offered(e)
    ensures var x := After(events).now;
            var stuck := forall s, t :: Has(x.board, s, x.turn) ==> !Legal(x.board, s, t, x.ep, x.cast);
            if x.log == [] then x.status == Ongoing
            else
              && (x.status == Checkmate <==> InChk(x.board, x.turn) && stuck)
              && (x.status == Stalemate <==> !InChk(x.board, x.turn) && stuck)
              && (x.status == Check <==> InChk(x.board, x.turn) && !stuck)
              && (x.status == Ongoing <==> !InChk(x.board, x.turn) && !stuck)
  {
    hide After, PosOk, SelectionOk, PendingOk, BoardAfter, InChk, Legal;
    AfterOk(events);
  }

  /** Undo right after a move restores the state from before it, selection included. */
  lemma UndoReverts(g: Game, s: Sq)
    requires Ok(g) && On(s) && |Click(g, s).past| > |g.past| && Click(g, s).promo.None?
    ensures Undo(Click(g, s)) == g
  {
    hide SnapOk, Finish, Captured, Committed, EpAfter, RightsAfter, LegalMoves, Moved;
  }

  /** Undo right after a promotion restores the state from before the pawn moved. */
  lemma UndoRevertsPromotion(g: Game, s: Sq, kind: Kind)
    requires Ok(g) && On(s) && g.promo.None? && Click(g, s).promo.Some? && Choice(kind)
    ensures Undo(DoPromo(Click(g, s), kind)) == g
  {
    hide SnapOk, Finish, Captured, Committed, EpAfter, RightsAfter, LegalMoves, Moved;
  }
}

/** applyRemoteMove of hooks/useChessGame.js: a browser that is only told the committed moves
    of another stays in step with it. */
module RemotePlay {
  import opened Basics
  import opened ChessBoard
  import opened ChessRules
  import opened ChessPosition
  import opened Notation
  import opened Play
  import opened PlayInvariant

  /** applyRemoteMove({ from, to, promotion }) */
  ghost function ApplyRemote(g: Game, from: string, to: string, promotion: Option<Kind>): Game {
    match (SquareToRC(from), SquareToRC(to))
    case (Some(s), Some(t)) => if On(s) && On(t) then ApplyMove(g, s, t, promotion) else g
    case _ => g
  }

  /** A new game that receives these moves one by one. */
  ghost function Followed(log: seq<LogEntry>): Game {
    if log == [] then Reset()
    else
      var entry := log[|log| - 1];
      ApplyRemote(Followed(log[..|log| - 1]), entry.from, entry.to, entry.promotion)
  }

  /** Position, status and log of the follower are those of `x`. */
  ghost predicate InStep(x: Snap) {
    var y := Followed(x.log).now;
    y.board == x.board && y.turn == x.turn && y.ep == x.ep && y.cast == x.cast && y.status == x.status && y.log == x.log
  }

  ghost predicate AllInStep(g: Game) {
    InStep(g.now) && forall k :: 0 <= k < |g.past| ==> InStep(g.past[k])
  }

  lemma SamePlace(x: Snap, y: Snap)
    requires InStep(x) && y == x.(sel := y.sel, moves := y.moves, lastMv := y.lastMv, capt := y.capt)
    ensures InStep(y)
  {
    hide Followed;
  }

  /** The follower makes the very move that was committed, promoted or not. */
  lemma RemoteApplies(h: Game, x: Snap, s: Sq, t: Sq, promo: Option<Kind>)
    requires On(s) && On(t) && Has(x.board, s, x.turn)
    requires promo.Some? <==> Promotes(At(x.board, s).value, t)
    requires h.now.board == x.board && h.now.turn == x.turn && h.now.ep == x.ep && h.now.cast == x.cast
    requires h.now.log == x.log
    ensures var p := At(x.board, s).value;
            var y := ApplyRemote(h, SqName(s), SqName(t), promo).now;
            && y.board == Committed(x.board, s, t, x.ep, promo) && y.turn == Flip(x.turn)
            && y.ep == EpAfter(p, s, t) && y.cast == RightsAfter(p, s, t, x.cast)
            && y.status == Verdict(y.board, y.turn, y.ep, y.cast)
            && y.log == x.log + [LogEntry(x.turn, SqName(s), SqName(t), p, Captured(x.board, s, t, x.ep), promo)]
  {
    hide Committed, EpAfter, RightsAfter, Captured, Verdict, Moved, SqName, SquareToRC, At;
    NameRoundTrip(s);
    NameRoundTrip(t);
  }

  lemma CommitInStep(x: Snap, y: Snap, s: Sq, t: Sq, promo: Option<Kind>)
    requires On(s) && On(t) && Has(x.board, s, x.turn) && InStep(x)
    requires promo.Some? <==> Promotes(At(x.board, s).value, t)
    requires var p := At(x.board, s).value;
             var entry := LogEntry(x.turn, SqName(s), SqName(t), p, Captured(x.board, s, t, x.ep), promo);
             exists mid: Snap :: mid.log == x.log
               && y == Finish(mid, Committed(x.board, s, t, x.ep, promo), Flip(x.turn), EpAfter(p, s, t),
                              RightsAfter(p, s, t, x.cast), entry)
    ensures InStep(y)
  {
    hide Committed, EpAfter, RightsAfter, Captured, Verdict, Moved, SqName, At, ApplyRemote, Promotes;
    assert y.log[..|y.log| - 1] == x.log;
    RemoteApplies(Followed(x.log), x, s, t, promo);
  }

  lemma LegalOn(b: Board, s: Sq, t: Sq, ep: Option<Sq>, cast: Rights)
    requires Legal(b, s, t, ep, cast)
    ensures On(s) && On(t)
  {
  }

  lemma Applied(g: Game, s: Sq, t: Sq)
    requires On(s) && On(t) && Has(g.now.board, s, g.now.turn)
    ensures var now, p := g.now, At(g.now.board, s).value;
            var cp := Captured(now.board, s, t, now.ep);
            var mid := now.(lastMv := Some((s, t)), capt := AddCaptured(now.capt, p.color, cp));
            var entry := LogEntry(now.turn, SqName(s), SqName(t), p, Captured(now.board, s, t, now.ep), None);
            var g' := ApplyMove(g, s, t, None);
            && g'.past == g.past + [now]
            && g'.now == if Promotes(p, t) then mid
                         else Finish(mid, Committed(now.board, s, t, now.ep, None), Flip(now.turn), EpAfter(p, s, t),
                                     RightsAfter(p, s, t, now.cast), entry)
  {
    hide Committed, EpAfter, RightsAfter, Captured, Verdict, Moved, SqName, Promotes, Finish, At;
  }

  lemma MoveInStep(g: Game, s: Sq, t: Sq)
    requires g.promo.None? && Has(g.now.board, s, g.now.turn) && AllInStep(g)
    requires Legal(g.now.board, s, t, g.now.ep, g.now.cast)
    ensures AllInStep(ApplyMove(g, s, t, None))
  {
    hide Legal, Committed, EpAfter, RightsAfter, Captured, Verdict, Moved, InStep, SqName, ApplyMove, At, Promotes,
         AddCaptured;
    LegalOn(g.now.board, s, t, g.now.ep, g.now.cast);
    Applied(g, s, t);
    var g' := ApplyMove(g, s, t, None);
    if Promotes(At(g.now.board, s).value, t) {
      SamePlace(g.now, g'.now);
    } else {
      CommitInStep(g.now, g'.now, s, t, None);
    }
    assert forall k :: 0 <= k < |g.past| ==> g'.past[k] == g.past[k];
  }

  lemma PendingIs(g: Game)
    requires Ok(g) && g.promo.Some?
    ensures PendingOk(g.now, g.promo.value)
  {
  }

  lemma PromotionInStep(g: Game, kind: Kind)
    requires Ok(g) && AllInStep(g)
    ensures AllInStep(DoPromo(g, kind))
  {
    hide Ok, EpAfter, RightsAfter, Captured, Verdict, Moved, InStep, SqName;
    if g.promo.Some? {
      PendingIs(g);
      var now, pm := g.now, g.promo.value;
      var s, t, p := pm.from, pm.to, At(now.board, pm.from).value;
      var entry := LogEntry(now.turn, SqName(s), SqName(t), p, Captured(now.board, s, t, now.ep), Some(kind));
      assert DoPromo(g, kind).now
          == Finish(now.(lastMv := Some((s, t))), Committed(now.board, s, t, now.ep, Some(kind)), Flip(now.turn),
                    EpAfter(p, s, t), RightsAfter(p, s, t, now.cast), entry);
      CommitInStep(now, DoPromo(g, kind).now, s, t, Some(kind));
    }
  }

  lemma ClickInStep(g: Game, s: Sq)
    requires Ok(g) && On(s) && AllInStep(g)
    ensures AllInStep(Click(g, s))
  {
    hide Ok, LegalMoves, ApplyMove, Legal, InStep;
    OkSelection(g);
    var now := g.now;
    if now.status in {Checkmate, Stalemate, Timeout} || g.promo.Some? {
    } else if now.sel.Some? && s in now.moves {
      LegalMembers(now.board, now.sel.value, now.ep, now.cast, s);
      MoveInStep(g, now.sel.value, s);
    } else if Has(now.board, s, now.turn) {
      SamePlace(now, Select(now, s));
    } else if now.sel.Some? {
      SamePlace(now, now.(sel := None, moves := []));
    }
  }

  lemma HandleInStep(g: Game, e: Event)
    requires Ok(g) && Offered(e) && AllInStep(g)
    ensures AllInStep(Handle(g, e))
  {
    hide Ok, Click, DoPromo, InStep;
    match e
    case Clicked(s) => ClickInStep(g, s);
    case Promoted(kind) => PromotionInStep(g, kind);
    case Undone =>
    case Restarted => FreshInStep();
  }

  lemma FreshInStep()
    ensures AllInStep(Reset())
  {
  }

  lemma {:induction false} AfterInStep(events: seq<Event>)
    requires forall e <- events :: Offered(e)
    ensures AllInStep(After(events))
  {
    hide Ok, Handle, Reset, AllInStep;
    if events == [] {
      FreshInStep();
    } else {
      AfterInStep(events[..|events| - 1]);
      AfterOk(events[..|events| - 1]);
      assert events[|events| - 1] in events;
      HandleInStep(After(events[..|events| - 1]), events[|events| - 1]);
    }
  }

  /** Whatever a player clicks, promotes, undoes or restarts: a browser that starts a new game
      and receives only the squares and the promotion of each move in the player's log stands
      at the same board, with the same side to move, rights, en-passant square, status and log. */
  lemma FollowerInStep(events: seq<Event>)
    requires forall e <- events :: Offered(e)
    ensures var x := After(events).now;
            var y := Followed(x.log).now;
            && y.board == x.board && y.turn == x.turn && y.ep == x.ep && y.cast == x.cast
            && y.status == x.status && y.log == x.log
  {
    hide After, Followed;
    AfterInStep(events);
  }
}

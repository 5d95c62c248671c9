/** The game hook as an object: handlers that update its fields in place. */
module ChessGame {
  import opened Basics
  import opened ChessBoard
  import opened ChessRules
  import opened ChessPosition
  import opened Notation
  import opened Play
  import opened PlayInvariant
  import Engine

  class Hook {
    var now: Snap
    var promo: Option<Pending>
    var past: seq<Snap>

    function State(): Game
      reads this
    {
      Game(now, promo, past)
    }

    ghost predicate Valid()
      reads this
    {
      Ok(State())
    }

    constructor ()
      ensures State() == Reset() && Valid()
    {
      now := Reset().now;
      promo := None;
      past := [];
      new;
      ResetOk();
    }

    method Restart()
      modifies this
      ensures State() == Reset() && Valid()
    {
      hide Ok;
      now, promo, past := Reset().now, None, [];
      ResetOk();
    }

    method FinishMove(b: Board, turn: Color, ep: Option<Sq>, cast: Rights, entry: LogEntry)
      modifies this`now
      ensures now == Finish(old(now), b, turn, ep, cast, entry)
    {
      hide InChk, HasAny;
      var chk := Engine.InCheck(b, turn);
      var any := Engine.HasAnyMove(b, turn, ep, cast);
      var status := Ongoing;
      if !any { status := if chk then Checkmate else Stalemate; }
      else if chk { status := Check; }
      now := now.(board := b, turn := turn, ep := ep, cast := cast, status := status);
      now := now.(log := now.log + [entry]);
      now := now.(sel := None, moves := []);
    }

    method Commit(s: Sq, t: Sq, promotion: Option<Kind>)
      requires On(s) && On(t)
      modifies this
      ensures State() == ApplyMove(old(State()), s, t, promotion)
    {
      hide Finish;
      var saved := now;
      if At(now.board, s).None? { return; }
      var p := At(now.board, s).value;
      var nb := AppMv(now.board, s, t);
      var cap := At(now.board, t);
      var nc := RightsAfter(p, s, t, now.cast);
      if IsCastle(p, s, t) {
        nb := MoveRook(nb, t, p.color);
      }
      if IsEnPassant(p, t, now.ep) {
        if cap.None? { cap := At(nb, Behind(t, p.color)); }
        nb := Clear(nb, Behind(t, p.color));
      }
      now := now.(capt := AddCaptured(now.capt, p.color, cap));
      var nep, nt := EpAfter(p, s, t), Flip(p.color);
      now := now.(lastMv := Some((s, t)));
      past := past + [saved];
      if Promotes(p, t) && promotion.None? {
        promo := Some(Pending(s, t, p.color, nb, nt, nep, nc, cap));
        return;
      }
      if promotion.Some? {
        nb := Put(nb, t, Some(Piece(p.color, promotion.value)));
      }
      FinishMove(nb, nt, nep, nc, LogEntry(p.color, SqName(s), SqName(t), p, cap, promotion));
    }

    method ChoosePromotion(kind: Kind)
      requires Valid() && Choice(kind)
      modifies this
      ensures State() == DoPromo(old(State()), kind) && Valid()
    {
      hide Ok, Finish;
      PromoOk(State(), kind);
      if promo.None? || !On(promo.value.from) || !On(promo.value.to) { return; }
      var pm := promo.value;
      var nb := Put(pm.board, pm.to, Some(Piece(pm.col, kind)));
      promo := None;
      now := now.(lastMv := Some((pm.from, pm.to)));
      var entry := LogEntry(pm.col, SqName(pm.from), SqName(pm.to), Piece(pm.col, Pawn), pm.captured, Some(kind));
      FinishMove(nb, pm.turn, pm.ep, pm.cast, entry);
    }

    method ClickSquare(s: Sq)
      requires Valid() && On(s)
      modifies this
      ensures State() == Click(old(State()), s) && Valid()
    {
      hide Ok, ApplyMove, LegalMoves, Legal;
      ClickOk(State(), s);
      if now.status in {Checkmate, Stalemate, Timeout} || promo.Some? { return; }
      if now.sel.Some? && On(now.sel.value) && s in now.moves {
        Commit(now.sel.value, s, None);
      } else if Has(now.board, s, now.turn) {
        var mv := Engine.LegalMoveList(now.board, s, now.ep, now.cast);
        now := now.(sel := Some(s), moves := mv);
      } else if now.sel.Some? {
        now := now.(sel := None, moves := []);
      }
    }

    method UndoMove()
      requires Valid()
      modifies this
      ensures State() == Undo(old(State())) && Valid()
    {
      hide Ok;
      UndoOk(State());
      if past == [] || promo.Some? { return; }
      now := past[|past| - 1];
      past := past[..|past| - 1];
    }
  }
}

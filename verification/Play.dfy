/** hooks/useChessGame.js: the game state a browser keeps, and its event handlers. */
module Play {
  import opened Basics
  import opened ChessBoard
  import opened ChessRules
  import opened ChessPosition
  import opened Notation

  datatype Status = Ongoing | Check | Checkmate | Stalemate | Timeout

  datatype LogEntry = LogEntry(
    color: Color, from: string, to: string, piece: Piece, captured: Option<Piece>, promotion: Option<Kind>)

  /** `capt`: what each side has captured. */
  datatype Taken = Taken(w: seq<Piece>, b: seq<Piece>)

  /** What snapshot() saves before a move. */
  datatype Snap = Snap(
    board: Board,
    turn: Color,
    sel: Option<Sq>,
    moves: seq<Sq>,
    ep: Option<Sq>,
    cast: Rights,
    lastMv: Option<(Sq, Sq)>,
    status: Status,
    capt: Taken,
    log: seq<LogEntry>
  )

  /** `promo`: a pawn move waiting for the player's choice, with the state it will leave. */
  datatype Pending = Pending(
    from: Sq, to: Sq, col: Color, board: Board, turn: Color, ep: Option<Sq>, cast: Rights, captured: Option<Piece>)

  datatype Game = Game(now: Snap, promo: Option<Pending>, past: seq<Snap>)

  const ALL_RIGHTS := Rights(true, true, true, true)

  function Reset(): Game {
    Game(Snap(InitBoard(), White, None, [], None, ALL_RIGHTS, None, Ongoing, Taken([], []), []), None, [])
  }

  /** finish: the status of the side now to move. */
  ghost function Verdict(b: Board, turn: Color, ep: Option<Sq>, cast: Rights): Status {
    if !HasAny(b, turn, ep, cast) then if InChk(b, turn) then Checkmate else Stalemate
    else if InChk(b, turn) then Check else Ongoing
  }

  ghost function Finish(now: Snap, b: Board, turn: Color, ep: Option<Sq>, cast: Rights, entry: LogEntry): Snap {
    now.(board := b, turn := turn, ep := ep, cast := cast, status := Verdict(b, turn, ep, cast),
         log := now.log + [entry], sel := None, moves := [])
  }

  /** The piece a move removes: on the target square, or en passant behind it. */
  function Captured(b: Board, s: Sq, t: Sq, ep: Option<Sq>): Option<Piece>
    requires On(s) && On(t) && At(b, s).Some?
  {
    var p := At(b, s).value;
    if At(b, t).Some? then At(b, t)
    else if IsEnPassant(p, t, ep) then At(AppMv(b, s, t), Behind(t, p.color))
    else None
  }

  function AddCaptured(capt: Taken, col: Color, piece: Option<Piece>): Taken {
    if piece.None? then capt
    else if col == White then capt.(w := capt.w + [piece.value])
    else capt.(b := capt.b + [piece.value])
  }

  /** applyMove(fr, fc, tr, tc, { promotion }) */
  ghost function ApplyMove(g: Game, s: Sq, t: Sq, promotion: Option<Kind>): Game
    requires On(s) && On(t)
  {
    var now := g.now;
    if At(now.board, s).None? then g
    else
      var p := At(now.board, s).value;
      var nb := Moved(now.board, s, t, now.ep);
      var nc, nep, nt := RightsAfter(p, s, t, now.cast), EpAfter(p, s, t), Flip(p.color);
      var cp := Captured(now.board, s, t, now.ep);
      var moved := now.(lastMv := Some((s, t)), capt := AddCaptured(now.capt, p.color, cp));
      var past := g.past + [now];
      if Promotes(p, t) && promotion.None? then
        Game(moved, Some(Pending(s, t, p.color, nb, nt, nep, nc, cp)), past)
      else
        var entry := LogEntry(p.color, SqName(s), SqName(t), p, cp, promotion);
        Game(Finish(moved, Committed(now.board, s, t, now.ep, promotion), nt, nep, nc, entry), g.promo, past)
  }

  /** doPromo(t); calling it with nothing pending is an exception that changes nothing. */
  ghost function DoPromo(g: Game, kind: Kind): Game {
    if g.promo.None? || !On(g.promo.value.from) || !On(g.promo.value.to) then g
    else
      var pm := g.promo.value;
      var nb := Put(pm.board, pm.to, Some(Piece(pm.col, kind)));
      var entry := LogEntry(pm.col, SqName(pm.from), SqName(pm.to), Piece(pm.col, Pawn), pm.captured, Some(kind));
      var now := g.now.(lastMv := Some((pm.from, pm.to)));
      Game(Finish(now, nb, pm.turn, pm.ep, pm.cast, entry), None, g.past)
  }

  ghost function Select(now: Snap, s: Sq): Snap
    requires On(s)
  {
    now.(sel := Some(s), moves := LegalMoves(now.board, s, now.ep, now.cast))
  }

  /** click(r, c) */
  ghost function Click(g: Game, s: Sq): Game
    requires On(s)
  {
    var now := g.now;
    if now.status in {Checkmate, Stalemate, Timeout} || g.promo.Some? then g
    else if now.sel.Some? && On(now.sel.value) && s in now.moves then ApplyMove(g, now.sel.value, s, None)
    else if Has(now.board, s, now.turn) then g.(now := Select(now, s))
    else if now.sel.Some? then g.(now := now.(sel := None, moves := []))
    else g
  }

  /** undo */
  function Undo(g: Game): Game {
    if g.past == [] || g.promo.Some? then g
    else Game(g.past[|g.past| - 1], None, g.past[..|g.past| - 1])
  }

  datatype Event = Clicked(s: Sq) | Promoted(kind: Kind) | Undone | Restarted

  /** The board has 64 squares and the promotion dialog offers four pieces. */
  predicate Offered(e: Event) {
    match e
    case Clicked(s) => On(s)
    case Promoted(kind) => Choice(kind)
    case _ => true
  }

  ghost function Handle(g: Game, e: Event): Game
    requires Offered(e)
  {
    match e
    case Clicked(s) => Click(g, s)
    case Promoted(kind) => DoPromo(g, kind)
    case Undone => Undo(g)
    case Restarted => Reset()
  }

  /** The state after any sequence of events. */
  ghost function After(events: seq<Event>): Game
    requires forall e <- events :: Offered(e)
  {
    if events == [] then Reset()
    else
      assert events[|events| - 1] in events;
      Handle(After(events[..|events| - 1]), events[|events| - 1])
  }

  // ---- replay ----

  /** One iteration of replayToSnapshots: en passant is inferred from the log entry alone. */
  function ReplayStep(b: Board, m: LogEntry): Option<Board> {
    match (SquareToRC(m.from), SquareToRC(m.to))
    case (Some(s), Some(t)) =>
      if !On(s) || !On(t) then None
      else
        var col := m.piece.color;
        var nb := AppMv(b, s, t);
        var castled := if IsCastle(m.piece, s, t) then MoveRook(nb, t, col) else nb;
        var passed := if m.piece.kind == Pawn && s.c != t.c && m.captured.Some? && At(b, t).None?
                      then Clear(castled, Behind(t, col)) else castled;
        Some(if m.promotion.Some? then Put(passed, t, Some(Piece(col, m.promotion.value))) else passed)
    case _ => None
  }

  /** The last snapshot of replayToSnapshots(log). */
  function BoardAfter(log: seq<LogEntry>): Option<Board> {
    if log == [] then Some(InitBoard())
    else
      match BoardAfter(log[..|log| - 1])
      case None => None
      case Some(b) => ReplayStep(b, log[|log| - 1])
  }
}

/** The PostgreSQL rows behind multiplayer games and the transactions that change them
    (models/Game.js, finalizeGameAtomic and persistMoveAtomic of socket/gameSocket.js,
    and the constraints of Database/migrations).

    Every transaction is a function from tables to a committed result or a rollback.
    chess.js is a record of functions over FEN strings; `Rules.Valid` lists the few facts
    about it that the server relies on. */
module GameTables {
  import opened Basics
  import Elo

  type UserId = n: int | n > 0 witness 1
  type GameId = nat
  type RoomId = string
  type Fen = string

  /** A move as clients send it and as the moves table stores it. */
  datatype MoveText = MoveText(from: string, to: string, promotion: Option<char>)

  /** What chess.js answers for a legal move: the canonical move and the next position. */
  datatype Played = Played(move: MoveText, fen: Fen)

  datatype Rules = Rules(
    start: Fen,
    loads: Fen -> bool,
    turn: Fen -> Color,
    play: (Fen, MoveText) -> Option<Played>,
    over: Fen -> bool,
    mate: Fen -> bool
  ) {
    /** A canonical move replays to the same position; playing flips the turn; a mated
        side has no move. Drawn positions may still have moves: chess.js only reports them. */
    ghost predicate Valid() {
      && loads(start) && turn(start) == White && start != "" && !over(start)
      && (forall f, m :: loads(f) && play(f, m).Some? ==>
            && var p := play(f, m).value;
            && loads(p.fen) && p.fen != "" && turn(p.fen) == Flip(turn(f))
            && play(f, p.move) == Some(p))
      && (forall f, m :: mate(f) ==> play(f, m).None?)
      && (forall f :: mate(f) ==> over(f))
    }
  }

  datatype Status = InProgress | Finished | Abandoned
  datatype Result = Checkmate | Draw | Resign | ProcessFailure

  datatype GameRow = GameRow(
    room: Option<RoomId>,
    white: UserId,
    black: Option<UserId>,
    status: Status,
    fen: Fen,
    result: Option<Result>,
    winner: Option<Color>
  )

  /** `author` is a history column: the user whose socket sent the move. */
  datatype MoveRow = MoveRow(number: nat, color: Color, move: MoveText, fenAfter: Fen, author: UserId)

  datatype ScoreRow = ScoreRow(winner: bool, moves: nat)

  datatype Badge = FirstGame | FirstWin | Wins5 | Wins10 | Wins25 | QuickWin | Marathon

  datatype Tables = Tables(
    games: map<GameId, GameRow>,
    moves: map<GameId, seq<MoveRow>>,
    scores: map<(GameId, UserId), ScoreRow>,
    ratings: map<UserId, int>,
    badges: set<(UserId, Badge)>,
    nextGame: GameId
  )

  datatype Tx<+T> = Commit(db: Tables, value: T) | Rollback

  function Seat(row: GameRow, c: Color): Option<UserId> {
    if c == White then Some(row.white) else row.black
  }

  predicate Holds(db: Tables, g: GameId, room: RoomId) {
    g in db.games && db.games[g].room == Some(room)
  }

  // ---- models/Game.js ----

  /** INSERT INTO games; UNIQUE(room_id) rejects a room that some game already holds. */
  function Create(rules: Rules, db: Tables, room: RoomId, white: UserId): Tx<GameId> {
    if exists g <- db.games :: Holds(db, g, room) then Rollback
    else
      var g := db.nextGame;
      var row := GameRow(Some(room), white, None, InProgress, rules.start, None, None);
      Commit(db.(games := db.games[g := row], moves := db.moves[g := []], nextGame := g + 1), g)
  }

  /** Game.claimBlack: Some(()) when the seat was taken, None when it was not available. */
  function ClaimBlack(db: Tables, g: GameId, user: UserId): Tx<Option<()>> {
    if g !in db.games then Rollback
    else if db.games[g].status != InProgress || db.games[g].black.Some? then Commit(db, None)
    else Commit(db.(games := db.games[g := db.games[g].(black := Some(user))]), Some(()))
  }

  function JoinBlackById(db: Tables, g: GameId, user: UserId): Tx<()> {
    if g !in db.games || db.games[g].status != InProgress || db.games[g].black.Some? then Rollback
    else Commit(db.(games := db.games[g := db.games[g].(black := Some(user))]), ())
  }

  function Abandon(db: Tables, g: GameId): Tables {
    if g in db.games && db.games[g].status == InProgress then
      var row := db.games[g].(status := Abandoned, result := Some(ProcessFailure));
      db.(games := db.games[g := row])
    else db
  }

  // ---- persistMoveAtomic ----

  /** COALESCE(MAX(move_number), 0) */
  function MaxNumber(rows: seq<MoveRow>): nat {
    if rows == [] then 0
    else
      var rest := MaxNumber(rows[..|rows| - 1]);
      var last := rows[|rows| - 1].number;
      if last > rest then last else rest
  }

  /** `new Chess(board_fen || undefined)` */
  function OrStart(rules: Rules, fen: Fen): Fen {
    if fen == "" then rules.start else fen
  }

  function PersistMove(rules: Rules, db: Tables, g: GameId, color: Color, author: UserId, request: MoveText)
    : Tx<Option<MoveRow>>
  {
    if g !in db.games || db.games[g].status != InProgress then Rollback
    else
      var fen := OrStart(rules, db.games[g].fen);
      if !rules.loads(fen) then Rollback
      else if rules.turn(fen) != color then Commit(db, None)
      else match rules.play(fen, request)
        case None => Commit(db, None)
        case Some(played) =>
          var rows := if g in db.moves then db.moves[g] else [];
          var row := MoveRow(MaxNumber(rows) + 1, color, played.move, played.fen, author);
          var games := db.games[g := db.games[g].(fen := played.fen)];
          Commit(db.(games := games, moves := db.moves[g := rows + [row]]), Some(row))
  }

  // ---- finalizeGameAtomic ----

  function Wins(scores: map<(GameId, UserId), ScoreRow>, user: UserId): set<(GameId, UserId)> {
    set k | k in scores && k.1 == user && scores[k].winner
  }

  /** The achievement keys one player is granted, from the win count taken after the insert. */
  predicate Earns(won: bool, wins: nat, moves: nat, badge: Badge) {
    match badge
    case FirstGame => true
    case FirstWin => won && wins >= 1
    case Wins5 => won && wins >= 5
    case Wins10 => won && wins >= 10
    case Wins25 => won && wins >= 25
    case QuickWin => won && moves <= 15
    case Marathon => moves >= 60
  }

  /** One pass of the score loop: insert the score row, then grant the badges.
      The row is refused by the (game_id, user_id) index and by CHECK (moves > 0). */
  function AddScore(db: Tables, g: GameId, user: UserId, won: bool, moves: nat): Tx<()> {
    if (g, user) in db.scores || moves == 0 then Rollback
    else
      var scores := db.scores[(g, user) := ScoreRow(won, moves)];
      var earned := set badge: Badge | Earns(won, |Wins(scores, user)|, moves, badge) :: (user, badge);
      Commit(db.(scores := scores, badges := db.badges + earned), ())
  }

  function WhiteScore(winner: Option<Color>): real {
    match winner
    case Some(White) => 1.0
    case Some(Black) => 0.0
    case None => 0.5
  }

  datatype Settlement = NotSettled | SettledUnrated | Settled(oldWhite: int, newWhite: int, oldBlack: int, newBlack: int)

  function CloseGame(db: Tables, g: GameId, result: Result, winner: Option<Color>): Tables
    requires g in db.games
  {
    var row := db.games[g].(status := Finished, result := Some(result), winner := winner);
    db.(games := db.games[g := row])
  }

  function Rate(curve: Elo.Curve, db: Tables, white: UserId, black: UserId, winner: Option<Color>): Tables
    requires white in db.ratings && black in db.ratings
  {
    var (w, b) := Elo.NewRatings(curve, db.ratings[white], db.ratings[black], WhiteScore(winner));
    db.(ratings := db.ratings[white := w][black := b])
  }

  /** `white`, `black` and `moves` come from the caller's room object, which may be stale. */
  function Finalize(curve: Elo.Curve, db: Tables, g: GameId, white: Option<UserId>, black: Option<UserId>,
                    moves: nat, result: Result, winner: Option<Color>): Tx<Settlement>
  {
    if g !in db.games || db.games[g].status != InProgress then Commit(db, NotSettled)
    else
      var closed := CloseGame(db, g, result, winner);
      if white.None? || black.None? then Commit(closed, SettledUnrated)
      else
        var w, b := white.value, black.value;
        if w == b || w !in db.ratings || b !in db.ratings then Rollback
        else
          var rated := Rate(curve, closed, w, b, winner);
          match AddScore(rated, g, w, winner == Some(White), moves)
          case Rollback => Rollback
          case Commit(half, _) =>
            match AddScore(half, g, b, winner == Some(Black), moves)
            case Rollback => Rollback
            case Commit(full, _) =>
              Commit(full, Settled(db.ratings[w], full.ratings[w], db.ratings[b], full.ratings[b]))
  }

  // ---- the rematch transaction of accept_rematch ----

  /** The release does not look at room_id, so a second release of the same finished game
      also reports one row; the following insert decides. */
  function Rematch(rules: Rules, db: Tables, g: GameId, room: RoomId, white: UserId, black: UserId): Tx<GameId> {
    if g !in db.games || db.games[g].status != Finished then Rollback
    else
      var released := db.(games := db.games[g := db.games[g].(room := None)]);
      match Create(rules, released, room, white)
      case Rollback => Rollback
      case Commit(created, h) =>
        match JoinBlackById(created, h, black)
        case Rollback => Rollback
        case Commit(joined, _) => Commit(joined, h)
  }
}

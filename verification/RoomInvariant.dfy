/** What every step of the room protocol keeps, and the proof that it does. */
module RoomInvariant {
  import opened Basics
  import opened GameTables
  import opened RoomProtocol
  import Elo

  // ---- one game ----

  /** The position after the first i moves. */
  function Pos(rules: Rules, ms: seq<MoveRow>, i: nat): Fen
    requires i <= |ms|
  {
    if i == 0 then rules.start else ms[i - 1].fenAfter
  }

  function ColorAt(i: nat): Color {
    if i % 2 == 0 then White else Black
  }

  /** Move rows are numbered from one, alternate from white, were sent by the seated user
      and chain legally from the initial position. */
  ghost predicate MovesOk(rules: Rules, row: GameRow, ms: seq<MoveRow>) {
    && (forall i :: 0 <= i <= |ms| ==> PositionOk(rules, Pos(rules, ms, i), i))
    && (forall i :: 0 <= i < |ms| ==> MoveOk(rules, row, ms, i))
  }

  ghost predicate PositionOk(rules: Rules, fen: Fen, i: nat) {
    fen != "" && rules.loads(fen) && rules.turn(fen) == ColorAt(i)
  }

  ghost predicate MoveOk(rules: Rules, row: GameRow, ms: seq<MoveRow>, i: nat)
    requires i < |ms|
  {
    && ms[i].number == i + 1
    && ms[i].color == ColorAt(i)
    && Seat(row, ms[i].color) == Some(ms[i].author)
    && rules.play(Pos(rules, ms, i), ms[i].move) == Some(Played(ms[i].move, ms[i].fenAfter))
  }

  ghost predicate DrawnAt(rules: Rules, ms: seq<MoveRow>, i: nat)
    requires i <= |ms|
  {
    rules.over(Pos(rules, ms, i)) && !rules.mate(Pos(rules, ms, i))
  }

  /** A recorded result is what happened on the board. */
  ghost predicate ResultOk(rules: Rules, row: GameRow, ms: seq<MoveRow>) {
    match row.result
    case None => false
    case Some(Checkmate) => rules.mate(row.fen) && row.winner == Some(Flip(rules.turn(row.fen)))
    case Some(Draw) => row.winner == None && exists i :: 0 <= i <= |ms| && DrawnAt(rules, ms, i)
    case Some(Resign) => row.winner.Some?
    case Some(ProcessFailure) => false
  }

  ghost predicate GameOk(rules: Rules, row: GameRow, ms: seq<MoveRow>) {
    && row.fen == Pos(rules, ms, |ms|)
    && MovesOk(rules, row, ms)
    && (row.black.None? ==> ms == [])
    && row.black != Some(row.white)
    && match row.status
       case InProgress => row.result == None && row.winner == None
       case Finished => row.black.Some? && ms != [] && ResultOk(rules, row, ms)
       case Abandoned => false
  }

  ghost predicate GamesOk(rules: Rules, db: Tables) {
    && db.moves.Keys == db.games.Keys
    && forall g <- db.games :: g < db.nextGame && GameOk(rules, db.games[g], db.moves[g])
  }

  // ---- one room object against the database ----

  ghost predicate PlayersOk(env: Env, row: GameRow, players: seq<Player>) {
    && 1 <= |players| <= 2
    && (|players| == 1 ==> players[0].color == White)
    && (|players| == 2 ==> players[0].color != players[1].color)
    && forall p <- players ::
         Seat(row, p.color) == Some(p.user) && (p.socket.Some? ==> env.owner(p.socket.value) == p.user)
  }

  /** However stale a room object is: its seats are the game's seats, its position occurred
      in the game, it never shows more moves than were made, and what it says about the
      ending is final. */
  ghost predicate RoomOk(env: Env, db: Tables, h: History, room: Room) {
    && room.gameId in db.games && room.gameId in db.moves
    && room.gameId in h.home && h.home[room.gameId].0 == room.id
    && var row, ms := db.games[room.gameId], db.moves[room.gameId];
    && PlayersOk(env, row, room.players)
    && (room.status == Waiting <==> |room.players| == 1)
    && (room.status == Waiting ==> room.fen == env.rules.start)
    && (room.status == Ended ==> row.status == Finished && room.result == row.result && room.winner == row.winner)
    && |room.moves| <= |ms|
    && Occurred(env.rules, ms, room.fen)
  }

  ghost predicate Occurred(rules: Rules, ms: seq<MoveRow>, fen: Fen) {
    exists i :: 0 <= i <= |ms| && fen == Pos(rules, ms, i)
  }

  ghost predicate RoomsOk(env: Env, s: State) {
    forall r, room :: r in s.replicas && Knows(s.replicas[r], room) ==> RoomOk(env, s.db, s.hist, room)
  }

  // ---- rooms and rematches ----

  function Seats(row: GameRow): set<UserId> {
    {row.white} + if row.black.Some? then {row.black.value} else {}
  }

  /** `g'` is the rematch of `g`: same users, colours swapped, both had voted. */
  ghost predicate Succeeds(db: Tables, h: History, g: GameId, g': GameId)
    requires g in db.games && g' in db.games
  {
    var row, row' := db.games[g], db.games[g'];
    && row.status == Finished
    && row'.black == Some(row.white) && Some(row'.white) == row.black
    && Seats(row) <= Voted(h, g)
  }

  ghost predicate LineOk(db: Tables, h: History, id: RoomId, line: seq<GameId>) {
    && |line| > 0
    && (forall i :: 0 <= i < |line| ==>
          && line[i] in db.games && line[i] in h.home && h.home[line[i]] == (id, i)
          && db.games[line[i]].room == if i == |line| - 1 then Some(id) else None)
    && (forall i :: 0 <= i < |line| - 1 ==> Succeeds(db, h, line[i], line[i + 1]))
  }

  ghost predicate LineageOk(db: Tables, h: History) {
    && h.home.Keys == db.games.Keys
    && (forall g <- h.home ::
          && h.home[g].0 in h.lineage
          && h.home[g].1 < |h.lineage[h.home[g].0]| && h.lineage[h.home[g].0][h.home[g].1] == g)
    && (forall id <- h.lineage :: LineOk(db, h, id, h.lineage[id]))
  }

  ghost predicate VotesOk(db: Tables, h: History, votes: map<(StoreId, GameId), set<UserId>>, quorum: set<GameId>) {
    && (forall k <- votes :: votes[k] <= Voted(h, k.1))
    && (forall g <- h.voted ::
          g in db.games && db.games[g].status == Finished && h.voted[g] <= Seats(db.games[g]))
    && (forall g <- quorum ::
          g in db.games && db.games[g].status == Finished && Seats(db.games[g]) <= Voted(h, g))
  }

  // ---- settlements ----

  /** Both changes, with `e` the expected score of white: nearest to 32 * (1 - e) for white's
      win, 32 * (0 - e) for black's and 32 * (1/2 - e) for a draw, and the opposite for black. */
  ghost predicate Rated(curve: Elo.Curve, oldWhite: int, oldBlack: int, dWhite: int, dBlack: int, winner: Option<Color>) {
    var e := curve.expected(oldWhite, oldBlack);
    && (winner == Some(White) ==> Elo.Nearest(dWhite, 32.0 * (1.0 - e)) && Elo.Nearest(dBlack, 32.0 * (e - 1.0)))
    && (winner == Some(Black) ==> Elo.Nearest(dWhite, 32.0 * (0.0 - e)) && Elo.Nearest(dBlack, 32.0 * e))
    && (winner == None ==> Elo.Nearest(dWhite, 32.0 * (0.5 - e)) && Elo.Nearest(dBlack, 32.0 * (e - 0.5)))
  }

  /** A rating change of one game: what computeNewRatings gives for the two ratings before it,
      bounded, in the winner's favour, and worth one point to the pair on an exact half, else
      nothing. */
  ghost predicate EntryOk(curve: Elo.Curve, db: Tables, e: Entry) {
    && e.game in db.games
    && var row := db.games[e.game];
    && row.status == Finished && e.white == row.white && Some(e.black) == row.black
    && -32 <= e.dWhite <= 32 && -32 <= e.dBlack <= 32
    && Rated(curve, e.oldWhite, e.oldBlack, e.dWhite, e.dBlack, row.winner)
    && var score := WhiteScore(row.winner);
    && (e.oldWhite + e.dWhite, e.oldBlack + e.dBlack) == Elo.NewRatings(curve, e.oldWhite, e.oldBlack, score)
    && e.dWhite + e.dBlack == (if Elo.ExactHalf(curve, e.oldWhite, e.oldBlack, score) then 1 else 0)
    && (row.winner == Some(White) ==> e.dWhite >= 0 && e.dBlack <= 0)
    && (row.winner == Some(Black) ==> e.dWhite <= 0 && e.dBlack >= 0)
  }

  ghost predicate LedgerOk(curve: Elo.Curve, db: Tables, ledger: seq<Entry>) {
    && (forall i :: 0 <= i < |ledger| ==> EntryOk(curve, db, ledger[i]))
    && (forall i, j :: 0 <= i < j < |ledger| ==> ledger[i].game != ledger[j].game)
    && (forall g <- db.games :: db.games[g].status == Finished ==> Posted(ledger, g))
  }

  ghost predicate Posted(ledger: seq<Entry>, g: GameId) {
    exists i :: 0 <= i < |ledger| && ledger[i].game == g
  }

  function Won(row: GameRow, user: UserId): bool {
    row.winner.Some? && Seat(row, row.winner.value) == Some(user)
  }

  /** Exactly the two seated users of every finished game have a score row for it. */
  ghost predicate ScoresOk(db: Tables) {
    && (forall k <- db.scores ::
          && k.0 in db.games && k.0 in db.moves && db.games[k.0].status == Finished && k.1 in Seats(db.games[k.0])
          && db.scores[k].winner == Won(db.games[k.0], k.1)
          && 0 < db.scores[k].moves <= |db.moves[k.0]|)
    && (forall g <- db.games :: db.games[g].status == Finished ==>
          forall u <- Seats(db.games[g]) :: (g, u) in db.scores)
  }

  predicate Completed(row: ScoreRow) { true }
  predicate QuickWon(row: ScoreRow) { row.winner && row.moves <= 15 }
  predicate Marathoned(row: ScoreRow) { row.moves >= 60 }

  ghost predicate AnyScore(scores: map<(GameId, UserId), ScoreRow>, u: UserId, p: ScoreRow -> bool) {
    exists k <- scores :: k.1 == u && p(scores[k])
  }

  ghost predicate Deserves(scores: map<(GameId, UserId), ScoreRow>, u: UserId, b: Badge) {
    match b
    case FirstGame => AnyScore(scores, u, Completed)
    case FirstWin => |Wins(scores, u)| >= 1
    case Wins5 => |Wins(scores, u)| >= 5
    case Wins10 => |Wins(scores, u)| >= 10
    case Wins25 => |Wins(scores, u)| >= 25
    case QuickWin => AnyScore(scores, u, QuickWon)
    case Marathon => AnyScore(scores, u, Marathoned)
  }

  ghost predicate BadgesOk(db: Tables) {
    forall u: UserId, b: Badge :: (u, b) in db.badges <==> Deserves(db.scores, u, b)
  }

  function Delta(ledger: seq<Entry>, u: UserId): int {
    if ledger == [] then 0
    else
      var e := ledger[|ledger| - 1];
      Delta(ledger[..|ledger| - 1], u)
      + (if e.white == u then e.dWhite else 0) + (if e.black == u then e.dBlack else 0)
  }

  function Total(ledger: seq<Entry>): int {
    if ledger == [] then 0
    else var e := ledger[|ledger| - 1]; Total(ledger[..|ledger| - 1]) + e.dWhite + e.dBlack
  }

  /** An entry's old ratings are its users' ratings when all earlier entries were posted. */
  ghost predicate OldsOk(base: map<UserId, int>, ledger: seq<Entry>, k: nat)
    requires k < |ledger|
  {
    var e := ledger[k];
    && e.white in base && e.black in base
    && e.oldWhite == base[e.white] + Delta(ledger[..k], e.white)
    && e.oldBlack == base[e.black] + Delta(ledger[..k], e.black)
  }

  /** Ratings are the registered ratings plus the ledger, user by user and in total. */
  ghost predicate RatingsOk(db: Tables, h: History) {
    && db.ratings.Keys == h.base.Keys
    && (forall u <- db.ratings :: db.ratings[u] == h.base[u] + Delta(h.ledger, u))
    && (forall u <- h.base :: h.base[u] == REGISTERED)
    && (forall k :: 0 <= k < |h.ledger| ==> OldsOk(h.base, h.ledger, k))
    && Sum(db.ratings) == Sum(h.base) + Total(h.ledger)
  }

  ghost predicate Inv(env: Env, s: State) {
    && GamesOk(env.rules, s.db)
    && RoomsOk(env, s)
    && LineageOk(s.db, s.hist)
    && VotesOk(s.db, s.hist, s.votes, s.quorum)
    && LedgerOk(env.curve, s.db, s.hist.ledger)
    && ScoresOk(s.db)
    && BadgesOk(s.db)
    && RatingsOk(s.db, s.hist)
  }

  // ---- what a step may change ----

  /** Seats are never reassigned, a finished row never changes except for losing its room,
      moves are only appended, and only to games in progress, and score rows are final. */
  ghost predicate RowExtends(row: GameRow, row': GameRow) {
    && row'.white == row.white
    && (row.black.Some? ==> row'.black == row.black)
    && (row.status == Finished ==> row' == row.(room := row'.room))
  }

  ghost predicate DbExtends(db: Tables, db': Tables) {
    && (forall g <- db.games ::
          && g in db'.games && RowExtends(db.games[g], db'.games[g])
          && (g in db.moves ==> g in db'.moves && db.moves[g] <= db'.moves[g])
          && (g in db.moves && db.games[g].status == Finished ==> db'.moves[g] == db.moves[g]))
    && (forall k <- db.scores :: k in db'.scores && db'.scores[k] == db.scores[k])
  }

  ghost predicate HistExtends(h: History, h': History) {
    && (forall g <- h.home :: g in h'.home && h'.home[g] == h.home[g])
    && (forall id <- h.lineage :: id in h'.lineage && h.lineage[id] <= h'.lineage[id])
    && (forall g <- h.voted :: g in h'.voted && h.voted[g] <= h'.voted[g])
    && h.ledger <= h'.ledger
    && (forall u <- h.base :: u in h'.base && h'.base[u] == h.base[u])
  }

  ghost predicate Extends(s: State, s': State) {
    DbExtends(s.db, s'.db) && HistExtends(s.hist, s'.hist)
  }

  // ---- positions ----

  lemma PosPrefix(rules: Rules, ms: seq<MoveRow>, ms': seq<MoveRow>)
    requires ms <= ms'
    ensures forall i :: 0 <= i <= |ms| ==> Pos(rules, ms', i) == Pos(rules, ms, i)
  {
  }

  /** Replaying the stored moves gives the stored positions. */
  lemma {:induction false} ReplayIsPos(rules: Rules, row: GameRow, ms: seq<MoveRow>, i: nat)
    requires MovesOk(rules, row, ms) && i <= |ms|
    ensures Replay(rules, ms[..i]) == Some(Pos(rules, ms, i))
  {
    if i > 0 {
      ReplayIsPos(rules, row, ms, i - 1);
      assert ms[..i][..i - 1] == ms[..i - 1];
      assert MoveOk(rules, row, ms, i - 1);
    }
  }

  lemma {:induction false} MaxIsLength(rules: Rules, row: GameRow, ms: seq<MoveRow>, i: nat)
    requires MovesOk(rules, row, ms) && i <= |ms|
    ensures MaxNumber(ms[..i]) == i
  {
    if i > 0 {
      MaxIsLength(rules, row, ms, i - 1);
      assert ms[..i][..i - 1] == ms[..i - 1];
      assert MoveOk(rules, row, ms, i - 1);
    }
  }

  // ---- room objects survive other replicas' steps ----

  lemma RoomKept(env: Env, db: Tables, h: History, db': Tables, h': History, room: Room)
    requires RoomOk(env, db, h, room) && DbExtends(db, db') && HistExtends(h, h')
    ensures RoomOk(env, db', h', room)
  {
    var g := room.gameId;
    PosPrefix(env.rules, db.moves[g], db'.moves[g]);
    var i :| 0 <= i <= |db.moves[g]| && room.fen == Pos(env.rules, db.moves[g], i);
    assert room.fen == Pos(env.rules, db'.moves[g], i);
    forall p <- room.players ensures Seat(db'.games[g], p.color) == Some(p.user) {
    }
  }

  lemma RoomsKept(env: Env, s: State, s': State)
    requires RoomsOk(env, s) && Extends(s, s') && s'.replicas == s.replicas
    ensures RoomsOk(env, s')
  {
    forall r, room | r in s'.replicas && Knows(s'.replicas[r], room)
      ensures RoomOk(env, s'.db, s'.hist, room)
    {
      RoomKept(env, s.db, s.hist, s'.db, s'.hist, room);
    }
  }

  lemma RoomsRewritten(env: Env, s: State, s': State, r: ReplicaId, room': Room)
    requires RoomsOk(env, s) && Extends(s, s')
    requires r in s'.replicas && s'.replicas == s.replicas[r := s'.replicas[r]]
    requires Rewrites(Rep(s, r), s'.replicas[r], room')
    requires RoomOk(env, s'.db, s'.hist, room')
    ensures RoomsOk(env, s')
  {
    forall q, room | q in s'.replicas && Knows(s'.replicas[q], room)
      ensures RoomOk(env, s'.db, s'.hist, room)
    {
      if room != room' {
        assert q in s.replicas && Knows(s.replicas[q], room);
        RoomKept(env, s.db, s.hist, s'.db, s'.hist, room);
      }
    }
  }

  lemma RoomKnown(env: Env, s: State, r: ReplicaId, room: Room)
    requires RoomsOk(env, s) && Knows(Rep(s, r), room)
    ensures RoomOk(env, s.db, s.hist, room)
  {
    assert r in s.replicas;
  }

  lemma ExtendsSelf(s: State)
    ensures Extends(s, s)
  {
  }
}

/** How games end: which steps can finish one, and how much of what they record - winner, final
    board, number of moves, badges - is true of the game. finalizeGameAtomic looks only at the
    status of the row it locks, so a room object that misses a move leaves its mark. */
module RoomEndings {
  import opened Basics
  import opened GameTables
  import opened RoomProtocol
  import opened RoomInvariant
  import opened RoomRematch
  import opened RoomSettle
  import opened RoomTheorems
  import Elo

  ghost predicate Drawn(rules: Rules, fen: Fen) {
    rules.over(fen) && !rules.mate(fen)
  }

  /** The socket of this seat asked to resign or left; the other seat wins. */
  predicate ResignedFrom(room: Room, socket: SocketId, seat: nat, winner: Option<Color>) {
    && Attached(room, seat, socket) && room.status == Playing
    && var other := Flip(room.players[seat].color);
    && winner == if SeatedUser(room, other).Some? then Some(other) else None
  }

  /** The step from `s` to `s'` settled game g off this room object of replica r. */
  ghost predicate SettledOff(env: Env, s: State, s': State, g: GameId, r: ReplicaId, room: Room) {
    && Knows(Rep(s, r), room) && room.gameId == g && g in s.db.games && g in s'.db.games
    && var row, row' := s.db.games[g], s'.db.games[g];
    && row' == row.(status := Finished, result := row'.result, winner := row'.winner) && row'.result.Some?
    && Settles(env, s, s', r, room, row'.result.value, row'.winner)
    && (row'.result != Some(Resign) ==>
          env.rules.over(room.fen) && row'.result == Some(OverResult(env.rules, room.fen)))
    && (row'.result == Some(Resign) ==> exists socket, seat :: ResignedFrom(room, socket, seat, row'.winner))
  }

  /** Game g is in progress before and finished after. */
  ghost predicate Ends(s: State, s': State, g: GameId) {
    && g in s.db.games && s.db.games[g].status == InProgress
    && g in s'.db.games && s'.db.games[g].status == Finished
  }

  lemma FinalizeRows(curve: Elo.Curve, db: Tables, g: GameId, white: Option<UserId>, black: Option<UserId>, moves: nat,
                     result: Result, winner: Option<Color>)
    ensures var tx := Finalize(curve, db, g, white, black, moves, result, winner);
            tx.Commit? ==>
              || tx.db.games == db.games
              || (g in db.games && tx.db.games ==
                    db.games[g := db.games[g].(status := Finished, result := Some(result), winner := winner)])
  {
    hide Elo.NewRatings, Wins, Earns;
  }

  lemma SettleEnds(env: Env, s: State, s': State, g: GameId, r: ReplicaId, room: Room, result: Result,
                   winner: Option<Color>)
    requires Settles(env, s, s', r, room, result, winner) && Knows(Rep(s, r), room) && Ends(s, s', g)
    requires result != Resign ==> env.rules.over(room.fen) && result == OverResult(env.rules, room.fen)
    requires result == Resign ==> exists socket, seat :: ResignedFrom(room, socket, seat, winner)
    ensures SettledOff(env, s, s', g, r, room)
  {
    SettleRow(env, s, s', g, r, room, result, winner);
    hide Settles, Rep, Knows, ResignedFrom;
  }

  lemma SettleRow(env: Env, s: State, s': State, g: GameId, r: ReplicaId, room: Room, result: Result,
                  winner: Option<Color>)
    requires Settles(env, s, s', r, room, result, winner) && Ends(s, s', g)
    ensures room.gameId == g
    ensures s'.db.games[g] == s.db.games[g].(status := Finished, result := Some(result), winner := winner)
  {
    hide Finalize, Rep, Knows;
    FinalizeRows(env.curve, s.db, room.gameId, SeatedUser(room, White), SeatedUser(room, Black), |room.moves|, result,
                 winner);
  }

  lemma RematchEndsNothing(rules: Rules, db: Tables, g: GameId, id: RoomId, white: UserId, black: UserId, q: GameId)
    requires Rematch(rules, db, g, id, white, black).Commit? && q in db.games && db.nextGame !in db.games
    ensures var db' := Rematch(rules, db, g, id, white, black).db;
            q in db'.games && db'.games[q].status == db.games[q].status
  {
  }

  lemma MoveEndsNothing(rules: Rules, db: Tables, g: GameId, color: Color, author: UserId, request: MoveText, q: GameId)
    requires q in db.games
    ensures var tx := PersistMove(rules, db, g, color, author, request);
            tx.Commit? ==> q in tx.db.games && tx.db.games[q].status == db.games[q].status
  {
  }

  lemma OverEnds(env: Env, s: State, s': State, g: GameId, r: ReplicaId, room: Room)
    requires env.rules.over(room.fen) && Knows(Rep(s, r), room) && Ends(s, s', g)
    requires Settles(env, s, s', r, room, OverResult(env.rules, room.fen), OverWinner(env.rules, room.fen))
    ensures SettledOff(env, s, s', g, r, room)
  {
    hide Settles, SettledOff, ResignedFrom;
    SettleEnds(env, s, s', g, r, room, OverResult(env.rules, room.fen), OverWinner(env.rules, room.fen));
  }

  lemma ResignEnds(env: Env, s: State, s': State, g: GameId, r: ReplicaId, room: Room, socket: SocketId, seat: nat)
    requires ResignOrLeaveStep(env, s, s', r, room, socket, seat) && Ends(s, s', g)
    ensures SettledOff(env, s, s', g, r, room)
  {
    hide Settles, SettledOff, Knows, Rep;
    var other := Flip(room.players[seat].color);
    var winner := if SeatedUser(room, other).Some? then Some(other) else None;
    assert ResignedFrom(room, socket, seat, winner);
    SettleEnds(env, s, s', g, r, room, Resign, winner);
  }

  /** Only a settlement ends a game. */
  lemma EndsBySettling(env: Env, s: State, s': State, step: Step, g: GameId) returns (r: ReplicaId, room: Room)
    requires NextStep(env, s, s', step) && Ends(s, s', g) && s.db.nextGame !in s.db.games
    ensures SettledOff(env, s, s', g, r, room)
  {
    hide Knows, Rep, Finalize, Rematch, BuildRoom, PersistMove, SettledOff, Settles, ResignOrLeaveStep;
    match step
    case AutoFinalize(r', room') =>
      r, room := r', room';
      OverEnds(env, s, s', g, r, room);
    case GameOver(r', room', socket, i) =>
      r, room := r', room';
      OverEnds(env, s, s', g, r, room);
    case ResignOrLeave(r', room', socket, i) =>
      r, room := r', room';
      ResignEnds(env, s, s', g, r, room, socket, i);
    case StartRematch(r', held) =>
      var switched := held.(players := Swapped(held.players));
      var white, black := SeatedUser(switched, White).value, SeatedUser(switched, Black).value;
      if Rematch(env.rules, s.db, held.gameId, held.id, white, black).Commit? {
        RematchEndsNothing(env.rules, s.db, held.gameId, held.id, white, black, g);
      }
      assert false;
    case Move(r', held, socket, i, request) =>
      MoveEndsNothing(env.rules, s.db, held.gameId, held.players[i].color, env.owner(socket), request, g);
      assert false;
    case _ => assert false;
  }

  /** The settlement behind an ending of a run, with what the invariant says about its state. */
  lemma EndingOf(env: Env, run: seq<State>, i: nat, j: nat, g: GameId) returns (r: ReplicaId, room: Room)
    requires env.Valid() && Run(env, run) && i + 1 <= j < |run| && Ends(run[i], run[i + 1], g)
    ensures SettledOff(env, run[i], run[i + 1], g, r, room) && Inv(env, run[i])
    ensures g in run[j].db.games && g in run[i + 1].db.moves && g in run[j].db.moves
    ensures run[j].db.games[g] == run[i + 1].db.games[g].(room := run[j].db.games[g].room)
    ensures run[j].db.moves[g] == run[i + 1].db.moves[g]
    ensures forall k <- run[i + 1].db.scores ::
              k in run[j].db.scores && run[j].db.scores[k] == run[i + 1].db.scores[k]
  {
    RunInv(env, run, i);
    NextIsNew(env.rules, run[i].db);
    VerdictIsFinal(env, run, i + 1, j, g);
    hide Inv, Env.Valid, NextStep, SettledOff;
    assert Next(env, run[i], run[i + 1]);
    hide Run;
    var step :| NextStep(env, run[i], run[i + 1], step);
    r, room := EndsBySettling(env, run[i], run[i + 1], step, g);
  }

  // ---- the final board ----

  /** Say a step records a draw. It did so off some room object whose position is drawn; the
      final board, from then on, is the one its transaction locked; so it is drawn exactly
      when the locked board is - for one, when the room object showed that very board. */
  lemma DrawIsFinalExactlyWhen(env: Env, run: seq<State>, i: nat, j: nat, g: GameId)
    returns (r: ReplicaId, room: Room)
    requires env.Valid() && Run(env, run) && i + 1 <= j < |run|
    requires Ends(run[i], run[i + 1], g) && run[i + 1].db.games[g].result == Some(Draw)
    ensures Knows(Rep(run[i], r), room) && room.gameId == g && Drawn(env.rules, room.fen)
    ensures g in run[j].db.games && run[j].db.games[g].result == Some(Draw)
    ensures run[j].db.games[g].fen == run[i].db.games[g].fen
    ensures Drawn(env.rules, run[j].db.games[g].fen) <==> Drawn(env.rules, run[i].db.games[g].fen)
    ensures room.fen == run[i].db.games[g].fen ==> Drawn(env.rules, run[j].db.games[g].fen)
  {
    r, room := EndingOf(env, run, i, j, g);
    hide Run, Inv, Env.Valid, Settles, Knows, Rep;
  }

  // ---- the winner of a resignation ----

  lemma ResignerIsSeated(env: Env, s: State, r: ReplicaId, room: Room, socket: SocketId, seat: nat, winner: Option<Color>)
    requires Inv(env, s) && Knows(Rep(s, r), room) && ResignedFrom(room, socket, seat, winner)
    ensures room.gameId in s.db.games && winner.Some?
    ensures Seat(s.db.games[room.gameId], Flip(winner.value)) == Some(env.owner(socket))
  {
    hide GamesOk, LineageOk, VotesOk, LedgerOk, ScoresOk, BadgesOk, RatingsOk, Occurred, Rep, Knows;
    RoomKnown(env, s, r, room);
    hide RoomsOk;
    var p := room.players[seat];
    assert p in room.players && room.players[0] in room.players && room.players[1] in room.players;
  }

  /** Say a step records a resignation. The winner, then and for good, is the opponent of the
      seat whose socket resigned or left, and that socket's user holds the losing seat. */
  lemma ResignationNamesOpponent(env: Env, run: seq<State>, i: nat, j: nat, g: GameId)
    returns (r: ReplicaId, room: Room, socket: SocketId, seat: nat)
    requires env.Valid() && Run(env, run) && i + 1 <= j < |run|
    requires Ends(run[i], run[i + 1], g) && run[i + 1].db.games[g].result == Some(Resign)
    ensures Knows(Rep(run[i], r), room) && room.gameId == g && Attached(room, seat, socket)
    ensures g in run[j].db.games
    ensures var row := run[j].db.games[g];
            && row.result == Some(Resign) && row.winner == Some(Flip(room.players[seat].color))
            && Seat(row, room.players[seat].color) == Some(env.owner(socket))
  {
    r, room := EndingOf(env, run, i, j, g);
    hide Run, Inv, Env.Valid, Settles, Knows, Rep, SeatedUser;
    var winner := run[i + 1].db.games[g].winner;
    socket, seat :| ResignedFrom(room, socket, seat, winner);
    ResignerIsSeated(env, run[i], r, room, socket, seat, winner);
  }

  // ---- the number of moves ----

  lemma SettledScoreRows(curve: Elo.Curve, db: Tables, g: GameId, w: UserId, b: UserId, moves: nat, result: Result,
                         winner: Option<Color>)
    requires var tx := Finalize(curve, db, g, Some(w), Some(b), moves, result, winner);
             g in db.games && db.games[g].status == InProgress && tx.Commit?
    ensures var tx := Finalize(curve, db, g, Some(w), Some(b), moves, result, winner);
            && tx.db.moves == db.moves
            && (g, w) in tx.db.scores && tx.db.scores[(g, w)] == ScoreRow(winner == Some(White), moves)
            && (g, b) in tx.db.scores && tx.db.scores[(g, b)] == ScoreRow(winner == Some(Black), moves)
  {
    hide Elo.NewRatings, Wins, Earns;
  }

  lemma PairSeated(env: Env, s: State, room: Room)
    requires env.Valid() && RoomOk(env, s.db, s.hist, room) && GamesOk(env.rules, s.db)
    requires env.rules.over(room.fen) || room.status == Playing
    ensures |room.players| == 2
  {
    hide Occurred, GameOk;
  }

  lemma SettledCount(env: Env, s: State, s': State, g: GameId, r: ReplicaId, room: Room)
    requires env.Valid() && Inv(env, s) && SettledOff(env, s, s', g, r, room) && Ends(s, s', g)
    ensures s'.db.moves == s.db.moves && g in s.db.moves && |room.moves| <= |s.db.moves[g]|
    ensures forall u <- Seats(s'.db.games[g]) :: (g, u) in s'.db.scores && s'.db.scores[(g, u)].moves == |room.moves|
  {
    hide GamesOk, RoomsOk, LineageOk, VotesOk, LedgerOk, ScoresOk, BadgesOk, RatingsOk, Finalize, SeatedUser, PlayersOk,
         GameOk, Knows, Rep, Rules.Valid;
    RoomKnown(env, s, r, room);
    RoomFacts(env, s.db, s.hist, room);
    var row, row' := s.db.games[g], s'.db.games[g];
    PairSeated(env, s, room);
    SeatedBoth(env, row, room);
    SettledScoreRows(env.curve, s.db, g, row.white, row.black.value, |room.moves|, row'.result.value, row'.winner);
  }

  /** Say a step ends a game. Both score rows, then and for good, carry the number of moves the
      settling room object showed; they carry the game's number of moves exactly when that
      object missed none of the moves the transaction could have counted. */
  lemma ScoreMovesExactlyWhen(env: Env, run: seq<State>, i: nat, j: nat, g: GameId)
    returns (r: ReplicaId, room: Room)
    requires env.Valid() && Run(env, run) && i + 1 <= j < |run| && Ends(run[i], run[i + 1], g)
    ensures Knows(Rep(run[i], r), room) && room.gameId == g
    ensures g in run[j].db.games && g in run[i].db.moves && g in run[j].db.moves
    ensures run[j].db.moves[g] == run[i].db.moves[g] && |room.moves| <= |run[i].db.moves[g]|
    ensures forall u <- Seats(run[j].db.games[g]) ::
              && (g, u) in run[j].db.scores && run[j].db.scores[(g, u)].moves == |room.moves|
              && (run[j].db.scores[(g, u)].moves == |run[j].db.moves[g]| <==> |room.moves| == |run[i].db.moves[g]|)
  {
    r, room := EndingOf(env, run, i, j, g);
    SettledCount(env, run[i], run[i + 1], g, r, room);
    SettledRoom(env, run[i], run[i + 1], g, r, room);
    hide *;
    SeatsStay(run[i + 1].db.games[g], run[j].db.games[g]);
  }

  lemma SettledRoom(env: Env, s: State, s': State, g: GameId, r: ReplicaId, room: Room)
    requires SettledOff(env, s, s', g, r, room)
    ensures Knows(Rep(s, r), room) && room.gameId == g
  {
    hide Settles, ResignedFrom;
  }

  lemma SeatsStay(row: GameRow, row': GameRow)
    requires row' == row.(room := row'.room)
    ensures Seats(row') == Seats(row)
  {
  }

  // ---- the badges that look at the number of moves ----

  /** User u won the finished game g. */
  predicate WonGame(db: Tables, u: UserId, g: GameId) {
    g in db.games && g in db.moves && db.games[g].status == Finished && Won(db.games[g], u)
  }

  /** User u was seated in the finished game g. */
  predicate PlayedGame(db: Tables, u: UserId, g: GameId) {
    g in db.games && g in db.moves && db.games[g].status == Finished && u in Seats(db.games[g])
  }

  function Recorded(db: Tables, u: UserId, g: GameId): nat {
    if (g, u) in db.scores then db.scores[(g, u)].moves else 0
  }

  function Actual(db: Tables, g: GameId): nat {
    if g in db.moves then |db.moves[g]| else 0
  }

  /** u won some game in at most 15 moves. */
  ghost predicate WonQuickly(db: Tables, u: UserId) {
    exists g :: WonGame(db, u, g) && Actual(db, g) <= 15
  }

  /** u finished some game of at least 60 moves. */
  ghost predicate PlayedLong(db: Tables, u: UserId) {
    exists g :: PlayedGame(db, u, g) && Actual(db, g) >= 60
  }

  lemma QuickBadge(env: Env, s: State, u: UserId)
    requires Inv(env, s)
    ensures (u, QuickWin) in s.db.badges <==> exists g :: WonGame(s.db, u, g) && Recorded(s.db, u, g) <= 15
  {
    hide RoomsOk, LineageOk, VotesOk, LedgerOk, RatingsOk, GameOk;
    var db := s.db;
    if (u, QuickWin) in db.badges {
      assert Deserves(db.scores, u, QuickWin);
      var k :| k in db.scores && k.1 == u && QuickWon(db.scores[k]);
      assert WonGame(db, u, k.0) && Recorded(db, u, k.0) <= 15;
    }
    if g: GameId :| WonGame(db, u, g) && Recorded(db, u, g) <= 15 {
      assert u in Seats(db.games[g]) && (g, u) in db.scores && QuickWon(db.scores[(g, u)]);
      assert Deserves(db.scores, u, QuickWin);
    }
  }

  lemma MarathonBadge(env: Env, s: State, u: UserId)
    requires Inv(env, s)
    ensures (u, Marathon) in s.db.badges <==> exists g :: PlayedGame(s.db, u, g) && Recorded(s.db, u, g) >= 60
  {
    hide RoomsOk, LineageOk, VotesOk, LedgerOk, RatingsOk, GameOk;
    var db := s.db;
    if (u, Marathon) in db.badges {
      assert Deserves(db.scores, u, Marathon);
      var k :| k in db.scores && k.1 == u && Marathoned(db.scores[k]);
      assert PlayedGame(db, u, k.0) && Recorded(db, u, k.0) >= 60;
    }
    if g: GameId :| PlayedGame(db, u, g) && Recorded(db, u, g) >= 60 {
      assert (g, u) in db.scores && Marathoned(db.scores[(g, u)]);
      assert Deserves(db.scores, u, Marathon);
    }
  }

  lemma RecordedAtMostActual(env: Env, s: State, u: UserId, g: GameId)
    requires Inv(env, s) && (PlayedGame(s.db, u, g) || WonGame(s.db, u, g))
    ensures 0 < Recorded(s.db, u, g) <= Actual(s.db, g)
  {
    hide RoomsOk, LineageOk, VotesOk, LedgerOk, RatingsOk, BadgesOk, GameOk;
    assert (g, u) in s.db.scores;
  }

  /** The quick-win badge is never withheld from a user who won within 15 moves. It is granted
      wrongly exactly when the user won no such game but one that was counted as such. */
  lemma QuickBadgeExactlyWhen(env: Env, run: seq<State>, i: nat, u: UserId)
    requires env.Valid() && Run(env, run) && i < |run|
    ensures var db := run[i].db;
            && (WonQuickly(db, u) ==> (u, QuickWin) in db.badges)
            && (((u, QuickWin) in db.badges <==> WonQuickly(db, u)) <==>
                  WonQuickly(db, u) || forall g :: WonGame(db, u, g) ==> !(Recorded(db, u, g) <= 15 < Actual(db, g)))
  {
    RunInv(env, run, i);
    var db := run[i].db;
    QuickBadge(env, run[i], u);
    forall g: GameId | WonGame(db, u, g) ensures Recorded(db, u, g) <= Actual(db, g) {
      RecordedAtMostActual(env, run[i], u, g);
    }
    hide Run, Inv, Env.Valid, WonGame, Recorded, Actual;
  }

  /** The marathon badge is never given to a user who finished no game of 60 moves. It is missed
      exactly when the user finished such games but none was counted as one. */
  lemma MarathonBadgeExactlyWhen(env: Env, run: seq<State>, i: nat, u: UserId)
    requires env.Valid() && Run(env, run) && i < |run|
    ensures var db := run[i].db;
            && ((u, Marathon) in db.badges ==> PlayedLong(db, u))
            && (((u, Marathon) in db.badges <==> PlayedLong(db, u)) <==>
                  !PlayedLong(db, u)
                  || exists g :: PlayedGame(db, u, g) && Actual(db, g) >= 60 && Recorded(db, u, g) >= 60)
  {
    RunInv(env, run, i);
    var db := run[i].db;
    MarathonBadge(env, run[i], u);
    forall g: GameId | PlayedGame(db, u, g) ensures Recorded(db, u, g) <= Actual(db, g) {
      RecordedAtMostActual(env, run[i], u, g);
    }
    hide Run, Inv, Env.Valid, PlayedGame, Recorded, Actual;
  }
}

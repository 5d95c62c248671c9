/** What one step of the room protocol does in a reachable state, row by row and field by
    field: when it is accepted, what it then writes, and that it otherwise changes nothing. */
module RoomExactly {
  import opened Basics
  import opened GameTables
  import opened RoomProtocol
  import opened RoomInvariant
  import opened RoomSteps
  import opened RoomRematch
  import opened RoomSettle
  import opened RoomTheorems
  import Elo

  // ---- refreshing a room ----

  /** The object a handler decides on when it refreshes: the cached one, if there is one. */
  function Live(s: State, r: ReplicaId, room: Room): Room {
    if room.id in Rep(s, r).cache then Rep(s, r).cache[room.id] else room
  }

  /** The object shows the row: seats, position, moves, verdict and status. */
  predicate Shows(now: Room, id: RoomId, g: GameId, row: GameRow, ms: seq<MoveRow>) {
    && now.id == id && now.gameId == g
    && |now.players| == (if row.black.Some? then 2 else 1)
    && now.players[0].color == White && now.players[0].user == row.white
    && (row.black.Some? ==> now.players[1].color == Black && now.players[1].user == row.black.value)
    && now.fen == row.fen && now.moves == ms && now.result == row.result && now.winner == row.winner
    && (now.status == Ended <==> row.status == Finished)
    && (now.status == Playing <==> row.status == InProgress && row.black.Some?)
  }

  /** In the new object a seat has a socket exactly when the live object has it for that user. */
  ghost predicate SocketsMoved(now: Room, live: Room) {
    forall i: nat, k: SocketId :: i < |now.players| ==>
      (now.players[i].socket == Some(k) <==>
        exists p <- live.players :: p.user == now.players[i].user && p.socket == Some(k))
  }

  predicate OneEntryPerUser(players: seq<Player>) {
    forall i, j :: 0 <= i < j < |players| ==> players[i].user != players[j].user
  }

  lemma {:induction false} SocketFound(players: seq<Player>, user: UserId, k: SocketId)
    requires OneEntryPerUser(players)
    ensures SocketOf(players, user) == Some(k) <==> exists p <- players :: p.user == user && p.socket == Some(k)
  {
    if players != [] {
      var n := |players| - 1;
      SocketFound(players[..n], user, k);
      assert players == players[..n] + [players[n]];
      assert players[n].user == user ==> forall p <- players[..n] :: p.user != user;
    }
  }

  lemma DistinctUsers(env: Env, row: GameRow, players: seq<Player>)
    requires PlayersOk(env, row, players) && row.black != Some(row.white)
    ensures OneEntryPerUser(players)
  {
    if |players| == 2 {
      assert players[0] in players && players[1] in players;
    }
  }

  lemma BuiltShows(env: Env, db: Tables, id: RoomId, g: GameId)
    requires g in db.games && g in db.moves && GameOk(env.rules, db.games[g], db.moves[g])
    ensures var built := BuildRoom(env.rules, id, g, db.games[g], db.moves[g]);
            && built.Some? && Shows(built.value, id, g, db.games[g], db.moves[g])
            && forall p <- built.value.players :: p.socket.None?
  {
    SnapshotIsCurrent(env.rules, db.games[g], db.moves[g]);
  }

  lemma ReattachShows(now: Room, live: Room, id: RoomId, g: GameId, row: GameRow, ms: seq<MoveRow>)
    requires Shows(now, id, g, row, ms) && OneEntryPerUser(live.players)
    ensures Shows(Reattach(now, live), id, g, row, ms) && SocketsMoved(Reattach(now, live), live)
    ensures now.id == id == Reattach(now, live).id
  {
    var made := Reattach(now, live);
    forall i: nat, k: SocketId | i < |made.players|
      ensures made.players[i].socket == Some(k) <==>
                exists p <- live.players :: p.user == made.players[i].user && p.socket == Some(k)
    {
      SocketFound(live.players, made.players[i].user, k);
    }
  }

  /** What a refresh puts into the cache of its replica, in every run: an object that shows
      the row, with the sockets of the live object user by user. Nothing else changes. */
  lemma RefreshExactly(env: Env, run: seq<State>, k: nat, s': State, r: ReplicaId, room: Room, g: GameId)
    requires env.Valid() && Run(env, run) && k < |run| && RefreshStep(env, run[k], s', r, room, g)
    ensures var s := run[k];
            var live := Live(s, r, room);
            && OneEntryPerUser(live.players)
            && r in s'.replicas && room.id in s'.replicas[r].cache
            && var now := s'.replicas[r].cache[room.id];
            && Shows(now, room.id, g, s.db.games[g], s.db.moves[g]) && SocketsMoved(now, live)
            && s' == s.(replicas := s.replicas[r := Replica(Rep(s, r).cache[room.id := now], Rep(s, r).held + {now})])
  {
    hide Run, Env.Valid, RoomsOk, LineageOk, VotesOk, LedgerOk, ScoresOk, BadgesOk, RatingsOk, GameOk, BuildRoom,
         Reattach, Shows, SocketsMoved, PlayersOk, Occurred;
    RunInv(env, run, k);
    var s := run[k];
    var live := Live(s, r, room);
    assert Knows(Rep(s, r), live);
    RoomKnown(env, s, r, live);
    LiveIsDistinct(env, s, live);
    BuiltShows(env, s.db, room.id, g);
    var built := BuildRoom(env.rules, room.id, g, s.db.games[g], s.db.moves[g]).value;
    ReattachShows(built, live, room.id, g, s.db.games[g], s.db.moves[g]);
  }

  lemma LiveIsDistinct(env: Env, s: State, live: Room)
    requires GamesOk(env.rules, s.db) && RoomOk(env, s.db, s.hist, live)
    ensures OneEntryPerUser(live.players)
  {
    hide Occurred, MovesOk, ResultOk;
    assert GameOk(env.rules, s.db.games[live.gameId], s.db.moves[live.gameId]);
    DistinctUsers(env, s.db.games[live.gameId], live.players);
  }

  /** Materializing a room gives an object that shows the row and has no sockets. */
  lemma HydrateExactly(env: Env, run: seq<State>, k: nat, s': State, r: ReplicaId, id: RoomId, g: GameId)
    requires env.Valid() && Run(env, run) && k < |run| && HydrateStep(env, run[k], s', r, id, g)
    ensures var s := run[k];
            && r in s'.replicas && id in s'.replicas[r].cache
            && var now := s'.replicas[r].cache[id];
            && Shows(now, id, g, s.db.games[g], s.db.moves[g]) && (forall p <- now.players :: p.socket.None?)
            && s' == s.(replicas := s.replicas[r := Replica(Rep(s, r).cache[id := now], Rep(s, r).held + {now})])
  {
    hide Run, Env.Valid, RoomsOk, LineageOk, VotesOk, LedgerOk, ScoresOk, BadgesOk, RatingsOk, GameOk, BuildRoom;
    RunInv(env, run, k);
    BuiltShows(env, run[k].db, id, g);
  }

  // ---- moves ----

  predicate Legal(rules: Rules, row: GameRow, color: Color, request: MoveText) {
    row.status == InProgress && rules.turn(row.fen) == color && rules.play(row.fen, request).Some?
  }

  /** The stored game after a legal request: one more row, and the board it leads to. */
  function Recorded(rules: Rules, db: Tables, g: GameId, color: Color, author: UserId, request: MoveText): Tables
    requires g in db.games && g in db.moves && rules.play(db.games[g].fen, request).Some?
  {
    var played := rules.play(db.games[g].fen, request).value;
    var record := MoveRow(|db.moves[g]| + 1, color, played.move, played.fen, author);
    db.(games := db.games[g := db.games[g].(fen := played.fen)], moves := db.moves[g := db.moves[g] + [record]])
  }

  lemma PersistExactly(rules: Rules, db: Tables, g: GameId, color: Color, author: UserId, request: MoveText)
    requires g in db.games && g in db.moves && GameOk(rules, db.games[g], db.moves[g])
    ensures var tx := PersistMove(rules, db, g, color, author, request);
            if Legal(rules, db.games[g], color, request) then
              && tx.Commit? && tx.db == Recorded(rules, db, g, color, author, request)
              && tx.value == Some(tx.db.moves[g][|db.moves[g]|])
            else tx == Rollback || tx == Commit(db, None)
  {
    hide ResultOk, MoveOk;
    var row, ms := db.games[g], db.moves[g];
    assert PositionOk(rules, Pos(rules, ms, |ms|), |ms|);
    MaxIsLength(rules, row, ms, |ms|);
    assert ms[..|ms|] == ms;
  }

  /** Exactly when a submitted move is recorded: the game is in progress, it is the mover's
      turn on the stored board and the request is legal there. Then the canonical move and the
      position it leads to are stored under the next number and the mover's own user, the
      object follows, and nothing else changes; otherwise nothing changes at all. */
  lemma MoveAcceptedExactlyWhen(env: Env, run: seq<State>, k: nat, s': State, r: ReplicaId, room: Room, socket: SocketId,
                                i: nat, request: MoveText)
    requires env.Valid() && Run(env, run) && k < |run| && MoveStep(env, run[k], s', r, room, socket, i, request)
    ensures var s, g := run[k], room.gameId;
            && i < |room.players| && room.players[i].socket == Some(socket) && room.players[i].user == env.owner(socket)
            && room.status == Playing && env.rules.turn(room.fen) == room.players[i].color
            && g in s.db.games && g in s.db.moves
            && var row, ms, color := s.db.games[g], s.db.moves[g], room.players[i].color;
            && Seat(row, color) == Some(env.owner(socket))
            && if row.status == InProgress && env.rules.turn(row.fen) == color && env.rules.play(row.fen, request).Some? then
                 && var played := env.rules.play(row.fen, request).value;
                 && var record := MoveRow(|ms| + 1, color, played.move, played.fen, env.owner(socket));
                 && r in s'.replicas
                 && room.(fen := played.fen, moves := room.moves + [record]) in s'.replicas[r].held
                 && s' == s.(db := s.db.(games := s.db.games[g := row.(fen := played.fen)],
                                         moves := s.db.moves[g := ms + [record]]),
                             replicas := s.replicas[r := s'.replicas[r]])
               else s' == s
  {
    hide Run, Env.Valid, RoomsOk, LineageOk, VotesOk, LedgerOk, ScoresOk, BadgesOk, RatingsOk, RoomOk, PersistMove,
         GameOk, PlayersOk;
    var s, g := run[k], room.gameId;
    RunInv(env, run, k);
    RoomKnown(env, s, r, room);
    RoomFacts(env, s.db, s.hist, room);
    Seated(env, s.db.games[g], room, i);
    PersistExactly(env.rules, s.db, g, room.players[i].color, env.owner(socket), request);
  }

  lemma Seated(env: Env, row: GameRow, room: Room, i: nat)
    requires PlayersOk(env, row, room.players) && i < |room.players|
    ensures var p := room.players[i];
            Seat(row, p.color) == Some(p.user) && (p.socket.Some? ==> env.owner(p.socket.value) == p.user)
  {
    assert room.players[i] in room.players;
  }

  /** The player to move who is attached on a replica can play any legal move there, whatever
      the old object showed - before a rematch or after it: the refresh leaves the socket on
      the seat of the row, and the move is then recorded. */
  lemma RefreshedMoverPlays(env: Env, run: seq<State>, k: nat, s': State, r: ReplicaId, room: Room, g: GameId,
                            socket: SocketId, request: MoveText) returns (i: nat, s'': State)
    requires env.Valid() && Run(env, run) && k < |run| && RefreshStep(env, run[k], s', r, room, g)
    requires var row := run[k].db.games[g];
             var mover := Seat(row, env.rules.turn(row.fen));
             && row.status == InProgress && row.black.Some? && env.rules.play(row.fen, request).Some?
             && exists p <- Live(run[k], r, room).players :: mover == Some(p.user) && p.socket == Some(socket)
    ensures var row := run[k].db.games[g];
            var color := env.rules.turn(row.fen);
            && r in s'.replicas && room.id in s'.replicas[r].cache
            && var now := s'.replicas[r].cache[room.id];
            && i < |now.players| && Some(now.players[i].user) == Seat(row, color)
            && now.players[i] == Player(Some(socket), color, now.players[i].user)
            && MoveStep(env, s', s'', r, now, socket, i, request)
            && g in s''.db.moves && |s''.db.moves[g]| == |run[k].db.moves[g]| + 1
  {
    hide Run, Env.Valid, RoomsOk, LineageOk, VotesOk, LedgerOk, ScoresOk, BadgesOk, RatingsOk, RefreshStep, Reattach,
         BuildRoom, PersistMove, GameOk, Inv, PlayersOk;
    var s := run[k];
    RefreshedIn(env, s, s', r, room, g);
    RefreshExactly(env, run, k, s', r, room, g);
    var row := s.db.games[g];
    var color := env.rules.turn(row.fen);
    var now := s'.replicas[r].cache[room.id];
    i := if color == White then 0 else 1;
    assert now.players[i].socket == Some(socket);
    RunInv(env, run, k);
    LiveOwner(env, s, r, room, socket, now.players[i].user);
    GamesFact(env, s, g);
    PersistExactly(env.rules, s.db, g, color, env.owner(socket), request);
    var tx := PersistMove(env.rules, s.db, g, color, env.owner(socket), request);
    var room' := now.(fen := tx.value.value.fenAfter, moves := now.moves + [tx.value.value]);
    var rep' := Replica(Rep(s', r).cache, Rep(s', r).held + {room'});
    s'' := s'.(db := tx.db, replicas := s'.replicas[r := rep']);
  }

  lemma RefreshedIn(env: Env, s: State, s': State, r: ReplicaId, room: Room, g: GameId)
    requires RefreshStep(env, s, s', r, room, g)
    ensures g in s.db.games && g in s.db.moves && Knows(Rep(s, r), room)
  {
  }

  lemma GamesFact(env: Env, s: State, g: GameId)
    requires Inv(env, s) && g in s.db.games
    ensures g in s.db.moves && GameOk(env.rules, s.db.games[g], s.db.moves[g])
  {
    hide GameOk, RoomsOk, LineageOk, VotesOk, LedgerOk, ScoresOk, BadgesOk, RatingsOk;
  }

  lemma LiveOwner(env: Env, s: State, r: ReplicaId, room: Room, socket: SocketId, user: UserId)
    requires Inv(env, s) && Knows(Rep(s, r), room)
    requires exists p <- Live(s, r, room).players :: p.user == user && p.socket == Some(socket)
    ensures env.owner(socket) == user
  {
    hide GamesOk, RoomsOk, LineageOk, VotesOk, LedgerOk, ScoresOk, BadgesOk, RatingsOk, Occurred;
    RoomKnown(env, s, r, Live(s, r, room));
  }

  // ---- seats and rooms ----

  /** Exactly when a claim of the black seat is accepted: the game is in progress and nobody
      has the seat. The socket's own user then gets it, who is never the one playing white. */
  lemma JoinAcceptedExactlyWhen(env: Env, run: seq<State>, k: nat, s': State, r: ReplicaId, room: Room, socket: SocketId)
    requires env.Valid() && Run(env, run) && k < |run| && JoinStep(env, run[k], s', r, room, socket)
    ensures var s, g, user := run[k], room.gameId, env.owner(socket);
            && g in s.db.games && |room.players| == 1 && room.status == Waiting && room.players[0].user != user
            && var row := s.db.games[g];
            if row.status == InProgress && row.black.None? then
              && user != row.white && r in s'.replicas
              && var pair := [room.players[0], Player(Some(socket), Black, user)];
              && room.(players := pair, status := Playing) in s'.replicas[r].held
              && s' == s.(db := s.db.(games := s.db.games[g := row.(black := Some(user))]),
                          replicas := s.replicas[r := s'.replicas[r]])
            else s' == s
  {
    hide Run, Env.Valid, RoomsOk, LineageOk, VotesOk, LedgerOk, ScoresOk, BadgesOk, RatingsOk, RoomOk, GameOk,
         PlayersOk;
    var s := run[k];
    RunInv(env, run, k);
    RoomKnown(env, s, r, room);
    RoomFacts(env, s.db, s.hist, room);
    WhiteAlone(env, s.db.games[room.gameId], room);
    assert room.players + [Player(Some(socket), Black, env.owner(socket))]
        == [room.players[0], Player(Some(socket), Black, env.owner(socket))];
  }

  lemma WhiteAlone(env: Env, row: GameRow, room: Room)
    requires PlayersOk(env, row, room.players) && |room.players| < 2
    ensures |room.players| == 1 && room.players[0].user == row.white && room.players[0] in room.players
  {
    assert room.players[0] in room.players;
  }

  lemma NextIsUnused(rules: Rules, db: Tables)
    requires GamesOk(rules, db)
    ensures db.nextGame !in db.games && db.nextGame !in db.moves
  {
    hide GameOk;
  }

  /** Exactly when a room is created: no game holds its id. */
  lemma CreatesExactlyWhen(env: Env, run: seq<State>, k: nat, s': State, r: ReplicaId, socket: SocketId, id: RoomId)
    requires env.Valid() && Run(env, run) && k < |run| && CreateRoomStep(env, run[k], s', r, socket, id)
    ensures var s, user := run[k], env.owner(socket);
            if exists g <- s.db.games :: s.db.games[g].room == Some(id) then s' == s
            else
              && var g := s.db.nextGame;
              && var room := Room(id, g, [Player(Some(socket), White, user)], env.rules.start, Waiting, [], None, None);
              && var row := GameRow(Some(id), user, None, InProgress, env.rules.start, None, None);
              && g !in s.db.games && g !in s.db.moves
              && s'.db == s.db.(games := s.db.games[g := row], moves := s.db.moves[g := []], nextGame := g + 1)
              && r in s'.replicas && s'.votes == s.votes && s'.quorum == s.quorum
              && s'.replicas == s.replicas[r := Replica(Rep(s, r).cache[id := room], Rep(s, r).held + {room})]
  {
    hide Run, Env.Valid, RoomsOk, LineageOk, VotesOk, LedgerOk, ScoresOk, BadgesOk, RatingsOk, GameOk;
    var s := run[k];
    RunInv(env, run, k);
    NextIsUnused(env.rules, s.db);
  }

  // ---- endings ----

  /** Exactly when a finalization settles, and everything it then writes but the badges: the
      verdict, both score rows, both ratings and one ledger entry. Otherwise nothing changes. */
  lemma SettlesExactly(env: Env, run: seq<State>, k: nat, s': State, r: ReplicaId, room: Room, result: Result,
                       winner: Option<Color>)
    requires env.Valid() && Run(env, run) && k < |run| && Knows(Rep(run[k], r), room) && |room.players| == 2
    requires Settles(env, run[k], s', r, room, result, winner)
    ensures var s, g := run[k], room.gameId;
            && g in s.db.games && s.db.games[g].black.Some?
            && var row, w, b := s.db.games[g], s.db.games[g].white, s.db.games[g].black.value;
            if row.status == InProgress && w in s.db.ratings && b in s.db.ratings && room.moves != [] then
              && s'.db.games == s.db.games[g := row.(status := Finished, result := Some(result), winner := winner)]
              && s'.db.moves == s.db.moves && s'.db.nextGame == s.db.nextGame
              && s'.db.scores == s.db.scores[(g, w) := ScoreRow(winner == Some(White), |room.moves|)]
                                            [(g, b) := ScoreRow(winner == Some(Black), |room.moves|)]
              && w in s'.db.ratings && b in s'.db.ratings
              && var dw, db := s'.db.ratings[w] - s.db.ratings[w], s'.db.ratings[b] - s.db.ratings[b];
              && s'.db.ratings == s.db.ratings[w := s.db.ratings[w] + dw][b := s.db.ratings[b] + db]
              && Rated(env.curve, s.db.ratings[w], s.db.ratings[b], dw, db, winner)
              && s'.hist == s.hist.(ledger := s.hist.ledger + [Entry(g, w, b, s.db.ratings[w], s.db.ratings[b], dw, db)])
              && r in s'.replicas
              && room.(status := Ended, result := Some(result), winner := winner) in s'.replicas[r].held
              && s' == s.(db := s'.db, hist := s'.hist, replicas := s.replicas[r := s'.replicas[r]])
            else s' == s
  {
    hide Run, Env.Valid, GamesOk, RoomsOk, LineageOk, VotesOk, LedgerOk, ScoresOk, BadgesOk, RatingsOk, RoomOk, GameOk,
         Finalize, SeatedUser, PlayersOk, Rated, Elo.NewRatings;
    var s, g := run[k], room.gameId;
    RunInv(env, run, k);
    RoomKnown(env, s, r, room);
    RoomFacts(env, s.db, s.hist, room);
    SeatedBoth(env, s.db.games[g], room);
    SettlesExactlyWhen(env, run, k, r, room, result, winner);
    FinalizeEffect(env.curve, s.db, g, s.db.games[g].white, s.db.games[g].black.value, |room.moves|, result, winner);
  }

  lemma CanSettle(env: Env, s: State, r: ReplicaId, room: Room, result: Result, winner: Option<Color>) returns (s': State)
    ensures Settles(env, s, s', r, room, result, winner)
  {
    hide Finalize, Posting, SeatedUser;
    var white, black := SeatedUser(room, White), SeatedUser(room, Black);
    var tx := Finalize(env.curve, s.db, room.gameId, white, black, |room.moves|, result, winner);
    if tx.Rollback? || tx.value.NotSettled? {
      s' := s;
    } else {
      var room' := room.(status := Ended, result := Some(result), winner := winner);
      var rep' := Replica(Rep(s, r).cache, Rep(s, r).held + {room'});
      s' := s.(db := tx.db, hist := s.hist.(ledger := s.hist.ledger + Posting(room.gameId, white, black, tx.value)),
               replicas := s.replicas[r := rep']);
    }
  }

  /** A game in progress between two registered users, shown with at least one move. */
  predicate Settleable(s: State, room: Room) {
    && |room.players| == 2 && room.moves != []
    && room.gameId in s.db.games && s.db.games[room.gameId].status == InProgress
    && s.db.games[room.gameId].white in s.db.ratings
    && s.db.games[room.gameId].black.Some? && s.db.games[room.gameId].black.value in s.db.ratings
  }

  /** An attached player's game_over on an object that shows a finished board ends the game:
      mate is won by the side not to move, anything else is a draw. */
  lemma GameOverEnds(env: Env, run: seq<State>, k: nat, r: ReplicaId, room: Room, socket: SocketId, i: nat)
    returns (s': State)
    requires env.Valid() && Run(env, run) && k < |run| && Knows(Rep(run[k], r), room) && Settleable(run[k], room)
    requires Attached(room, i, socket) && room.status != Ended && env.rules.over(room.fen)
    ensures GameOverStep(env, run[k], s', r, room, socket, i)
    ensures var row, mate := run[k].db.games[room.gameId], env.rules.mate(room.fen);
            var winner := if !mate then None else if env.rules.turn(room.fen) == White then Some(Black) else Some(White);
            && room.gameId in s'.db.games
            && s'.db.games[room.gameId]
               == row.(status := Finished, result := Some(if mate then Checkmate else Draw), winner := winner)
  {
    hide Run, Env.Valid, Settles, Rated;
    s' := CanSettle(env, run[k], r, room, OverResult(env.rules, room.fen), OverWinner(env.rules, room.fen));
    SettlesExactly(env, run, k, s', r, room, OverResult(env.rules, room.fen), OverWinner(env.rules, room.fen));
  }

  /** An attached player who resigns a game that is being played loses it. */
  lemma ResignationEnds(env: Env, run: seq<State>, k: nat, r: ReplicaId, room: Room, socket: SocketId, i: nat)
    returns (s': State)
    requires env.Valid() && Run(env, run) && k < |run| && Knows(Rep(run[k], r), room) && Settleable(run[k], room)
    requires Attached(room, i, socket) && room.status == Playing
    ensures ResignOrLeaveStep(env, run[k], s', r, room, socket, i)
    ensures var row := run[k].db.games[room.gameId];
            var winner := if row.white == env.owner(socket) then Black else White;
            && room.gameId in s'.db.games
            && s'.db.games[room.gameId] == row.(status := Finished, result := Some(Resign), winner := Some(winner))
  {
    hide Run, Env.Valid, Settles, Rated, GamesOk, RoomsOk, LineageOk, VotesOk, LedgerOk, ScoresOk, BadgesOk, RatingsOk,
         RoomOk, GameOk, PlayersOk, SeatedUser, Knows;
    var s, row, other := run[k], run[k].db.games[room.gameId], Flip(room.players[i].color);
    RunInv(env, run, k);
    RoomKnown(env, s, r, room);
    RoomFacts(env, s.db, s.hist, room);
    Seated(env, row, room, i);
    SeatedBoth(env, row, room);
    SeatsDiffer(env.rules, row, s.db.moves[room.gameId]);
    s' := CanSettle(env, s, r, room, Resign, Some(other));
    SettlesExactly(env, run, k, s', r, room, Resign, Some(other));
  }

  /** Only a player of the game ends it, and only off an object that does not show the end yet:
      with game_over when its position is finished, by resigning or leaving while it is played. */
  lemma OnlyPlayersEnd(env: Env, run: seq<State>, k: nat, s': State, r: ReplicaId, room: Room, socket: SocketId, i: nat)
    requires env.Valid() && Run(env, run) && k < |run|
    requires GameOverStep(env, run[k], s', r, room, socket, i) || ResignOrLeaveStep(env, run[k], s', r, room, socket, i)
    ensures room.gameId in run[k].db.games && env.owner(socket) in Seats(run[k].db.games[room.gameId])
    ensures room.status != Ended
    ensures GameOverStep(env, run[k], s', r, room, socket, i) ==> env.rules.over(room.fen)
    ensures ResignOrLeaveStep(env, run[k], s', r, room, socket, i) ==> room.status == Playing
  {
    hide Run, Env.Valid, Settles, RoomsOk, GamesOk, LineageOk, VotesOk, LedgerOk, ScoresOk, BadgesOk, RatingsOk,
         Occurred;
    RunInv(env, run, k);
    RoomKnown(env, run[k], r, room);
    Seated(env, run[k].db.games[room.gameId], room, i);
  }

  lemma SeatsDiffer(rules: Rules, row: GameRow, ms: seq<MoveRow>)
    requires GameOk(rules, row, ms)
    ensures row.black != Some(row.white)
  {
    hide MovesOk, ResultOk;
  }

  // ---- rematches ----

  /** A vote is counted for the user whose socket sent it, once, on the finished game shown. */
  lemma VoteIsTheSenders(env: Env, run: seq<State>, k: nat, s': State, r: ReplicaId, room: Room, socket: SocketId, i: nat)
    requires env.Valid() && Run(env, run) && k < |run| && AddVoteStep(env, run[k], s', r, room, socket, i)
    ensures var s, key := run[k], (env.store(r), room.gameId);
            && room.gameId in s.db.games && s.db.games[room.gameId].status == Finished
            && env.owner(socket) in Seats(s.db.games[room.gameId])
            && s'.votes == s.votes[key := VotesFor(s, key) + {env.owner(socket)}]
            && s'.db == s.db && s'.replicas == s.replicas && s'.quorum == s.quorum
  {
    hide Run, Env.Valid, RoomsOk, GamesOk, LineageOk, VotesOk, LedgerOk, ScoresOk, BadgesOk, RatingsOk, Occurred;
    RunInv(env, run, k);
    RoomKnown(env, run[k], r, room);
    Seated(env, run[k].db.games[room.gameId], room, i);
  }

  lemma HolderIsLast(db: Tables, h: History, g: GameId, id: RoomId)
    requires LineageOk(db, h) && g in db.games && g in h.home && h.home[g].0 == id
    ensures id in h.lineage && (db.games[g].room == Some(id) <==> h.home[g].1 == |h.lineage[id]| - 1)
  {
    assert LineOk(db, h, id, h.lineage[id]);
  }

  lemma SwapsColors(env: Env, row: GameRow, room: Room)
    requires PlayersOk(env, row, room.players) && |room.players| == 2
    ensures var p, q := room.players[0], room.players[1];
            Swapped(room.players) == [Player(p.socket, q.color, p.user), Player(q.socket, p.color, q.user)]
  {
  }

  /** Exactly when a rematch starts: the finished game still holds the room. It then loses the
      room to a new game in which the same two users have swapped colours and kept their
      sockets; otherwise nothing changes. */
  lemma RematchExactlyWhen(env: Env, run: seq<State>, k: nat, s': State, r: ReplicaId, room: Room)
    requires env.Valid() && Run(env, run) && k < |run| && StartRematchStep(env, run[k], s', r, room)
    ensures var s, g := run[k], room.gameId;
            && g in s.db.games && s.db.games[g].black.Some? && |room.players| == 2
            && var row := s.db.games[g];
            && row.status == Finished && {row.white, row.black.value} <= Voted(s.hist, g)
            && if row.room == Some(room.id) then
                 && var h, p, q := s.db.nextGame, room.players[0], room.players[1];
                 && h !in s.db.games && h !in s.db.moves
                 && var next := GameRow(Some(room.id), row.black.value, Some(row.white), InProgress, env.rules.start,
                                        None, None);
                 && s'.db == s.db.(games := s.db.games[g := row.(room := None)][h := next],
                                   moves := s.db.moves[h := []], nextGame := h + 1)
                 && var players := [Player(p.socket, q.color, p.user), Player(q.socket, p.color, q.user)];
                 && r in s'.replicas
                 && Room(room.id, h, players, env.rules.start, Playing, [], None, None) in s'.replicas[r].held
                 && s' == s.(db := s'.db, hist := s'.hist, replicas := s.replicas[r := s'.replicas[r]])
               else s' == s
  {
    hide Run, Env.Valid, GamesOk, RoomsOk, LineageOk, VotesOk, LedgerOk, ScoresOk, BadgesOk, RatingsOk, RoomOk, GameOk,
         PlayersOk, SeatedUser, Rematch, Swapped;
    var s, g := run[k], room.gameId;
    RunInv(env, run, k);
    RoomKnown(env, s, r, room);
    RoomFacts(env, s.db, s.hist, room);
    EndedRoom(env, s.db, s.hist, room);
    QuorumVoted(s.db, s.hist, s.votes, s.quorum, g);
    SwappedSeats(env, s.db.games[g], room);
    var white, black := s.db.games[g].black.value, s.db.games[g].white;
    HolderIsLast(s.db, s.hist, g, room.id);
    RematchOnlyFromHolder(env.rules, s.db, s.hist, g, room.id, white, black);
    if Rematch(env.rules, s.db, g, room.id, white, black).Commit? {
      RematchEffect(env.rules, s.db, g, room.id, white, black);
      NextIsUnused(env.rules, s.db);
      SwapsColors(env, s.db.games[g], room);
    }
  }

  lemma VotersAreSeated(env: Env, s: State, store: StoreId, g: GameId)
    requires Inv(env, s) && g in s.db.games && s.db.games[g].status == Finished
    ensures s.db.games[g].black.Some? && s.db.games[g].black.value != s.db.games[g].white
    ensures VotesFor(s, (store, g)) <= {s.db.games[g].white, s.db.games[g].black.value}
  {
    hide RoomsOk, LineageOk, LedgerOk, ScoresOk, BadgesOk, RatingsOk, MovesOk, ResultOk;
    assert GameOk(env.rules, s.db.games[g], s.db.moves[g]);
  }

  /** Exactly when a handler counts a quorum: both seated users have voted in its store. */
  lemma QuorumCountedExactlyWhen(env: Env, run: seq<State>, k: nat, r: ReplicaId, room: Room)
    requires env.Valid() && Run(env, run) && k < |run| && Knows(Rep(run[k], r), room) && room.status == Ended
    ensures var s, g := run[k], room.gameId;
            && g in s.db.games && s.db.games[g].black.Some?
            && ((exists s' :: CountVotesStep(env, s, s', r, room)) <==>
                  && s.db.games[g].white in VotesFor(s, (env.store(r), g))
                  && s.db.games[g].black.value in VotesFor(s, (env.store(r), g)))
  {
    hide Run, Env.Valid, GamesOk, RoomsOk, LineageOk, VotesOk, LedgerOk, ScoresOk, BadgesOk, RatingsOk, RoomOk,
         PlayersOk;
    var s, g := run[k], room.gameId;
    RunInv(env, run, k);
    RoomKnown(env, s, r, room);
    EndedRoom(env, s.db, s.hist, room);
    VotersAreSeated(env, s, env.store(r), g);
    var w, b, voters := s.db.games[g].white, s.db.games[g].black.value, VotesFor(s, (env.store(r), g));
    if w in voters && b in voters {
      assert voters == {w, b} && |{w, b}| == 2;
      assert CountVotesStep(env, s, s.(quorum := s.quorum + {g}), r, room);
    } else {
      SubsetSize(voters, if w in voters then {w} else {b});
    }
  }

  /** Two votes on the game that holds the room do start its rematch. */
  lemma RematchStarts(env: Env, run: seq<State>, k: nat, r: ReplicaId, room: Room) returns (s': State, s'': State)
    requires env.Valid() && Run(env, run) && k < |run| && Knows(Rep(run[k], r), room) && room.status == Ended
    requires var s, g := run[k], room.gameId;
             && g in s.db.games && s.db.games[g].room == Some(room.id)
             && forall u :: s.db.games[g].white == u || s.db.games[g].black == Some(u) ==>
                  u in VotesFor(s, (env.store(r), g))
    ensures CountVotesStep(env, run[k], s', r, room) && StartRematchStep(env, s', s'', r, room)
    ensures s''.db.games.Keys == run[k].db.games.Keys + {run[k].db.nextGame}
  {
    hide Run, Env.Valid, GamesOk, RoomsOk, LineageOk, VotesOk, LedgerOk, ScoresOk, BadgesOk, RatingsOk, RoomOk,
         PlayersOk, SeatedUser, Rematch, Swapped, CountVotesStep;
    var s, g := run[k], room.gameId;
    RunInv(env, run, k);
    RoomKnown(env, s, r, room);
    EndedRoom(env, s.db, s.hist, room);
    QuorumCountedExactlyWhen(env, run, k, r, room);
    s' :| CountVotesStep(env, s, s', r, room);
    Counted(env, s, s', r, room);
    SwappedSeats(env, s.db.games[g], room);
    var white, black := s.db.games[g].black.value, s.db.games[g].white;
    HolderIsLast(s.db, s.hist, g, room.id);
    RematchOnlyFromHolder(env.rules, s.db, s.hist, g, room.id, white, black);
    RematchEffect(env.rules, s.db, g, room.id, white, black);
    var tx := Rematch(env.rules, s.db, g, room.id, white, black);
    var room' := Room(room.id, tx.value, Swapped(room.players), env.rules.start, Playing, [], None, None);
    var line := if room.id in s.hist.lineage then s.hist.lineage[room.id] else [];
    var hist := s.hist.(lineage := s.hist.lineage[room.id := line + [tx.value]],
                        home := s.hist.home[tx.value := (room.id, |line|)]);
    var rep' := Replica(Rep(s, r).cache, Rep(s, r).held + {room'});
    s'' := s'.(db := tx.db, hist := hist, replicas := s'.replicas[r := rep']);
  }

  lemma Counted(env: Env, s: State, s': State, r: ReplicaId, room: Room)
    requires CountVotesStep(env, s, s', r, room)
    ensures s' == s.(quorum := s.quorum + {room.gameId})
  {
  }
}

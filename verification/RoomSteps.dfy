/** Every step of the room protocol keeps the invariant: first part by part for each
    transaction, then step by step. */
module RoomSteps {
  import opened Basics
  import opened GameTables
  import opened RoomProtocol
  import opened RoomInvariant
  import Elo

  // ---- users ----

  lemma {:induction false} DeltaOfStranger(ledger: seq<Entry>, u: UserId)
    requires forall e <- ledger :: e.white != u && e.black != u
    ensures Delta(ledger, u) == 0
  {
    if ledger != [] {
      assert ledger[|ledger| - 1] in ledger;
      DeltaOfStranger(ledger[..|ledger| - 1], u);
    }
  }

  lemma RegisteredRatings(db: Tables, h: History, user: UserId)
    requires RatingsOk(db, h) && user !in db.ratings
    ensures RatingsOk(db.(ratings := db.ratings[user := REGISTERED]), h.(base := h.base[user := REGISTERED]))
    ensures user !in h.base
  {
    var base := h.base[user := REGISTERED];
    SumInsert(db.ratings, user, REGISTERED);
    SumInsert(h.base, user, REGISTERED);
    forall k | 0 <= k < |h.ledger| ensures OldsOk(base, h.ledger, k) {
      assert OldsOk(h.base, h.ledger, k);
    }
    forall e <- h.ledger ensures e.white != user && e.black != user {
      var k :| 0 <= k < |h.ledger| && h.ledger[k] == e;
      assert OldsOk(h.base, h.ledger, k);
    }
    DeltaOfStranger(h.ledger, user);
    hide Delta, Total, Sum;
  }

  // ---- materializing rooms ----

  /** A reachable row always recovers, and from its checkpoint. */
  lemma SnapshotIsCurrent(rules: Rules, row: GameRow, ms: seq<MoveRow>)
    requires GameOk(rules, row, ms)
    ensures SnapshotFen(rules, row, ms) == Some(row.fen)
  {
    assert PositionOk(rules, Pos(rules, ms, |ms|), |ms|);
  }

  ghost predicate SocketsOk(env: Env, players: seq<Player>) {
    forall p <- players :: p.socket.Some? ==> env.owner(p.socket.value) == p.user
  }

  lemma {:induction false} SocketBelongs(env: Env, players: seq<Player>, u: UserId)
    requires SocketsOk(env, players)
    ensures SocketOf(players, u).Some? ==> env.owner(SocketOf(players, u).value) == u
  {
    if players != [] {
      assert players[|players| - 1] in players;
      SocketBelongs(env, players[..|players| - 1], u);
    }
  }

  lemma BuiltPlayers(env: Env, row: GameRow, current: seq<Player>, players: seq<Player>)
    requires SocketsOk(env, current)
    requires var seats := SnapshotPlayers(row);
             && |players| == |seats|
             && forall i :: 0 <= i < |players| ==> players[i] == seats[i].(socket := SocketOf(current, seats[i].user))
    ensures PlayersOk(env, row, players)
  {
    forall p <- players
      ensures Seat(row, p.color) == Some(p.user) && (p.socket.Some? ==> env.owner(p.socket.value) == p.user)
    {
      SocketBelongs(env, current, p.user);
    }
  }

  lemma BuiltRoomOk(env: Env, db: Tables, h: History, id: RoomId, g: GameId, current: seq<Player>)
    requires GamesOk(env.rules, db) && Holds(db, g, id) && SocketsOk(env, current)
    requires g in h.home && h.home[g].0 == id
    ensures var built := BuildRoom(env.rules, id, g, db.games[g], db.moves[g]);
            built.Some? && RoomOk(env, db, h, Reattach(built.value, built.value.(players := current)))
  {
    var row, ms := db.games[g], db.moves[g];
    SnapshotIsCurrent(env.rules, row, ms);
    var built := BuildRoom(env.rules, id, g, row, ms).value;
    var room := Reattach(built, built.(players := current));
    BuiltPlayers(env, row, current, room.players);
    assert room.fen == Pos(env.rules, ms, |ms|);
  }

  lemma HomeOfHolder(db: Tables, h: History, id: RoomId, g: GameId)
    requires LineageOk(db, h) && Holds(db, g, id)
    ensures g in h.home && h.home[g].0 == id && id in h.lineage
    ensures g == h.lineage[id][|h.lineage[id]| - 1]
  {
    assert LineOk(db, h, h.home[g].0, h.lineage[h.home[g].0]);
  }

  /** A new room has no sockets at all. */
  lemma ReattachNothing(room: Room)
    requires forall p <- room.players :: p.socket.None?
    ensures Reattach(room, room.(players := [])) == room
  {
    var same := Reattach(room, room.(players := []));
    assert forall i :: 0 <= i < |room.players| ==> room.players[i] in room.players;
    assert same.players == room.players;
  }

  lemma HydrateKeeps(env: Env, s: State, s': State, r: ReplicaId, id: RoomId, g: GameId)
    requires Inv(env, s) && HydrateStep(env, s, s', r, id, g)
    ensures Inv(env, s') && Extends(s, s')
  {
    hide GamesOk, RoomsOk, LineageOk, VotesOk, LedgerOk, ScoresOk, BadgesOk, RatingsOk, RoomOk;
    HomeOfHolder(s.db, s.hist, id, g);
    BuiltRoomOk(env, s.db, s.hist, id, g, []);
    var room := BuildRoom(env.rules, id, g, s.db.games[g], s.db.moves[g]).value;
    ReattachNothing(room);
    RoomsRewritten(env, s, s', r, room);
  }

  lemma RefreshKeeps(env: Env, s: State, s': State, r: ReplicaId, room: Room, g: GameId)
    requires Inv(env, s) && RefreshStep(env, s, s', r, room, g)
    ensures Inv(env, s') && Extends(s, s')
  {
    hide GamesOk, RoomsOk, LineageOk, VotesOk, LedgerOk, ScoresOk, BadgesOk, RatingsOk, RoomOk;
    var current := if room.id in Rep(s, r).cache then Rep(s, r).cache[room.id] else room;
    assert Knows(Rep(s, r), current);
    RoomKnown(env, s, r, current);
    SocketsOfRoom(env, s.db, s.hist, current);
    HomeOfHolder(s.db, s.hist, room.id, g);
    BuiltRoomOk(env, s.db, s.hist, room.id, g, current.players);
    var built := BuildRoom(env.rules, room.id, g, s.db.games[g], s.db.moves[g]).value;
    RoomsRewritten(env, s, s', r, Reattach(built, current));
  }

  lemma SocketsOfRoom(env: Env, db: Tables, h: History, room: Room)
    requires RoomOk(env, db, h, room)
    ensures SocketsOk(env, room.players)
  {
  }

  /** Attaching the owner's socket to a seat, or detaching one, keeps a room well formed. */
  lemma SocketChanged(env: Env, db: Tables, h: History, room: Room, i: nat, socket: Option<SocketId>)
    requires RoomOk(env, db, h, room) && i < |room.players|
    requires socket.Some? ==> env.owner(socket.value) == room.players[i].user
    ensures RoomOk(env, db, h, room.(players := room.players[i := room.players[i].(socket := socket)]))
  {
    var players := room.players[i := room.players[i].(socket := socket)];
    forall p <- players
      ensures Seat(db.games[room.gameId], p.color) == Some(p.user)
      ensures p.socket.Some? ==> env.owner(p.socket.value) == p.user
    {
      var j :| 0 <= j < |players| && p == players[j];
      assert room.players[j] in room.players;
    }
    assert PlayersOk(env, db.games[room.gameId], players);
  }

  lemma SocketStepKeeps(env: Env, s: State, s': State, r: ReplicaId, room: Room, i: nat, socket: Option<SocketId>)
    requires Inv(env, s) && Knows(Rep(s, r), room) && i < |room.players|
    requires socket.Some? ==> env.owner(socket.value) == room.players[i].user
    requires r in s'.replicas && OnlyReplica(s, s', r, s'.replicas[r])
    requires Rewrites(Rep(s, r), s'.replicas[r],
                      room.(players := room.players[i := room.players[i].(socket := socket)]))
    ensures Inv(env, s') && Extends(s, s')
  {
    hide GamesOk, RoomsOk, LineageOk, VotesOk, LedgerOk, ScoresOk, BadgesOk, RatingsOk, RoomOk;
    RoomKnown(env, s, r, room);
    SocketChanged(env, s.db, s.hist, room, i, socket);
    RoomsRewritten(env, s, s', r, room.(players := room.players[i := room.players[i].(socket := socket)]));
  }

  lemma DropRoomsKeeps(env: Env, s: State, s': State, r: ReplicaId, rep': Replica)
    requires Inv(env, s) && OnlyReplica(s, s', r, rep')
    requires forall room :: Knows(rep', room) ==> Knows(Rep(s, r), room)
    ensures Inv(env, s') && Extends(s, s')
  {
    hide GamesOk, LineageOk, VotesOk, LedgerOk, ScoresOk, BadgesOk, RatingsOk, RoomOk;
    forall q, room | q in s'.replicas && Knows(s'.replicas[q], room)
      ensures RoomOk(env, s'.db, s'.hist, room)
    {
      assert q in s.replicas && Knows(s.replicas[q], room);
    }
  }

  // ---- transactions on a row that is still in progress ----

  /** `db'` differs from `db` in one in-progress row: a black seat taken or moves appended. */
  ghost predicate RowChanged(db: Tables, db': Tables, g: GameId) {
    && g in db.games && g in db.moves && g in db'.games && g in db'.moves
    && db' == db.(games := db.games[g := db'.games[g]], moves := db.moves[g := db'.moves[g]])
    && db.games[g].status == InProgress && db'.games[g].status == InProgress
    && db'.games[g].room == db.games[g].room && RowExtends(db.games[g], db'.games[g])
    && db.moves[g] <= db'.moves[g]
  }

  lemma RowChangedGames(rules: Rules, db: Tables, db': Tables, g: GameId)
    requires RowChanged(db, db', g) && GamesOk(rules, db) && GameOk(rules, db'.games[g], db'.moves[g])
    ensures GamesOk(rules, db') && DbExtends(db, db')
  {
    hide GameOk, DbExtends;
    RowChangedExtends(db, db', g);
  }

  lemma RowChangedExtends(db: Tables, db': Tables, g: GameId)
    requires RowChanged(db, db', g)
    ensures DbExtends(db, db')
  {
  }

  lemma RowChangedLineage(db: Tables, db': Tables, h: History, g: GameId)
    requires RowChanged(db, db', g) && LineageOk(db, h)
    ensures LineageOk(db', h)
  {
    hide LineOk;
    forall id <- h.lineage ensures LineOk(db', h, id, h.lineage[id]) {
      RowChangedLine(db, db', h, g, id, h.lineage[id]);
    }
  }

  lemma RowChangedLine(db: Tables, db': Tables, h: History, g: GameId, id: RoomId, line: seq<GameId>)
    requires RowChanged(db, db', g) && LineOk(db, h, id, line)
    ensures LineOk(db', h, id, line)
  {
    forall i | 0 <= i < |line| - 1 ensures Succeeds(db', h, line[i], line[i + 1]) {
      assert Succeeds(db, h, line[i], line[i + 1]);
    }
  }

  lemma RowChangedRecords(curve: Elo.Curve, db: Tables, db': Tables, h: History, g: GameId,
                          votes: map<(StoreId, GameId), set<UserId>>, quorum: set<GameId>)
    requires RowChanged(db, db', g) && VotesOk(db, h, votes, quorum) && LedgerOk(curve, db, h.ledger) && ScoresOk(db)
    ensures VotesOk(db', h, votes, quorum) && LedgerOk(curve, db', h.ledger) && ScoresOk(db')
  {
    hide LedgerOk, ScoresOk;
    RowChangedLedger(curve, db, db', h.ledger, g);
    RowChangedScores(db, db', g);
  }

  lemma RowChangedScores(db: Tables, db': Tables, g: GameId)
    requires RowChanged(db, db', g) && ScoresOk(db)
    ensures ScoresOk(db')
  {
  }

  lemma RowChangedLedger(curve: Elo.Curve, db: Tables, db': Tables, ledger: seq<Entry>, g: GameId)
    requires RowChanged(db, db', g) && LedgerOk(curve, db, ledger)
    ensures LedgerOk(curve, db', ledger)
  {
    hide Posted;
    forall i | 0 <= i < |ledger| ensures EntryOk(curve, db', ledger[i]) {
      assert EntryOk(curve, db, ledger[i]);
    }
  }

  lemma JoinKeeps(env: Env, s: State, s': State, r: ReplicaId, room: Room, socket: SocketId)
    requires Inv(env, s) && JoinStep(env, s, s', r, room, socket)
    ensures Inv(env, s') && Extends(s, s')
  {
    hide GamesOk, RoomsOk, LineageOk, VotesOk, LedgerOk, ScoresOk, BadgesOk, RatingsOk, RoomOk;
    RoomKnown(env, s, r, room);
    var tx := ClaimBlack(s.db, room.gameId, env.owner(socket));
    if tx.Commit? && tx.value.Some? {
      var room' := room.(players := room.players + [Player(Some(socket), Black, env.owner(socket))], status := Playing);
      SeatTaken(env, s.db, s.hist, room, socket);
      RowChangedGames(env.rules, s.db, s'.db, room.gameId);
      RowChangedLineage(s.db, s'.db, s.hist, room.gameId);
      RowChangedRecords(env.curve, s.db, s'.db, s.hist, room.gameId, s.votes, s.quorum);
      BadgesKept(s.db, s'.db);
      RatingsKept(s.db, s'.db, s.hist);
      RoomsRewritten(env, s, s', r, room');
    } else {
      ExtendsSelf(s);
    }
  }

  lemma BadgesKept(db: Tables, db': Tables)
    requires BadgesOk(db) && db'.badges == db.badges && db'.scores == db.scores
    ensures BadgesOk(db')
  {
  }

  lemma RatingsKept(db: Tables, db': Tables, h: History)
    requires RatingsOk(db, h) && db'.ratings == db.ratings
    ensures RatingsOk(db', h)
  {
  }

  lemma SeatTaken(env: Env, db: Tables, h: History, room: Room, socket: SocketId)
    requires GamesOk(env.rules, db) && RoomOk(env, db, h, room)
    requires |room.players| < 2 && forall p <- room.players :: p.user != env.owner(socket)
    requires var tx := ClaimBlack(db, room.gameId, env.owner(socket)); tx.Commit? && tx.value.Some?
    ensures var db' := ClaimBlack(db, room.gameId, env.owner(socket)).db;
            && RowChanged(db, db', room.gameId)
            && GameOk(env.rules, db'.games[room.gameId], db'.moves[room.gameId])
            && RoomOk(env, db', h, room.(players := room.players + [Player(Some(socket), Black, env.owner(socket))],
                                         status := Playing))
  {
    var g, user := room.gameId, env.owner(socket);
    var db' := ClaimBlack(db, g, user).db;
    assert GameOk(env.rules, db.games[g], db.moves[g]) && db.moves[g] == [];
    assert room.players[0] in room.players && room.players[0].user == db.games[g].white;
    SeatedRow(env.rules, db.games[g], user);
    BlackAdded(env, db.games[g], room.players, socket);
    hide GamesOk, Occurred, GameOk, PlayersOk;
    assert db'.moves == db.moves[g := db'.moves[g]];
  }

  lemma SeatedRow(rules: Rules, row: GameRow, user: UserId)
    requires row.status == InProgress && row.black.None? && row.white != user && GameOk(rules, row, [])
    ensures GameOk(rules, row.(black := Some(user)), [])
  {
    hide PositionOk;
  }

  lemma BlackAdded(env: Env, row: GameRow, players: seq<Player>, socket: SocketId)
    requires PlayersOk(env, row, players) && |players| == 1
    ensures var user := env.owner(socket);
            PlayersOk(env, row.(black := Some(user)), players + [Player(Some(socket), Black, user)])
  {
    assert players[0] in players;
  }

  lemma MoveKeeps(env: Env, s: State, s': State, r: ReplicaId, room: Room, socket: SocketId, i: nat, request: MoveText)
    requires env.Valid() && Inv(env, s) && MoveStep(env, s, s', r, room, socket, i, request)
    ensures Inv(env, s') && Extends(s, s')
  {
    hide GamesOk, RoomsOk, LineageOk, VotesOk, LedgerOk, ScoresOk, BadgesOk, RatingsOk, RoomOk, PersistMove, Rules.Valid;
    RoomKnown(env, s, r, room);
    var tx := PersistMove(env.rules, s.db, room.gameId, room.players[i].color, env.owner(socket), request);
    if tx.Commit? && tx.value.Some? {
      var row := tx.value.value;
      MoveRecorded(env, s.db, s.hist, room, socket, i, request);
      RowChangedGames(env.rules, s.db, s'.db, room.gameId);
      RowChangedLineage(s.db, s'.db, s.hist, room.gameId);
      RowChangedRecords(env.curve, s.db, s'.db, s.hist, room.gameId, s.votes, s.quorum);
      BadgesKept(s.db, s'.db);
      RatingsKept(s.db, s'.db, s.hist);
      RoomsRewritten(env, s, s', r, room.(fen := row.fenAfter, moves := room.moves + [row]));
    } else {
      ExtendsSelf(s);
    }
  }

  lemma MoveRecorded(env: Env, db: Tables, h: History, room: Room, socket: SocketId, i: nat, request: MoveText)
    requires env.rules.Valid() && GamesOk(env.rules, db) && RoomOk(env, db, h, room)
    requires room.status == Playing && Attached(room, i, socket)
    requires var tx := PersistMove(env.rules, db, room.gameId, room.players[i].color, env.owner(socket), request);
             tx.Commit? && tx.value.Some?
    ensures var tx := PersistMove(env.rules, db, room.gameId, room.players[i].color, env.owner(socket), request);
            && RowChanged(db, tx.db, room.gameId)
            && GameOk(env.rules, tx.db.games[room.gameId], tx.db.moves[room.gameId])
            && RoomOk(env, tx.db, h, room.(fen := tx.value.value.fenAfter, moves := room.moves + [tx.value.value]))
  {
    hide Rules.Valid, MovesOk, ResultOk;
    var g, player := room.gameId, room.players[i];
    assert player in room.players;
    assert room.players[0] in room.players && room.players[1] in room.players;
    MoveAppended(env.rules, db, g, player.color, player.user, request);
    var tx := PersistMove(env.rules, db, g, player.color, player.user, request);
    var ms' := tx.db.moves[g];
    assert tx.value.value.fenAfter == Pos(env.rules, ms', |ms'|);
  }

  /** A committed move extends the game by one well formed row. */
  lemma MoveAppended(rules: Rules, db: Tables, g: GameId, color: Color, author: UserId, request: MoveText)
    requires rules.Valid() && g in db.games && g in db.moves && GameOk(rules, db.games[g], db.moves[g])
    requires db.games[g].black.Some? && Seat(db.games[g], color) == Some(author)
    requires var tx := PersistMove(rules, db, g, color, author, request); tx.Commit? && tx.value.Some?
    ensures var tx := PersistMove(rules, db, g, color, author, request);
            && tx.db == db.(games := db.games[g := tx.db.games[g]], moves := db.moves[g := tx.db.moves[g]])
            && tx.db.moves[g] == db.moves[g] + [tx.value.value]
            && db.games[g].status == InProgress
            && tx.db.games[g] == db.games[g].(fen := tx.value.value.fenAfter)
            && GameOk(rules, tx.db.games[g], tx.db.moves[g])
  {
    var tx := PersistMove(rules, db, g, color, author, request);
    var row, ms, last := db.games[g], db.moves[g], tx.value.value;
    assert PositionOk(rules, Pos(rules, ms, |ms|), |ms|);
    MaxIsLength(rules, row, ms, |ms|);
    assert ms[..|ms|] == ms;
    MovesExtended(rules, row, ms, row.(fen := last.fenAfter), last);
  }

  lemma MovesExtended(rules: Rules, row: GameRow, ms: seq<MoveRow>, row': GameRow, last: MoveRow)
    requires MovesOk(rules, row, ms) && RowExtends(row, row')
    requires last.number == |ms| + 1 && last.color == ColorAt(|ms|) && Seat(row', last.color) == Some(last.author)
    requires rules.play(Pos(rules, ms, |ms|), last.move) == Some(Played(last.move, last.fenAfter))
    requires PositionOk(rules, last.fenAfter, |ms| + 1)
    ensures MovesOk(rules, row', ms + [last])
  {
    var n, ms' := |ms|, ms + [last];
    PosPrefix(rules, ms, ms');
    forall j | 0 <= j < |ms'| ensures MoveOk(rules, row', ms', j) {
      if j < n {
        assert MoveOk(rules, row, ms, j);
      }
    }
    forall j | 0 <= j <= |ms'| ensures PositionOk(rules, Pos(rules, ms', j), j) {
      if j <= n {
        assert PositionOk(rules, Pos(rules, ms, j), j);
      }
    }
  }
}

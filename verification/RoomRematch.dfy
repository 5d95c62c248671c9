/** New games: creating a room and starting a rematch keep the invariant. */
module RoomRematch {
  import opened Basics
  import opened GameTables
  import opened RoomProtocol
  import opened RoomInvariant
  import opened RoomSteps
  import Elo

  /** `db'` has one more game, just created, and rows may have given up their room. */
  ghost predicate GameAdded(rules: Rules, db: Tables, db': Tables, g: GameId) {
    && g !in db.games && g == db.nextGame && db'.nextGame == g + 1
    && db'.games.Keys == db.games.Keys + {g}
    && db'.moves == db.moves[g := []]
    && (forall q <- db.games :: db'.games[q] == db.games[q].(room := db'.games[q].room))
    && var row := db'.games[g];
    && row.status == InProgress && row.fen == rules.start && row.result == None && row.winner == None
    && row.black != Some(row.white)
    && db'.scores == db.scores && db'.ratings == db.ratings && db'.badges == db.badges
  }

  lemma AddedGames(rules: Rules, db: Tables, db': Tables, g: GameId)
    requires rules.Valid() && GamesOk(rules, db) && GameAdded(rules, db, db', g)
    ensures GamesOk(rules, db') && DbExtends(db, db')
  {
    hide GameOk, Rules.Valid;
    forall q <- db'.games ensures GameOk(rules, db'.games[q], db'.moves[q]) {
      if q != g {
        RoomIrrelevant(rules, db.games[q], db'.games[q], db.moves[q]);
      } else {
        OpeningOk(rules, db'.games[g]);
      }
    }
  }

  lemma OpeningOk(rules: Rules, row: GameRow)
    requires rules.Valid() && row.status == InProgress && row.fen == rules.start && row.result == None
    requires row.winner == None && row.black != Some(row.white)
    ensures GameOk(rules, row, [])
  {
    assert Pos(rules, [], 0) == rules.start;
  }

  lemma RoomIrrelevant(rules: Rules, row: GameRow, row': GameRow, ms: seq<MoveRow>)
    requires GameOk(rules, row, ms) && row' == row.(room := row'.room)
    ensures GameOk(rules, row', ms)
  {
    hide PositionOk;
    forall i | 0 <= i < |ms| ensures MoveOk(rules, row', ms, i) {
      assert MoveOk(rules, row, ms, i);
    }
  }

  lemma AddedRecords(rules: Rules, curve: Elo.Curve, db: Tables, db': Tables, h: History, h': History, g: GameId,
                     votes: map<(StoreId, GameId), set<UserId>>, quorum: set<GameId>)
    requires GameAdded(rules, db, db', g) && h'.voted == h.voted && h'.ledger == h.ledger
    requires VotesOk(db, h, votes, quorum) && LedgerOk(curve, db, h.ledger)
    ensures VotesOk(db', h', votes, quorum) && LedgerOk(curve, db', h'.ledger)
  {
    hide Posted;
    forall i | 0 <= i < |h.ledger| ensures EntryOk(curve, db', h.ledger[i]) {
      assert EntryOk(curve, db, h.ledger[i]);
    }
  }

  lemma AddedScores(rules: Rules, db: Tables, db': Tables, h: History, h': History, g: GameId)
    requires GameAdded(rules, db, db', g) && h'.ledger == h.ledger && h'.base == h.base
    requires ScoresOk(db) && BadgesOk(db) && RatingsOk(db, h)
    ensures ScoresOk(db') && BadgesOk(db') && RatingsOk(db', h')
  {
    hide Deserves, Delta, Total, Sum, ScoresOk;
    ScoresStay(rules, db, db', g);
  }

  lemma ScoresStay(rules: Rules, db: Tables, db': Tables, g: GameId)
    requires GameAdded(rules, db, db', g) && ScoresOk(db)
    ensures ScoresOk(db')
  {
    forall q <- db.games
      ensures Seats(db'.games[q]) == Seats(db.games[q]) && db'.games[q].status == db.games[q].status
      ensures forall u :: Won(db'.games[q], u) == Won(db.games[q], u)
    {
      assert db'.games[q] == db.games[q].(room := db'.games[q].room);
    }
    hide Seats, Won;
  }

  /** Adding a new game at the end of one room's line. */
  lemma LineageGrows(db: Tables, h: History, db': Tables, h': History, id: RoomId, g: GameId)
    requires LineageOk(db, h) && g !in db.games
    requires var line := if id in h.lineage then h.lineage[id] else [];
             && h' == h.(lineage := h.lineage[id := line + [g]], home := h.home[g := (id, |line|)])
             && db'.games.Keys == db.games.Keys + {g} && db'.games[g].room == Some(id)
             && (forall q <- db.games :: db'.games[q] == if q in line then db.games[q].(room := None) else db.games[q])
             && (line != [] ==> Succeeds(db', h', line[|line| - 1], g))
    ensures LineageOk(db', h') && HistExtends(h, h')
  {
    hide LineOk, Succeeds;
    LinesGrow(db, h, db', h', id, g);
    HomesGrow(db, h, h', id, g);
  }

  lemma HomesGrow(db: Tables, h: History, h': History, id: RoomId, g: GameId)
    requires LineageOk(db, h) && g !in db.games
    requires var line := if id in h.lineage then h.lineage[id] else [];
             h' == h.(lineage := h.lineage[id := line + [g]], home := h.home[g := (id, |line|)])
    ensures HistExtends(h, h')
    ensures forall q <- h'.home ::
              && h'.home[q].0 in h'.lineage && h'.home[q].1 < |h'.lineage[h'.home[q].0]|
              && h'.lineage[h'.home[q].0][h'.home[q].1] == q
  {
    hide LineOk;
    var line := if id in h.lineage then h.lineage[id] else [];
    forall q <- h'.home
      ensures h'.home[q].0 in h'.lineage && h'.home[q].1 < |h'.lineage[h'.home[q].0]|
      ensures h'.lineage[h'.home[q].0][h'.home[q].1] == q
    {
      if q != g {
        assert h'.home[q] == h.home[q];
      }
    }
  }

  lemma LinesGrow(db: Tables, h: History, db': Tables, h': History, id: RoomId, g: GameId)
    requires LineageOk(db, h) && g !in db.games
    requires var line := if id in h.lineage then h.lineage[id] else [];
             && h' == h.(lineage := h.lineage[id := line + [g]], home := h.home[g := (id, |line|)])
             && db'.games.Keys == db.games.Keys + {g} && db'.games[g].room == Some(id)
             && (forall q <- db.games :: db'.games[q] == if q in line then db.games[q].(room := None) else db.games[q])
             && (line != [] ==> Succeeds(db', h', line[|line| - 1], g))
    ensures forall other <- h'.lineage :: LineOk(db', h', other, h'.lineage[other])
  {
    hide LineOk, Succeeds;
    if id in h.lineage {
      LineGames(db, h, id);
    }
    LineExtended(db, h, db', h', id, g);
    hide LineageOk;
    forall other <- h'.lineage ensures LineOk(db', h', other, h'.lineage[other]) {
      if other != id {
        LineUntouched(db, h, db', h', id, other);
      }
    }
  }

  lemma LineGames(db: Tables, h: History, id: RoomId)
    requires LineageOk(db, h) && id in h.lineage
    ensures forall q <- h.lineage[id] :: q in db.games
  {
    assert LineOk(db, h, id, h.lineage[id]);
  }

  lemma LineUntouched(db: Tables, h: History, db': Tables, h': History, id: RoomId, other: RoomId)
    requires LineageOk(db, h) && other in h.lineage && other != id
    requires h'.voted == h.voted && forall q <- h.home :: q in h'.home && h'.home[q] == h.home[q]
    requires var line := if id in h.lineage then h.lineage[id] else [];
             forall q <- db.games :: q in db'.games && (q !in line ==> db'.games[q] == db.games[q])
    ensures LineOk(db', h', other, h.lineage[other])
  {
    var line := if id in h.lineage then h.lineage[id] else [];
    var rest := h.lineage[other];
    assert LineOk(db, h, other, rest);
    assert id in h.lineage ==> LineOk(db, h, id, line);
    assert forall i :: 0 <= i < |rest| ==> rest[i] !in line;
    forall i | 0 <= i < |rest| - 1 ensures Succeeds(db', h', rest[i], rest[i + 1]) {
      assert Succeeds(db, h, rest[i], rest[i + 1]);
    }
  }

  lemma LineExtended(db: Tables, h: History, db': Tables, h': History, id: RoomId, g: GameId)
    requires LineageOk(db, h) && g !in db.games && h'.voted == h.voted
    requires var line := if id in h.lineage then h.lineage[id] else [];
             && h'.home == h.home[g := (id, |line|)]
             && db'.games.Keys == db.games.Keys + {g} && db'.games[g].room == Some(id)
             && (forall q <- line :: q in db.games && db'.games[q] == db.games[q].(room := None))
             && (line != [] ==> Succeeds(db', h', line[|line| - 1], g))
    ensures LineOk(db', h', id, (if id in h.lineage then h.lineage[id] else []) + [g])
  {
    if id in h.lineage {
      assert LineOk(db, h, id, h.lineage[id]);
      LineAppended(db, h, db', h', id, h.lineage[id], g);
    }
  }

  lemma LineAppended(db: Tables, h: History, db': Tables, h': History, id: RoomId, line: seq<GameId>, g: GameId)
    requires LineOk(db, h, id, line) && g !in db.games && h'.voted == h.voted
    requires h'.home == h.home[g := (id, |line|)] && g in db'.games && db'.games[g].room == Some(id)
    requires forall q <- line :: q in db.games && q in db'.games && db'.games[q] == db.games[q].(room := None)
    requires Succeeds(db', h', line[|line| - 1], g)
    ensures LineOk(db', h', id, line + [g])
  {
    hide Succeeds;
    var line' := line + [g];
    forall i | 0 <= i < |line'|
      ensures line'[i] in db'.games && line'[i] in h'.home && h'.home[line'[i]] == (id, i)
      ensures db'.games[line'[i]].room == if i == |line'| - 1 then Some(id) else None
    {
      if i < |line| {
        assert line[i] in line;
      }
    }
    forall i | 0 <= i < |line'| - 1 ensures Succeeds(db', h', line'[i], line'[i + 1]) {
      if i < |line| - 1 {
        assert line[i] in line && line[i + 1] in line;
        StillSucceeds(db, h, db', h', line[i], line[i + 1]);
      }
    }
  }

  lemma StillSucceeds(db: Tables, h: History, db': Tables, h': History, a: GameId, b: GameId)
    requires a in db.games && b in db.games && Succeeds(db, h, a, b) && h'.voted == h.voted
    requires forall q <- [a, b] :: q in db'.games && db'.games[q] == db.games[q].(room := db'.games[q].room)
    ensures Succeeds(db', h', a, b)
  {
    assert a in [a, b] && b in [a, b];
  }

  // ---- create_room ----

  lemma CreatedGame(rules: Rules, db: Tables, h: History, id: RoomId, white: UserId)
    requires rules.Valid() && GamesOk(rules, db) && LineageOk(db, h) && Create(rules, db, id, white).Commit?
    ensures var tx := Create(rules, db, id, white);
            && GameAdded(rules, db, tx.db, tx.value)
            && id !in h.lineage
            && (forall q <- db.games :: tx.db.games[q] == db.games[q])
            && tx.db.games[tx.value] == GameRow(Some(id), white, None, InProgress, rules.start, None, None)
  {
    hide GameOk, Rules.Valid, LineageOk, GameAdded, GamesOk;
    UnheldRoomIsNew(rules, db, h, id, white);
    NextIsNew(rules, db);
    CreatedRow(rules, db, id, white);
  }

  lemma UnheldRoomIsNew(rules: Rules, db: Tables, h: History, id: RoomId, white: UserId)
    requires LineageOk(db, h) && Create(rules, db, id, white).Commit?
    ensures id !in h.lineage
  {
    hide LineageOk;
    if id in h.lineage {
      HolderExists(db, h, id);
      assert false;
    }
  }

  lemma NextIsNew(rules: Rules, db: Tables)
    requires GamesOk(rules, db)
    ensures db.nextGame !in db.games
  {
    hide GameOk;
  }

  lemma CreatedRow(rules: Rules, db: Tables, id: RoomId, white: UserId)
    requires db.nextGame !in db.games && Create(rules, db, id, white).Commit?
    ensures var tx := Create(rules, db, id, white);
            && GameAdded(rules, db, tx.db, tx.value)
            && (forall q <- db.games :: tx.db.games[q] == db.games[q])
            && tx.db.games[tx.value] == GameRow(Some(id), white, None, InProgress, rules.start, None, None)
  {
  }

  lemma HolderExists(db: Tables, h: History, id: RoomId)
    requires LineageOk(db, h) && id in h.lineage
    ensures |h.lineage[id]| > 0 && Holds(db, h.lineage[id][|h.lineage[id]| - 1], id)
  {
    assert LineOk(db, h, id, h.lineage[id]);
  }

  lemma NewRoomOk(env: Env, db: Tables, h: History, room: Room)
    requires room.gameId in db.games && room.gameId in db.moves && db.moves[room.gameId] == []
    requires room.gameId in h.home && h.home[room.gameId].0 == room.id
    requires room.fen == env.rules.start && room.moves == [] && room.status != Ended
    requires room.status == Waiting <==> |room.players| == 1
    requires PlayersOk(env, db.games[room.gameId], room.players)
    ensures RoomOk(env, db, h, room)
  {
    assert room.fen == Pos(env.rules, db.moves[room.gameId], 0);
  }

  lemma CreateRoomKeeps(env: Env, s: State, s': State, r: ReplicaId, socket: SocketId, id: RoomId)
    requires env.Valid() && Inv(env, s) && CreateRoomStep(env, s, s', r, socket, id)
    ensures Inv(env, s') && Extends(s, s')
  {
    hide GamesOk, RoomsOk, LineageOk, VotesOk, LedgerOk, ScoresOk, BadgesOk, RatingsOk, RoomOk, Rules.Valid, Create;
    var white := env.owner(socket);
    var tx := Create(env.rules, s.db, id, white);
    if tx.Commit? {
      var g, db', h' := tx.value, tx.db, s'.hist;
      CreatedGame(env.rules, s.db, s.hist, id, white);
      AddedGames(env.rules, s.db, db', g);
      AddedRecords(env.rules, env.curve, s.db, db', s.hist, h', g, s.votes, s.quorum);
      AddedScores(env.rules, s.db, db', s.hist, h', g);
      assert [] + [g] == [g];
      LineageGrows(s.db, s.hist, db', h', id, g);
      var players := [Player(Some(socket), White, white)];
      var room := Room(id, g, players, env.rules.start, Waiting, [], None, None);
      NewRoomOk(env, db', h', room);
      RoomsRewritten(env, s, s', r, room);
    } else {
      ExtendsSelf(s);
    }
  }

  // ---- accept_rematch ----

  lemma SwappedPlayers(env: Env, row: GameRow, row': GameRow, players: seq<Player>)
    requires PlayersOk(env, row, players) && |players| == 2
    requires row'.black == Some(row.white) && Some(row'.white) == row.black
    ensures PlayersOk(env, row', Swapped(players))
  {
    var switched := Swapped(players);
    forall p <- switched
      ensures Seat(row', p.color) == Some(p.user) && (p.socket.Some? ==> env.owner(p.socket.value) == p.user)
    {
      var i :| 0 <= i < 2 && p == switched[i];
      assert players[i] in players;
    }
  }

  lemma SwappedSeats(env: Env, row: GameRow, room: Room)
    requires PlayersOk(env, row, room.players) && |room.players| == 2
    ensures SeatedUser(room.(players := Swapped(room.players)), White) == row.black
    ensures SeatedUser(room.(players := Swapped(room.players)), Black) == Some(row.white)
  {
    assert room.players[0] in room.players && room.players[1] in room.players;
  }

  /** The release plus UNIQUE(room_id) let exactly the room's current game be succeeded:
      for any earlier game of the line the insert conflicts and everything rolls back. */
  lemma RematchOnlyFromHolder(rules: Rules, db: Tables, h: History, g: GameId, id: RoomId, white: UserId, black: UserId)
    requires GamesOk(rules, db) && LineageOk(db, h) && g in db.games && h.home[g].0 == id
    requires db.games[g].status == Finished
    ensures Rematch(rules, db, g, id, white, black).Commit? <==> h.home[g].1 == |h.lineage[id]| - 1
  {
    hide GameOk;
    var line := h.lineage[id];
    assert LineOk(db, h, id, line);
    var released := db.(games := db.games[g := db.games[g].(room := None)]);
    if g != line[|line| - 1] {
      assert Holds(released, line[|line| - 1], id);
    } else {
      forall q <- released.games ensures !Holds(released, q, id) {
        if Holds(released, q, id) {
          HomeOfHolder(db, h, id, q);
        }
      }
    }
  }

  /** A committed rematch: the old game loses the room, a new one with both seats has it. */
  lemma RematchEffect(rules: Rules, db: Tables, g: GameId, id: RoomId, white: UserId, black: UserId)
    requires Rematch(rules, db, g, id, white, black).Commit? && GamesOk(rules, db)
    ensures var tx := Rematch(rules, db, g, id, white, black);
            var row := GameRow(Some(id), white, Some(black), InProgress, rules.start, None, None);
            && g in db.games && tx.value == db.nextGame && db.nextGame !in db.games
            && tx.db == db.(games := db.games[g := db.games[g].(room := None)][db.nextGame := row],
                            moves := db.moves[db.nextGame := []], nextGame := db.nextGame + 1)
  {
    hide GameOk;
    var released := db.(games := db.games[g := db.games[g].(room := None)]);
    var created := Create(rules, released, id, white);
    assert db.nextGame !in db.games;
    var h := created.value;
    var bare := GameRow(Some(id), white, None, InProgress, rules.start, None, None);
    assert released.games[h := bare][h := bare.(black := Some(black))] == released.games[h := bare.(black := Some(black))];
  }

  lemma LineRooms(db: Tables, h: History, g: GameId, id: RoomId)
    requires LineageOk(db, h) && id in h.lineage
    requires |h.lineage[id]| > 0 && g == h.lineage[id][|h.lineage[id]| - 1]
    ensures forall q <- h.lineage[id] :: q in db.games && (q != g ==> db.games[q].room == None)
  {
    assert LineOk(db, h, id, h.lineage[id]);
  }

  lemma RematchedGame(rules: Rules, db: Tables, h: History, g: GameId, id: RoomId)
    requires GamesOk(rules, db) && LineageOk(db, h) && g in db.games && h.home[g].0 == id
    requires var row := db.games[g];
             && row.status == Finished && row.black.Some? && row.black.value != row.white
             && Rematch(rules, db, g, id, row.black.value, row.white).Commit?
    ensures var row := db.games[g];
            var tx := Rematch(rules, db, g, id, row.black.value, row.white);
            var line := if id in h.lineage then h.lineage[id] else [];
            && GameAdded(rules, db, tx.db, tx.value)
            && tx.db.games[tx.value].room == Some(id)
            && tx.db.games[tx.value].white == row.black.value && tx.db.games[tx.value].black == Some(row.white)
            && line != [] && line[|line| - 1] == g
            && (forall q <- db.games ::
                  tx.db.games[q] == if q in line then db.games[q].(room := None) else db.games[q])
  {
    hide GamesOk, Rematch, LineageOk, GameAdded;
    var row, tx := db.games[g], Rematch(rules, db, g, id, db.games[g].black.value, db.games[g].white);
    HomeIsListed(db, h, g);
    RematchOnlyFromHolder(rules, db, h, g, id, row.black.value, row.white);
    RematchEffect(rules, db, g, id, row.black.value, row.white);
    LineRooms(db, h, g, id);
    RowsAdded(rules, db, tx.db, g, GameRow(Some(id), row.black.value, Some(row.white), InProgress, rules.start, None, None));
  }

  lemma HomeIsListed(db: Tables, h: History, g: GameId)
    requires LineageOk(db, h) && g in db.games
    ensures g in h.home && h.home[g].0 in h.lineage
    ensures h.home[g].1 < |h.lineage[h.home[g].0]| && h.lineage[h.home[g].0][h.home[g].1] == g
  {
  }

  lemma RowsAdded(rules: Rules, db: Tables, db': Tables, g: GameId, row: GameRow)
    requires g in db.games && db.nextGame !in db.games
    requires row.status == InProgress && row.fen == rules.start && row.result == None && row.winner == None
    requires row.black != Some(row.white)
    requires db' == db.(games := db.games[g := db.games[g].(room := None)][db.nextGame := row],
                        moves := db.moves[db.nextGame := []], nextGame := db.nextGame + 1)
    ensures GameAdded(rules, db, db', db.nextGame)
  {
  }

  lemma StartRematchKeeps(env: Env, s: State, s': State, r: ReplicaId, room: Room)
    requires env.Valid() && Inv(env, s) && StartRematchStep(env, s, s', r, room)
    ensures Inv(env, s') && Extends(s, s')
  {
    hide GamesOk, RoomsOk, LineageOk, VotesOk, LedgerOk, ScoresOk, BadgesOk, RatingsOk, RoomOk, Rules.Valid, Rematch,
         SeatedUser, PlayersOk;
    RoomKnown(env, s, r, room);
    EndedRoom(env, s.db, s.hist, room);
    var row, switched := s.db.games[room.gameId], Swapped(room.players);
    SwappedSeats(env, row, room);
    var tx := Rematch(env.rules, s.db, room.gameId, room.id, row.black.value, row.white);
    if tx.Commit? {
      var g, db', h' := tx.value, tx.db, s'.hist;
      RematchedGame(env.rules, s.db, s.hist, room.gameId, room.id);
      QuorumVoted(s.db, s.hist, s.votes, s.quorum, room.gameId);
      AddedGames(env.rules, s.db, db', g);
      AddedRecords(env.rules, env.curve, s.db, db', s.hist, h', g, s.votes, s.quorum);
      AddedScores(env.rules, s.db, db', s.hist, h', g);
      assert Succeeds(db', h', room.gameId, g);
      LineageGrows(s.db, s.hist, db', h', room.id, g);
      var room' := Room(room.id, g, switched, env.rules.start, Playing, [], None, None);
      SwappedPlayers(env, row, db'.games[g], room.players);
      NewRoomOk(env, db', h', room');
      RoomsRewritten(env, s, s', r, room');
    } else {
      ExtendsSelf(s);
    }
  }

  lemma EndedRoom(env: Env, db: Tables, h: History, room: Room)
    requires RoomOk(env, db, h, room) && GamesOk(env.rules, db) && room.status == Ended
    ensures room.gameId in db.games && PlayersOk(env, db.games[room.gameId], room.players) && |room.players| == 2
    ensures db.games[room.gameId].status == Finished && db.games[room.gameId].black.Some?
    ensures db.games[room.gameId].black != Some(db.games[room.gameId].white)
    ensures room.gameId in h.home && h.home[room.gameId].0 == room.id
  {
    hide MovesOk, ResultOk, Occurred;
  }

  lemma QuorumVoted(db: Tables, h: History, votes: map<(StoreId, GameId), set<UserId>>, quorum: set<GameId>, g: GameId)
    requires VotesOk(db, h, votes, quorum) && g in quorum
    ensures g in db.games && Seats(db.games[g]) <= Voted(h, g)
  {
  }

  // ---- votes ----

  lemma AddVoteKeeps(env: Env, s: State, s': State, r: ReplicaId, room: Room, socket: SocketId, i: nat)
    requires Inv(env, s) && AddVoteStep(env, s, s', r, room, socket, i)
    ensures Inv(env, s') && Extends(s, s')
  {
    hide GamesOk, RoomsOk, LineageOk, VotesOk, LedgerOk, ScoresOk, BadgesOk, RatingsOk, RoomOk;
    RoomKnown(env, s, r, room);
    EndedRoom(env, s.db, s.hist, room);
    var user := room.players[i].user;
    assert room.players[i] in room.players;
    assert user in Seats(s.db.games[room.gameId]);
    VoteAdded(s.db, s.hist, s'.hist, s.votes, s.quorum, (env.store(r), room.gameId), user);
    VoteLineage(s.db, s.hist, s'.hist);
    RoomsKept(env, s, s');
    RatingsHist(s.db, s.hist, s'.hist);
  }

  lemma VoteAdded(db: Tables, h: History, h': History, votes: map<(StoreId, GameId), set<UserId>>,
                  quorum: set<GameId>, k: (StoreId, GameId), user: UserId)
    requires VotesOk(db, h, votes, quorum) && k.1 in db.games && db.games[k.1].status == Finished
    requires user in Seats(db.games[k.1])
    requires h' == h.(voted := h.voted[k.1 := Voted(h, k.1) + {user}])
    ensures VotesOk(db, h', votes[k := (if k in votes then votes[k] else {}) + {user}], quorum)
    ensures HistExtends(h, h')
  {
    hide Seats;
    forall g ensures Voted(h', g) == Voted(h, g) + if g == k.1 then {user} else {} {
    }
    assert Voted(h, k.1) <= Seats(db.games[k.1]);
    hide Voted;
  }

  lemma VoteLineage(db: Tables, h: History, h': History)
    requires LineageOk(db, h) && h'.lineage == h.lineage && h'.home == h.home
    requires forall g <- h.voted :: g in h'.voted && h.voted[g] <= h'.voted[g]
    ensures LineageOk(db, h')
  {
    forall id <- h.lineage ensures LineOk(db, h', id, h.lineage[id]) {
      var line := h.lineage[id];
      assert LineOk(db, h, id, line);
      forall i | 0 <= i < |line| - 1 ensures Succeeds(db, h', line[i], line[i + 1]) {
        assert Succeeds(db, h, line[i], line[i + 1]);
      }
    }
  }

  lemma RatingsHist(db: Tables, h: History, h': History)
    requires RatingsOk(db, h) && h'.ledger == h.ledger && h'.base == h.base
    ensures RatingsOk(db, h')
  {
  }

  /** Two counted votes on a two-player game are both players' votes. */
  lemma QuorumIsUnanimous(voters: set<UserId>, seats: set<UserId>)
    requires voters <= seats && |seats| <= 2 && |voters| >= 2
    ensures voters == seats
  {
    if voters != seats {
      var u :| u in seats && u !in voters;
      assert voters <= seats - {u};
      SubsetSize(voters, seats - {u});
    }
  }

  lemma {:induction false} SubsetSize<T>(a: set<T>, b: set<T>)
    requires a <= b
    ensures |a| <= |b|
  {
    if a != {} {
      var x :| x in a;
      SubsetSize(a - {x}, b - {x});
    }
  }

  lemma CountVotesKeeps(env: Env, s: State, s': State, r: ReplicaId, room: Room)
    requires Inv(env, s) && CountVotesStep(env, s, s', r, room)
    ensures Inv(env, s') && Extends(s, s')
  {
    hide GamesOk, RoomsOk, LineageOk, VotesOk, LedgerOk, ScoresOk, BadgesOk, RatingsOk, RoomOk;
    VotesCounted(s.db, s.hist, s.votes, s.quorum, (env.store(r), room.gameId));
    RoomsKept(env, s, s');
    ExtendsSelf(s);
  }

  lemma VotesCounted(db: Tables, h: History, votes: map<(StoreId, GameId), set<UserId>>, quorum: set<GameId>,
                     k: (StoreId, GameId))
    requires VotesOk(db, h, votes, quorum) && k in votes && |votes[k]| >= 2
    ensures VotesOk(db, h, votes, quorum + {k.1})
  {
    QuorumReached(db, h, votes, quorum, k);
    hide Voted, Seats;
  }

  lemma QuorumReached(db: Tables, h: History, votes: map<(StoreId, GameId), set<UserId>>, quorum: set<GameId>,
                      k: (StoreId, GameId))
    requires VotesOk(db, h, votes, quorum) && k in votes && |votes[k]| >= 2
    ensures k.1 in db.games && db.games[k.1].status == Finished && Seats(db.games[k.1]) <= Voted(h, k.1)
  {
    assert votes[k] != {} && votes[k] <= Voted(h, k.1);
    assert k.1 in h.voted && h.voted[k.1] <= Seats(db.games[k.1]);
    hide VotesOk;
    SeatsSize(db.games[k.1]);
    QuorumIsUnanimous(votes[k], Seats(db.games[k.1]));
  }

  lemma SeatsSize(row: GameRow)
    ensures |Seats(row)| <= 2
  {
    assert Seats(row) == if row.black.Some? then {row.white, row.black.value} else {row.white};
  }

  lemma DropVotesKeeps(env: Env, s: State, s': State)
    requires Inv(env, s) && DropVotesStep(s, s')
    ensures Inv(env, s') && Extends(s, s')
  {
    hide GamesOk, RoomsOk, LineageOk, LedgerOk, ScoresOk, BadgesOk, RatingsOk, RoomOk;
    RoomsKept(env, s, s');
    ExtendsSelf(s);
  }
}

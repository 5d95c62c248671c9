/** Two concrete runs: a draw that is not a draw of the final board, and a resignation that
    does not end the game. */
module RoomWitness {
  import opened Basics
  import opened GameTables
  import opened RoomProtocol
  import opened RoomTheorems
  import opened RoomEndings
  import Elo

  // ---- rules in which the first move draws and a second move plays on ----

  const OPENING: Fen := "start"
  const LEVEL: Fen := "level"
  const ALIVE: Fen := "alive"
  const QUIET := MoveText("g1", "f3", None)

  predicate Loads(fen: Fen) { true }
  function Turn(fen: Fen): Color { if fen == LEVEL then Black else White }
  predicate Over(fen: Fen) { fen == LEVEL }
  predicate Mate(fen: Fen) { false }

  function Plays(fen: Fen, m: MoveText): Option<Played> {
    if fen == OPENING then Some(Played(QUIET, LEVEL))
    else if fen == LEVEL then Some(Played(QUIET, ALIVE))
    else None
  }

  function Even(a: int, b: int): real { 0.5 }
  function Owner(socket: SocketId): UserId { socket + 1 }
  function OneStore(r: ReplicaId): StoreId { 0 }

  const RULES := Rules(OPENING, Loads, Turn, Plays, Over, Mate)
  const ENV := Env(RULES, Elo.Curve(Even), Owner, OneStore)

  lemma EnvValid()
    ensures ENV.Valid()
  {
  }

  // ---- the states ----

  const ROOM: RoomId := "ABCDEFG"
  const ROW := GameRow(Some(ROOM), 1, None, InProgress, OPENING, None, None)
  const FIRST := MoveRow(1, White, QUIET, LEVEL, 1)
  const SECOND := MoveRow(2, Black, QUIET, ALIVE, 2)
  const ALONE := Room(ROOM, 1, [Player(Some(0), White, 1)], OPENING, Waiting, [], None, None)
  const SEATED := [Player(Some(0), White, 1), Player(Some(1), Black, 2)]
  const PAIRED := Room(ROOM, 1, SEATED, OPENING, Playing, [], None, None)
  const DRAWN := Room(ROOM, 1, SEATED, LEVEL, Playing, [FIRST], None, None)
  const REBUILT := Room(ROOM, 1, [Player(None, White, 1), Player(None, Black, 2)], LEVEL, Playing, [FIRST], None, None)
  const REJOINED := Room(ROOM, 1, [Player(None, White, 1), Player(Some(1), Black, 2)], LEVEL, Playing, [FIRST], None, None)
  const MOVED := Room(ROOM, 1, [Player(None, White, 1), Player(Some(1), Black, 2)], ALIVE, Playing, [FIRST, SECOND], None, None)

  const BASE: map<UserId, int> := map[1 := 1200, 2 := 1200]
  const LINE := History(map[ROOM := [1]], map[1 := (ROOM, 0)], map[], [], BASE)

  function Empty(ratings: map<UserId, int>): State {
    State(Tables(map[], map[], map[], ratings, {}, 1), map[], map[], {}, History(map[], map[], map[], [], ratings))
  }

  function Stored(row: GameRow, moves: seq<MoveRow>, here: Replica, there: Option<Replica>): State {
    State(Tables(map[1 := row], map[1 := moves], map[], BASE, {}, 2),
          if there.None? then map[0 := here] else map[0 := here, 1 := there.value], map[], {}, LINE)
  }

  function Full(fen: Fen): GameRow { ROW.(black := Some(2), fen := fen) }

  const S0 := Empty(map[])
  const S1 := Empty(map[1 := 1200])
  const S2 := Empty(BASE)
  const S3 := Stored(ROW, [], Replica(map[ROOM := ALONE], {ALONE}), None)
  const S4 := Stored(Full(OPENING), [], Replica(map[ROOM := PAIRED], {ALONE, PAIRED}), None)
  const HERE := Replica(map[ROOM := DRAWN], {ALONE, PAIRED, DRAWN})
  const S5 := Stored(Full(LEVEL), [FIRST], HERE, None)
  const S6 := Stored(Full(LEVEL), [FIRST], HERE, Some(Replica(map[ROOM := REBUILT], {REBUILT})))
  const S7 := Stored(Full(LEVEL), [FIRST], HERE, Some(Replica(map[ROOM := REJOINED], {REBUILT, REJOINED})))
  const S8 := Stored(Full(ALIVE), [FIRST, SECOND], HERE,
                      Some(Replica(map[ROOM := MOVED], {REBUILT, REJOINED, MOVED})))

  lemma Registrations()
    ensures Init(S0) && NextStep(ENV, S0, S1, Register(1)) && NextStep(ENV, S1, S2, Register(2))
  {
  }

  lemma Creation()
    ensures NextStep(ENV, S2, S3, CreateRoom(0, 0, ROOM))
  {
  }

  lemma Joining()
    ensures NextStep(ENV, S3, S4, Join(0, ALONE, 1))
  {
    assert PAIRED == ALONE.(players := ALONE.players + [Player(Some(1), Black, 2)], status := Playing);
  }

  lemma FirstRow()
    ensures PersistMove(RULES, S4.db, 1, White, 1, QUIET) == Commit(S5.db, Some(FIRST))
  {
    assert [] + [FIRST] == [FIRST];
  }

  lemma FirstMove()
    ensures NextStep(ENV, S4, S5, Move(0, PAIRED, 0, 0, QUIET))
  {
    hide PersistMove;
    FirstRow();
    assert DRAWN == PAIRED.(fen := LEVEL, moves := PAIRED.moves + [FIRST]);
    assert HERE.held == {ALONE, PAIRED} + {DRAWN};
  }

  lemma Hydration()
    ensures NextStep(ENV, S5, S6, Hydrate(1, ROOM, 1))
  {
    assert SnapshotPlayers(Full(LEVEL)) == REBUILT.players;
    assert BuildRoom(RULES, ROOM, 1, Full(LEVEL), [FIRST]) == Some(REBUILT);
    assert {REBUILT} == {} + {REBUILT};
  }

  lemma Rejoining()
    ensures NextStep(ENV, S6, S7, Reconnect(1, REBUILT, 1, 1))
  {
    assert REJOINED == REBUILT.(players := REBUILT.players[1 := Player(Some(1), Black, 2)]);
    assert {REBUILT, REJOINED} == {REBUILT} + {REJOINED};
  }

  lemma SecondRow()
    ensures PersistMove(RULES, S7.db, 1, Black, 2, QUIET) == Commit(S8.db, Some(SECOND))
  {
    assert MaxNumber([FIRST]) == 1;
    assert [FIRST] + [SECOND] == [FIRST, SECOND];
  }

  lemma SecondMove()
    ensures NextStep(ENV, S7, S8, Move(1, REJOINED, 1, 1, QUIET))
  {
    hide PersistMove;
    SecondRow();
    assert MOVED == REJOINED.(fen := ALIVE, moves := REJOINED.moves + [SECOND]);
    assert {REBUILT, REJOINED, MOVED} == {REBUILT, REJOINED} + {MOVED};
  }

  /** The handler that made the first move settles the draw it still sees. */
  function Late(): State {
    match Finalize(ENV.curve, S8.db, 1, Some(1), Some(2), 1, Draw, None)
    case Rollback => S8
    case Commit(db, settlement) =>
      var room := DRAWN.(status := Ended, result := Some(Draw), winner := None);
      S8.(db := db, hist := LINE.(ledger := [] + Posting(1, Some(1), Some(2), settlement)),
          replicas := S8.replicas[0 := HERE.(held := HERE.held + {room})])
  }

  lemma DrawCommits()
    ensures var tx := Finalize(ENV.curve, S8.db, 1, Some(1), Some(2), 1, Draw, None);
            && tx.Commit? && tx.value.Settled?
            && 1 in tx.db.games && tx.db.games[1] == Full(ALIVE).(status := Finished, result := Some(Draw))
            && tx.db.moves == S8.db.moves && (1, 1) in tx.db.scores && tx.db.scores[(1, 1)].moves == 1
  {
    FinalizeOutcome(ENV.curve, S8.db, 1, 1, 2, 1, Draw, None);
    FinalizeRows(ENV.curve, S8.db, 1, Some(1), Some(2), 1, Draw, None);
    FinalizeEnds(ENV.curve, S8.db, 1, 1, 2, 1, Draw, None);
    SettledScoreRows(ENV.curve, S8.db, 1, 1, 2, 1, Draw, None);
    hide Finalize;
  }

  lemma FinalizeEnds(curve: Elo.Curve, db: Tables, g: GameId, w: UserId, b: UserId, moves: nat, result: Result,
                     winner: Option<Color>)
    requires var tx := Finalize(curve, db, g, Some(w), Some(b), moves, result, winner); tx.Commit? && tx.value.Settled?
    ensures var tx := Finalize(curve, db, g, Some(w), Some(b), moves, result, winner);
            g in tx.db.games && tx.db.games[g].status == Finished
  {
    hide Elo.NewRatings, Wins, Earns;
  }

  lemma Settling()
    ensures NextStep(ENV, S8, Late(), AutoFinalize(0, DRAWN))
    ensures var games := Late().db.games;
            1 in games && games[1].status == Finished && games[1].result == Some(Draw) && games[1].fen == ALIVE
    ensures var db := Late().db;
            (1, 1) in db.scores && db.scores[(1, 1)].moves == 1 && 1 in db.moves && |db.moves[1]| == 2
  {
    hide Finalize, Posting;
    DrawCommits();
    assert SeatedUser(DRAWN, White) == Some(1) && SeatedUser(DRAWN, Black) == Some(2);
  }

  const UNTIL_SEATED := [S0, S1, S2, S3, S4]

  lemma SeatedRun()
    ensures Run(ENV, UNTIL_SEATED)
  {
    Registrations();
    Creation();
    Joining();
    hide NextStep;
    forall i | 0 <= i < 4 ensures Next(ENV, UNTIL_SEATED[i], UNTIL_SEATED[i + 1]) {
    }
  }

  /** Appending a step to a run. */
  lemma RunOn(env: Env, run: seq<State>, s': State, step: Step)
    requires Run(env, run) && NextStep(env, run[|run| - 1], s', step)
    ensures Run(env, run + [s'])
  {
    hide NextStep, Init;
    var run' := run + [s'];
    forall i | 0 <= i < |run'| - 1 ensures Next(env, run'[i], run'[i + 1]) {
      if i < |run| - 1 {
        assert Next(env, run[i], run[i + 1]);
      }
    }
  }

  /** Two replicas: a move draws the game, another replica plays on, and the first handler
      then settles its stale draw. The recorded draw is not a draw of the final board, and the
      score rows count one of the two moves. */
  lemma DrawOvertaken() returns (run: seq<State>)
    ensures ENV.Valid() && Run(ENV, run)
    ensures var db := run[|run| - 1].db;
            && 1 in db.games && db.games[1].status == Finished && db.games[1].result == Some(Draw)
            && !Drawn(ENV.rules, db.games[1].fen)
            && (1, 1) in db.scores && db.scores[(1, 1)].moves == 1 && 1 in db.moves && |db.moves[1]| == 2
  {
    EnvValid();
    SeatedRun();
    FirstMove();
    Hydration();
    Rejoining();
    SecondMove();
    Settling();
    hide NextStep, Run, Late;
    run := UNTIL_SEATED;
    RunOn(ENV, run, S5, Move(0, PAIRED, 0, 0, QUIET));
    run := run + [S5];
    RunOn(ENV, run, S6, Hydrate(1, ROOM, 1));
    run := run + [S6];
    RunOn(ENV, run, S7, Reconnect(1, REBUILT, 1, 1));
    run := run + [S7];
    RunOn(ENV, run, S8, Move(1, REJOINED, 1, 1, QUIET));
    run := run + [S8];
    RunOn(ENV, run, Late(), AutoFinalize(0, DRAWN));
    run := run + [Late()];
  }

  /** Both players are seated and present and white resigns before the first move: the
      transaction rolls back and the game stays in progress. */
  lemma ResignationWithoutMoves() returns (run: seq<State>)
    ensures ENV.Valid() && Run(ENV, run) && |run| >= 2
    ensures var s, s' := run[|run| - 2], run[|run| - 1];
            && PAIRED in Rep(s, 0).cache.Values && PAIRED.status.Playing? && |PAIRED.players| == 2
            && (forall p <- PAIRED.players :: p.socket.Some?)
            && NextStep(ENV, s, s', ResignOrLeave(0, PAIRED, 0, 0))
            && 1 in s'.db.games && s'.db.games[1].status == InProgress && s'.db.games[1].black == Some(2)
  {
    EnvValid();
    SeatedRun();
    assert SeatedUser(PAIRED, White) == Some(1) && SeatedUser(PAIRED, Black) == Some(2);
    assert NextStep(ENV, S4, S4, ResignOrLeave(0, PAIRED, 0, 0)) by {
      hide Elo.NewRatings;
    }
    assert ROOM in S4.replicas[0].cache;
    hide NextStep, Run;
    RunOn(ENV, UNTIL_SEATED, S4, ResignOrLeave(0, PAIRED, 0, 0));
    run := UNTIL_SEATED + [S4];
  }
}

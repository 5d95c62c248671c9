/** Runs in which a handler settles a game off a room object that misses the last moves, for
    every number of moves seen and made, and the wrong badges that follow. */
module RoomUndercount {
  import opened Basics
  import opened GameTables
  import opened RoomProtocol
  import opened RoomInvariant
  import opened RoomTheorems
  import opened RoomEndings
  import opened RoomWitness
  import Elo

  // ---- rules under which the game goes on for ever ----

  const REPLY: Fen := "reply"

  function TurnOf(fen: Fen): Color { if fen == REPLY then Black else White }
  predicate Never(fen: Fen) { false }

  function PlaysOn(fen: Fen, m: MoveText): Option<Played> {
    Some(Played(QUIET, if fen == REPLY then OPENING else REPLY))
  }

  const ENDLESS := Rules(OPENING, Loads, TurnOf, PlaysOn, Never, Never)
  const WORLD := Env(ENDLESS, Elo.Curve(Even), Owner, OneStore)

  lemma WorldValid()
    ensures WORLD.Valid()
  {
  }

  // ---- the states ----

  function FenAfter(n: nat): Fen { if n % 2 == 0 then OPENING else REPLY }

  function RowAt(n: nat): MoveRow {
    MoveRow(n + 1, ColorAt(n), QUIET, FenAfter(n + 1), n % 2 + 1)
  }

  function Rows(n: nat): (rows: seq<MoveRow>)
    ensures |rows| == n
  {
    if n == 0 then [] else Rows(n - 1) + [RowAt(n - 1)]
  }

  /** The room object that shows the first n moves. */
  function Table(n: nat): Room {
    Room(ROOM, 1, SEATED, FenAfter(n), Playing, Rows(n), None, None)
  }

  function Held(n: nat): set<Room> {
    if n == 0 then {ALONE, Table(0)} else Held(n - 1) + {Table(n)}
  }

  function AfterMoves(n: nat): State {
    Stored(Full(FenAfter(n)), Rows(n), Replica(map[ROOM := Table(n)], Held(n)), None)
  }

  lemma {:induction false} HeldStays(k: nat, n: nat)
    requires k <= n
    ensures Table(k) in Held(n)
  {
    hide Table;
    if k < n {
      HeldStays(k, n - 1);
    }
  }

  lemma {:induction false} LastNumber(n: nat)
    ensures MaxNumber(Rows(n)) == n
  {
    if n > 0 {
      LastNumber(n - 1);
      assert Rows(n)[..n - 1] == Rows(n - 1);
    }
  }

  lemma RowPersisted(n: nat)
    ensures PersistMove(ENDLESS, AfterMoves(n).db, 1, ColorAt(n), n % 2 + 1, QUIET)
         == Commit(AfterMoves(n + 1).db, Some(RowAt(n)))
  {
    hide Rows, Held, MaxNumber, FenAfter, ColorAt, Table;
    LastNumber(n);
    NextRows(n);
    FenStep(n);
    var db := AfterMoves(n).db;
    assert db.games[1] == Full(FenAfter(n)) && db.moves[1] == Rows(n);
    assert map[1 := Full(FenAfter(n + 1))] == db.games[1 := Full(FenAfter(n)).(fen := FenAfter(n + 1))];
  }

  lemma FenStep(n: nat)
    ensures PlaysOn(FenAfter(n), QUIET) == Some(Played(QUIET, FenAfter(n + 1)))
    ensures TurnOf(FenAfter(n)) == ColorAt(n) && FenAfter(n) != ""
  {
  }

  lemma NextRows(n: nat)
    ensures Rows(n + 1) == Rows(n) + [RowAt(n)]
  {
  }

  lemma MovesOn(n: nat)
    ensures NextStep(WORLD, AfterMoves(n), AfterMoves(n + 1), Move(0, Table(n), n % 2, n % 2, QUIET))
  {
    RowPersisted(n);
    TableGrows(n);
    hide PersistMove, Rows, Held, FenAfter, RowAt;
    SeatOf(n);
    assert AfterMoves(n).replicas == map[0 := Replica(map[ROOM := Table(n)], Held(n))];
    assert MoveStep(WORLD, AfterMoves(n), AfterMoves(n + 1), 0, Table(n), n % 2, n % 2, QUIET);
  }

  lemma TableGrows(n: nat)
    ensures Table(n + 1) == Table(n).(fen := RowAt(n).fenAfter, moves := Rows(n) + [RowAt(n)])
    ensures Held(n + 1) == Held(n) + {Table(n + 1)}
    ensures Table(n) in Held(n)
  {
    HeldStays(n, n);
  }

  /** The seat to move, its colour and its user. */
  lemma SeatOf(n: nat)
    ensures SEATED[n % 2] == Player(Some(n % 2), ColorAt(n), n % 2 + 1) && TurnOf(FenAfter(n)) == ColorAt(n)
  {
  }

  lemma RoomOpens()
    ensures NextStep(WORLD, S2, S3, CreateRoom(0, 0, ROOM))
  {
  }

  lemma BlackJoins()
    ensures NextStep(WORLD, S3, S4, Join(0, ALONE, 1))
  {
    assert PAIRED == ALONE.(players := ALONE.players + [Player(Some(1), Black, 2)], status := Playing);
  }

  lemma OpeningRun()
    ensures Run(WORLD, UNTIL_SEATED) && S4 == AfterMoves(0)
  {
    Registrations();
    RoomOpens();
    BlackJoins();
    assert NextStep(WORLD, S0, S1, Register(1)) && NextStep(WORLD, S1, S2, Register(2));
    hide NextStep;
    forall i | 0 <= i < 4 ensures Next(WORLD, UNTIL_SEATED[i], UNTIL_SEATED[i + 1]) {
    }
  }

  lemma {:induction false} LongRun(n: nat) returns (run: seq<State>)
    ensures Run(WORLD, run) && run[|run| - 1] == AfterMoves(n)
  {
    if n == 0 {
      OpeningRun();
      run := UNTIL_SEATED;
    } else {
      var front := LongRun(n - 1);
      MovesOn(n - 1);
      hide NextStep, Run, AfterMoves;
      RunNonempty(WORLD, front);
      RunOn(WORLD, front, AfterMoves(n), Move(0, Table(n - 1), (n - 1) % 2, (n - 1) % 2, QUIET));
      run := front + [AfterMoves(n)];
    }
  }

  lemma RunNonempty(env: Env, run: seq<State>)
    requires Run(env, run)
    ensures |run| > 0
  {
  }

  // ---- a resignation that was decided k moves into a game of n ----

  function Resigned(k: nat, n: nat): State {
    var s := AfterMoves(n);
    match Finalize(WORLD.curve, s.db, 1, Some(1), Some(2), k, Resign, Some(Black))
    case Rollback => s
    case Commit(db, settlement) =>
      var room := Table(k).(status := Ended, result := Some(Resign), winner := Some(Black));
      s.(db := db, hist := LINE.(ledger := [] + Posting(1, Some(1), Some(2), settlement)),
         replicas := s.replicas[0 := s.replicas[0].(held := Held(n) + {room})])
  }

  lemma ResignationCommits(k: nat, n: nat)
    requires k > 0
    ensures var tx := Finalize(WORLD.curve, AfterMoves(n).db, 1, Some(1), Some(2), k, Resign, Some(Black));
            && tx.Commit? && tx.value.Settled? && 1 in tx.db.games && tx.db.games.Keys == {1}
            && tx.db.games[1] == Full(FenAfter(n)).(status := Finished, result := Some(Resign), winner := Some(Black))
            && tx.db.moves == AfterMoves(n).db.moves
            && (1, 2) in tx.db.scores && tx.db.scores[(1, 2)] == ScoreRow(true, k)
  {
    var s := AfterMoves(n);
    hide Rows, Held;
    FinalizeOutcome(WORLD.curve, s.db, 1, 1, 2, k, Resign, Some(Black));
    FinalizeRows(WORLD.curve, s.db, 1, Some(1), Some(2), k, Resign, Some(Black));
    FinalizeEnds(WORLD.curve, s.db, 1, 1, 2, k, Resign, Some(Black));
    SettledScoreRows(WORLD.curve, s.db, 1, 1, 2, k, Resign, Some(Black));
    hide Finalize;
  }

  lemma Resigning(k: nat, n: nat)
    requires 0 < k <= n
    ensures NextStep(WORLD, AfterMoves(n), Resigned(k, n), ResignOrLeave(0, Table(k), 0, 0))
  {
    hide Finalize, Posting, Rows, Held;
    ResignationCommits(k, n);
    HeldStays(k, n);
    assert SeatedUser(Table(k), White) == Some(1) && SeatedUser(Table(k), Black) == Some(2);
  }

  /** White resigns through a handler that saw only the first k of n moves: the game is won in
      n moves and counted as won in k. */
  lemma StaleResignation(k: nat, n: nat) returns (run: seq<State>)
    requires 0 < k <= n
    ensures WORLD.Valid() && Run(WORLD, run)
    ensures var db := run[|run| - 1].db;
            && db.games.Keys == {1} && WonGame(db, 2, 1) && PlayedGame(db, 2, 1)
            && Recorded(db, 2, 1) == k && Actual(db, 1) == n
  {
    WorldValid();
    var front := LongRun(n);
    Resigning(k, n);
    ResignationCommits(k, n);
    hide NextStep, Run, Finalize, Posting;
    RunNonempty(WORLD, front);
    RunOn(WORLD, front, Resigned(k, n), ResignOrLeave(0, Table(k), 0, 0));
    run := front + [Resigned(k, n)];
  }

  lemma OnlyGame(db: Tables, u: UserId)
    requires db.games.Keys == {1}
    ensures forall g :: WonGame(db, u, g) || PlayedGame(db, u, g) ==> g == 1
  {
  }

  /** A quick-win badge for a game won in sixteen moves. */
  lemma QuickWinForLongGame() returns (run: seq<State>)
    ensures WORLD.Valid() && Run(WORLD, run)
    ensures var db := run[|run| - 1].db; (2, QuickWin) in db.badges && !WonQuickly(db, 2)
  {
    hide Run, Inv, Env.Valid, Recorded, Actual, WonGame, PlayedGame;
    run := StaleResignation(15, 16);
    RunNonempty(WORLD, run);
    RunInv(WORLD, run, |run| - 1);
    QuickBadge(WORLD, run[|run| - 1], 2);
    OnlyGame(run[|run| - 1].db, 2);
  }

  /** A game of sixty moves that earned no marathon badge. */
  lemma MarathonMissed() returns (run: seq<State>)
    ensures WORLD.Valid() && Run(WORLD, run)
    ensures var db := run[|run| - 1].db; (2, Marathon) !in db.badges && PlayedLong(db, 2)
  {
    hide Run, Inv, Env.Valid, Recorded, Actual, WonGame, PlayedGame;
    run := StaleResignation(59, 60);
    RunNonempty(WORLD, run);
    RunInv(WORLD, run, |run| - 1);
    MarathonBadge(WORLD, run[|run| - 1], 2);
    OnlyGame(run[|run| - 1].db, 2);
  }
}

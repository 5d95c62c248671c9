/** The transactions as the server runs them: statement by statement on mutable tables,
    with ROLLBACK restoring the state at BEGIN. Each method is proved to do exactly what its
    function in `GameTables` says. */
module GameStore {
  import opened Basics
  import opened GameTables
  import Elo

  /** runInTransaction returns the callback's value after COMMIT, or rethrows after ROLLBACK. */
  datatype Reply<+T> = Returned(value: T) | Threw

  function InProgressOf(games: map<GameId, GameRow>, ids: seq<GameId>): set<GameId> {
    set g | g in games && g in ids && games[g].status == InProgress
  }

  lemma OneMore(games: map<GameId, GameRow>, ids: seq<GameId>, i: nat)
    requires i < |ids| && ids[i] in games && games[ids[i]].status == InProgress && ids[i] !in ids[..i]
    ensures |InProgressOf(games, ids[..i + 1])| == |InProgressOf(games, ids[..i])| + 1
  {
    assert ids[..i + 1] == ids[..i] + [ids[i]];
    assert InProgressOf(games, ids[..i + 1]) == InProgressOf(games, ids[..i]) + {ids[i]};
  }

  lemma NoneMore(games: map<GameId, GameRow>, ids: seq<GameId>, i: nat)
    requires i < |ids| && (ids[i] in games && games[ids[i]].status == InProgress ==> ids[i] in ids[..i])
    ensures InProgressOf(games, ids[..i + 1]) == InProgressOf(games, ids[..i])
  {
    assert ids[..i + 1] == ids[..i] + [ids[i]];
  }

  class Database {
    var games: map<GameId, GameRow>
    var moves: map<GameId, seq<MoveRow>>
    var scores: map<(GameId, UserId), ScoreRow>
    var ratings: map<UserId, int>
    var badges: set<(UserId, Badge)>
    var nextGame: GameId

    function Contents(): Tables
      reads this
    {
      Tables(games, moves, scores, ratings, badges, nextGame)
    }

    constructor (users: map<UserId, int>)
      ensures Contents() == Tables(map[], map[], map[], users, {}, 1)
    {
      games, moves, scores, ratings, badges, nextGame := map[], map[], map[], users, {}, 1;
    }

    method Rollback(begin: Tables)
      modifies this
      ensures Contents() == begin
    {
      games, moves, scores := begin.games, begin.moves, begin.scores;
      ratings, badges, nextGame := begin.ratings, begin.badges, begin.nextGame;
    }

    /** Game.create */
    method CreateGame(rules: Rules, room: RoomId, white: UserId) returns (reply: Reply<GameId>)
      modifies this
      ensures match Create(rules, old(Contents()), room, white)
              case Rollback => reply == Threw && Contents() == old(Contents())
              case Commit(db, g) => reply == Returned(g) && Contents() == db
    {
      if exists g <- games :: games[g].room == Some(room) {
        assert exists g <- games :: Holds(Contents(), g, room);
        return Threw;
      }
      var g := nextGame;
      games := games[g := GameRow(Some(room), white, None, InProgress, rules.start, None, None)];
      moves := moves[g := []];
      nextGame := nextGame + 1;
      reply := Returned(g);
    }

    /** Game.claimBlack: lock, decide, update. */
    method ClaimBlackSeat(g: GameId, user: UserId) returns (reply: Reply<Option<()>>)
      modifies this`games
      ensures match ClaimBlack(old(Contents()), g, user)
              case Rollback => reply == Threw && Contents() == old(Contents())
              case Commit(db, taken) => reply == Returned(taken) && Contents() == db
    {
      if g !in games { return Threw; }
      var locked := games[g];
      if locked.status != InProgress || locked.black.Some? { return Returned(None); }
      games := games[g := locked.(black := Some(user))];
      reply := Returned(Some(()));
    }

    /** Game.abandonMany, one UPDATE over a list of ids. */
    method AbandonMany(ids: seq<GameId>) returns (rowCount: nat)
      modifies this`games
      ensures forall g <- games :: g in old(games) && games[g] ==
                (if g in ids && old(games)[g].status == InProgress
                 then old(games)[g].(status := Abandoned, result := Some(ProcessFailure)) else old(games)[g])
      ensures forall g <- games :: g in ids ==> games[g] == Abandon(old(Contents()), g).games[g]
      ensures games.Keys == old(games).Keys
      ensures rowCount == |InProgressOf(old(games), ids)|
    {
      rowCount := 0;
      for i := 0 to |ids|
        invariant games.Keys == old(games).Keys
        invariant forall g <- games :: games[g] ==
                    (if g in ids[..i] then Abandon(old(Contents()), g).games[g] else old(games)[g])
        invariant rowCount == |InProgressOf(old(games), ids[..i])|
      {
        var g := ids[i];
        assert ids[..i + 1] == ids[..i] + [g];
        if g in games && games[g].status == InProgress {
          OneMore(old(games), ids, i);
          rowCount := rowCount + 1;
          games := games[g := games[g].(status := Abandoned, result := Some(ProcessFailure))];
        } else {
          NoneMore(old(games), ids, i);
        }
      }
      assert ids[..|ids|] == ids;
    }

    /** persistMoveAtomic */
    method PersistMoveAtomic(rules: Rules, g: GameId, color: Color, author: UserId, request: MoveText)
      returns (reply: Reply<Option<MoveRow>>)
      modifies this
      ensures match PersistMove(rules, old(Contents()), g, color, author, request)
              case Rollback => reply == Threw && Contents() == old(Contents())
              case Commit(db, row) => reply == Returned(row) && Contents() == db
    {
      if g !in games || games[g].status != InProgress { return Threw; }
      var board := OrStart(rules, games[g].fen);
      if !rules.loads(board) { return Threw; }
      if rules.turn(board) != color { return Returned(None); }
      var canonical := rules.play(board, request);
      if canonical.None? { return Returned(None); }
      games := games[g := games[g].(fen := canonical.value.fen)];
      var rows := if g in moves then moves[g] else [];
      var number := HighestNumber(rows);
      var row := MoveRow(number + 1, color, canonical.value.move, canonical.value.fen, author);
      moves := moves[g := rows + [row]];
      reply := Returned(Some(row));
    }

    /** One pass of the score loop. */
    method InsertScore(g: GameId, user: UserId, won: bool, count: nat) returns (reply: Reply<()>)
      modifies this`scores, this`badges
      ensures match AddScore(old(Contents()), g, user, won, count)
              case Rollback => reply == Threw && Contents() == old(Contents())
              case Commit(db, _) => reply == Returned(()) && Contents() == db
    {
      if (g, user) in scores || count == 0 { return Threw; }
      scores := scores[(g, user) := ScoreRow(won, count)];
      var wins := |Wins(scores, user)|;
      badges := badges + set badge: Badge | Earns(won, wins, count, badge) :: (user, badge);
      reply := Returned(());
    }

    /** finalizeGameAtomic: close the row, rate both users, then loop over the two players. */
    method FinalizeGameAtomic(curve: Elo.Curve, g: GameId, white: Option<UserId>, black: Option<UserId>, count: nat,
                              result: Result, winner: Option<Color>) returns (reply: Reply<Settlement>)
      modifies this
      ensures match Finalize(curve, old(Contents()), g, white, black, count, result, winner)
              case Rollback => reply == Threw && Contents() == old(Contents())
              case Commit(db, settlement) => reply == Returned(settlement) && Contents() == db
    {
      hide Wins, Earns, Elo.NewRatings;
      var begin := Contents();
      if g !in games || games[g].status != InProgress { return Returned(NotSettled); }
      games := games[g := games[g].(status := Finished, result := Some(result), winner := winner)];
      if white.None? || black.None? { return Returned(SettledUnrated); }
      var players := [(white.value, White), (black.value, Black)];
      if players[0].0 == players[1].0 || players[0].0 !in ratings || players[1].0 !in ratings {
        Rollback(begin);
        return Threw;
      }
      var (w, b) := Elo.NewRatings(curve, ratings[white.value], ratings[black.value], WhiteScore(winner));
      ratings := ratings[white.value := w];
      ratings := ratings[black.value := b];
      ghost var rated := Contents();
      for i := 0 to 2
        invariant i == 0 ==> Contents() == rated
        invariant i == 1 ==> AddScore(rated, g, white.value, winner == Some(White), count) == Commit(Contents(), ())
        invariant i == 2 ==>
          && AddScore(rated, g, white.value, winner == Some(White), count).Commit?
          && AddScore(AddScore(rated, g, white.value, winner == Some(White), count).db, g, black.value,
                      winner == Some(Black), count) == Commit(Contents(), ())
        invariant ratings == rated.ratings
      {
        var scored := InsertScore(g, players[i].0, winner == Some(players[i].1), count);
        if scored == Threw {
          Rollback(begin);
          return Threw;
        }
      }
      reply := Returned(Settled(begin.ratings[white.value], ratings[white.value],
                                begin.ratings[black.value], ratings[black.value]));
    }

    /** The rematch transaction: release, create, seat black. */
    method RematchAtomic(rules: Rules, g: GameId, room: RoomId, white: UserId, black: UserId)
      returns (reply: Reply<GameId>)
      modifies this
      ensures match Rematch(rules, old(Contents()), g, room, white, black)
              case Rollback => reply == Threw && Contents() == old(Contents())
              case Commit(db, h) => reply == Returned(h) && Contents() == db
    {
      var begin := Contents();
      if g !in games || games[g].status != Finished { return Threw; }
      games := games[g := games[g].(room := None)];
      var created := CreateGame(rules, room, white);
      if created == Threw {
        Rollback(begin);
        return Threw;
      }
      var h := created.value;
      // joinBlackById cannot miss: the row was created in this transaction
      assert games[h].status == InProgress && games[h].black.None?;
      games := games[h := games[h].(black := Some(black))];
      reply := Returned(h);
    }
  }

  /** SELECT COALESCE(MAX(move_number), 0) */
  method HighestNumber(rows: seq<MoveRow>) returns (highest: nat)
    ensures highest == MaxNumber(rows)
    ensures forall row <- rows :: row.number <= highest
    ensures highest == 0 || exists row <- rows :: row.number == highest
  {
    highest := 0;
    for i := 0 to |rows|
      invariant highest == MaxNumber(rows[..i])
      invariant forall k :: 0 <= k < i ==> rows[k].number <= highest
      invariant highest == 0 || exists k :: 0 <= k < i && rows[k].number == highest
    {
      assert rows[..i + 1][..i] == rows[..i];
      if rows[i].number > highest {
        highest := rows[i].number;
      }
    }
    assert rows[..|rows|] == rows;
  }
}

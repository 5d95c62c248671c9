/** Settlement: resigning, leaving, game_over and automatic finalization keep the invariant. */
module RoomSettle {
  import opened Basics
  import opened GameTables
  import opened RoomProtocol
  import opened RoomInvariant
  import opened RoomSteps
  import Elo

  /** Everything one rated settlement writes. */
  ghost predicate SettledInto(curve: Elo.Curve, db: Tables, db': Tables, g: GameId, w: UserId, b: UserId, moves: nat,
                              result: Result, winner: Option<Color>)
  {
    && g in db.games && db.games[g].status == InProgress
    && w != b && w in db.ratings && b in db.ratings && moves > 0
    && (g, w) !in db.scores && (g, b) !in db.scores
    && var row := db.games[g].(status := Finished, result := Some(result), winner := winner);
    && var (newW, newB) := Elo.NewRatings(curve, db.ratings[w], db.ratings[b], WhiteScore(winner));
    && db'.games == db.games[g := row] && db'.moves == db.moves && db'.nextGame == db.nextGame
    && db'.ratings == db.ratings[w := newW][b := newB]
    && db'.scores == db.scores[(g, w) := ScoreRow(winner == Some(White), moves)]
                              [(g, b) := ScoreRow(winner == Some(Black), moves)]
  }

  /** The ledger entry of such a settlement. */
  function EntryFor(db: Tables, db': Tables, g: GameId, w: UserId, b: UserId): Entry
    requires w in db.ratings && b in db.ratings && w in db'.ratings && b in db'.ratings
  {
    Entry(g, w, b, db.ratings[w], db.ratings[b], db'.ratings[w] - db.ratings[w], db'.ratings[b] - db.ratings[b])
  }

  lemma FinalizeEffect(curve: Elo.Curve, db: Tables, g: GameId, w: UserId, b: UserId, moves: nat,
                       result: Result, winner: Option<Color>)
    requires BadgesOk(db)
    ensures var tx := Finalize(curve, db, g, Some(w), Some(b), moves, result, winner);
            match tx
            case Rollback => true
            case Commit(db', settlement) =>
              if g !in db.games || db.games[g].status != InProgress then settlement.NotSettled? && db' == db
              else
                && settlement == Settled(db.ratings[w], db'.ratings[w], db.ratings[b], db'.ratings[b])
                && SettledInto(curve, db, db', g, w, b, moves, result, winner)
                && Rated(curve, db.ratings[w], db.ratings[b], db'.ratings[w] - db.ratings[w],
                         db'.ratings[b] - db.ratings[b], winner)
                && BadgesOk(db')
  {
    hide Deserves, Earns, Rated;
    var tx := Finalize(curve, db, g, Some(w), Some(b), moves, result, winner);
    if tx.Commit? && g in db.games && db.games[g].status == InProgress {
      var rated := Rate(curve, CloseGame(db, g, result, winner), w, b, winner);
      BadgesKept(db, rated);
      var half := AddScore(rated, g, w, winner == Some(White), moves);
      ScoreBadges(rated, g, w, winner == Some(White), moves);
      ScoreBadges(half.db, g, b, winner == Some(Black), moves);
      RatedAs(curve, db.ratings[w], db.ratings[b], winner);
    }
  }

  lemma RatedAs(curve: Elo.Curve, a: int, b: int, winner: Option<Color>)
    ensures var (newA, newB) := Elo.NewRatings(curve, a, b, WhiteScore(winner));
            Rated(curve, a, b, newA - a, newB - b, winner)
  {
    hide Elo.NewRatings, Elo.Nearest;
    Elo.NearestGains(curve, a, b, WhiteScore(winner));
  }

  // ---- badges ----

  /** The count taken right after the insert is exactly the number of settled wins. */
  lemma ScoreBadges(db: Tables, g: GameId, user: UserId, won: bool, moves: nat)
    requires BadgesOk(db) && AddScore(db, g, user, won, moves).Commit?
    ensures BadgesOk(AddScore(db, g, user, won, moves).db)
  {
    var db' := AddScore(db, g, user, won, moves).db;
    forall u: UserId, badge: Badge
      ensures (u, badge) in db'.badges <==> Deserves(db'.scores, u, badge)
    {
      WinsAfter(db.scores, g, user, won, moves, u);
      DeservesAfter(db.scores, g, user, won, moves, u, badge);
      assert (u, badge) in db'.badges <==>
        (u, badge) in db.badges || (u == user && Earns(won, |Wins(db'.scores, user)|, moves, badge));
    }
  }

  lemma WinsAfter(scores: map<(GameId, UserId), ScoreRow>, g: GameId, user: UserId, won: bool, moves: nat, u: UserId)
    requires (g, user) !in scores
    ensures |Wins(scores[(g, user) := ScoreRow(won, moves)], u)|
         == |Wins(scores, u)| + if u == user && won then 1 else 0
  {
    var scores' := scores[(g, user) := ScoreRow(won, moves)];
    if u == user && won {
      assert Wins(scores', u) == Wins(scores, u) + {(g, user)};
    } else {
      assert Wins(scores', u) == Wins(scores, u);
    }
  }

  lemma DeservesAfter(scores: map<(GameId, UserId), ScoreRow>, g: GameId, user: UserId, won: bool, moves: nat,
                      u: UserId, badge: Badge)
    requires (g, user) !in scores
    ensures var scores' := scores[(g, user) := ScoreRow(won, moves)];
            Deserves(scores', u, badge) <==>
              || Deserves(scores, u, badge)
              || (u == user && Earns(won, |Wins(scores', user)|, moves, badge))
  {
    hide AnyScore, Wins;
    WinsAfter(scores, g, user, won, moves, u);
    AnyAfter(scores, g, user, ScoreRow(won, moves), u, Completed);
    AnyAfter(scores, g, user, ScoreRow(won, moves), u, QuickWon);
    AnyAfter(scores, g, user, ScoreRow(won, moves), u, Marathoned);
  }

  lemma AnyAfter(scores: map<(GameId, UserId), ScoreRow>, g: GameId, user: UserId, row: ScoreRow, u: UserId,
                 p: ScoreRow -> bool)
    requires (g, user) !in scores
    ensures AnyScore(scores[(g, user) := row], u, p) <==> AnyScore(scores, u, p) || (u == user && p(row))
  {
    var scores' := scores[(g, user) := row];
    assert (g, user) in scores';
    if AnyScore(scores, u, p) {
      var k :| k in scores && k.1 == u && p(scores[k]);
      assert k in scores' && scores'[k] == scores[k];
    }
  }

  // ---- games, lineage and votes ----

  lemma SettledGames(rules: Rules, curve: Elo.Curve, db: Tables, db': Tables, g: GameId, w: UserId, b: UserId, moves: nat,
                     result: Result, winner: Option<Color>)
    requires SettledInto(curve, db, db', g, w, b, moves, result, winner) && GamesOk(rules, db)
    requires db.games[g].black.Some? && db.moves[g] != []
    requires ResultOk(rules, db'.games[g], db.moves[g])
    ensures GamesOk(rules, db') && DbExtends(db, db')
  {
    var row, row', ms := db.games[g], db'.games[g], db.moves[g];
    hide MovesOk, ResultOk, Elo.NewRatings;
    RulingIrrelevant(rules, row, row', ms);
    assert GameOk(rules, row', ms);
    hide GameOk, DbExtends;
    SettledExtends(curve, db, db', g, w, b, moves, result, winner);
  }

  lemma SettledExtends(curve: Elo.Curve, db: Tables, db': Tables, g: GameId, w: UserId, b: UserId, moves: nat,
                       result: Result, winner: Option<Color>)
    requires SettledInto(curve, db, db', g, w, b, moves, result, winner)
    ensures DbExtends(db, db')
  {
    hide Elo.NewRatings;
  }

  lemma RulingIrrelevant(rules: Rules, row: GameRow, row': GameRow, ms: seq<MoveRow>)
    requires MovesOk(rules, row, ms) && row'.white == row.white && row'.black == row.black
    ensures MovesOk(rules, row', ms)
  {
    hide PositionOk;
    forall i | 0 <= i < |ms| ensures MoveOk(rules, row', ms, i) {
      assert MoveOk(rules, row, ms, i);
    }
  }

  lemma SettledLineage(curve: Elo.Curve, db: Tables, db': Tables, h: History, h': History, g: GameId, w: UserId, b: UserId,
                       moves: nat, result: Result, winner: Option<Color>)
    requires SettledInto(curve, db, db', g, w, b, moves, result, winner) && LineageOk(db, h)
    requires h'.lineage == h.lineage && h'.home == h.home && h'.voted == h.voted
    ensures LineageOk(db', h')
  {
    hide Elo.NewRatings, LineOk;
    forall id <- h.lineage ensures LineOk(db', h', id, h.lineage[id]) {
      SettledLine(db, db', h, h', g, id, h.lineage[id]);
    }
  }

  lemma SettledLine(db: Tables, db': Tables, h: History, h': History, g: GameId, id: RoomId, line: seq<GameId>)
    requires LineOk(db, h, id, line) && h'.home == h.home && h'.voted == h.voted
    requires g in db.games && db.games[g].status == InProgress
    requires db'.games.Keys == db.games.Keys && forall q <- db.games :: q != g ==> db'.games[q] == db.games[q]
    requires db'.games[g] == db.games[g].(status := Finished, result := db'.games[g].result, winner := db'.games[g].winner)
    ensures LineOk(db', h', id, line)
  {
    forall i | 0 <= i < |line| - 1 ensures Succeeds(db', h', line[i], line[i + 1]) {
      assert Succeeds(db, h, line[i], line[i + 1]);
    }
  }

  lemma SettledVotes(curve: Elo.Curve, db: Tables, db': Tables, h: History, h': History, g: GameId, w: UserId, b: UserId,
                     moves: nat, result: Result, winner: Option<Color>,
                     votes: map<(StoreId, GameId), set<UserId>>, quorum: set<GameId>)
    requires SettledInto(curve, db, db', g, w, b, moves, result, winner) && h'.voted == h.voted
    requires VotesOk(db, h, votes, quorum)
    ensures VotesOk(db', h', votes, quorum)
  {
    hide Elo.NewRatings;
  }

  // ---- scores, ledger and ratings ----

  lemma SettledScores(curve: Elo.Curve, db: Tables, db': Tables, g: GameId, w: UserId, b: UserId, moves: nat,
                      result: Result, winner: Option<Color>)
    requires SettledInto(curve, db, db', g, w, b, moves, result, winner) && ScoresOk(db)
    requires g in db.moves && moves <= |db.moves[g]| && w == db.games[g].white && Some(b) == db.games[g].black
    ensures ScoresOk(db')
  {
    hide Elo.NewRatings, ScoresOk;
    var row' := db'.games[g];
    assert Won(row', w) == (winner == Some(White)) && Won(row', b) == (winner == Some(Black));
    assert Seats(row') == {w, b};
    ScoresPosted(db, db', g, w, b, moves);
  }

  /** Closing a game and inserting the rows of its two users. */
  lemma ScoresPosted(db: Tables, db': Tables, g: GameId, w: UserId, b: UserId, moves: nat)
    requires ScoresOk(db) && g in db'.games && g in db.moves && 0 < moves <= |db.moves[g]| && db'.moves == db.moves
    requires db'.games == db.games[g := db'.games[g]] && db'.games[g].status == Finished && Seats(db'.games[g]) == {w, b}
    requires g in db.games && db.games[g].status == InProgress
    requires db'.scores == db.scores[(g, w) := ScoreRow(Won(db'.games[g], w), moves)]
                                    [(g, b) := ScoreRow(Won(db'.games[g], b), moves)]
    ensures ScoresOk(db')
  {
    hide Won, Seats;
  }

  lemma SettledEntry(curve: Elo.Curve, db: Tables, db': Tables, g: GameId, w: UserId, b: UserId, moves: nat,
                     result: Result, winner: Option<Color>)
    requires curve.Valid() && SettledInto(curve, db, db', g, w, b, moves, result, winner)
    requires w == db.games[g].white && Some(b) == db.games[g].black
    ensures EntryOk(curve, db', EntryFor(db, db', g, w, b))
  {
    RatedAs(curve, db.ratings[w], db.ratings[b], winner);
    hide Rated;
    Elo.PairTotal(curve, db.ratings[w], db.ratings[b], WhiteScore(winner));
    Elo.OutcomeDirection(curve, db.ratings[w], db.ratings[b]);
  }

  lemma SettledLedger(curve: Elo.Curve, db: Tables, db': Tables, ledger: seq<Entry>, e: Entry, g: GameId, w: UserId,
                      b: UserId, moves: nat, result: Result, winner: Option<Color>)
    requires SettledInto(curve, db, db', g, w, b, moves, result, winner) && LedgerOk(curve, db, ledger)
    requires e.game == g && EntryOk(curve, db', e)
    ensures LedgerOk(curve, db', ledger + [e])
  {
    hide Elo.NewRatings;
    var ledger' := ledger + [e];
    forall i | 0 <= i < |ledger'| ensures EntryOk(curve, db', ledger'[i]) {
      if i < |ledger| {
        assert EntryOk(curve, db, ledger[i]);
      }
    }
    forall i | 0 <= i < |ledger| ensures ledger[i].game != g {
      assert EntryOk(curve, db, ledger[i]);
    }
    forall q <- db'.games | db'.games[q].status == Finished ensures Posted(ledger', q) {
      if q == g {
        assert ledger'[|ledger|].game == g;
      } else {
        var i :| 0 <= i < |ledger| && ledger[i].game == q;
        assert ledger'[i].game == q;
      }
    }
  }

  lemma SettledRatings(curve: Elo.Curve, db: Tables, db': Tables, h: History, g: GameId, w: UserId, b: UserId, moves: nat,
                       result: Result, winner: Option<Color>)
    requires SettledInto(curve, db, db', g, w, b, moves, result, winner) && RatingsOk(db, h)
    ensures RatingsOk(db', h.(ledger := h.ledger + [EntryFor(db, db', g, w, b)]))
  {
    hide Elo.NewRatings, RatingsOk;
    RatingsPosted(db, db', h, EntryFor(db, db', g, w, b));
  }

  lemma LedgerPosted(ledger: seq<Entry>, e: Entry, u: UserId)
    ensures Total(ledger + [e]) == Total(ledger) + e.dWhite + e.dBlack
    ensures Delta(ledger + [e], u)
         == Delta(ledger, u) + (if e.white == u then e.dWhite else 0) + (if e.black == u then e.dBlack else 0)
  {
    assert (ledger + [e])[..|ledger|] == ledger;
  }

  lemma RatingsPosted(db: Tables, db': Tables, h: History, e: Entry)
    requires RatingsOk(db, h) && e.white != e.black && e.white in db.ratings && e.black in db.ratings
    requires e.oldWhite == db.ratings[e.white] && e.oldBlack == db.ratings[e.black]
    requires db'.ratings == db.ratings[e.white := db.ratings[e.white] + e.dWhite][e.black := db.ratings[e.black] + e.dBlack]
    ensures RatingsOk(db', h.(ledger := h.ledger + [e]))
  {
    hide Sum, Delta, Total;
    var newW, newB := db.ratings[e.white] + e.dWhite, db.ratings[e.black] + e.dBlack;
    SumUpdate(db.ratings, e.white, newW);
    SumUpdate(db.ratings[e.white := newW], e.black, newB);
    forall u <- db'.ratings ensures db'.ratings[u] == h.base[u] + Delta(h.ledger + [e], u) {
      LedgerPosted(h.ledger, e, u);
    }
    LedgerPosted(h.ledger, e, e.white);
    forall k | 0 <= k < |h.ledger + [e]| ensures OldsOk(h.base, h.ledger + [e], k) {
      if k < |h.ledger| {
        assert OldsOk(h.base, h.ledger, k) && (h.ledger + [e])[..k] == h.ledger[..k];
      } else {
        assert (h.ledger + [e])[..k] == h.ledger;
      }
    }
  }

  // ---- the steps ----

  lemma SeatedBoth(env: Env, row: GameRow, room: Room)
    requires PlayersOk(env, row, room.players) && |room.players| == 2
    ensures SeatedUser(room, White) == Some(row.white) && row.black.Some? && SeatedUser(room, Black) == row.black
  {
    assert room.players[0] in room.players && room.players[1] in room.players;
  }

  /** A verdict the handler's room object justifies for the game in the database. */
  ghost predicate Justified(env: Env, room: Room, result: Result, winner: Option<Color>) {
    if result == Resign then winner.Some?
    else env.rules.over(room.fen) && result == OverResult(env.rules, room.fen) && winner == OverWinner(env.rules, room.fen)
  }

  /** A verdict read off a stale room still describes the game: mate is always the last
      position, and a draw did occur. */
  lemma VerdictHolds(env: Env, db: Tables, h: History, room: Room, result: Result, winner: Option<Color>)
    requires env.rules.Valid() && RoomOk(env, db, h, room) && GameOk(env.rules, db.games[room.gameId], db.moves[room.gameId])
    requires Justified(env, room, result, winner)
    ensures ResultOk(env.rules, db.games[room.gameId].(status := Finished, result := Some(result), winner := winner),
                     db.moves[room.gameId])
  {
    var rules, ms, row := env.rules, db.moves[room.gameId], db.games[room.gameId];
    if result != Resign {
      var i :| 0 <= i <= |ms| && room.fen == Pos(rules, ms, i);
      if rules.mate(room.fen) {
        assert i < |ms| ==> MoveOk(rules, row, ms, i);
      } else {
        assert DrawnAt(rules, ms, i);
      }
    }
  }

  lemma SettledRoom(env: Env, db: Tables, h: History, room: Room, result: Result, winner: Option<Color>)
    requires RoomOk(env, db, h, room) && |room.players| == 2
    requires db.games[room.gameId].status == Finished
    requires db.games[room.gameId].result == Some(result) && db.games[room.gameId].winner == winner
    ensures RoomOk(env, db, h, room.(status := Ended, result := Some(result), winner := winner))
  {
  }

  lemma RoomFacts(env: Env, db: Tables, h: History, room: Room)
    requires RoomOk(env, db, h, room) && GamesOk(env.rules, db)
    ensures room.gameId in db.games && room.gameId in db.moves && |room.moves| <= |db.moves[room.gameId]|
    ensures GameOk(env.rules, db.games[room.gameId], db.moves[room.gameId])
    ensures PlayersOk(env, db.games[room.gameId], room.players)
    ensures room.status == Waiting <==> |room.players| == 1
    ensures room.status == Waiting ==> room.fen == env.rules.start
  {
    hide GameOk, Occurred;
  }

  lemma SettleKeeps(env: Env, s: State, s': State, r: ReplicaId, room: Room, result: Result, winner: Option<Color>)
    requires env.Valid() && Inv(env, s) && Knows(Rep(s, r), room) && |room.players| == 2
    requires Justified(env, room, result, winner) && Settles(env, s, s', r, room, result, winner)
    ensures Inv(env, s') && Extends(s, s')
  {
    hide GamesOk, RoomsOk, LineageOk, VotesOk, LedgerOk, ScoresOk, BadgesOk, RatingsOk, RoomOk, Rules.Valid,
         Elo.Curve.Valid, Justified, Finalize, PlayersOk, SeatedUser, GameOk, SettledInto, ResultOk;
    RoomKnown(env, s, r, room);
    RoomFacts(env, s.db, s.hist, room);
    var g, row := room.gameId, s.db.games[room.gameId];
    SeatedBoth(env, row, room);
    var w, b, moves := row.white, row.black.value, |room.moves|;
    var tx := Finalize(env.curve, s.db, g, Some(w), Some(b), moves, result, winner);
    FinalizeEffect(env.curve, s.db, g, w, b, moves, result, winner);
    if tx.Commit? && row.status == InProgress {
      SettleParts(env, s, s', r, room, result, winner);
    } else {
      ExtendsSelf(s);
    }
  }

  lemma SettleParts(env: Env, s: State, s': State, r: ReplicaId, room: Room, result: Result, winner: Option<Color>)
    requires env.Valid() && Inv(env, s) && Knows(Rep(s, r), room) && |room.players| == 2
    requires RoomOk(env, s.db, s.hist, room) && Justified(env, room, result, winner)
    requires var g, row := room.gameId, s.db.games[room.gameId];
             && row.black.Some?
             && SettledInto(env.curve, s.db, s'.db, g, row.white, row.black.value, |room.moves|, result, winner)
             && BadgesOk(s'.db)
             && var e := EntryFor(s.db, s'.db, g, row.white, row.black.value);
             && r in s'.replicas
             && Rewrites(Rep(s, r), s'.replicas[r], room.(status := Ended, result := Some(result), winner := winner))
             && s' == s.(db := s'.db, hist := s.hist.(ledger := s.hist.ledger + [e]),
                         replicas := s.replicas[r := s'.replicas[r]])
    ensures Inv(env, s') && Extends(s, s')
  {
    hide GamesOk, RoomsOk, LineageOk, VotesOk, LedgerOk, ScoresOk, BadgesOk, RatingsOk, RoomOk, Rules.Valid,
         Elo.Curve.Valid, Justified, PlayersOk, GameOk, SettledInto, ResultOk, EntryOk, DbExtends;
    RoomFacts(env, s.db, s.hist, room);
    var g, row := room.gameId, s.db.games[room.gameId];
    var w, b, moves := row.white, row.black.value, |room.moves|;
    SettledRow(env.curve, s.db, s'.db, g, w, b, moves, result, winner);
    VerdictHolds(env, s.db, s.hist, room, result, winner);
    SettledGames(env.rules, env.curve, s.db, s'.db, g, w, b, moves, result, winner);
    SettledLineage(env.curve, s.db, s'.db, s.hist, s'.hist, g, w, b, moves, result, winner);
    SettledVotes(env.curve, s.db, s'.db, s.hist, s'.hist, g, w, b, moves, result, winner, s.votes, s.quorum);
    SettledScores(env.curve, s.db, s'.db, g, w, b, moves, result, winner);
    SettledEntry(env.curve, s.db, s'.db, g, w, b, moves, result, winner);
    var e := s'.hist.ledger[|s.hist.ledger|];
    SettledLedger(env.curve, s.db, s'.db, s.hist.ledger, e, g, w, b, moves, result, winner);
    SettledRatings(env.curve, s.db, s'.db, s.hist, g, w, b, moves, result, winner);
    RoomKept(env, s.db, s.hist, s'.db, s'.hist, room);
    SettledRoom(env, s'.db, s'.hist, room, result, winner);
    RoomsRewritten(env, s, s', r, room.(status := Ended, result := Some(result), winner := winner));
  }

  lemma SettledRow(curve: Elo.Curve, db: Tables, db': Tables, g: GameId, w: UserId, b: UserId, moves: nat,
                   result: Result, winner: Option<Color>)
    requires SettledInto(curve, db, db', g, w, b, moves, result, winner)
    ensures g in db'.games && moves > 0 && w in db.ratings && b in db.ratings && w in db'.ratings && b in db'.ratings
    ensures db'.games[g] == db.games[g].(status := Finished, result := Some(result), winner := winner)
  {
    hide Elo.NewRatings;
  }

  lemma OverSettleKeeps(env: Env, s: State, s': State, r: ReplicaId, room: Room)
    requires env.Valid() && Inv(env, s) && AutoFinalizeStep(env, s, s', r, room)
    ensures Inv(env, s') && Extends(s, s')
  {
    hide GamesOk, RoomsOk, LineageOk, VotesOk, LedgerOk, ScoresOk, BadgesOk, RatingsOk, RoomOk, Settles, GameOk;
    RoomKnown(env, s, r, room);
    RoomFacts(env, s.db, s.hist, room);
    SettleKeeps(env, s, s', r, room, OverResult(env.rules, room.fen), OverWinner(env.rules, room.fen));
  }

  lemma ResignKeeps(env: Env, s: State, s': State, r: ReplicaId, room: Room, socket: SocketId, i: nat)
    requires env.Valid() && Inv(env, s) && ResignOrLeaveStep(env, s, s', r, room, socket, i)
    ensures Inv(env, s') && Extends(s, s')
  {
    hide GamesOk, RoomsOk, LineageOk, VotesOk, LedgerOk, ScoresOk, BadgesOk, RatingsOk, RoomOk, Settles, GameOk;
    RoomKnown(env, s, r, room);
    RoomFacts(env, s.db, s.hist, room);
    SeatedBoth(env, s.db.games[room.gameId], room);
    SettleKeeps(env, s, s', r, room, Resign, Some(Flip(room.players[i].color)));
  }
}

/** What holds in every run of the room protocol, whatever the number of replicas and
    however stale their room objects. */
module RoomTheorems {
  import opened Basics
  import opened GameTables
  import opened RoomProtocol
  import opened RoomInvariant
  import opened RoomSteps
  import opened RoomRematch
  import opened RoomSettle
  import Elo

  lemma InvInit(env: Env, s: State)
    requires Init(s)
    ensures Inv(env, s)
  {
    assert Sum(s.db.ratings) == 0 && Sum(s.hist.base) == 0;
    forall u: UserId, b: Badge ensures !Deserves(s.db.scores, u, b) {
      assert Wins(s.db.scores, u) == {};
    }
  }

  /** Every step keeps the invariant and only extends what was recorded. */
  lemma InvStep(env: Env, s: State, s': State, step: Step)
    requires env.Valid() && Inv(env, s) && NextStep(env, s, s', step)
    ensures Inv(env, s') && Extends(s, s')
  {
    hide Inv, Extends, Env.Valid;
    match step
    case Register(user) => RegisterKeeps(env, s, s', user);
    case CreateRoom(r, socket, id) => CreateRoomKeeps(env, s, s', r, socket, id);
    case Hydrate(r, id, g) => HydrateKeeps(env, s, s', r, id, g);
    case Refresh(r, room, g) => RefreshKeeps(env, s, s', r, room, g);
    case Reconnect(r, room, socket, i) => SocketStepKeeps(env, s, s', r, room, i, Some(socket));
    case Join(r, room, socket) => JoinKeeps(env, s, s', r, room, socket);
    case Move(r, room, socket, i, request) => MoveKeeps(env, s, s', r, room, socket, i, request);
    case AutoFinalize(r, room) => OverSettleKeeps(env, s, s', r, room);
    case GameOver(r, room, socket, i) => OverSettleKeeps(env, s, s', r, room);
    case ResignOrLeave(r, room, socket, i) => ResignKeeps(env, s, s', r, room, socket, i);
    case Detach(r, room, i) => SocketStepKeeps(env, s, s', r, room, i, None);
    case AddVote(r, room, socket, i) => AddVoteKeeps(env, s, s', r, room, socket, i);
    case CountVotes(r, room) => CountVotesKeeps(env, s, s', r, room);
    case DropVotes => DropVotesKeeps(env, s, s');
    case StartRematch(r, room) => StartRematchKeeps(env, s, s', r, room);
    case Evict(r, id) => DropRoomsKeeps(env, s, s', r, Rep(s, r).(cache := Rep(s, r).cache - {id}));
    case Crash(r) => DropRoomsKeeps(env, s, s', r, Replica(map[], {}));
  }

  lemma RegisterKeeps(env: Env, s: State, s': State, user: UserId)
    requires Inv(env, s) && RegisterStep(s, s', user)
    ensures Inv(env, s') && Extends(s, s')
  {
    hide GamesOk, RoomsOk, LineageOk, VotesOk, LedgerOk, ScoresOk, BadgesOk, RatingsOk;
    RegisteredRatings(s.db, s.hist, user);
    RegisteredRest(env, s.db, s'.db, s.hist, s'.hist, s.votes, s.quorum);
    RoomsKept(env, s, s');
  }

  lemma RegisteredRest(env: Env, db: Tables, db': Tables, h: History, h': History,
                       votes: map<(StoreId, GameId), set<UserId>>, quorum: set<GameId>)
    requires db' == db.(ratings := db'.ratings) && h' == h.(base := h'.base)
    requires GamesOk(env.rules, db) && LineageOk(db, h) && VotesOk(db, h, votes, quorum)
    requires LedgerOk(env.curve, db, h.ledger) && ScoresOk(db) && BadgesOk(db)
    ensures GamesOk(env.rules, db') && LineageOk(db', h') && VotesOk(db', h', votes, quorum)
    ensures LedgerOk(env.curve, db', h'.ledger) && ScoresOk(db') && BadgesOk(db')
  {
    hide GameOk, Deserves, LineageOk, LedgerOk, ScoresOk;
    RegisteredLineage(db, db', h, h');
    RegisteredLedger(env.curve, db, db', h.ledger);
    RegisteredScores(db, db');
  }

  lemma RegisteredScores(db: Tables, db': Tables)
    requires db' == db.(ratings := db'.ratings) && ScoresOk(db)
    ensures ScoresOk(db')
  {
  }

  lemma RegisteredLedger(curve: Elo.Curve, db: Tables, db': Tables, ledger: seq<Entry>)
    requires db'.games == db.games && LedgerOk(curve, db, ledger)
    ensures LedgerOk(curve, db', ledger)
  {
    hide Posted;
    forall i | 0 <= i < |ledger| ensures EntryOk(curve, db', ledger[i]) {
      assert EntryOk(curve, db, ledger[i]);
    }
  }

  lemma RegisteredLineage(db: Tables, db': Tables, h: History, h': History)
    requires db'.games == db.games && h' == h.(base := h'.base) && LineageOk(db, h)
    ensures LineageOk(db', h')
  {
    forall id <- h.lineage ensures LineOk(db', h', id, h.lineage[id]) {
      var line := h.lineage[id];
      assert LineOk(db, h, id, line);
      forall i | 0 <= i < |line| - 1 ensures Succeeds(db', h', line[i], line[i + 1]) {
        assert Succeeds(db, h, line[i], line[i + 1]);
      }
    }
  }

  lemma {:induction false} RunInv(env: Env, run: seq<State>, i: nat)
    requires env.Valid() && Run(env, run) && i < |run|
    ensures Inv(env, run[i])
  {
    hide Inv, Init, NextStep, Extends, Env.Valid;
    if i == 0 {
      InvInit(env, run[0]);
    } else {
      RunInv(env, run, i - 1);
      assert Next(env, run[i - 1], run[i - 1 + 1]);
      var step :| NextStep(env, run[i - 1], run[i], step);
      InvStep(env, run[i - 1], run[i], step);
    }
  }

  lemma ExtendsTransitive(a: State, b: State, c: State)
    requires Extends(a, b) && Extends(b, c)
    ensures Extends(a, c)
  {
    forall g <- a.hist.voted ensures g in c.hist.voted && a.hist.voted[g] <= c.hist.voted[g] {
    }
  }

  lemma {:induction false} RunExtends(env: Env, run: seq<State>, i: nat, j: nat)
    requires env.Valid() && Run(env, run) && i <= j < |run|
    ensures Extends(run[i], run[j])
    decreases j - i
  {
    hide Inv, Init, NextStep, Extends, Env.Valid;
    if i == j {
      ExtendsSelf(run[i]);
    } else {
      RunExtends(env, run, i, j - 1);
      RunInv(env, run, j - 1);
      assert Next(env, run[j - 1], run[j - 1 + 1]);
      var step :| NextStep(env, run[j - 1], run[j], step);
      InvStep(env, run[j - 1], run[j], step);
      ExtendsTransitive(run[i], run[j - 1], run[j]);
    }
  }

  // ---- the board ----

  /** The stored board of every game is the fold of its moves; moves are numbered 1..n,
      alternate from white, and each was sent by the user seated in that colour. */
  lemma BoardIsFoldOfMoves(env: Env, run: seq<State>, i: nat, g: GameId)
    requires env.Valid() && Run(env, run) && i < |run| && g in run[i].db.games
    ensures var db := run[i].db;
            && g in db.moves
            && Replay(env.rules, db.moves[g]) == Some(db.games[g].fen)
            && forall k :: 0 <= k < |db.moves[g]| ==>
                 var m := db.moves[g][k];
                 && m.number == k + 1
                 && m.color == (if k % 2 == 0 then White else Black)
                 && Seat(db.games[g], m.color) == Some(m.author)
                 && Replay(env.rules, db.moves[g][..k + 1]) == Some(m.fenAfter)
  {
    hide Run, Env.Valid, RoomsOk, LineageOk, VotesOk, LedgerOk, ScoresOk, BadgesOk, RatingsOk, ResultOk, Replay;
    RunInv(env, run, i);
    var row, ms := run[i].db.games[g], run[i].db.moves[g];
    ReplayIsPos(env.rules, row, ms, |ms|);
    assert ms[..|ms|] == ms;
    forall k | 0 <= k < |ms|
      ensures ms[k].number == k + 1 && ms[k].color == (if k % 2 == 0 then White else Black)
      ensures Seat(row, ms[k].color) == Some(ms[k].author)
      ensures Replay(env.rules, ms[..k + 1]) == Some(ms[k].fenAfter)
    {
      ReplayIsPos(env.rules, row, ms, k + 1);
      assert MoveOk(env.rules, row, ms, k);
    }
  }

  /** Whichever source buildRoomFromSnapshot uses - board checkpoint, last move or full
      replay - it recovers the same position, and recovery never abandons a game. */
  lemma RecoveryPathsAgree(env: Env, run: seq<State>, i: nat, g: GameId)
    requires env.Valid() && Run(env, run) && i < |run| && g in run[i].db.games && g in run[i].db.moves
    ensures var row, ms := run[i].db.games[g], run[i].db.moves[g];
            && SnapshotFen(env.rules, row, ms) == Replay(env.rules, ms) == Some(row.fen)
            && SnapshotFen(env.rules, row.(fen := ""), ms) == Replay(env.rules, ms)
            && row.status != Abandoned
  {
    hide Run, RoomsOk, LineageOk, VotesOk, LedgerOk, ScoresOk, BadgesOk, RatingsOk, ResultOk, Replay, MoveOk;
    RunInv(env, run, i);
    BoardIsFoldOfMoves(env, run, i, g);
    var row, ms := run[i].db.games[g], run[i].db.moves[g];
    SnapshotIsCurrent(env.rules, row, ms);
    assert PositionOk(env.rules, Pos(env.rules, ms, |ms|), |ms|);
  }

  // ---- settlement ----

  lemma GameHasMoves(env: Env, s: State, g: GameId)
    requires Inv(env, s) && g in s.db.games
    ensures g in s.db.moves
  {
    hide GameOk, RoomsOk, LineageOk, VotesOk, LedgerOk, ScoresOk, BadgesOk, RatingsOk;
  }

  /** A finished game stays finished with the same verdict and moves in every later state, and a
      score row stays as it was written. */
  lemma VerdictIsFinal(env: Env, run: seq<State>, i: nat, j: nat, g: GameId)
    requires env.Valid() && Run(env, run) && i <= j < |run|
    requires g in run[i].db.games && run[i].db.games[g].status == Finished
    ensures g in run[j].db.games && g in run[i].db.moves && g in run[j].db.moves
    ensures run[j].db.games[g] == run[i].db.games[g].(room := run[j].db.games[g].room)
    ensures run[j].db.moves[g] == run[i].db.moves[g]
    ensures forall k <- run[i].db.scores :: k in run[j].db.scores && run[j].db.scores[k] == run[i].db.scores[k]
  {
    hide Run, Env.Valid;
    RunExtends(env, run, i, j);
    RunInv(env, run, i);
    GameHasMoves(env, run[i], g);
    hide Inv;
  }

  /** A game is settled at most once: a finished game has two distinct seated users, exactly
      their two score rows and exactly one rating entry; an unfinished one has none. */
  lemma SettledExactlyOnce(env: Env, run: seq<State>, i: nat, g: GameId)
    requires env.Valid() && Run(env, run) && i < |run| && g in run[i].db.games
    ensures var db, ledger, row := run[i].db, run[i].hist.ledger, run[i].db.games[g];
            if row.status == Finished then
              && row.black.Some? && row.black.value != row.white
              && (forall u :: (g, u) in db.scores <==> u == row.white || u == row.black.value)
              && (exists k :: 0 <= k < |ledger| && ledger[k].game == g)
              && (forall k, l :: 0 <= k < |ledger| && 0 <= l < |ledger| && ledger[k].game == g && ledger[l].game == g ==>
                    k == l && ledger[k].white == row.white && Some(ledger[k].black) == row.black)
            else
              && (forall u :: (g, u) !in db.scores)
              && (forall k :: 0 <= k < |ledger| ==> ledger[k].game != g)
  {
    hide Run, Env.Valid, RoomsOk, LineageOk, VotesOk, BadgesOk, RatingsOk, MovesOk, ResultOk;
    RunInv(env, run, i);
    var db, ledger := run[i].db, run[i].hist.ledger;
    forall k | 0 <= k < |ledger| ensures EntryOk(env.curve, db, ledger[k]) {
    }
    assert db.games[g].status == Finished ==> Posted(ledger, g);
  }

  /** A recorded checkmate is mate on the final board, won by the side that moved; a recorded
      draw did occur in the game; a resignation has a winner. */
  lemma VerdictMatchesBoard(env: Env, run: seq<State>, i: nat, g: GameId)
    requires env.Valid() && Run(env, run) && i < |run|
    requires g in run[i].db.games && run[i].db.games[g].status == Finished
    ensures var row, ms := run[i].db.games[g], if g in run[i].db.moves then run[i].db.moves[g] else [];
            match row.result
            case Some(Checkmate) =>
              env.rules.mate(row.fen) && ms != [] && row.winner == Some(ms[|ms| - 1].color)
            case Some(Draw) =>
              && row.winner == None
              && exists k, fen :: 0 <= k <= |ms| && Replay(env.rules, ms[..k]) == Some(fen)
                                  && env.rules.over(fen) && !env.rules.mate(fen)
            case Some(Resign) => row.winner.Some?
            case _ => false
  {
    hide Run, RoomsOk, LineageOk, VotesOk, LedgerOk, ScoresOk, BadgesOk, RatingsOk, Rules.Valid, GameOk, Replay;
    RunInv(env, run, i);
    VerdictOnBoard(env.rules, run[i].db.games[g], run[i].db.moves[g]);
  }

  lemma VerdictOnBoard(rules: Rules, row: GameRow, ms: seq<MoveRow>)
    requires rules.Valid() && GameOk(rules, row, ms) && row.status == Finished
    ensures match row.result
            case Some(Checkmate) => rules.mate(row.fen) && ms != [] && row.winner == Some(ms[|ms| - 1].color)
            case Some(Draw) =>
              && row.winner == None
              && exists k, fen :: 0 <= k <= |ms| && Replay(rules, ms[..k]) == Some(fen)
                                  && rules.over(fen) && !rules.mate(fen)
            case Some(Resign) => row.winner.Some?
            case _ => false
  {
    hide Replay, Rules.Valid;
    if row.result == Some(Draw) {
      var k :| 0 <= k <= |ms| && DrawnAt(rules, ms, k);
      ReplayIsPos(rules, row, ms, k);
      assert Replay(rules, ms[..k]) == Some(Pos(rules, ms, k));
    } else {
      var last := |ms| - 1;
      assert MoveOk(rules, row, ms, last);
      assert PositionOk(rules, Pos(rules, ms, |ms|), |ms|);
    }
  }

  /** Exactly when a handler's finalization settles: the game is still in progress, both
      users exist, and the handler's room object shows at least one move. A resignation
      before the first move always rolls back, because scores.moves must be positive. */
  lemma SettlesExactlyWhen(env: Env, run: seq<State>, i: nat, r: ReplicaId, room: Room, result: Result,
                           winner: Option<Color>)
    requires env.Valid() && Run(env, run) && i < |run| && Knows(Rep(run[i], r), room) && |room.players| == 2
    ensures var db := run[i].db;
            && room.gameId in db.games
            && var row := db.games[room.gameId];
            && var tx := Finalize(env.curve, db, room.gameId, SeatedUser(room, White), SeatedUser(room, Black),
                                  |room.moves|, result, winner);
            && row.black.Some?
            && ((tx.Commit? && tx.value.Settled?) <==>
                 row.status == InProgress && row.white in db.ratings && row.black.value in db.ratings && room.moves != [])
            && (row.status == InProgress && tx.Commit? ==> tx.value.Settled?)
            && (row.status != InProgress ==> tx == Commit(db, NotSettled))
  {
    hide Run, Env.Valid, LineageOk, VotesOk, LedgerOk, BadgesOk, RatingsOk, MovesOk, ResultOk, Occurred, Finalize, PlayersOk;
    RunInv(env, run, i);
    RoomKnown(env, run[i], r, room);
    var row := run[i].db.games[room.gameId];
    SeatedBoth(env, row, room);
    hide RoomsOk;
    FinalizeOutcome(env.curve, run[i].db, room.gameId, row.white, row.black.value, |room.moves|, result, winner);
  }

  lemma FinalizeOutcome(curve: Elo.Curve, db: Tables, g: GameId, w: UserId, b: UserId, moves: nat, result: Result,
                        winner: Option<Color>)
    requires g in db.games && w != b && (db.games[g].status == InProgress ==> (g, w) !in db.scores && (g, b) !in db.scores)
    ensures var tx := Finalize(curve, db, g, Some(w), Some(b), moves, result, winner);
            && ((tx.Commit? && tx.value.Settled?) <==>
                 db.games[g].status == InProgress && w in db.ratings && b in db.ratings && moves > 0)
            && (db.games[g].status == InProgress && tx.Commit? ==> tx.value.Settled?)
            && (db.games[g].status != InProgress ==> tx == Commit(db, NotSettled))
  {
    hide Earns, Elo.NewRatings, Wins;
  }

  // ---- rooms ----

  /** At every moment exactly one game holds a room that was ever created: the last of its
      line. Every game stands at exactly one place of exactly one line. */
  lemma OneHolderPerRoom(env: Env, run: seq<State>, i: nat, id: RoomId, g: GameId)
    requires env.Valid() && Run(env, run) && i < |run|
    ensures var db, h := run[i].db, run[i].hist;
            && (id in h.lineage ==> |h.lineage[id]| > 0)
            && (Holds(db, g, id) <==> id in h.lineage && g == h.lineage[id][|h.lineage[id]| - 1])
            && (g in db.games ==>
                 && g in h.home && h.home[g].0 in h.lineage
                 && forall id', k :: id' in h.lineage && 0 <= k < |h.lineage[id']| ==>
                      (h.lineage[id'][k] == g <==> (id', k) == h.home[g]))
  {
    hide Run, Env.Valid, RoomsOk, GamesOk, VotesOk, LedgerOk, ScoresOk, BadgesOk, RatingsOk, Succeeds;
    RunInv(env, run, i);
    var db, h := run[i].db, run[i].hist;
    forall id' <- h.lineage ensures LineOk(db, h, id', h.lineage[id']) {
    }
  }

  /** A game that held a room at any earlier moment is in that room's line for good. */
  lemma HoldersStayInLine(env: Env, run: seq<State>, i: nat, j: nat, id: RoomId, g: GameId)
    requires env.Valid() && Run(env, run) && i <= j < |run| && Holds(run[i].db, g, id)
    ensures id in run[j].hist.lineage && g in run[j].hist.lineage[id]
  {
    hide Run, Env.Valid, RoomsOk, GamesOk, VotesOk, LedgerOk, ScoresOk, BadgesOk, RatingsOk, LineOk;
    RunInv(env, run, i);
    HomeOfHolder(run[i].db, run[i].hist, id, g);
    RunExtends(env, run, i, j);
  }

  /** Consecutive games of a line: the earlier one is finished, the same two users swap
      colours, and both had a vote counted on the earlier game. */
  lemma RematchChain(env: Env, run: seq<State>, i: nat, id: RoomId, k: nat)
    requires env.Valid() && Run(env, run) && i < |run|
    requires id in run[i].hist.lineage && k + 1 < |run[i].hist.lineage[id]|
    ensures var db, h := run[i].db, run[i].hist;
            var g, g' := h.lineage[id][k], h.lineage[id][k + 1];
            && g in db.games && g' in db.games && db.games[g].status == Finished && db.games[g].room == None
            && db.games[g'].black == Some(db.games[g].white) && Some(db.games[g'].white) == db.games[g].black
            && {db.games[g].white, db.games[g'].white} <= Voted(h, g)
  {
    hide Run, Env.Valid, RoomsOk, GamesOk, VotesOk, LedgerOk, ScoresOk, BadgesOk, RatingsOk;
    RunInv(env, run, i);
    var db, h := run[i].db, run[i].hist;
    assert LineOk(db, h, id, h.lineage[id]);
    assert Succeeds(db, h, h.lineage[id][k], h.lineage[id][k + 1]);
  }

  // ---- ratings and achievements ----

  lemma {:induction false} TotalBounds(curve: Elo.Curve, db: Tables, ledger: seq<Entry>)
    requires forall i :: 0 <= i < |ledger| ==> EntryOk(curve, db, ledger[i])
    ensures 0 <= Total(ledger) <= |ledger|
  {
    if ledger != [] {
      assert EntryOk(curve, db, ledger[|ledger| - 1]);
      TotalBounds(curve, db, ledger[..|ledger| - 1]);
    }
  }

  /** The total of all ratings never falls below the registered total and exceeds it by at
      most one point per settled game; each user's rating is the sum of their own entries,
      and no entry lowers a winner or raises a loser. Every entry is what computeNewRatings
      gives for the two users' ratings at that moment. */
  lemma RatingConservation(env: Env, run: seq<State>, i: nat)
    requires env.Valid() && Run(env, run) && i < |run|
    ensures var db, h := run[i].db, run[i].hist;
            && db.ratings.Keys == h.base.Keys
            && Sum(h.base) <= Sum(db.ratings) <= Sum(h.base) + |h.ledger|
            && (forall u <- db.ratings :: db.ratings[u] == h.base[u] + Delta(h.ledger, u))
            && (forall k :: 0 <= k < |h.ledger| ==>
                  var e := h.ledger[k];
                  && e.game in db.games && e.white in h.base && e.black in h.base
                  && e.oldWhite == h.base[e.white] + Delta(h.ledger[..k], e.white)
                  && e.oldBlack == h.base[e.black] + Delta(h.ledger[..k], e.black)
                  && var winner := db.games[e.game].winner;
                  && (e.oldWhite + e.dWhite, e.oldBlack + e.dBlack)
                     == Elo.NewRatings(env.curve, e.oldWhite, e.oldBlack, WhiteScore(winner))
                  && Rated(env.curve, e.oldWhite, e.oldBlack, e.dWhite, e.dBlack, winner)
                  && -32 <= e.dWhite <= 32 && -32 <= e.dBlack <= 32
                  && (winner == Some(White) ==> e.dWhite >= 0 >= e.dBlack)
                  && (winner == Some(Black) ==> e.dWhite <= 0 <= e.dBlack))
  {
    hide Run, Env.Valid, RoomsOk, GamesOk, LineageOk, VotesOk, ScoresOk, BadgesOk, Delta, Sum;
    RunInv(env, run, i);
    var db, h := run[i].db, run[i].hist;
    TotalBounds(env.curve, db, h.ledger);
    forall k | 0 <= k < |h.ledger| ensures EntryOk(env.curve, db, h.ledger[k]) && OldsOk(h.base, h.ledger, k) {
    }
    hide LedgerOk, RatingsOk, Total;
  }

  /** What every settled game did to the two ratings, with e white's expected score: white's
      change is the integer nearest to 32 * (1 - e), 32 * (0 - e) or 32 * (1/2 - e) as white
      won, black won or nobody did, black's the one nearest to the opposite, halves up. So a
      draw moves no rating by more than 16, and none at all when both were expected to score
      the same. */
  lemma RatingsNearest(env: Env, run: seq<State>, i: nat, k: nat)
    requires env.Valid() && Run(env, run) && i < |run| && k < |run[i].hist.ledger|
    ensures var entry := run[i].hist.ledger[k];
            && entry.game in run[i].db.games
            && var e := env.curve.expected(entry.oldWhite, entry.oldBlack);
            match run[i].db.games[entry.game].winner
            case Some(White) =>
              && 32.0 * (1.0 - e) - 0.5 < entry.dWhite as real <= 32.0 * (1.0 - e) + 0.5
              && -32.0 * (1.0 - e) - 0.5 < entry.dBlack as real <= -32.0 * (1.0 - e) + 0.5
            case Some(Black) =>
              && 32.0 * (0.0 - e) - 0.5 < entry.dWhite as real <= 32.0 * (0.0 - e) + 0.5
              && -32.0 * (0.0 - e) - 0.5 < entry.dBlack as real <= -32.0 * (0.0 - e) + 0.5
            case None =>
              && 32.0 * (0.5 - e) - 0.5 < entry.dWhite as real <= 32.0 * (0.5 - e) + 0.5
              && -32.0 * (0.5 - e) - 0.5 < entry.dBlack as real <= -32.0 * (0.5 - e) + 0.5
              && -16 <= entry.dWhite <= 16 && -16 <= entry.dBlack <= 16
              && (e == 0.5 ==> entry.dWhite == 0 && entry.dBlack == 0)
  {
    hide Run, RoomsOk, GamesOk, LineageOk, VotesOk, ScoresOk, BadgesOk, RatingsOk;
    RunInv(env, run, i);
    var entry := run[i].hist.ledger[k];
    assert EntryOk(env.curve, run[i].db, entry);
    assert 0.0 < env.curve.expected(entry.oldWhite, entry.oldBlack) < 1.0;
  }

  /** The games of a ledger whose unrounded rating change was an exact half. */
  function Halves(curve: Elo.Curve, db: Tables, ledger: seq<Entry>): nat {
    if ledger == [] then 0
    else
      var e := ledger[|ledger| - 1];
      Halves(curve, db, ledger[..|ledger| - 1])
      + if e.game in db.games && Elo.ExactHalf(curve, e.oldWhite, e.oldBlack, WhiteScore(db.games[e.game].winner))
        then 1 else 0
  }

  lemma {:induction false} TotalIsHalves(curve: Elo.Curve, db: Tables, ledger: seq<Entry>)
    requires forall k :: 0 <= k < |ledger| ==> EntryOk(curve, db, ledger[k])
    ensures Total(ledger) == Halves(curve, db, ledger) <= |ledger|
  {
    if ledger != [] {
      assert EntryOk(curve, db, ledger[|ledger| - 1]);
      TotalIsHalves(curve, db, ledger[..|ledger| - 1]);
    }
  }

  lemma {:induction false} TotalAppends(a: seq<Entry>, b: seq<Entry>)
    ensures Total(a + b) == Total(a) + Total(b)
  {
    if b == [] {
      assert a + b == a;
    } else {
      assert (a + b)[..|a + b| - 1] == a + b[..|b| - 1];
      TotalAppends(a, b[..|b| - 1]);
    }
  }

  lemma {:induction false} SumRegistered(m: map<UserId, int>)
    requires forall u <- m :: m[u] == REGISTERED
    ensures Sum(m) == 1200 * |m|
    decreases |m|
  {
    if m != map[] {
      hide Sum;
      var u :| u in m;
      var rest := m - {u};
      SumTake(m, u);
      OneKeyLess(m, u);
      SumRegistered(rest);
    }
  }

  lemma OneKeyLess<K, V>(m: map<K, V>, k: K)
    requires k in m
    ensures |m| == |m - {k}| + 1
  {
    assert m.Keys == (m - {k}).Keys + {k};
    assert |m| == |m.Keys| && |m - {k}| == |(m - {k}).Keys|;
  }

  function FinishedGames(db: Tables): set<GameId> {
    set g | g in db.games && db.games[g].status == Finished
  }

  lemma {:induction false} DistinctGames(ledger: seq<Entry>, games: set<GameId>)
    requires forall i, j :: 0 <= i < j < |ledger| ==> ledger[i].game != ledger[j].game
    requires forall k :: 0 <= k < |ledger| ==> ledger[k].game in games
    requires forall g <- games :: Posted(ledger, g)
    ensures |ledger| == |games|
    decreases |ledger|
  {
    if ledger == [] {
      assert games == {};
    } else {
      var n := |ledger| - 1;
      var g := ledger[n].game;
      forall x <- games - {g} ensures Posted(ledger[..n], x) {
        var k :| 0 <= k < |ledger| && ledger[k].game == x;
        assert ledger[..n][k].game == x;
      }
      DistinctGames(ledger[..n], games - {g});
    }
  }

  lemma LedgerSize(curve: Elo.Curve, db: Tables, ledger: seq<Entry>)
    requires LedgerOk(curve, db, ledger)
    ensures |ledger| == |FinishedGames(db)|
  {
    forall k | 0 <= k < |ledger| ensures ledger[k].game in FinishedGames(db) {
      assert EntryOk(curve, db, ledger[k]);
    }
    DistinctGames(ledger, FinishedGames(db));
  }

  /** Between any two moments of a run the total of all ratings grows by exactly 1200 for
      every user registered and one point for every game settled in between whose unrounded
      change was an exact half: it never falls, and games add at most one point each. */
  lemma RatingTotalGrows(env: Env, run: seq<State>, i: nat, j: nat)
    requires env.Valid() && Run(env, run) && i <= j < |run|
    ensures var before, after := run[i], run[j];
            && before.hist.ledger <= after.hist.ledger && before.db.ratings.Keys <= after.db.ratings.Keys
            && var settled := after.hist.ledger[|before.hist.ledger|..];
            && Sum(after.db.ratings) == Sum(before.db.ratings)
                 + 1200 * (|after.db.ratings| - |before.db.ratings|) + Halves(env.curve, after.db, settled)
            && Halves(env.curve, after.db, settled) <= |settled|
            && |settled| == |FinishedGames(after.db)| - |FinishedGames(before.db)|
  {
    RunExtends(env, run, i, j);
    RunInv(env, run, i);
    RunInv(env, run, j);
    TotalGrows(env.curve, run[i], run[j]);
    hide *;
  }

  lemma TotalGrows(curve: Elo.Curve, s: State, s': State)
    requires RatingsOk(s.db, s.hist) && LedgerOk(curve, s.db, s.hist.ledger)
    requires RatingsOk(s'.db, s'.hist) && LedgerOk(curve, s'.db, s'.hist.ledger) && HistExtends(s.hist, s'.hist)
    ensures s.hist.ledger <= s'.hist.ledger && s.db.ratings.Keys <= s'.db.ratings.Keys
    ensures var settled := s'.hist.ledger[|s.hist.ledger|..];
            && Sum(s'.db.ratings) == Sum(s.db.ratings) + 1200 * (|s'.db.ratings| - |s.db.ratings|)
                                     + Halves(curve, s'.db, settled)
            && Halves(curve, s'.db, settled) <= |settled|
            && |settled| == |FinishedGames(s'.db)| - |FinishedGames(s.db)|
  {
    hide Sum, Total, Halves, LedgerOk, FinishedGames;
    var a, b := s.hist, s'.hist;
    SettledSince(curve, s.db, s'.db, a.ledger, b.ledger);
    assert RatingsOk(s.db, a) && RatingsOk(s'.db, b);
    SumRegistered(a.base);
    SumRegistered(b.base);
    SameSize(s.db.ratings, a.base);
    SameSize(s'.db.ratings, b.base);
    assert s.db.ratings.Keys <= s'.db.ratings.Keys;
    hide RatingsOk, HistExtends;
  }

  lemma SameSize(a: map<UserId, int>, b: map<UserId, int>)
    requires a.Keys == b.Keys
    ensures |a| == |b|
  {
    assert |a| == |a.Keys| && |b| == |b.Keys|;
  }

  lemma SettledSince(curve: Elo.Curve, db: Tables, db': Tables, ledger: seq<Entry>, ledger': seq<Entry>)
    requires LedgerOk(curve, db, ledger) && LedgerOk(curve, db', ledger') && ledger <= ledger'
    ensures var settled := ledger'[|ledger|..];
            && Total(ledger') == Total(ledger) + Halves(curve, db', settled)
            && Halves(curve, db', settled) <= |settled|
            && |settled| == |FinishedGames(db')| - |FinishedGames(db)|
  {
    hide Total, Halves, EntryOk, FinishedGames, Posted;
    var settled := ledger'[|ledger|..];
    assert ledger + settled == ledger';
    TotalAppends(ledger, settled);
    forall k | 0 <= k < |settled| ensures EntryOk(curve, db', settled[k]) {
      assert settled[k] == ledger'[|ledger| + k];
    }
    TotalIsHalves(curve, db', settled);
    LedgerSize(curve, db, ledger);
    LedgerSize(curve, db', ledger');
  }

  /** A user holds a win achievement exactly when that many wins were settled for them. */
  lemma WinBadgesExact(env: Env, run: seq<State>, i: nat, u: UserId)
    requires env.Valid() && Run(env, run) && i < |run|
    ensures var db := run[i].db;
            && ((u, FirstWin) in db.badges <==> |Wins(db.scores, u)| >= 1)
            && ((u, Wins5) in db.badges <==> |Wins(db.scores, u)| >= 5)
            && ((u, Wins10) in db.badges <==> |Wins(db.scores, u)| >= 10)
            && ((u, Wins25) in db.badges <==> |Wins(db.scores, u)| >= 25)
            && ((u, FirstGame) in db.badges <==> exists k <- db.scores :: k.1 == u)
  {
    hide Run, Env.Valid, RoomsOk, GamesOk, LineageOk, VotesOk, ScoresOk, LedgerOk, RatingsOk;
    RunInv(env, run, i);
  }

  /** A winning score row is a finished game won by that user. */
  lemma WinsAreFinishedGames(env: Env, run: seq<State>, i: nat, u: UserId)
    requires env.Valid() && Run(env, run) && i < |run|
    ensures var db := run[i].db;
            Wins(db.scores, u) == set g | g in db.games && db.games[g].status == Finished && Won(db.games[g], u) :: (g, u)
  {
    hide Run, Env.Valid, RoomsOk, LineageOk, VotesOk, LedgerOk, BadgesOk, RatingsOk, MovesOk, ResultOk;
    RunInv(env, run, i);
    var db := run[i].db;
    forall g | g in db.games && db.games[g].status == Finished && Won(db.games[g], u)
      ensures (g, u) in Wins(db.scores, u)
    {
      assert u in Seats(db.games[g]);
    }
  }
}

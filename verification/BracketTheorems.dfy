/** What holds of every tournament that can be reached, and exactly which can finish. */
module BracketTheorems {
  import opened Basics
  import opened Shuffle
  import opened Bracket
  import opened BracketInvariant

  /** Any state some sequence of transactions reaches from a new tournament. */
  ghost predicate Reachable(t: Tournament) {
    exists creator, maxPlayers, steps :: t == Run(Create(creator, maxPlayers), steps)
  }

  lemma ReachableOk(t: Tournament)
    requires Reachable(t)
    ensures Inv(t)
  {
    hide Inv, Run;
    var creator, maxPlayers, steps :| t == Run(Create(creator, maxPlayers), steps);
    CreateOk(creator, maxPlayers);
    RunKeeps(Create(creator, maxPlayers), steps);
  }

  function Pow2(k: nat): nat {
    if k == 0 then 1 else 2 * Pow2(k - 1)
  }

  lemma FollowsAt(t: Tournament, r: nat)
    requires Reachable(t) && r + 1 < |t.rounds|
    ensures Follows(t.rounds[r], t.rounds[r + 1]) && AllTaken(Seats(t.rounds[r + 1]))
  {
    ReachableOk(t);
    hide RoundOk, DistinctSeats, Follows, Opening, NextPow2, Reachable, Seats, AllTaken;
  }

  lemma FirstRoundSize(t: Tournament)
    requires Reachable(t) && t.rounds != []
    ensures 2 * |t.rounds[0]| == NextPow2(|t.players|)
  {
    ReachableOk(t);
    hide RoundOk, DistinctSeats, Follows, Opening, NextPow2, Reachable, Seats, AllTaken;
  }

  lemma DoubleHalf(a: nat, b: nat, k: nat)
    requires a == 2 * b
    ensures a * k == b * (2 * k)
  {
  }

  /** Round r + 1 has exactly P / 2^(r + 1) matches, P being the padded number of seats. */
  lemma {:induction false} RoundSizes(t: Tournament, r: nat)
    requires Reachable(t) && r < |t.rounds|
    ensures |t.rounds[r]| * Pow2(r + 1) == NextPow2(|t.players|)
  {
    hide NextPow2, Reachable, AnyPending, Seats, Winners;
    if r == 0 {
      FirstRoundSize(t);
      assert Pow2(1) == 2 * Pow2(0);
    } else {
      RoundSizes(t, r - 1);
      FollowsAt(t, r - 1);
      DoubleHalf(|t.rounds[r - 1]|, |t.rounds[r]|, Pow2(r));
      assert Pow2(r + 1) == 2 * Pow2(r);
    }
  }

  lemma FollowsSeats(round: seq<Match>, next: seq<Match>, p: nat)
    requires Follows(round, next) && AllTaken(Seats(next)) && p < |next|
    ensures next[p].p1 == round[2 * p].winner && next[p].p2 == round[2 * p + 1].winner
    ensures next[p].p1.Some? && next[p].p2.Some?
  {
    assert Seats(next)[2 * p] == next[p].p1 == Winners(round)[2 * p];
    assert Seats(next)[2 * p + 1] == next[p].p2 == Winners(round)[2 * p + 1];
  }

  /** Round r + 2 exists only when round r + 1 is resolved, and its seats are the pairwise
      winners in order. */
  lemma RoundsFollow(t: Tournament, r: nat, p: nat)
    requires Reachable(t) && r + 1 < |t.rounds| && p < |t.rounds[r + 1]|
    ensures forall m <- t.rounds[r] :: m.status != Pending
    ensures |t.rounds[r]| == 2 * |t.rounds[r + 1]|
    ensures t.rounds[r + 1][p].p1 == t.rounds[r][2 * p].winner && t.rounds[r + 1][p].p2 == t.rounds[r][2 * p + 1].winner
    ensures t.rounds[r + 1][p].p1.Some? && t.rounds[r + 1][p].p2.Some?
  {
    hide Reachable, Seats, AllTaken, Winners;
    FollowsAt(t, r);
    FollowsSeats(t.rounds[r], t.rounds[r + 1], p);
  }

  ghost predicate Seated(round: seq<Match>, user: UserId) {
    exists m <- round :: m.p1 == Some(user) || m.p2 == Some(user)
  }

  lemma SeatedIndex(round: seq<Match>, user: UserId)
    ensures Seated(round, user) <==> Some(user) in Seats(round)
  {
    if Seated(round, user) {
      var p :| 0 <= p < |round| && (round[p].p1 == Some(user) || round[p].p2 == Some(user));
      assert Seats(round)[if round[p].p1 == Some(user) then 2 * p else 2 * p + 1] == Some(user);
    }
    if Some(user) in Seats(round) {
      var i :| 0 <= i < |Seats(round)| && Seats(round)[i] == Some(user);
      assert round[i / 2] in round;
    }
  }

  lemma OneSeatEach(round: seq<Match>, p: nat, q: nat, user: UserId)
    requires DistinctSeats(Seats(round)) && p < |round| && q < |round|
    requires round[p].p1 == Some(user) || round[p].p2 == Some(user)
    requires round[q].p1 == Some(user) || round[q].p2 == Some(user)
    ensures p == q && round[p].p1 != round[p].p2
  {
    var seats := Seats(round);
    assert seats[2 * p] == round[p].p1 && seats[2 * p + 1] == round[p].p2;
    assert seats[2 * q] == round[q].p1 && seats[2 * q + 1] == round[q].p2;
  }

  /** No player has two seats in one round. */
  lemma NoPlayerTwice(t: Tournament, r: nat, p: nat, q: nat, user: UserId)
    requires Reachable(t) && r < |t.rounds| && p < |t.rounds[r]| && q < |t.rounds[r]|
    requires t.rounds[r][p].p1 == Some(user) || t.rounds[r][p].p2 == Some(user)
    requires t.rounds[r][q].p1 == Some(user) || t.rounds[r][q].p2 == Some(user)
    ensures p == q && t.rounds[r][p].p1 != t.rounds[r][p].p2
  {
    hide Reachable, DistinctSeats, RoundOk, AllTaken, Follows, Opening, NextPow2, Seats;
    ReachableOk(t);
    OneSeatEach(t.rounds[r], p, q, user);
  }

  lemma WinnerWasSeated(round: seq<Match>, user: UserId)
    requires RoundOk(round) && Some(user) in Winners(round)
    ensures Seated(round, user) && exists p :: 0 <= p < |round| && round[p].winner == Some(user)
  {
    var p :| 0 <= p < |round| && Winners(round)[p] == Some(user);
    assert round[p] in round && MatchOk(round[p]);
  }

  lemma SeatedEarlier(t: Tournament, later: nat, user: UserId)
    requires Reachable(t) && 0 < later < |t.rounds| && Seated(t.rounds[later], user)
    ensures var round := t.rounds[later - 1];
            Seated(round, user) && exists q :: 0 <= q < |round| && round[q].winner == Some(user)
  {
    hide Reachable, AllTaken, Seats, Winners, Seated, AnyPending, NextPow2, Opening, DistinctSeats;
    ReachableOk(t);
    FollowsAt(t, later - 1);
    assert RoundOk(t.rounds[later - 1]);
    hide RoundOk, Shape;
    SeatedIndex(t.rounds[later], user);
    WinnerWasSeated(t.rounds[later - 1], user);
  }

  /** Whoever loses a played match is in no later round. */
  lemma {:induction false} LosersAreOut(t: Tournament, r: nat, p: nat, user: UserId, later: nat)
    requires Reachable(t) && r < later < |t.rounds| && p < |t.rounds[r]|
    requires t.rounds[r][p].p1 == Some(user) || t.rounds[r][p].p2 == Some(user)
    requires t.rounds[r][p].status == Done && t.rounds[r][p].winner != Some(user)
    ensures !Seated(t.rounds[later], user)
    decreases later
  {
    hide Reachable, Seated, Inv;
    if Seated(t.rounds[later], user) {
      ReachableOk(t);
      SeatedEarlier(t, later, user);
      if later - 1 > r {
        LosersAreOut(t, r, p, user, later - 1);
      } else {
        var q :| 0 <= q < |t.rounds[r]| && t.rounds[r][q].winner == Some(user);
        WinnerOwnMatch(t, r, q, user);
        NoPlayerTwice(t, r, p, q, user);
      }
      assert false;
    }
  }

  lemma WinnerOwnMatch(t: Tournament, r: nat, q: nat, user: UserId)
    requires Inv(t) && r < |t.rounds| && q < |t.rounds[r]| && t.rounds[r][q].winner == Some(user)
    ensures t.rounds[r][q].p1 == Some(user) || t.rounds[r][q].p2 == Some(user)
  {
    assert t.rounds[r][q] in t.rounds[r] && MatchOk(t.rounds[r][q]);
  }

  // ---- how many matches are played ----

  function Taken(seats: seq<Option<UserId>>): nat {
    if seats == [] then 0
    else Taken(seats[..|seats| - 1]) + if seats[|seats| - 1].Some? then 1 else 0
  }

  function PlayedIn(round: seq<Match>): nat {
    if round == [] then 0
    else PlayedIn(round[..|round| - 1]) + if round[|round| - 1].status == Done then 1 else 0
  }

  function Played(rounds: seq<seq<Match>>): nat {
    if rounds == [] then 0 else Played(rounds[..|rounds| - 1]) + PlayedIn(rounds[|rounds| - 1])
  }

  /** Every resolved match sends one player on; a played one sends one player home. */
  lemma {:induction false} PlayedBalance(round: seq<Match>)
    requires forall m <- round :: MatchOk(m) && m.status != Pending
    ensures PlayedIn(round) + |round| == Taken(Seats(round))
  {
    if round != [] {
      var n := |round| - 1;
      var last, seats := round[n], Seats(round);
      PlayedBalance(round[..n]);
      assert last in round;
      assert seats[..2 * n + 1][..2 * n] == Seats(round[..n]);
      assert seats[2 * n] == last.p1 && seats[2 * n + 1] == last.p2;
      assert seats[..2 * n + 1][2 * n] == last.p1;
    }
  }

  lemma {:induction false} TakenAll(seats: seq<Option<UserId>>)
    requires AllTaken(seats)
    ensures Taken(seats) == |seats|
  {
    if seats != [] {
      TakenAll(seats[..|seats| - 1]);
    }
  }

  lemma {:induction false} TakenPadded(seats: seq<Option<UserId>>, n: nat)
    requires n <= |seats| && (forall i :: 0 <= i < n ==> seats[i].Some?) && (forall i :: n <= i < |seats| ==> seats[i].None?)
    ensures Taken(seats) == n
  {
    if n < |seats| {
      TakenPadded(seats[..|seats| - 1], n);
    } else {
      TakenAll(seats);
    }
  }

  lemma {:induction false} PlayedSoFar(t: Tournament, k: nat)
    requires Inv(t) && t.status != Open && 1 <= k <= |t.rounds|
    requires forall r :: 0 <= r < k ==> !AnyPending(t.rounds[r])
    ensures Played(t.rounds[..k]) + |t.rounds[k - 1]| == |t.players|
  {
    hide DistinctSeats, NextPow2, MatchOk, Seats, Winners, AllTaken, Taken, PlayedIn;
    var round := t.rounds[k - 1];
    assert RoundOk(round);
    PlayedBalance(round);
    assert t.rounds[..k][..k - 1] == t.rounds[..k - 1];
    if k == 1 {
      OpeningTaken(t);
      assert Played(t.rounds[..0]) == 0;
    } else {
      PlayedSoFar(t, k - 1);
      assert Follows(t.rounds[k - 2], t.rounds[k - 2 + 1]);
      TakenAll(Seats(round));
    }
  }

  lemma OpeningTaken(t: Tournament)
    requires Shape(t)
    ensures Taken(Seats(t.rounds[0])) == |t.players|
  {
    hide RoundOk, DistinctSeats, AllTaken, Follows, NextPow2, Seats;
    var order :| Opening(t, order);
    TakenPadded(Padded(order), |order|);
  }

  lemma {:induction false} SeatedPlays(t: Tournament, r: nat, user: UserId)
    requires Reachable(t) && r < |t.rounds| && Seated(t.rounds[r], user)
    ensures user in t.players
  {
    ReachableOk(t);
    hide Reachable, DistinctSeats, AllTaken, NextPow2, Seats, MatchOk, Winners, AnyPending;
    SeatedIndex(t.rounds[r], user);
    if r == 0 {
      var order :| Opening(t, order);
      var i :| 0 <= i < |order| && order[i] == user;
      assert order[i] in multiset(order) && order[i] in multiset(t.players);
    } else {
      assert Follows(t.rounds[r - 1], t.rounds[r - 1 + 1]);
      WinnerWasSeated(t.rounds[r - 1], user);
      SeatedPlays(t, r - 1, user);
    }
  }

  lemma ChampionPlays(t: Tournament)
    requires Reachable(t) && t.status == Finished
    ensures t.winner.Some? && t.winner.value in t.players
  {
    ReachableOk(t);
    hide Reachable, DistinctSeats, AllTaken, NextPow2, Opening, Seats, MatchOk, AnyPending, IsPow2;
    var r := |t.rounds| - 1;
    assert Winners(t.rounds[r])[0] == t.winner;
    WinnerWasSeated(t.rounds[r], t.winner.value);
    SeatedPlays(t, r, t.winner.value);
  }

  /** A finished bracket of n players has played exactly n - 1 matches, and its winner is one
      of them. */
  lemma FinishedPlays(t: Tournament)
    requires Reachable(t) && t.status == Finished
    ensures Played(t.rounds) == |t.players| - 1
    ensures t.winner.Some? && t.winner.value in t.players
  {
    ReachableOk(t);
    ChampionPlays(t);
    hide RoundOk, DistinctSeats, AllTaken, Opening, NextPow2, Seats, Winners;
    forall r | 0 <= r < |t.rounds| ensures !AnyPending(t.rounds[r]) {
      if r < |t.rounds| - 1 {
        assert Follows(t.rounds[r], t.rounds[r + 1]);
      }
    }
    PlayedSoFar(t, |t.rounds|);
    assert t.rounds[..|t.rounds|] == t.rounds;
  }

  // ---- which tournaments can finish ----

  /** Two or more empty seats: the last match of round 1 has no players, so it is pending and
      no report can name one of its players. */
  lemma EmptyMatch(t: Tournament)
    requires Inv(t) && t.status != Open && NextPow2(|t.players|) - |t.players| >= 2
    ensures t.rounds != [] && t.rounds[0] != [] && t.rounds[0][|t.rounds[0]| - 1] == Match(None, None, None, Pending)
    ensures t.status == Running && |t.rounds| == 1
  {
    hide DistinctSeats, NextPow2, IsPow2, AllTaken;
    var order :| Opening(t, order);
    var round := t.rounds[0];
    assert RoundOk(round);
    var p := |round| - 1;
    var seats := Padded(order);
    assert round[p] in round;
    assert Seats(round)[2 * p] == seats[2 * p] && Seats(round)[2 * p + 1] == seats[2 * p + 1];
    assert seats[2 * p].None? && seats[2 * p + 1].None?;
    assert MatchOk(round[p]);
    assert |t.rounds| > 1 ==> Follows(t.rounds[0], t.rounds[1]);
  }

  lemma {:induction false} PlayersFixed(t: Tournament, steps: seq<Step>)
    requires Inv(t) && t.status != Open
    ensures Run(t, steps).players == t.players && Run(t, steps).status != Open
  {
    hide Inv;
    if steps != [] {
      PlayersFixed(t, steps[..|steps| - 1]);
      RunKeeps(t, steps[..|steps| - 1]);
    }
  }

  /** ... and it stays that way whatever is tried. */
  lemma NeverFinishes(t: Tournament, steps: seq<Step>)
    requires Inv(t) && t.status != Open && NextPow2(|t.players|) - |t.players| >= 2
    ensures var t' := Run(t, steps);
            && t'.status == Running && |t'.rounds| == 1 && t'.rounds[0] != []
            && t'.rounds[0][|t'.rounds[0]| - 1] == Match(None, None, None, Pending)
  {
    hide Inv, Run, NextPow2;
    RunKeeps(t, steps);
    PlayersFixed(t, steps);
    EmptyMatch(Run(t, steps));
  }

  function PendingIn(round: seq<Match>): nat {
    if round == [] then 0
    else PendingIn(round[..|round| - 1]) + if round[|round| - 1].status == Pending then 1 else 0
  }

  lemma {:induction false} OneLessPending(round: seq<Match>, p: nat, done: Match)
    requires p < |round| && round[p].status == Pending && done.status == Done
    ensures PendingIn(round[p := done]) == PendingIn(round) - 1
  {
    var n := |round| - 1;
    if p == n {
      assert round[p := done][..n] == round[..n];
    } else {
      OneLessPending(round[..n], p, done);
      assert round[p := done][..n] == round[..n][p := done];
    }
  }

  /** With at most one empty seat every pending match has its two players. */
  lemma PendingIsReportable(t: Tournament, p: nat)
    requires Inv(t) && t.status == Running && NextPow2(|t.players|) - |t.players| <= 1
    requires p < |Last(t)| && Last(t)[p].status == Pending
    ensures Last(t)[p].p1.Some?
  {
    hide DistinctSeats, NextPow2, IsPow2, RoundOk, Follows;
    var r, round := |t.rounds| - 1, Last(t);
    assert Seats(round)[2 * p] == round[p].p1;
    if r == 0 {
      var order :| Opening(t, order);
    } else {
      assert AllTaken(Seats(t.rounds[r]));
    }
  }

  lemma ReportProgress(t: Tournament, p: nat, winner: UserId)
    requires Inv(t) && t.status == Running && p < |Last(t)|
    requires Last(t)[p].status == Pending && Last(t)[p].p1 == Some(winner)
    ensures var t' := Report(t, |t.rounds| - 1, p, winner, winner).0;
            t'.status == Finished ||
            (t'.status == Running && t'.rounds != []
             && (|Last(t')| < |Last(t)| || (|Last(t')| == |Last(t)| && PendingIn(Last(t')) < PendingIn(Last(t)))))
  {
    hide DistinctSeats, NextPow2, RoundOk, Follows, Opening, AllTaken, Seats;
    var done := Last(t)[p].(winner := Some(winner), status := Done);
    OneLessPending(Last(t), p, done);
  }

  lemma {:induction false} RunPrepend(t: Tournament, step: Step, steps: seq<Step>)
    ensures Run(t, [step] + steps) == Run(Apply(t, step), steps)
  {
    hide Apply;
    var all := [step] + steps;
    if steps == [] {
      assert all == [step] && all[..0] == [];
    } else {
      RunPrepend(t, step, steps[..|steps| - 1]);
      assert all[..|all| - 1] == [step] + steps[..|steps| - 1];
    }
  }

  /** Reporting the first player of any pending match, again and again, ends the tournament. */
  lemma {:induction false} FinishFrom(t: Tournament) returns (steps: seq<Step>)
    requires Inv(t) && t.status == Running && NextPow2(|t.players|) - |t.players| <= 1
    ensures Run(t, steps).status == Finished
    decreases |Last(t)|, PendingIn(Last(t))
  {
    var p :| 0 <= p < |Last(t)| && Last(t)[p].status == Pending;
    hide Inv, NextPow2, Report, Run;
    PendingIsReportable(t, p);
    var user := Last(t)[p].p1.value;
    var step := ReportStep(|t.rounds| - 1, p, user, user);
    ReportProgress(t, p, user);
    ReportKeeps(t, |t.rounds| - 1, p, user, user);
    var t' := Apply(t, step);
    if t'.status == Finished {
      RunPrepend(t, step, []);
      steps := [step] + [];
      RunNothing(t');
    } else {
      SamePlayers(t, |t.rounds| - 1, p, user, user);
      var rest := FinishFrom(t');
      RunPrepend(t, step, rest);
      steps := [step] + rest;
    }
  }

  lemma RunNothing(t: Tournament)
    ensures Run(t, []) == t
  {
  }

  lemma SamePlayers(t: Tournament, r: nat, p: nat, reporter: UserId, winner: int)
    ensures Report(t, r, p, reporter, winner).0.players == t.players
  {
  }

  /** The completion boundary: a started tournament of n players can finish exactly when
      nextPow2(n) - n <= 1. With 5, 6 or 9 to 14 players it never does. */
  lemma FinishableExactlyWhen(t: Tournament)
    requires Reachable(t) && t.status == Running
    ensures (exists steps :: Run(t, steps).status == Finished) <==> NextPow2(|t.players|) - |t.players| <= 1
  {
    ReachableOk(t);
    hide Inv, Run, NextPow2, Reachable;
    if NextPow2(|t.players|) - |t.players| <= 1 {
      var steps := FinishFrom(t);
    } else if exists steps :: Run(t, steps).status == Finished {
      var steps :| Run(t, steps).status == Finished;
      NeverFinishes(t, steps);
    }
  }

  lemma RunOne(t: Tournament, steps: seq<Step>, step: Step)
    ensures Run(t, steps + [step]) == Apply(Run(t, steps), step)
  {
    assert (steps + [step])[..|steps|] == steps;
  }

  lemma JoinAdds(t: Tournament, user: UserId)
    requires t.status == Open && user !in t.players && |t.players| < t.maxPlayers
    ensures Apply(t, JoinStep(user)) == t.(players := t.players + [user])
  {
  }

  lemma JoinsOne(t: Tournament, steps: seq<Step>, user: UserId)
    requires var before := Run(t, steps);
             before.status == Open && user !in before.players && |before.players| < before.maxPlayers
    ensures var before := Run(t, steps);
            Run(t, steps + [JoinStep(user)]) == before.(players := before.players + [user])
  {
    hide Run, Apply;
    RunOne(t, steps, JoinStep(user));
    JoinAdds(Run(t, steps), user);
  }

  lemma FiveJoin() returns (steps: seq<Step>)
    ensures Run(Create(1, 8), steps) == Create(1, 8).(players := [1, 2, 3, 4, 5])
  {
    var t := Create(1, 8);
    RunNothing(t);
    hide Run;
    steps := [];
    JoinsOne(t, steps, 2);
    steps := steps + [JoinStep(2)];
    assert [1] + [2] == [1, 2];
    JoinsOne(t, steps, 3);
    steps := steps + [JoinStep(3)];
    assert [1, 2] + [3] == [1, 2, 3];
    JoinsOne(t, steps, 4);
    steps := steps + [JoinStep(4)];
    assert [1, 2, 3] + [4] == [1, 2, 3, 4];
    JoinsOne(t, steps, 5);
    steps := steps + [JoinStep(5)];
    assert [1, 2, 3, 4] + [5] == [1, 2, 3, 4, 5];
  }

  lemma StartStarts(t: Tournament, c: seq<nat>)
    requires FullChoices(c, |t.players|) && t.status == Open && |t.players| >= 2
    ensures var t' := Start(t, t.creator, c).0; t'.players == t.players && t'.status != Open
  {
    hide Shuffled, Padded, FirstRound, Winners, NextRound, AnyPending;
  }

  /** For example: five players join, the creator starts, and nothing ends the tournament. */
  lemma FiveNeverFinish() returns (t: Tournament)
    ensures Reachable(t) && t.status == Running && |t.players| == 5
    ensures forall steps :: Run(t, steps).status == Running
  {
    var joins := FiveJoin();
    var c := [0, 0, 0, 0];
    var full := Run(Create(1, 8), joins);
    FiveSeats();
    StartStarts(full, c);
    RunOne(Create(1, 8), joins, StartStep(1, c));
    hide Run, NextPow2, Inv, Start;
    t := Start(full, 1, c).0;
    assert t == Run(Create(1, 8), joins + [StartStep(1, c)]);
    ReachableOk(t);
    EmptyMatch(t);
    forall more ensures Run(t, more).status == Running {
      NeverFinishes(t, more);
    }
  }

  lemma FiveSeats()
    ensures NextPow2(5) == 8
  {
    assert DoubleUntil(4, 5) == DoubleUntil(8, 5) == 8;
    assert DoubleUntil(1, 5) == DoubleUntil(2, 5) == DoubleUntil(4, 5);
  }
}

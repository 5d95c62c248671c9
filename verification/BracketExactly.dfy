/** What one transaction does to a reachable tournament: exactly when it is accepted, with
    which answer it is refused, and every row it then writes. */
module BracketExactly {
  import opened Basics
  import opened Shuffle
  import opened Bracket
  import opened BracketInvariant
  import opened BracketTheorems

  // ---- joining ----

  /** A join is accepted exactly when the tournament is open, the user is not in it and a
      place is left; it then appends the user and nothing else, and the first reason against
      it is the answer. */
  lemma JoinExactlyWhen(t: Tournament, user: UserId)
    requires Reachable(t)
    ensures var (t', outcome) := Join(t, user);
            && (outcome == Joined <==> t.status == Open && user !in t.players && |t.players| < t.maxPlayers)
            && (outcome == AlreadyStarted <==> t.status != Open)
            && (outcome == AlreadyJoined <==> t.status == Open && user in t.players)
            && (outcome == Full <==> t.status == Open && user !in t.players && |t.players| >= t.maxPlayers)
            && t' == t.(players := if outcome == Joined then t.players + [user] else t.players)
  {
  }

  /** Nobody joins twice, the creator is always in, and the limit is kept - except that the
      creator is in even where no player is allowed. */
  lemma {:induction false} PlayersWithinLimit(creator: UserId, maxPlayers: nat, steps: seq<Step>)
    ensures var t := Run(Create(creator, maxPlayers), steps);
            && t.creator == creator && t.maxPlayers == maxPlayers
            && t.players != [] && t.players[0] == creator && Distinct(t.players)
            && |t.players| <= if maxPlayers == 0 then 1 else maxPlayers
  {
    hide Advance, NextPow2, Padded, Shuffled;
    if steps != [] {
      PlayersWithinLimit(creator, maxPlayers, steps[..|steps| - 1]);
      AppliedPlayers(Run(Create(creator, maxPlayers), steps[..|steps| - 1]), steps[|steps| - 1]);
    }
  }

  lemma AppliedPlayers(t: Tournament, step: Step)
    requires t.players != [] && Distinct(t.players)
    ensures var t' := Apply(t, step);
            && t'.creator == t.creator && t'.maxPlayers == t.maxPlayers && Distinct(t'.players)
            && t.players <= t'.players && |t'.players| <= |t.players| + 1
            && (|t'.players| > |t.players| ==> |t.players| < t.maxPlayers)
  {
    hide NextPow2, Padded, Shuffled, FirstRound, NextRound;
  }

  // ---- starting ----

  /** Match p of round 1 for players in this order: two players play, a single one has a bye,
      and past the last player nobody is seated. */
  function Opened(order: seq<UserId>, p: nat): Match {
    if 2 * p + 1 < |order| then Match(Some(order[2 * p]), Some(order[2 * p + 1]), None, Pending)
    else if 2 * p < |order| then Match(Some(order[2 * p]), None, Some(order[2 * p]), Bye)
    else Match(None, None, None, Pending)
  }

  /** A start is accepted exactly when the creator asks, the tournament is open and two players
      have joined. It then writes round 1 only: half as many matches as the least power of two
      has seats for everyone, filled in the order of the shuffle. */
  lemma StartExactlyWhen(t: Tournament, requester: UserId, c: seq<nat>)
    requires Reachable(t) && FullChoices(c, |t.players|)
    ensures var (t', outcome) := Start(t, requester, c);
            && (outcome == Started <==> requester == t.creator && t.status == Open && |t.players| >= 2)
            && (outcome == NotCreator <==> requester != t.creator)
            && (outcome == AlreadyStarted <==> requester == t.creator && t.status != Open)
            && (outcome == TooFewPlayers <==> requester == t.creator && t.status == Open && |t.players| < 2)
            && if outcome != Started then t' == t
               else
                 && |t'.rounds| == 1 && 2 * |t'.rounds[0]| == NextPow2(|t.players|)
                 && t' == t.(status := Running, rounds := t'.rounds)
                 && (forall p :: 0 <= p < |t'.rounds[0]| ==> t'.rounds[0][p] == Opened(Shuffled(t.players, c), p))
                 && multiset(Shuffled(t.players, c)) == multiset(t.players)
  {
    ReachableOk(t);
    ShufflePermutes(t.players, c);
    hide Reachable, Inv, Shuffled, NextPow2, Padded, FirstRound, NextRound;
    var (t', outcome) := Start(t, requester, c);
    if outcome == Started {
      FirstRoundOpened(Shuffled(t.players, c));
    }
  }

  lemma FirstRoundOpened(order: seq<UserId>)
    requires |order| >= 2
    ensures var round := FirstRound(Padded(order));
            && 2 * |round| == NextPow2(|order|) && AnyPending(round)
            && forall p :: 0 <= p < |round| ==> round[p] == Opened(order, p)
  {
    NextPow2IsLeast(|order|, 0);
    HalfPow2(NextPow2(|order|));
    hide NextPow2, IsPow2;
    var round := FirstRound(Padded(order));
    assert round[0] in round;
  }

  // ---- reporting ----

  predicate Plays(m: Match, user: int) {
    (m.p1.Some? && m.p1.value == user) || (m.p2.Some? && m.p2.value == user)
  }

  /** A report is accepted exactly when the match exists and is still pending, and both the
      named winner and the reporter play in it. It then records that winner. As long as another
      match of the round is pending nothing else changes; the last report of a round of one
      match ends the tournament with that winner, and that of any other round seats the winners
      pairwise, in order, in a new round of pending matches. A refused report changes nothing. */
  lemma ReportExactlyWhen(t: Tournament, r: nat, p: nat, reporter: UserId, winner: int)
    requires Reachable(t)
    ensures var (t', outcome) := Report(t, r, p, reporter, winner);
            if r >= |t.rounds| || p >= |t.rounds[r]| then t' == t && outcome == MatchNotFound
            else
              && var m := t.rounds[r][p];
              && (outcome == AlreadyResolved <==> m.status != Pending)
              && (outcome == NotAPlayer <==> m.status == Pending && !Plays(m, winner))
              && (outcome == NotAParticipant <==> m.status == Pending && Plays(m, winner) && !Plays(m, reporter))
              && (outcome == Reported <==> m.status == Pending && Plays(m, winner) && Plays(m, reporter))
              && if outcome != Reported then t' == t
                 else
                   && t.status == Running && r == |t.rounds| - 1 && winner > 0
                   && Recorded(t, t', p, winner)
  {
    ReachableOk(t);
    hide Reachable, Advance, Inv;
    var (t', outcome) := Report(t, r, p, reporter, winner);
    if outcome == Reported {
      InvShape(t, r);
      StillPending(t, r, p);
      InvShape(t, r);
      PendingIsLast(t, r, p);
      ReportRecorded(t, r, p, reporter, winner);
    }
  }

  lemma InvShape(t: Tournament, r: nat)
    requires Inv(t) && r < |t.rounds|
    ensures t.status != Open && Shape(t) && (t.status == Running ==> t.winner.None?)
  {
    hide Shape;
  }

  /** The last round after match p was won by `winner`, and what follows from it. */
  ghost predicate Recorded(t: Tournament, t': Tournament, p: nat, winner: UserId)
    requires t.rounds != [] && p < |Last(t)|
  {
    var n := |t.rounds|;
    var done := Match(Last(t)[p].p1, Last(t)[p].p2, Some(winner), Done);
    && |t'.rounds| >= n && t'.rounds[..n] == t.rounds[n - 1 := Last(t)[p := done]]
    && t'.players == t.players && t'.creator == t.creator && t'.maxPlayers == t.maxPlayers
    && if exists q :: 0 <= q < |Last(t)| && q != p && Last(t)[q].status == Pending then
         t'.status == Running && |t'.rounds| == n && t'.winner == None
       else if |Last(t)| == 1 then
         t'.status == Finished && |t'.rounds| == n && t'.winner == Some(winner)
       else
         && t'.status == Running && t'.winner == None && |t'.rounds| == n + 1
         && 2 * |t'.rounds[n]| == |Last(t)|
         && forall q :: 0 <= q < |t'.rounds[n]| ==>
              t'.rounds[n][q] == Match(t'.rounds[n - 1][2 * q].winner, t'.rounds[n - 1][2 * q + 1].winner, None, Pending)
  }

  lemma ReportRecorded(t: Tournament, r: nat, p: nat, reporter: UserId, winner: int)
    requires Shape(t) && t.status == Running && t.winner.None? && r == |t.rounds| - 1 && p < |Last(t)|
    requires Report(t, r, p, reporter, winner).1 == Reported
    ensures winner > 0 && Recorded(t, Report(t, r, p, reporter, winner).0, p, winner)
  {
    var round := Last(t);
    LastIsPow2(t);
    hide Shape, NextPow2, IsPow2;
    var done := round[p].(winner := Some(winner), status := Done);
    var round' := round[p := done];
    assert done in round' by { assert round'[p] == done; }
    var mid := t.(rounds := t.rounds[r := round']);
    assert mid.rounds[..|t.rounds|] == mid.rounds;
    if q :| 0 <= q < |round| && q != p && round[q].status == Pending {
      assert round'[q] in round';
    } else {
      assert !AnyPending(round');
      assert (mid.rounds + [NextRound(Winners(round'))])[..|t.rounds|] == mid.rounds;
    }
  }

  lemma LastIsPow2(t: Tournament)
    requires Shape(t)
    ensures |Last(t)| == 1 || |Last(t)| % 2 == 0
  {
    hide NextPow2, Opening, Follows, DistinctSeats, AllTaken;
    RoundPow2(Last(t));
  }
}

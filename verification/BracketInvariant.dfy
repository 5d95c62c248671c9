/** The shape every reachable tournament has, and the proof that each transaction keeps it. */
module BracketInvariant {
  import opened Basics
  import opened Shuffle
  import opened Bracket

  function Seats(round: seq<Match>): (seats: seq<Option<UserId>>)
    ensures |seats| == 2 * |round|
  {
    seq(2 * |round|, i requires 0 <= i < 2 * |round| => if i % 2 == 0 then round[i / 2].p1 else round[i / 2].p2)
  }

  /** A pending match has both players or none; a bye has one, who won; a played match has
      two, one of whom won. */
  predicate MatchOk(m: Match) {
    match m.status
    case Pending => m.winner.None? && (m.p1.Some? <==> m.p2.Some?)
    case Bye => m.winner.Some? && ((m.p1 == m.winner && m.p2.None?) || (m.p2 == m.winner && m.p1.None?))
    case Done => m.p1.Some? && m.p2.Some? && m.p1 != m.p2 && (m.winner == m.p1 || m.winner == m.p2)
  }

  ghost predicate RoundOk(round: seq<Match>) {
    IsPow2(|round|) && forall m <- round :: MatchOk(m)
  }

  /** Two seats of a round never hold the same player. */
  ghost predicate DistinctSeats(seats: seq<Option<UserId>>) {
    forall i, j :: 0 <= i < j < |seats| && seats[i].Some? ==> seats[i] != seats[j]
  }

  ghost predicate AllTaken(seats: seq<Option<UserId>>) {
    forall i :: 0 <= i < |seats| ==> seats[i].Some?
  }

  /** `next` is seated by the pairwise winners of `round`, in order. */
  ghost predicate Follows(round: seq<Match>, next: seq<Match>) {
    && !AnyPending(round)
    && |round| == 2 * |next|
    && Seats(next) == Winners(round)
  }

  /** Round 1 seats the players in some order, followed by the empty seats. */
  ghost predicate Opening(t: Tournament, order: seq<UserId>) {
    && t.rounds != []
    && multiset(order) == multiset(t.players) && |order| == |t.players| && Distinct(order)
    && Seats(t.rounds[0]) == Padded(order)
  }

  ghost predicate Shape(t: Tournament) {
    && |t.players| >= 2 && |t.rounds| >= 1
    && 2 * |t.rounds[0]| == NextPow2(|t.players|)
    && (exists order :: Opening(t, order))
    && (forall r :: 0 <= r < |t.rounds| ==> RoundOk(t.rounds[r]) && DistinctSeats(Seats(t.rounds[r])))
    && (forall r :: 0 < r < |t.rounds| ==> AllTaken(Seats(t.rounds[r])))
    && (forall r :: 0 <= r < |t.rounds| - 1 ==> Follows(t.rounds[r], t.rounds[r + 1]))
  }

  function Last(t: Tournament): seq<Match>
    requires t.rounds != []
  {
    t.rounds[|t.rounds| - 1]
  }

  ghost predicate Inv(t: Tournament) {
    && Distinct(t.players)
    && match t.status
       case Open => t.rounds == [] && t.winner.None?
       case Running => Shape(t) && AnyPending(Last(t)) && t.winner.None?
       case Finished => Shape(t) && |Last(t)| == 1 && !AnyPending(Last(t)) && t.winner == Last(t)[0].winner && t.winner.Some?
  }

  // ---- advancing the last round ----

  lemma WinnersTaken(round: seq<Match>)
    requires RoundOk(round) && !AnyPending(round)
    ensures AllTaken(Winners(round))
  {
    forall p | 0 <= p < |round| ensures Winners(round)[p].Some? {
      assert round[p] in round;
      assert MatchOk(round[p]);
    }
  }

  /** A winner sat in their own match, so winners are distinct if seats are. */
  lemma WinnersDistinct(round: seq<Match>)
    requires RoundOk(round) && DistinctSeats(Seats(round)) && !AnyPending(round)
    ensures DistinctSeats(Winners(round))
  {
    forall i, j | 0 <= i < j < |round| && Winners(round)[i].Some?
      ensures Winners(round)[i] != Winners(round)[j]
    {
      var a := WinnerSeat(round, i);
      var b := WinnerSeat(round, j);
      assert a < b;
    }
  }

  lemma WinnerSeat(round: seq<Match>, p: nat) returns (i: nat)
    requires RoundOk(round) && p < |round| && round[p].status != Pending
    ensures i < 2 * |round| && i / 2 == p && Seats(round)[i] == round[p].winner && round[p].winner.Some?
  {
    assert MatchOk(round[p]);
    i := if round[p].p1 == round[p].winner then 2 * p else 2 * p + 1;
  }

  lemma NextRoundOk(winners: seq<Option<UserId>>)
    requires AllTaken(winners) && DistinctSeats(winners) && IsPow2(|winners|) && |winners| > 1
    ensures var next := NextRound(winners);
            && RoundOk(next) && AnyPending(next) && Seats(next) == winners && 2 * |next| == |winners|
  {
    hide IsPow2, NextRound, DistinctSeats, AllTaken, MatchOk, Seats;
    HalfPow2(|winners|);
    NextMatches(winners);
    var next := NextRound(winners);
    assert next[0] in next;
  }

  lemma NextMatches(winners: seq<Option<UserId>>)
    requires AllTaken(winners) && |winners| % 2 == 0
    ensures var next := NextRound(winners);
            && Seats(next) == winners && (forall m <- next :: MatchOk(m) && m.status == Pending)
  {
    var next := NextRound(winners);
    forall p | 0 <= p < |next| ensures MatchOk(next[p]) && next[p].status == Pending {
      assert winners[2 * p].Some? && winners[2 * p + 1].Some?;
    }
    forall i | 0 <= i < |winners| ensures Seats(next)[i] == winners[i] {
      assert i == 2 * (i / 2) || i == 2 * (i / 2) + 1;
    }
  }

  /** advanceRound on the last round restores the invariant, whatever that round's state. */
  lemma AdvanceLast(t: Tournament)
    requires Distinct(t.players) && t.status == Running && t.winner.None? && Shape(t)
    ensures Inv(Advance(t, |t.rounds| - 1))
  {
    hide RoundOk, DistinctSeats, AllTaken, Follows, Opening, NextPow2, NextRound, MatchOk;
    var r, last := |t.rounds| - 1, Last(t);
    RoundNonempty(last);
    if !AnyPending(last) {
      var winners := Winners(last);
      WinnersTaken(last);
      WinnersDistinct(last);
      if |winners| == 1 {
        TakenAt(winners, 0);
        OpeningKept(t, Advance(t, r));
      } else {
        RoundPow2(last);
        NextRoundOk(winners);
        var t' := Advance(t, r);
        assert t'.rounds == t.rounds + [NextRound(winners)];
        FollowsIntro(last, NextRound(winners));
        OpeningKept(t, t');
      }
    }
  }

  lemma RoundNonempty(round: seq<Match>)
    requires RoundOk(round)
    ensures round != []
  {
  }

  lemma RoundPow2(round: seq<Match>)
    requires RoundOk(round)
    ensures IsPow2(|round|)
  {
  }

  lemma TakenAt(seats: seq<Option<UserId>>, i: nat)
    requires AllTaken(seats) && i < |seats|
    ensures seats[i].Some?
  {
  }

  lemma FollowsIntro(round: seq<Match>, next: seq<Match>)
    requires !AnyPending(round) && |round| == 2 * |next| && Seats(next) == Winners(round)
    ensures Follows(round, next)
  {
  }

  lemma OpeningKept(t: Tournament, t': Tournament)
    requires t.rounds != [] && t'.rounds != [] && Seats(t'.rounds[0]) == Seats(t.rounds[0]) && t'.players == t.players
    requires exists order :: Opening(t, order)
    ensures exists order :: Opening(t', order)
  {
    var order :| Opening(t, order);
    assert Opening(t', order);
  }

  // ---- start ----

  lemma {:induction false} ShuffledDistinct<T>(s: seq<T>, c: seq<nat>)
    requires Distinct(s) && Choices(c) && (c == [] || |c| < |s|)
    ensures Distinct(Shuffled(s, c))
    decreases |c|
  {
    if c != [] {
      SwapDistinct(s, |c|, c[|c| - 1]);
      ShuffledDistinct(Swap(s, |c|, c[|c| - 1]), c[..|c| - 1]);
    }
  }

  lemma HalfPow2(p: nat)
    requires IsPow2(p) && p > 1
    ensures p % 2 == 0 && IsPow2(p / 2)
  {
  }

  lemma FirstRoundOk(order: seq<UserId>)
    requires Distinct(order) && |order| >= 2
    ensures var seats := Padded(order);
            var round := FirstRound(seats);
            && Seats(round) == seats && 2 * |round| == NextPow2(|order|)
            && RoundOk(round) && DistinctSeats(seats)
  {
    hide NextPow2, FirstMatch;
    var n, seats := |order|, Padded(order);
    NextPow2IsLeast(n, 0);
    HalfPow2(NextPow2(n));
    FirstSeats(seats);
  }

  lemma FirstSeats(seats: seq<Option<UserId>>)
    requires |seats| % 2 == 0
    requires DistinctSeats(seats)
    ensures Seats(FirstRound(seats)) == seats && forall m <- FirstRound(seats) :: MatchOk(m)
  {
    hide Seats, FirstRound, MatchOk;
    var round := FirstRound(seats);
    forall i | 0 <= i < |seats| ensures Seats(round)[i] == seats[i] {
      FirstSeat(seats, i);
    }
    forall p | 0 <= p < |round| ensures MatchOk(round[p]) {
      FirstOk(seats, p);
    }
  }

  lemma FirstOk(seats: seq<Option<UserId>>, p: nat)
    requires DistinctSeats(seats) && 2 * p + 1 < |seats|
    ensures MatchOk(FirstRound(seats)[p])
  {
    var m := FirstMatch(seats[2 * p], seats[2 * p + 1]);
    assert FirstRound(seats)[p] == m;
  }

  lemma FirstSeat(seats: seq<Option<UserId>>, i: nat)
    requires |seats| % 2 == 0 && i < |seats|
    ensures Seats(FirstRound(seats))[i] == seats[i]
  {
    var p := i / 2;
    assert FirstRound(seats)[p] == FirstMatch(seats[2 * p], seats[2 * p + 1]);
    assert i == 2 * p || i == 2 * p + 1;
  }

  lemma StartKeeps(t: Tournament, requester: UserId, c: seq<nat>)
    requires Inv(t) && FullChoices(c, |t.players|)
    ensures Inv(Start(t, requester, c).0)
  {
    hide NextPow2, Padded, Seats, RoundOk, DistinctSeats, Advance;
    if t.creator == requester && t.status == Open && |t.players| >= 2 {
      var order := Shuffled(t.players, c);
      ShufflePermutes(t.players, c);
      ShuffledDistinct(t.players, c);
      FirstRoundOk(order);
      var t' := t.(status := Running, rounds := [FirstRound(Padded(order))]);
      assert Opening(t', order);
      AdvanceLast(t');
    }
  }

  // ---- reports ----

  /** Recording a result changes no seat and keeps the round well formed. */
  lemma ReportedRound(round: seq<Match>, p: nat, done: Match)
    requires RoundOk(round) && p < |round| && round[p].status == Pending
    requires done == round[p].(winner := done.winner, status := Done) && done.winner.Some?
    requires done.p1.Some? && done.p2.Some? && done.p1 != done.p2 && (done.winner == done.p1 || done.winner == done.p2)
    ensures RoundOk(round[p := done]) && Seats(round[p := done]) == Seats(round)
  {
    var round' := round[p := done];
    forall m <- round' ensures MatchOk(m) {
    }
    forall i | 0 <= i < 2 * |round| ensures Seats(round')[i] == Seats(round)[i] {
    }
  }

  /** In a running tournament only the last round has pending matches. */
  lemma PendingIsLast(t: Tournament, r: nat, p: nat)
    requires Shape(t) && r < |t.rounds| && p < |t.rounds[r]| && t.rounds[r][p].status == Pending
    ensures r == |t.rounds| - 1
  {
    hide RoundOk, DistinctSeats, AllTaken, Opening, NextPow2, Seats;
    assert t.rounds[r][p] in t.rounds[r];
    assert r < |t.rounds| - 1 ==> Follows(t.rounds[r], t.rounds[r + 1]);
  }

  /** A reportable match has two different players. */
  lemma ReportablePair(round: seq<Match>, p: nat)
    requires RoundOk(round) && DistinctSeats(Seats(round)) && p < |round| && round[p].status == Pending
    requires round[p].p1.Some? || round[p].p2.Some?
    ensures round[p].p1.Some? && round[p].p2.Some? && round[p].p1 != round[p].p2
  {
    assert MatchOk(round[p]);
    assert Seats(round)[2 * p] == round[p].p1 && Seats(round)[2 * p + 1] == round[p].p2;
  }

  lemma ReportKeeps(t: Tournament, r: nat, p: nat, reporter: UserId, winner: int)
    requires Inv(t)
    ensures Inv(Report(t, r, p, reporter, winner).0)
  {
    hide RoundOk, DistinctSeats, AllTaken, Follows, Opening, NextPow2, Advance, MatchOk, Seats;
    if Report(t, r, p, reporter, winner).1 == Reported {
      assert t.status != Open;
      PendingIsLast(t, r, p);
      StillPending(t, r, p);
      ReportablePair(t.rounds[r], p);
      var done := t.rounds[r][p].(winner := Some(winner), status := Done);
      ReportedRound(t.rounds[r], p, done);
      var t' := t.(rounds := t.rounds[r := t.rounds[r][p := done]]);
      OpeningKept(t, t');
      if r > 0 {
        assert Follows(t.rounds[r - 1], t.rounds[r - 1 + 1]);
        SeatsDecide(t.rounds[r - 1], t.rounds[r], t'.rounds[r]);
      }
      forall q | 0 <= q < |t'.rounds| - 1 ensures Follows(t'.rounds[q], t'.rounds[q + 1]) {
        assert Follows(t.rounds[q], t.rounds[q + 1]);
      }
      AdvanceLast(t');
    }
  }

  lemma SeatsDecide(round: seq<Match>, next: seq<Match>, next': seq<Match>)
    requires Follows(round, next) && Seats(next') == Seats(next)
    ensures Follows(round, next')
  {
  }

  /** A finished tournament has no pending match. */
  lemma StillPending(t: Tournament, r: nat, p: nat)
    requires Inv(t) && t.status != Open && r < |t.rounds| && p < |t.rounds[r]| && t.rounds[r][p].status == Pending
    ensures t.status == Running
  {
    hide Shape;
    PendingIsLast(t, r, p);
    assert t.rounds[r][p] in Last(t);
  }

  /** In every reachable state advanceRound has nothing left to do, for any round, so
      repeating it changes nothing. */
  lemma AdvanceIsIdempotent(t: Tournament, r: nat)
    requires Inv(t)
    ensures Advance(t, r) == t
  {
    hide RoundOk, DistinctSeats, AllTaken, Opening, NextPow2, MatchOk;
    if t.status == Running && r + 1 < |t.rounds| {
      assert Follows(t.rounds[r], t.rounds[r + 1]);
      assert t.rounds[r + 1 := t.rounds[r + 1]] == t.rounds;
    }
  }

  lemma JoinKeeps(t: Tournament, user: UserId)
    requires Inv(t)
    ensures Inv(Join(t, user).0)
  {
  }

  lemma ApplyKeeps(t: Tournament, step: Step)
    requires Inv(t)
    ensures Inv(Apply(t, step))
  {
    hide Inv, Join, Start, Report, Advance;
    match step
    case JoinStep(user) => JoinKeeps(t, user);
    case StartStep(requester, c) =>
      if FullChoices(c, |t.players|) {
        StartKeeps(t, requester, c);
      }
    case ReportStep(r, p, reporter, winner) => ReportKeeps(t, r, p, reporter, winner);
    case AdvanceStep(r) => AdvanceIsIdempotent(t, r);
  }

  lemma {:induction false} RunKeeps(t: Tournament, steps: seq<Step>)
    requires Inv(t)
    ensures Inv(Run(t, steps))
  {
    hide Inv, Apply;
    if steps != [] {
      RunKeeps(t, steps[..|steps| - 1]);
      ApplyKeeps(Run(t, steps[..|steps| - 1]), steps[|steps| - 1]);
    }
  }

  lemma CreateOk(creator: UserId, maxPlayers: nat)
    ensures Inv(Create(creator, maxPlayers))
  {
  }
}

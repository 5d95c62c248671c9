/** The tournament transactions as the server runs them: loops that pad the seats and insert
    match rows, and conditional row updates. */
module BracketStore {
  import opened Basics
  import opened Shuffle
  import opened Bracket

  class TournamentRows {
    const creator: UserId
    const maxPlayers: nat
    var status: TournamentStatus
    var players: seq<UserId>
    var rounds: seq<seq<Match>>
    var winner: Option<UserId>

    function Contents(): Tournament
      reads this
    {
      Tournament(creator, maxPlayers, status, players, rounds, winner)
    }

    constructor (creator: UserId, maxPlayers: nat)
      ensures Contents() == Create(creator, maxPlayers)
    {
      this.creator, this.maxPlayers := creator, maxPlayers;
      status, players, rounds, winner := Open, [creator], [], None;
    }

    method JoinTournament(user: UserId) returns (outcome: Outcome)
      modifies this`players
      ensures (Contents(), outcome) == Join(old(Contents()), user)
    {
      if status != Open { return AlreadyStarted; }
      if user in players { return AlreadyJoined; }
      if |players| >= maxPlayers { return Full; }
      players := players + [user];
      return Joined;
    }

    /** advanceRound: insert the missing matches of the next round, one row at a time. */
    method AdvanceRound(r: nat)
      modifies this`status, this`rounds, this`winner
      ensures Contents() == Advance(old(Contents()), r)
    {
      if status != Running || r >= |rounds| || rounds[r] == [] || AnyPending(rounds[r]) { return; }
      var winners := Winners(rounds[r]);
      if |winners| == 1 {
        status, winner := Finished, winners[0];
        return;
      }
      ghost var wanted := NextRound(winners);
      var next := if r + 1 < |rounds| then rounds[r + 1] else [];
      ghost var existing := next;
      for position := 0 to (|winners| + 1) / 2
        invariant next == InsertMissing(existing, wanted[..position])
      {
        var m := Match(SeatAt(winners, position * 2), SeatAt(winners, position * 2 + 1), None, Pending);
        assert wanted[..position + 1] == wanted[..position] + [m];
        if position >= |next| {
          next := next + [m];
        }
      }
      assert wanted[..|wanted|] == wanted;
      rounds := if r + 1 < |rounds| then rounds[r + 1 := next] else rounds + [next];
      assert InsertMissing([], wanted) == wanted;
    }

    /** start: shuffle in place, pad with nulls, insert round 1, then advance it. */
    method StartTournament(requester: UserId, c: seq<nat>) returns (outcome: Outcome)
      requires FullChoices(c, |players|)
      modifies this`status, this`rounds, this`winner
      ensures (Contents(), outcome) == Start(old(Contents()), requester, c)
    {
      if creator != requester { return NotCreator; }
      if status != Open { return AlreadyStarted; }
      if |players| < 2 { return TooFewPlayers; }
      var a := new UserId[|players|](i requires 0 <= i < |players| reads this => players[i]);
      assert a[..] == players;
      ShuffleInPlace(a, c);
      var seats := Pad(a[..]);
      var round: seq<Match> := [];
      for position := 0 to |seats| / 2
        invariant round == FirstRound(seats)[..position]
      {
        round := round + [FirstMatch(seats[position * 2], seats[position * 2 + 1])];
      }
      assert round == FirstRound(seats);
      rounds := [round];
      status := Running;
      AdvanceRound(0);
      return Started;
    }

    method ReportResult(r: nat, p: nat, reporter: UserId, winnerId: int) returns (outcome: Outcome)
      modifies this`status, this`rounds, this`winner
      ensures (Contents(), outcome) == Report(old(Contents()), r, p, reporter, winnerId)
    {
      if r >= |rounds| || p >= |rounds[r]| { return MatchNotFound; }
      var m := rounds[r][p];
      if m.status != Pending { return AlreadyResolved; }
      if !(m.p1.Some? && m.p1.value == winnerId) && !(m.p2.Some? && m.p2.value == winnerId) { return NotAPlayer; }
      if m.p1 != Some(reporter) && m.p2 != Some(reporter) { return NotAParticipant; }
      rounds := rounds[r := rounds[r][p := m.(winner := Some(winnerId), status := Done)]];
      AdvanceRound(r);
      return Reported;
    }
  }
}

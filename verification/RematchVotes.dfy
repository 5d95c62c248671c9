/** services/rematchVotes.js: the vote sets behind accept_rematch. The local backend is a Map
    of Sets changed in place; the Redis backend runs the same commands on sets that all
    replicas share, with other replicas' commands between SADD and SCARD, and with expiry. */
module RematchVotes {
  type Votes = map<int, set<int>>

  datatype Command =
    | Add(game: int, user: int)
    | Remove(game: int, user: int)
    | Clear(game: int)
    | Expire(game: int)

  function Voters(votes: Votes, game: int): set<int> {
    if game in votes then votes[game] else {}
  }

  /** keyForGame and assertUserId refuse ids that are not positive. */
  predicate Refused(c: Command) {
    c.game <= 0 || (c.Add? && c.user <= 0)
  }

  function Apply(votes: Votes, c: Command): Votes {
    if Refused(c) then votes
    else
      match c
      case Add(game, user) => votes[game := Voters(votes, game) + {user}]
      case Remove(game, user) => if game in votes then votes[game := votes[game] - {user}] else votes
      case Clear(game) => votes - {game}
      case Expire(game) => votes - {game}
  }

  function After(log: seq<Command>): Votes {
    if log == [] then map[] else Apply(After(log[..|log| - 1]), log[|log| - 1])
  }

  /** Command i is an accepted vote of the user on the game, and nothing later withdrew it. */
  ghost predicate StandsSince(log: seq<Command>, game: int, user: int, i: nat) {
    && i < |log| && log[i] == Add(game, user) && !Refused(log[i])
    && forall j :: i < j < |log| ==> log[j] != Remove(game, user) && log[j] != Clear(game) && log[j] != Expire(game)
  }

  ghost predicate Standing(log: seq<Command>, game: int, user: int) {
    exists i :: StandsSince(log, game, user, i)
  }

  lemma StandingStep(log: seq<Command>, c: Command, game: int, user: int)
    ensures Standing(log + [c], game, user) <==>
            if c == Add(game, user) && !Refused(c) then true
            else if c == Remove(game, user) || c == Clear(game) || c == Expire(game) then false
            else Standing(log, game, user)
  {
    var log' := log + [c];
    if c == Add(game, user) && !Refused(c) {
      assert StandsSince(log', game, user, |log|);
    } else if c != Remove(game, user) && c != Clear(game) && c != Expire(game) && Standing(log, game, user) {
      var i: nat :| StandsSince(log, game, user, i);
      assert StandsSince(log', game, user, i);
    }
    if Standing(log', game, user) {
      var i: nat :| StandsSince(log', game, user, i);
      assert log'[|log|] == c;
      if i < |log| {
        forall j | i < j < |log|
          ensures log[j] != Remove(game, user) && log[j] != Clear(game) && log[j] != Expire(game)
        {
          assert log'[j] == log[j];
        }
        assert StandsSince(log, game, user, i);
      }
    }
  }

  /** After any commands, in any interleaving, a game's set holds exactly the users with a
      standing vote on it. */
  lemma {:induction false} VotersAreStanding(log: seq<Command>, game: int, user: int)
    ensures user in Voters(After(log), game) <==> Standing(log, game, user)
  {
    if log != [] {
      var front, c := log[..|log| - 1], log[|log| - 1];
      VotersAreStanding(front, game, user);
      StandingStep(front, c, game, user);
      assert front + [c] == log;
      if game <= 0 {
        NoVotersRefused(front, game);
      }
    }
  }

  lemma {:induction false} NoVotersRefused(log: seq<Command>, game: int)
    requires game <= 0
    ensures game !in After(log)
  {
    if log != [] {
      NoVotersRefused(log[..|log| - 1], game);
    }
  }

  /** When only the two seated users ever voted on a game, a count of at least two is read
      exactly when both votes stand at the moment of the count. */
  lemma QuorumExactlyWhen(log: seq<Command>, game: int, white: int, black: int)
    requires white != black
    requires forall c <- log :: c.Add? && c.game == game ==> c.user == white || c.user == black
    ensures |Voters(After(log), game)| >= 2 <==> Standing(log, game, white) && Standing(log, game, black)
  {
    var voters := Voters(After(log), game);
    VotersAreStanding(log, game, white);
    VotersAreStanding(log, game, black);
    forall u | u in voters ensures u == white || u == black {
      VotersAreStanding(log, game, u);
      var i: nat :| StandsSince(log, game, u, i);
      assert log[i] in log;
    }
    if white in voters && black in voters {
      assert voters == {white, black};
    } else if white in voters {
      assert voters == {white};
    } else if black in voters {
      assert voters == {black};
    } else {
      assert voters == {};
    }
  }

  datatype VoteReply = Threw | Counted(count: nat)

  /** createLocalBackend */
  class LocalBackend {
    var votes: Votes
    ghost var log: seq<Command>

    ghost predicate Valid()
      reads this
    {
      votes == After(log)
    }

    constructor ()
      ensures Valid() && log == []
    {
      votes := map[];
      log := [];
    }

    method AddVote(game: int, user: int) returns (reply: VoteReply)
      requires Valid()
      modifies this
      ensures Valid() && log == old(log) + [Add(game, user)]
      ensures reply == if game <= 0 || user <= 0 then Threw else Counted(|Voters(After(log), game)|)
    {
      log := log + [Add(game, user)];
      assert log[..|log| - 1] == old(log);
      if game <= 0 || user <= 0 { return Threw; }
      if game !in votes {
        votes := votes[game := {}];
      }
      votes := votes[game := votes[game] + {user}];
      assert votes == Apply(old(votes), Add(game, user));
      reply := Counted(|votes[game]|);
    }

    method RemoveVote(game: int, user: int) returns (ok: bool)
      requires Valid()
      modifies this
      ensures Valid() && log == old(log) + [Remove(game, user)] && ok == (game > 0)
    {
      log := log + [Remove(game, user)];
      assert log[..|log| - 1] == old(log);
      if game <= 0 { return false; }
      if game in votes {
        votes := votes[game := votes[game] - {user}];
      }
      ok := true;
    }

    method ClearVotes(game: int) returns (ok: bool)
      requires Valid()
      modifies this
      ensures Valid() && log == old(log) + [Clear(game)] && ok == (game > 0)
    {
      log := log + [Clear(game)];
      assert log[..|log| - 1] == old(log);
      if game <= 0 { return false; }
      votes := votes - {game};
      ok := true;
    }
  }
}

/** models/Tournament.js: single-elimination tournaments as a state machine whose steps are
    the transactions (join, start, reportResult, maybeAdvanceRound). */
module Bracket {
  import opened Basics
  import opened Shuffle

  type UserId = n: int | n > 0 witness 1

  datatype MatchStatus = Pending | Bye | Done
  datatype Match = Match(p1: Option<UserId>, p2: Option<UserId>, winner: Option<UserId>, status: MatchStatus)

  datatype TournamentStatus = Open | Running | Finished

  /** `rounds[r][p]` is the row with round r + 1 and position p. */
  datatype Tournament = Tournament(
    creator: UserId,
    maxPlayers: nat,
    status: TournamentStatus,
    players: seq<UserId>,
    rounds: seq<seq<Match>>,
    winner: Option<UserId>
  )

  datatype Outcome =
    | Joined | AlreadyJoined | Started | Reported
    | AlreadyStarted | Full | NotCreator | TooFewPlayers
    | MatchNotFound | AlreadyResolved | NotAPlayer | NotAParticipant

  // ---- nextPow2 and padding ----

  function DoubleUntil(p: nat, n: nat): (r: nat)
    requires p > 0
    decreases if p < n then n - p else 0
  {
    if p < n then DoubleUntil(p * 2, n) else p
  }

  function NextPow2(n: nat): nat {
    DoubleUntil(1, n)
  }

  ghost predicate IsPow2(p: nat)
    decreases p
  {
    p == 1 || (p > 1 && p % 2 == 0 && IsPow2(p / 2))
  }

  /** nextPow2: the doubling loop. */
  method NextPow2Loop(n: nat) returns (p: nat)
    ensures p == NextPow2(n) && IsPow2(p) && n <= p && (n > 1 ==> p < 2 * n)
  {
    p := 1;
    while p < n
      invariant p > 0 && IsPow2(p) && DoubleUntil(p, n) == NextPow2(n) && (p == 1 || p < 2 * n)
      decreases if p < n then n - p else 0
    {
      Doubled(p);
      p := p * 2;
    }
  }

  lemma Doubled(p: nat)
    requires p > 0
    ensures IsPow2(p) ==> IsPow2(p * 2)
  {
    assert (p * 2) / 2 == p && (p * 2) % 2 == 0;
  }

  /** nextPow2(n) is the least power of two that is at least n. */
  lemma {:induction false} DoublingReaches(p: nat, n: nat)
    requires IsPow2(p) && (p == 1 || p < 2 * n)
    ensures IsPow2(DoubleUntil(p, n)) && n <= DoubleUntil(p, n)
    ensures DoubleUntil(p, n) == 1 || DoubleUntil(p, n) < 2 * n
    decreases if p < n then n - p else 0
  {
    if p < n {
      var twice := p * 2;
      assert twice / 2 == p && twice % 2 == 0;
      assert IsPow2(twice);
      DoublingReaches(twice, n);
    }
  }

  lemma {:induction false} PowersApart(p: nat, q: nat)
    requires IsPow2(p) && IsPow2(q) && p < q
    ensures 2 * p <= q
  {
    if p > 1 {
      PowersApart(p / 2, q / 2);
    }
  }

  lemma NextPow2IsLeast(n: nat, q: nat)
    ensures IsPow2(NextPow2(n)) && n <= NextPow2(n) && (n > 1 ==> NextPow2(n) < 2 * n)
    ensures IsPow2(q) && n <= q ==> NextPow2(n) <= q
  {
    DoublingReaches(1, n);
    if IsPow2(q) && n <= q < NextPow2(n) {
      PowersApart(q, NextPow2(n));
    }
  }

  function Padded(players: seq<UserId>): (seats: seq<Option<UserId>>)
    ensures |seats| >= |players|
  {
    seq(|players|, i requires 0 <= i < |players| => Some(players[i]))
    + seq(if NextPow2(|players|) >= |players| then NextPow2(|players|) - |players| else 0, _ => None)
  }

  /** The padding loop asks nextPow2 of the growing length each time; it ends at nextPow2(n). */
  method Pad(players: seq<UserId>) returns (seats: seq<Option<UserId>>)
    ensures seats == Padded(players) && |seats| == NextPow2(|players|)
  {
    seats := seq(|players|, i requires 0 <= i < |players| => Some(players[i]));
    var n := |players|;
    NextPow2IsLeast(n, 0);
    while |seats| < NextPow2(|seats|)
      invariant n <= |seats| <= NextPow2(n)
      invariant NextPow2(|seats|) == NextPow2(n)
      invariant seats == seq(n, i requires 0 <= i < n => Some(players[i])) + seq(|seats| - n, _ => None)
      decreases NextPow2(n) - |seats|
    {
      seats := seats + [None];
      NextPow2IsLeast(n, NextPow2(|seats|));
      NextPow2IsLeast(|seats|, NextPow2(n));
    }
  }

  // ---- rounds ----

  function FirstMatch(p1: Option<UserId>, p2: Option<UserId>): Match {
    var winner := if p1.None? then p2 else if p2.None? then p1 else None;
    Match(p1, p2, winner, if winner.Some? then Bye else Pending)
  }

  function FirstRound(seats: seq<Option<UserId>>): (round: seq<Match>)
    ensures |round| == |seats| / 2
  {
    seq(|seats| / 2, p requires 0 <= p < |seats| / 2 => FirstMatch(seats[2 * p], seats[2 * p + 1]))
  }

  function Winners(round: seq<Match>): (winners: seq<Option<UserId>>)
    ensures |winners| == |round|
  {
    seq(|round|, p requires 0 <= p < |round| => round[p].winner)
  }

  function SeatAt(seats: seq<Option<UserId>>, i: nat): Option<UserId> {
    if i < |seats| then seats[i] else None
  }

  function NextRound(winners: seq<Option<UserId>>): (round: seq<Match>)
    ensures |round| == (|winners| + 1) / 2
  {
    seq((|winners| + 1) / 2, p requires 0 <= p < (|winners| + 1) / 2 =>
      Match(SeatAt(winners, 2 * p), SeatAt(winners, 2 * p + 1), None, Pending))
  }

  predicate AnyPending(round: seq<Match>) {
    exists m <- round :: m.status == Pending
  }

  /** ON CONFLICT DO NOTHING: rows that exist stay as they are. */
  function InsertMissing(existing: seq<Match>, wanted: seq<Match>): seq<Match> {
    if |wanted| <= |existing| then existing else existing + wanted[|existing|..]
  }

  /** advanceRound(client, id, r + 1) */
  function Advance(t: Tournament, r: nat): Tournament {
    if t.status != Running then t
    else if r >= |t.rounds| || t.rounds[r] == [] || AnyPending(t.rounds[r]) then t
    else
      var winners := Winners(t.rounds[r]);
      if |winners| == 1 then t.(status := Finished, winner := winners[0])
      else
        var wanted := NextRound(winners);
        if r + 1 < |t.rounds| then t.(rounds := t.rounds[r + 1 := InsertMissing(t.rounds[r + 1], wanted)])
        else t.(rounds := t.rounds + [wanted])
  }

  function Create(creator: UserId, maxPlayers: nat): Tournament {
    Tournament(creator, maxPlayers, Open, [creator], [], None)
  }

  function Join(t: Tournament, user: UserId): (Tournament, Outcome) {
    if t.status != Open then (t, AlreadyStarted)
    else if user in t.players then (t, AlreadyJoined)
    else if |t.players| >= t.maxPlayers then (t, Full)
    else (t.(players := t.players + [user]), Joined)
  }

  /** `c`: the random choices of the shuffle. */
  function Start(t: Tournament, requester: UserId, c: seq<nat>): (Tournament, Outcome)
    requires FullChoices(c, |t.players|)
  {
    if t.creator != requester then (t, NotCreator)
    else if t.status != Open then (t, AlreadyStarted)
    else if |t.players| < 2 then (t, TooFewPlayers)
    else
      var seats := Padded(Shuffled(t.players, c));
      (Advance(t.(status := Running, rounds := [FirstRound(seats)]), 0), Started)
  }

  function Report(t: Tournament, r: nat, p: nat, reporter: UserId, winner: int): (Tournament, Outcome) {
    if r >= |t.rounds| || p >= |t.rounds[r]| then (t, MatchNotFound)
    else
      var m := t.rounds[r][p];
      if m.status != Pending then (t, AlreadyResolved)
      else if !(m.p1.Some? && m.p1.value == winner) && !(m.p2.Some? && m.p2.value == winner) then (t, NotAPlayer)
      else if m.p1 != Some(reporter) && m.p2 != Some(reporter) then (t, NotAParticipant)
      else
        var done := m.(winner := Some(winner), status := Done);
        (Advance(t.(rounds := t.rounds[r := t.rounds[r][p := done]]), r), Reported)
  }

  datatype Step =
    | JoinStep(user: UserId)
    | StartStep(requester: UserId, c: seq<nat>)
    | ReportStep(round: nat, position: nat, reporter: UserId, winner: int)
    | AdvanceStep(round: nat)

  ghost function Apply(t: Tournament, step: Step): Tournament {
    match step
    case JoinStep(user) => Join(t, user).0
    case StartStep(requester, c) =>
      if FullChoices(c, |t.players|) then Start(t, requester, c).0 else t
    case ReportStep(r, p, reporter, winner) => Report(t, r, p, reporter, winner).0
    case AdvanceStep(r) => Advance(t, r)
  }

  ghost function Run(t: Tournament, steps: seq<Step>): Tournament {
    if steps == [] then t else Apply(Run(t, steps[..|steps| - 1]), steps[|steps| - 1])
  }
}

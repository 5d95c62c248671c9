/** Concurrent reportResult transactions at the level of their row locks. Each locks its match,
    then the tournament, then every match of the round; two of them can wait for each other,
    and PostgreSQL then aborts one. Every such run is a run of the atomic steps of `Bracket`,
    in the order of the commits. */
module BracketLocks {
  import opened Basics
  import opened Bracket
  import opened BracketInvariant
  import opened BracketTheorems

  datatype Request = Request(round: nat, position: nat, reporter: UserId, winner: int)

  /** Where a transaction stands: nothing read yet; match row locked and read; match row
      updated; tournament row locked and its status read; the first rows of the round locked
      and read, one by one; answered (committed); rolled back. */
  datatype Stage =
    | Begin
    | Locked(m: Match)
    | Updated(done: Match)
    | Advancing(done: Match, running: bool)
    | Collecting(done: Match, rows: seq<Match>)
    | Answered(outcome: Outcome)
    | Aborted

  datatype Session = Session(req: Request, stage: Stage)

  datatype Entry = Did(session: nat, outcome: Outcome) | Also(step: Step)

  /** `db`: committed rows; `log` (history): what committed, in order. */
  datatype Sys = Sys(db: Tournament, sessions: seq<Session>, log: seq<Entry>)

  predicate HasRow(t: Tournament, r: nat, p: nat) {
    r < |t.rounds| && p < |t.rounds[r]|
  }

  // ---- locks ----

  predicate HoldsRow(x: Session, r: nat, p: nat) {
    match x.stage
    case Locked(_) => x.req.round == r && x.req.position == p
    case Updated(_) => x.req.round == r && x.req.position == p
    case Advancing(_, _) => x.req.round == r && x.req.position == p
    case Collecting(_, rows) => x.req.round == r && (x.req.position == p || p < |rows|)
    case _ => false
  }

  predicate HoldsTournament(x: Session) {
    x.stage.Advancing? || x.stage.Collecting?
  }

  ghost predicate RowFree(s: Sys, i: nat, r: nat, p: nat) {
    forall j :: 0 <= j < |s.sessions| && j != i ==> !HoldsRow(s.sessions[j], r, p)
  }

  ghost predicate RoundFree(s: Sys, i: nat, r: nat) {
    forall p: nat :: RowFree(s, i, r, p)
  }

  ghost predicate TournamentFree(s: Sys, i: nat) {
    forall j :: 0 <= j < |s.sessions| && j != i ==> !HoldsTournament(s.sessions[j])
  }

  // ---- statements ----

  /** The refusals of reportResult, from the locked row. */
  function Refusal(m: Match, q: Request): Option<Outcome> {
    if m.status != Pending then Some(AlreadyResolved)
    else if !(m.p1.Some? && m.p1.value == q.winner) && !(m.p2.Some? && m.p2.value == q.winner) then Some(NotAPlayer)
    else if m.p1 != Some(q.reporter) && m.p2 != Some(q.reporter) then Some(NotAParticipant)
    else None
  }

  function Resolved(m: Match, q: Request): Match {
    if q.winner > 0 then m.(winner := Some(q.winner), status := Done) else m
  }

  function WithRow(t: Tournament, q: Request, done: Match): Tournament {
    if HasRow(t, q.round, q.position)
    then t.(rounds := t.rounds[q.round := t.rounds[q.round][q.position := done]])
    else t
  }

  /** What the transaction leaves at COMMIT, computed from the rows it read. */
  function Closed(t: Tournament, q: Request, done: Match, rows: seq<Match>): Tournament {
    var updated := WithRow(t, q, done);
    if rows == [] || AnyPending(rows) then updated
    else
      var winners := Winners(rows);
      if |winners| == 1 then updated.(status := Finished, winner := winners[0])
      else
        var r, wanted := q.round, NextRound(winners);
        if r + 1 < |updated.rounds|
        then updated.(rounds := updated.rounds[r + 1 := InsertMissing(updated.rounds[r + 1], wanted)])
        else updated.(rounds := updated.rounds + [wanted])
  }

  function At(s: Sys, i: nat, stage: Stage): Sys
    requires i < |s.sessions|
  {
    s.(sessions := s.sessions[i := s.sessions[i].(stage := stage)])
  }

  function Answer(s: Sys, i: nat, outcome: Outcome, db: Tournament): Sys
    requires i < |s.sessions|
  {
    At(s, i, Answered(outcome)).(db := db, log := s.log + [Did(i, outcome)])
  }

  /** Session i runs its next statement, or waits for a lock. */
  ghost function Turn(s: Sys, i: nat): Sys
    requires i < |s.sessions|
  {
    var q := s.sessions[i].req;
    match s.sessions[i].stage
    case Begin =>
      if !HasRow(s.db, q.round, q.position) then Answer(s, i, MatchNotFound, s.db)
      else if RowFree(s, i, q.round, q.position) then At(s, i, Locked(s.db.rounds[q.round][q.position]))
      else s
    case Locked(m) =>
      (match Refusal(m, q)
       case Some(outcome) => Answer(s, i, outcome, s.db)
       case None => At(s, i, Updated(Resolved(m, q))))
    case Updated(done) =>
      if TournamentFree(s, i) then At(s, i, Advancing(done, s.db.status == Running)) else s
    case Advancing(done, running) =>
      if !running then Answer(s, i, Reported, WithRow(s.db, q, done))
      else At(s, i, Collecting(done, []))
    case Collecting(done, rows) =>
      if !HasRow(s.db, q.round, |rows|) then Answer(s, i, Reported, Closed(s.db, q, done, rows))
      else if |rows| == q.position then At(s, i, Collecting(done, rows + [done]))
      else if RowFree(s, i, q.round, |rows|) then At(s, i, Collecting(done, rows + [s.db.rounds[q.round][|rows|]]))
      else s
    case _ => s
  }

  /** join, start and maybeAdvanceRound take the tournament row first, and the last also the
      rows of its round. */
  ghost predicate Unblocked(s: Sys, step: Step) {
    && !step.ReportStep?
    && TournamentFree(s, |s.sessions|)
    && (step.AdvanceStep? ==> RoundFree(s, |s.sessions|, step.round))
  }

  datatype Event = Runs(i: nat) | Abort(i: nat) | Other(step: Step)

  ghost function Next(s: Sys, e: Event): Sys {
    match e
    case Runs(i) => if i < |s.sessions| then Turn(s, i) else s
    case Abort(i) => if i < |s.sessions| && !s.sessions[i].stage.Answered? then At(s, i, Aborted) else s
    case Other(step) => if Unblocked(s, step) then s.(db := Apply(s.db, step), log := s.log + [Also(step)]) else s
  }

  ghost function After(s: Sys, events: seq<Event>): Sys {
    if events == [] then s else Next(After(s, events[..|events| - 1]), events[|events| - 1])
  }

  function Fresh(t: Tournament, requests: seq<Request>): Sys {
    Sys(t, seq(|requests|, i requires 0 <= i < |requests| => Session(requests[i], Begin)), [])
  }

  // ---- the same transactions one after another ----

  ghost function Effect(t: Tournament, requests: seq<Request>, e: Entry): Tournament {
    match e
    case Did(i, _) => if i < |requests| then Atomic(t, requests[i]).0 else t
    case Also(step) => Apply(t, step)
  }

  function Atomic(t: Tournament, q: Request): (Tournament, Outcome) {
    Report(t, q.round, q.position, q.reporter, q.winner)
  }

  ghost function Serial(t: Tournament, requests: seq<Request>, log: seq<Entry>): Tournament {
    if log == [] then t else Effect(Serial(t, requests, log[..|log| - 1]), requests, log[|log| - 1])
  }

  // ---- the invariant ----

  ghost predicate SessionOk(db: Tournament, x: Session) {
    var q := x.req;
    match x.stage
    case Locked(m) => HasRow(db, q.round, q.position) && db.rounds[q.round][q.position] == m
    case Updated(done) => UpdateOk(db, q, done)
    case Advancing(done, running) => UpdateOk(db, q, done) && running == (db.status == Running)
    case Collecting(done, rows) =>
      && UpdateOk(db, q, done) && db.status == Running
      && rows <= db.rounds[q.round][q.position := done]
    case _ => true
  }

  ghost predicate UpdateOk(db: Tournament, q: Request, done: Match) {
    && HasRow(db, q.round, q.position)
    && var m := db.rounds[q.round][q.position];
    && Refusal(m, q).None? && done == Resolved(m, q)
  }

  ghost predicate Exclusive(x: Session, y: Session) {
    && !(HoldsTournament(x) && HoldsTournament(y))
    && forall r: nat, p: nat :: !(HoldsRow(x, r, p) && HoldsRow(y, r, p))
  }

  ghost predicate Ok(s: Sys) {
    && Inv(s.db)
    && (forall i :: 0 <= i < |s.sessions| ==> SessionOk(s.db, s.sessions[i]))
    && (forall i, j :: 0 <= i < j < |s.sessions| ==> Exclusive(s.sessions[i], s.sessions[j]))
  }

  // ---- what a commit does ----

  /** An answer is what the atomic transaction gives on the rows committed so far. */
  lemma AnswerIsAtomic(s: Sys, i: nat)
    requires Ok(s) && i < |s.sessions|
    ensures var s', q := Turn(s, i), s.sessions[i].req;
            if s'.sessions[i].stage.Answered? && !s.sessions[i].stage.Answered?
            then (s'.db, s'.sessions[i].stage.outcome) == Atomic(s.db, q)
                 && s'.log == s.log + [Did(i, s'.sessions[i].stage.outcome)]
            else s'.db == s.db && s'.log == s.log
  {
    hide Inv, Exclusive, RowFree, TournamentFree, NextRound;
    var x := s.sessions[i];
    assert SessionOk(s.db, x);
    match x.stage
    case Advancing(done, running) => CommitIsAtomic(s.db, x.req, done, []);
    case Collecting(done, rows) =>
      if !HasRow(s.db, x.req.round, |rows|) {
        CommitIsAtomic(s.db, x.req, done, rows);
      }
    case _ =>
  }

  lemma CommitIsAtomic(t: Tournament, q: Request, done: Match, rows: seq<Match>)
    requires UpdateOk(t, q, done)
    ensures t.status != Running ==> Atomic(t, q) == (WithRow(t, q, done), Reported)
    ensures t.status == Running && rows <= t.rounds[q.round][q.position := done] && !HasRow(t, q.round, |rows|) ==>
              Atomic(t, q) == (Closed(t, q, done, rows), Reported)
  {
    hide NextRound, InsertMissing, Winners, AnyPending;
    var m := t.rounds[q.round][q.position];
    assert Resolved(m, q) == m.(winner := Some(q.winner), status := Done);
    var base := WithRow(t, q, done);
    assert Atomic(t, q) == (Advance(base, q.round), Reported);
    if t.status == Running && rows <= base.rounds[q.round] && !HasRow(t, q.round, |rows|) {
      assert rows == base.rounds[q.round];
    }
  }

  /** Rows other than (r, p) stay as they are. */
  ghost predicate OnlyRow(t: Tournament, t': Tournament, r: nat, p: nat) {
    forall r': nat, p': nat :: HasRow(t, r', p') && (r', p') != (r, p) ==>
      HasRow(t', r', p') && t'.rounds[r'][p'] == t.rounds[r'][p']
  }

  lemma AdvanceKeepsRows(t: Tournament, r: nat, p: nat, any: nat)
    ensures OnlyRow(t, Advance(t, r), any, p)
  {
    hide NextRound, Winners, AnyPending;
  }

  lemma ReportTouches(t: Tournament, q: Request)
    ensures OnlyRow(t, Atomic(t, q).0, q.round, q.position)
  {
    hide Advance;
    if HasRow(t, q.round, q.position) {
      var m := t.rounds[q.round][q.position];
      var base := WithRow(t, q, m.(winner := if q.winner > 0 then Some(q.winner) else None, status := Done));
      AdvanceKeepsRows(base, q.round, q.position, q.round);
      assert OnlyRow(t, base, q.round, q.position);
    }
  }

  // ---- every statement keeps the invariant ----

  lemma OtherSession(t: Tournament, t': Tournament, x: Session, r: nat, p: nat)
    requires SessionOk(t, x) && OnlyRow(t, t', r, p) && !HoldsRow(x, r, p) && !HoldsTournament(x)
    ensures SessionOk(t', x)
  {
  }

  /** Session i moved to a stage that fits the rows and shares no lock. */
  lemma StageKeeps(s: Sys, i: nat, stage: Stage)
    requires Ok(s) && i < |s.sessions| && SessionOk(s.db, s.sessions[i].(stage := stage))
    requires forall j :: 0 <= j < |s.sessions| && j != i ==> Exclusive(s.sessions[i].(stage := stage), s.sessions[j])
    ensures Ok(At(s, i, stage))
  {
    hide SessionOk, Inv;
    var s' := At(s, i, stage);
    forall j, k | 0 <= j < k < |s'.sessions| ensures Exclusive(s'.sessions[j], s'.sessions[k]) {
      if k == i {
        ExclusiveSymmetric(s'.sessions[i], s.sessions[j]);
      }
    }
  }

  lemma ExclusiveSymmetric(x: Session, y: Session)
    ensures Exclusive(x, y) <==> Exclusive(y, x)
  {
  }

  lemma PairExclusive(s: Sys, i: nat, j: nat)
    requires Ok(s) && i < |s.sessions| && j < |s.sessions| && i != j
    ensures Exclusive(s.sessions[i], s.sessions[j])
  {
    ExclusiveSymmetric(s.sessions[i], s.sessions[j]);
    hide Exclusive;
  }

  /** Holding no more than before, or more that nobody else holds, stays exclusive. */
  lemma StillExclusive(s: Sys, i: nat, stage: Stage)
    requires Ok(s) && i < |s.sessions|
    requires var x' := s.sessions[i].(stage := stage);
             && (HoldsTournament(x') ==> HoldsTournament(s.sessions[i]) || TournamentFree(s, i))
             && (forall r: nat, p: nat :: HoldsRow(x', r, p) ==> HoldsRow(s.sessions[i], r, p) || RowFree(s, i, r, p))
    ensures forall j :: 0 <= j < |s.sessions| && j != i ==> Exclusive(s.sessions[i].(stage := stage), s.sessions[j])
  {
    hide Ok, HoldsRow, HoldsTournament;
    forall j | 0 <= j < |s.sessions| && j != i
      ensures Exclusive(s.sessions[i].(stage := stage), s.sessions[j])
    {
      PairExclusive(s, i, j);
    }
  }

  /** A statement that does not commit. */
  lemma StatementKeeps(s: Sys, i: nat)
    requires Ok(s) && i < |s.sessions|
    requires !Turn(s, i).sessions[i].stage.Answered? || s.sessions[i].stage.Answered?
    ensures Ok(Turn(s, i))
  {
    assert SessionOk(s.db, s.sessions[i]);
    hide Inv, Exclusive;
    if Turn(s, i) != s {
      var stage := Turn(s, i).sessions[i].stage;
      assert Turn(s, i) == At(s, i, stage);
      StatementFits(s, i);
      StillExclusive(s, i, stage);
      StageKeeps(s, i, stage);
    }
  }

  lemma StatementFits(s: Sys, i: nat)
    requires i < |s.sessions| && SessionOk(s.db, s.sessions[i]) && Turn(s, i) != s
    requires !Turn(s, i).sessions[i].stage.Answered?
    ensures SessionOk(s.db, Turn(s, i).sessions[i])
    ensures var x' := Turn(s, i).sessions[i];
            && (HoldsTournament(x') ==> HoldsTournament(s.sessions[i]) || TournamentFree(s, i))
            && (forall r: nat, p: nat :: HoldsRow(x', r, p) ==> HoldsRow(s.sessions[i], r, p) || RowFree(s, i, r, p))
  {
    hide RowFree, TournamentFree, Closed, WithRow, Refusal, Resolved;
  }

  lemma AnswerKeeps(s: Sys, i: nat)
    requires Ok(s) && i < |s.sessions|
    requires Turn(s, i).sessions[i].stage.Answered? && !s.sessions[i].stage.Answered?
    ensures Ok(Turn(s, i))
  {
    hide Inv, Report, Turn, Exclusive, SessionOk, OnlyRow, RowFree, TournamentFree;
    var s', x := Turn(s, i), s.sessions[i];
    AnswerIsAtomic(s, i);
    AnswerShape(s, i);
    ReportTouches(s.db, x.req);
    ReportKeeps(s.db, x.req.round, x.req.position, x.req.reporter, x.req.winner);
    forall j | 0 <= j < |s.sessions| && j != i ensures SessionOk(s'.db, s.sessions[j]) {
      if s'.db != s.db {
        PairExclusive(s, i, j);
        LoserHoldsNothing(x, s.sessions[j]);
        OtherSession(s.db, s'.db, s.sessions[j], x.req.round, x.req.position);
      }
    }
    forall j, k | 0 <= j < k < |s'.sessions| ensures Exclusive(s'.sessions[j], s'.sessions[k]) {
      AnsweredIsFree(s'.sessions[i], s'.sessions[j]);
      AnsweredIsFree(s'.sessions[i], s'.sessions[k]);
      if j != i && k != i {
        PairExclusive(s, j, k);
      }
    }
    AnsweredFits(s'.db, s'.sessions[i]);
  }

  /** Only the holder of the tournament row and of its own match row changes any row. */
  lemma AnswerShape(s: Sys, i: nat)
    requires i < |s.sessions| && Turn(s, i).sessions[i].stage.Answered? && !s.sessions[i].stage.Answered?
    ensures var s', x := Turn(s, i), s.sessions[i];
            && s'.sessions == s.sessions[i := x.(stage := s'.sessions[i].stage)]
            && (s'.db != s.db ==> HoldsTournament(x) && HoldsRow(x, x.req.round, x.req.position))
  {
    hide RowFree, TournamentFree, Closed, WithRow;
  }

  lemma LoserHoldsNothing(x: Session, y: Session)
    requires Exclusive(x, y) && HoldsTournament(x) && HoldsRow(x, x.req.round, x.req.position)
    ensures !HoldsTournament(y) && !HoldsRow(y, x.req.round, x.req.position)
  {
  }

  lemma AnsweredIsFree(x: Session, y: Session)
    requires x.stage.Answered?
    ensures Exclusive(x, y) && Exclusive(y, x)
  {
  }

  lemma AnsweredFits(t: Tournament, x: Session)
    requires x.stage.Answered?
    ensures SessionOk(t, x)
  {
  }

  lemma OtherKeeps(s: Sys, step: Step)
    requires Ok(s) && Unblocked(s, step)
    ensures Ok(Next(s, Other(step)))
  {
    var t, t' := s.db, Apply(s.db, step);
    ApplyKeeps(t, step);
    assert t.status == Open ==> t.rounds == [];
    assert step.AdvanceStep? ==> t' == t by {
      if step.AdvanceStep? { AdvanceIsIdempotent(t, step.round); }
    }
    hide Inv, Exclusive, Advance;
    forall i | 0 <= i < |s.sessions| ensures SessionOk(t', s.sessions[i]) {
      assert !HoldsTournament(s.sessions[i]);
    }
  }

  lemma TurnSessions(s: Sys, i: nat)
    requires i < |s.sessions|
    ensures |Turn(s, i).sessions| == |s.sessions|
    ensures forall j :: 0 <= j < |s.sessions| ==>
              Turn(s, i).sessions[j].req == s.sessions[j].req && (j != i ==> Turn(s, i).sessions[j] == s.sessions[j])
  {
    hide RowFree, TournamentFree, Closed, WithRow;
  }

  lemma NextKeeps(s: Sys, e: Event)
    requires Ok(s)
    ensures Ok(Next(s, e))
  {
    hide Inv, SessionOk, Exclusive, Turn, Unblocked;
    match e
    case Runs(i) =>
      if i < |s.sessions| {
        TurnSessions(s, i);
        if Turn(s, i).sessions[i].stage.Answered? && !s.sessions[i].stage.Answered? {
          AnswerKeeps(s, i);
        } else {
          StatementKeeps(s, i);
        }
      }
    case Abort(i) =>
      if i < |s.sessions| && !s.sessions[i].stage.Answered? {
        AbortedIsFree(s, i);
        StageKeeps(s, i, Aborted);
      }
    case Other(step) =>
      if Unblocked(s, step) {
        OtherKeeps(s, step);
      }
  }

  lemma AbortedIsFree(s: Sys, i: nat)
    requires i < |s.sessions|
    ensures SessionOk(s.db, s.sessions[i].(stage := Aborted))
    ensures forall y :: Exclusive(s.sessions[i].(stage := Aborted), y)
  {
  }

  // ---- whole runs ----

  /** Entry k of the log is the answer the atomic transaction gives at that point. */
  ghost predicate EntryOk(t: Tournament, requests: seq<Request>, s: Sys, k: nat)
    requires k < |s.log| && |s.sessions| == |requests|
  {
    match s.log[k]
    case Did(i, outcome) =>
      && i < |requests| && s.sessions[i].stage == Answered(outcome)
      && outcome == Atomic(Serial(t, requests, s.log[..k]), requests[i]).1
    case Also(step) => !step.ReportStep?
  }

  ghost predicate Logged(log: seq<Entry>, i: nat, outcome: Outcome) {
    exists k :: 0 <= k < |log| && log[k] == Did(i, outcome)
  }

  /** The committed rows are those of the logged transactions run one after another; every
      answered session is in the log once, with its answer. */
  ghost predicate Serialised(t: Tournament, requests: seq<Request>, s: Sys) {
    && |s.sessions| == |requests| && (forall i :: 0 <= i < |requests| ==> s.sessions[i].req == requests[i])
    && s.db == Serial(t, requests, s.log)
    && (forall k :: 0 <= k < |s.log| ==> EntryOk(t, requests, s, k))
    && (forall k, l :: 0 <= k < l < |s.log| && s.log[k].Did? && s.log[l].Did? ==> s.log[k].session != s.log[l].session)
    && (forall i :: 0 <= i < |requests| && s.sessions[i].stage.Answered? ==>
          Logged(s.log, i, s.sessions[i].stage.outcome))
  }

  predicate SameAnswer(x: Session, x': Session) {
    x'.req == x.req && (x.stage.Answered? || x'.stage.Answered? ==> x' == x)
  }

  /** Nothing committed and nobody's answer changed. */
  lemma QuietStep(t: Tournament, requests: seq<Request>, s: Sys, s': Sys)
    requires Serialised(t, requests, s) && s'.db == s.db && s'.log == s.log && |s'.sessions| == |s.sessions|
    requires forall j :: 0 <= j < |s.sessions| ==> SameAnswer(s.sessions[j], s'.sessions[j])
    ensures Serialised(t, requests, s')
  {
    hide Serial, Logged;
    forall k | 0 <= k < |s'.log| ensures EntryOk(t, requests, s', k) {
      assert EntryOk(t, requests, s, k);
    }
  }

  /** One more entry that does what the atomic transaction does now. */
  lemma LoggedStep(t: Tournament, requests: seq<Request>, s: Sys, s': Sys, e: Entry)
    requires Serialised(t, requests, s) && s'.log == s.log + [e] && s'.db == Effect(s.db, requests, e)
    requires match e
             case Did(i, outcome) =>
               && i < |requests| && !s.sessions[i].stage.Answered? && outcome == Atomic(s.db, requests[i]).1
               && s'.sessions == s.sessions[i := s.sessions[i].(stage := Answered(outcome))]
             case Also(step) => !step.ReportStep? && s'.sessions == s.sessions
    ensures Serialised(t, requests, s')
  {
    hide Effect, Atomic;
    assert s'.log[..|s.log|] == s.log;
    forall k | 0 <= k < |s'.log| ensures EntryOk(t, requests, s', k) {
      if k < |s.log| {
        assert EntryOk(t, requests, s, k) && s'.log[..k] == s.log[..k];
      }
    }
    forall k, l | 0 <= k < l < |s'.log| && s'.log[k].Did? && s'.log[l].Did?
      ensures s'.log[k].session != s'.log[l].session
    {
      assert EntryOk(t, requests, s, k);
    }
    LoggedGrows(requests, s, s', e);
  }

  lemma LoggedGrows(requests: seq<Request>, s: Sys, s': Sys, e: Entry)
    requires |s.sessions| == |requests| && s'.log == s.log + [e]
    requires forall i :: 0 <= i < |requests| && s.sessions[i].stage.Answered? ==>
               Logged(s.log, i, s.sessions[i].stage.outcome)
    requires e.Did? ==> e.session < |requests|
    requires s'.sessions == if e.Did? then s.sessions[e.session := s.sessions[e.session].(stage := Answered(e.outcome))]
                            else s.sessions
    ensures forall i :: 0 <= i < |requests| && s'.sessions[i].stage.Answered? ==>
              Logged(s'.log, i, s'.sessions[i].stage.outcome)
  {
    forall i | 0 <= i < |requests| && s'.sessions[i].stage.Answered?
      ensures Logged(s'.log, i, s'.sessions[i].stage.outcome)
    {
      if e.Did? && i == e.session {
        assert s'.log[|s.log|] == Did(i, e.outcome);
      } else {
        var k :| 0 <= k < |s.log| && s.log[k] == Did(i, s.sessions[i].stage.outcome);
        assert s'.log[k] == s.log[k];
      }
    }
  }

  lemma SerialStep(t: Tournament, requests: seq<Request>, s: Sys, e: Event)
    requires Ok(s) && Serialised(t, requests, s)
    ensures Serialised(t, requests, Next(s, e))
  {
    hide Ok, Turn, Serialised, Unblocked, Atomic, Apply;
    SessionCount(t, requests, s);
    match e
    case Runs(i) =>
      if i < |s.sessions| {
        TurnSessions(s, i);
        AnswerIsAtomic(s, i);
        var s' := Turn(s, i);
        if s'.sessions[i].stage.Answered? && !s.sessions[i].stage.Answered? {
          var outcome := s'.sessions[i].stage.outcome;
          assert s'.sessions == s.sessions[i := s.sessions[i].(stage := Answered(outcome))];
          LoggedStep(t, requests, s, s', Did(i, outcome));
        } else {
          if s.sessions[i].stage.Answered? {
            AnsweredStays(s, i);
          }
          QuietStep(t, requests, s, s');
        }
      }
    case Abort(i) =>
      if i < |s.sessions| && !s.sessions[i].stage.Answered? {
        QuietStep(t, requests, s, At(s, i, Aborted));
      }
    case Other(step) =>
      if Unblocked(s, step) {
        NoReport(s, step);
        LoggedStep(t, requests, s, Next(s, e), Also(step));
      }
  }

  lemma SessionCount(t: Tournament, requests: seq<Request>, s: Sys)
    requires Serialised(t, requests, s)
    ensures |s.sessions| == |requests| && forall i :: 0 <= i < |requests| ==> s.sessions[i].req == requests[i]
  {
  }

  lemma AnsweredStays(s: Sys, i: nat)
    requires i < |s.sessions| && s.sessions[i].stage.Answered?
    ensures Turn(s, i) == s
  {
  }

  lemma NoReport(s: Sys, step: Step)
    requires Unblocked(s, step)
    ensures !step.ReportStep?
  {
  }

  lemma {:induction false} LockedRun(t: Tournament, requests: seq<Request>, events: seq<Event>)
    requires Inv(t)
    ensures Ok(After(Fresh(t, requests), events)) && Serialised(t, requests, After(Fresh(t, requests), events))
  {
    hide Ok, Next, Serialised, Inv;
    if events == [] {
      FreshOk(t, requests);
    } else {
      var s := After(Fresh(t, requests), events[..|events| - 1]);
      LockedRun(t, requests, events[..|events| - 1]);
      NextKeeps(s, events[|events| - 1]);
      SerialStep(t, requests, s, events[|events| - 1]);
    }
  }

  lemma FreshOk(t: Tournament, requests: seq<Request>)
    requires Inv(t)
    ensures Ok(Fresh(t, requests)) && Serialised(t, requests, Fresh(t, requests))
  {
    hide Inv;
  }

  /** In every interleaving of locked statements, lock waits, aborts and other tournament
      transactions, the committed rows and every answer are those of the committed
      transactions run whole, one after another, in commit order; an aborted report leaves
      no trace. */
  lemma CommitOrderSerialises(t: Tournament, requests: seq<Request>, events: seq<Event>)
    requires Inv(t)
    ensures var s := After(Fresh(t, requests), events);
            && s.db == Serial(t, requests, s.log)
            && |s.sessions| == |requests|
            && (forall k :: 0 <= k < |s.log| && s.log[k].Did? ==>
                  && s.log[k].session < |requests|
                  && s.log[k].outcome == Atomic(Serial(t, requests, s.log[..k]), requests[s.log[k].session]).1)
            && (forall i: nat, outcome :: i < |requests| ==>
                  (s.sessions[i].stage == Answered(outcome) <==> Logged(s.log, i, outcome)))
            && (forall k, l :: 0 <= k < l < |s.log| && s.log[k].Did? && s.log[l].Did? ==>
                  s.log[k].session != s.log[l].session)
  {
    LockedRun(t, requests, events);
    var s := After(Fresh(t, requests), events);
    SessionCount(t, requests, s);
    forall k | 0 <= k < |s.log| && s.log[k].Did?
      ensures s.log[k].session < |requests|
      ensures s.log[k].outcome == Atomic(Serial(t, requests, s.log[..k]), requests[s.log[k].session]).1
    {
      EntryMeans(t, requests, s, k);
    }
    forall i: nat, outcome | i < |requests|
      ensures s.sessions[i].stage == Answered(outcome) <==> Logged(s.log, i, outcome)
    {
      LoggedIsAnswered(t, requests, s, i, outcome);
    }
    SerialisedRows(t, requests, s);
    hide *;
  }

  lemma EntryMeans(t: Tournament, requests: seq<Request>, s: Sys, k: nat)
    requires Serialised(t, requests, s) && k < |s.log| && s.log[k].Did?
    ensures s.log[k].session < |requests|
    ensures s.log[k].outcome == Atomic(Serial(t, requests, s.log[..k]), requests[s.log[k].session]).1
  {
    assert EntryOk(t, requests, s, k);
    hide Atomic, Serial;
  }

  lemma SerialisedRows(t: Tournament, requests: seq<Request>, s: Sys)
    requires Serialised(t, requests, s)
    ensures s.db == Serial(t, requests, s.log)
    ensures forall k, l :: 0 <= k < l < |s.log| && s.log[k].Did? && s.log[l].Did? ==>
              s.log[k].session != s.log[l].session
  {
    hide Serial, EntryOk;
  }

  lemma LoggedIsAnswered(t: Tournament, requests: seq<Request>, s: Sys, i: nat, outcome: Outcome)
    requires Serialised(t, requests, s) && i < |requests|
    ensures s.sessions[i].stage == Answered(outcome) <==> Logged(s.log, i, outcome)
  {
    hide Serial, Atomic;
    if Logged(s.log, i, outcome) {
      var k :| 0 <= k < |s.log| && s.log[k] == Did(i, outcome);
      assert EntryOk(t, requests, s, k);
    }
  }

  lemma {:induction false} SerialIsRun(t: Tournament, requests: seq<Request>, log: seq<Entry>) returns (steps: seq<Step>)
    ensures Run(t, steps) == Serial(t, requests, log)
  {
    hide Report, Apply;
    if log == [] {
      steps := [];
    } else {
      var front := SerialIsRun(t, requests, log[..|log| - 1]);
      match log[|log| - 1]
      case Did(i, _) =>
        if i < |requests| {
          var q := requests[i];
          steps := front + [ReportStep(q.round, q.position, q.reporter, q.winner)];
          ApplyReport(Run(t, front), q);
          assert steps[..|steps| - 1] == front;
        } else {
          steps := front;
        }
      case Also(step) =>
        steps := front + [step];
        assert steps[..|steps| - 1] == front;
    }
  }

  lemma ApplyReport(t: Tournament, q: Request)
    ensures Apply(t, ReportStep(q.round, q.position, q.reporter, q.winner)) == Atomic(t, q).0
  {
  }

  lemma {:induction false} RunAppend(t: Tournament, a: seq<Step>, b: seq<Step>)
    ensures Run(t, a + b) == Run(Run(t, a), b)
  {
    hide Apply;
    if b == [] {
      assert a + b == a;
    } else {
      RunAppend(t, a, b[..|b| - 1]);
      assert (a + b)[..|a + b| - 1] == a + b[..|b| - 1];
    }
  }

  /** Concurrent reports reach no state the atomic transactions do not reach, so all that
      holds of reachable tournaments holds under concurrency. */
  lemma ConcurrencyAddsNoStates(t: Tournament, requests: seq<Request>, events: seq<Event>)
    requires Reachable(t)
    ensures Reachable(After(Fresh(t, requests), events).db)
  {
    ReachableOk(t);
    LockedRun(t, requests, events);
    hide Inv, Ok, After, Run, EntryOk;
    var s := After(Fresh(t, requests), events);
    var more := SerialIsRun(t, requests, s.log);
    var creator, maxPlayers, steps :| t == Run(Create(creator, maxPlayers), steps);
    RunAppend(Create(creator, maxPlayers), steps, more);
    assert s.db == Run(Create(creator, maxPlayers), steps + more);
  }

  // ---- waiting for each other ----

  /** One report holds the tournament and needs the other's match; the other holds its match
      and needs the tournament. */
  ghost predicate Deadlocked(s: Sys, i: nat, j: nat) {
    && i < |s.sessions| && j < |s.sessions| && i != j
    && s.sessions[i].req.round == s.sessions[j].req.round
    && s.sessions[j].stage.Updated?
    && s.sessions[i].stage.Collecting? && |s.sessions[i].stage.rows| == s.sessions[j].req.position
    && s.sessions[i].req.position != s.sessions[j].req.position
    && HasRow(s.db, s.sessions[i].req.round, s.sessions[j].req.position)
  }

  /** Neither moves again whatever the others do, until one of the two is aborted. */
  lemma {:induction false} OnlyAbortResolves(s: Sys, i: nat, j: nat, events: seq<Event>)
    requires Ok(s) && Deadlocked(s, i, j) && Abort(i) !in events && Abort(j) !in events
    ensures var s' := After(s, events);
            Ok(s') && Deadlocked(s', i, j) && s'.sessions[i] == s.sessions[i] && s'.sessions[j] == s.sessions[j]
  {
    hide Ok, Next;
    if events != [] {
      var front, e := events[..|events| - 1], events[|events| - 1];
      assert e in events;
      OnlyAbortResolves(s, i, j, front);
      NextKeeps(After(s, front), e);
      StuckStep(After(s, front), i, j, e);
    }
  }

  lemma StuckStep(s: Sys, i: nat, j: nat, e: Event)
    requires Ok(s) && Deadlocked(s, i, j) && e != Abort(i) && e != Abort(j)
    ensures var s' := Next(s, e);
            && |s'.sessions| == |s.sessions| && s'.sessions[i] == s.sessions[i] && s'.sessions[j] == s.sessions[j]
            && HasRow(s'.db, s.sessions[i].req.round, s.sessions[j].req.position)
  {
    hide Ok, Turn, Unblocked;
    NextKeeps(s, e);
    BothWait(s, i, j);
    if e.Runs? && e.i < |s.sessions| {
      TurnSessions(s, e.i);
    }
    UpdatedHasRow(Next(s, e), j);
  }

  lemma BothWait(s: Sys, i: nat, j: nat)
    requires Deadlocked(s, i, j)
    ensures Turn(s, i) == s && Turn(s, j) == s
  {
    hide Closed, WithRow;
    assert !TournamentFree(s, j) && !RowFree(s, i, s.sessions[i].req.round, s.sessions[j].req.position);
  }

  lemma UpdatedHasRow(s: Sys, j: nat)
    requires Ok(s) && j < |s.sessions| && s.sessions[j].stage.Updated?
    ensures HasRow(s.db, s.sessions[j].req.round, s.sessions[j].req.position)
  {
    assert SessionOk(s.db, s.sessions[j]);
  }

  lemma AfterOne(s: Sys, events: seq<Event>, e: Event)
    ensures After(s, events + [e]) == Next(After(s, events), e)
  {
    assert (events + [e])[..|events|] == events;
  }

  /** Two open matches at the head of a round, and a report on each. */
  ghost predicate TwoOpen(t: Tournament, r: nat, q0: Request, q1: Request) {
    && t.status == Running && r < |t.rounds| && |t.rounds[r]| >= 2
    && q0.round == r && q0.position == 0 && Refusal(t.rounds[r][0], q0).None?
    && q1.round == r && q1.position == 1 && Refusal(t.rounds[r][1], q1).None?
  }

  function Pair(t: Tournament, q0: Request, x: Stage, q1: Request, y: Stage): Sys {
    Sys(t, [Session(q0, x), Session(q1, y)], [])
  }

  function FirstMove(t: Tournament, q: Request, x: Stage): Stage
    requires HasRow(t, q.round, q.position)
  {
    match x
    case Begin => Locked(t.rounds[q.round][q.position])
    case Locked(m) => Updated(Resolved(m, q))
    case Updated(done) => Advancing(done, true)
    case Advancing(done, _) => Collecting(done, [])
    case Collecting(done, _) => Collecting(done, [done])
    case _ => x
  }

  lemma FirstMoves(t: Tournament, r: nat, q0: Request, x: Stage, q1: Request, y: Stage)
    requires TwoOpen(t, r, q0, q1) && (y.Begin? || y.Updated?)
    requires match x
             case Begin => true
             case Locked(m) => m == t.rounds[r][0]
             case Updated(_) => true
             case Advancing(_, running) => running
             case Collecting(_, rows) => rows == []
             case _ => false
    ensures Turn(Pair(t, q0, x, q1, y), 0) == Pair(t, q0, FirstMove(t, q0, x), q1, y)
  {
    hide Refusal, Resolved, Closed, WithRow;
    var s := Pair(t, q0, x, q1, y);
    assert y.Updated? ==> forall p: nat :: HoldsRow(s.sessions[1], r, p) ==> p == 1;
    assert RowFree(s, 0, r, 0) && TournamentFree(s, 0);
    assert x.Collecting? ==> x.rows + [x.done] == [x.done];
    assert Turn(s, 0).sessions == [Session(q0, FirstMove(t, q0, x)), Session(q1, y)];
  }

  lemma SecondMoves(t: Tournament, r: nat, q0: Request, x: Stage, q1: Request, y: Stage)
    requires TwoOpen(t, r, q0, q1) && x.Updated? && (y.Begin? || y == Locked(t.rounds[r][1]))
    ensures Turn(Pair(t, q0, x, q1, y), 1) == Pair(t, q0, x, q1, FirstMove(t, q1, y))
  {
    hide Refusal, Resolved, Closed, WithRow;
    var s := Pair(t, q0, x, q1, y);
    assert RowFree(s, 1, r, 1);
  }

  /** Two reports on the first two matches of a round, both still open, do reach it. */
  lemma DeadlockReachable(t: Tournament, r: nat, q0: Request, q1: Request)
    requires TwoOpen(t, r, q0, q1)
    ensures exists events :: Deadlocked(After(Fresh(t, [q0, q1]), events), 0, 1)
  {
    hide Turn, After, Refusal, Resolved;
    var s := Fresh(t, [q0, q1]);
    var done, late := Resolved(t.rounds[r][0], q0), Resolved(t.rounds[r][1], q1);
    assert s == Pair(t, q0, Begin, q1, Begin);
    var e2 := [] + [Runs(0)] + [Runs(0)];
    AfterNone(s);
    AfterOne(s, [], Runs(0));
    AfterOne(s, [] + [Runs(0)], Runs(0));
    FirstMoves(t, r, q0, Begin, q1, Begin);
    FirstMoves(t, r, q0, Locked(t.rounds[r][0]), q1, Begin);
    assert After(s, e2) == Pair(t, q0, Updated(done), q1, Begin);
    var e4 := e2 + [Runs(1)] + [Runs(1)];
    AfterOne(s, e2, Runs(1));
    AfterOne(s, e2 + [Runs(1)], Runs(1));
    SecondMoves(t, r, q0, Updated(done), q1, Begin);
    SecondMoves(t, r, q0, Updated(done), q1, Locked(t.rounds[r][1]));
    assert After(s, e4) == Pair(t, q0, Updated(done), q1, Updated(late));
    var e7 := e4 + [Runs(0)] + [Runs(0)] + [Runs(0)];
    AfterOne(s, e4, Runs(0));
    AfterOne(s, e4 + [Runs(0)], Runs(0));
    AfterOne(s, e4 + [Runs(0)] + [Runs(0)], Runs(0));
    FirstMoves(t, r, q0, Updated(done), q1, Updated(late));
    FirstMoves(t, r, q0, Advancing(done, true), q1, Updated(late));
    FirstMoves(t, r, q0, Collecting(done, []), q1, Updated(late));
    assert Deadlocked(After(s, e7), 0, 1);
  }

  lemma AfterNone(s: Sys)
    ensures After(s, []) == s
  {
  }
}

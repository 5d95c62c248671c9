/** services/shutdown.js: the controller as a state machine over preStop triggers, signals,
    crashes, phase boundaries and the watchdog, in any order. */
module ShutdownMachine {
  import opened Basics

  datatype State = Running | Draining | Stopping | Stopped
  datatype Phase = Settle | Http | Room | Socket | Cache | Pg

  const STATES := [Running, Draining, Stopping, Stopped]
  const SEQUENCE := [Settle, Http, Room, Socket, Cache, Pg]

  datatype Watchdog = Unarmed | Armed | Fired | Cleared

  /** The module variables, the progress of the one sequence, and what happened so far:
      states visited, phases begun, close calls and exit codes. */
  datatype Controller = Controller(
    state: State,
    prestopSeen: bool,
    poolEnded: bool,
    started: bool,
    busy: bool,
    broken: bool,
    ended: bool,
    code: int,
    watchdog: Watchdog,
    visited: seq<State>,
    phases: seq<Phase>,
    ioCloses: nat,
    poolCloses: nat,
    exits: seq<int>
  )

  const INITIAL := Controller(Running, false, false, false, false, false, false, 0, Unarmed, [Running], [], 0, 0, [])

  datatype Event =
    | PreStop(loopback: bool)
    | Request(exitCode: int, depsComplete: bool)
    | PhaseBegins
    | PhaseEnds
    | SequenceBreaks
    | WatchdogFires
    | SequenceEnds

  function SetState(c: Controller, next: State): Controller {
    c.(state := next, visited := c.visited + [next])
  }

  function EnterDraining(c: Controller, prestop: bool): Controller {
    if c.state != Running then c
    else SetState(c.(prestopSeen := c.prestopSeen || prestop), Draining)
  }

  /** runShutdownSequence, reached from a signal, a crash or directly: the first complete
      request starts the sequence, every other one is ignored. */
  function RequestShutdown(c: Controller, exitCode: int, depsComplete: bool): Controller {
    if c.started || !depsComplete then c
    else SetState(EnterDraining(c, false), Stopping).(started := true, code := exitCode, watchdog := Armed)
  }

  predicate Active(c: Controller) {
    c.started && !c.ended
  }

  /** The next runPhase; phaseSocket closes io, phasePg closes the pool unless it ended. */
  function BeginPhase(c: Controller): Controller {
    if !Active(c) || c.busy || c.broken || |c.phases| >= 6 then c
    else
      var phase := SEQUENCE[|c.phases|];
      var begun := c.(phases := c.phases + [phase], busy := true);
      match phase
      case Socket => begun.(ioCloses := begun.ioCloses + 1)
      case Pg => if begun.poolEnded then begun else begun.(poolEnded := true, poolCloses := begun.poolCloses + 1)
      case _ => begun
  }

  function EndSequence(c: Controller): Controller {
    if !Active(c) || c.busy || (|c.phases| < 6 && !c.broken) then c
    else if c.watchdog == Fired then c.(ended := true)
    else SetState(c.(ended := true, watchdog := Cleared, exits := c.exits + [c.code]), Stopped)
  }

  function Step(c: Controller, e: Event): Controller {
    match e
    case PreStop(loopback) => if loopback then EnterDraining(c, true) else c
    case Request(exitCode, depsComplete) => RequestShutdown(c, exitCode, depsComplete)
    case PhaseBegins => BeginPhase(c)
    case PhaseEnds => c.(busy := false)
    case SequenceBreaks => if Active(c) then c.(broken := true, busy := false, code := 1) else c
    case WatchdogFires => if c.watchdog == Armed then c.(watchdog := Fired, exits := c.exits + [1]) else c
    case SequenceEnds => EndSequence(c)
  }

  function After(events: seq<Event>): Controller {
    if events == [] then INITIAL else Step(After(events[..|events| - 1]), events[|events| - 1])
  }

  function Rank(s: State): nat {
    match s case Running => 0 case Draining => 1 case Stopping => 2 case Stopped => 3
  }

  ghost predicate Ok(c: Controller) {
    && c.visited == STATES[..Rank(c.state) + 1]
    && |c.phases| <= 6 && c.phases == SEQUENCE[..|c.phases|]
    && (c.started <==> Rank(c.state) >= 2)
    && (c.started <==> c.watchdog != Unarmed)
    && (!c.started ==> c.phases == [] && c.exits == [] && !c.busy && !c.broken && !c.ended)
    && c.ioCloses == (if |c.phases| > 3 then 1 else 0)
    && c.poolCloses == (if |c.phases| > 5 then 1 else 0)
    && (c.poolEnded <==> |c.phases| > 5)
    && (c.state == Stopped <==> c.watchdog == Cleared)
    && (c.watchdog == Cleared ==> c.ended)
    && (c.ended ==> c.watchdog != Armed && (|c.phases| == 6 || c.broken))
    && match c.watchdog
       case Fired => c.exits == [1]
       case Cleared => c.exits == [c.code]
       case _ => c.exits == []
  }

  lemma StepKeeps(c: Controller, e: Event)
    requires Ok(c)
    ensures Ok(Step(c, e))
    ensures c.visited <= Step(c, e).visited && c.phases <= Step(c, e).phases && c.exits <= Step(c, e).exits
  {
    match e
    case Request(exitCode, depsComplete) => hide Ok, RequestShutdown; RequestKeeps(c, exitCode, depsComplete);
    case PhaseBegins => hide Ok, BeginPhase; BeginKeeps(c);
    case SequenceEnds => hide Ok, EndSequence; EndKeeps(c);
    case _ =>
  }

  lemma RequestKeeps(c: Controller, exitCode: int, depsComplete: bool)
    requires Ok(c)
    ensures var c' := RequestShutdown(c, exitCode, depsComplete);
            Ok(c') && c.visited <= c'.visited && c'.phases == c.phases && c'.exits == c.exits
  {
  }

  lemma BeginKeeps(c: Controller)
    requires Ok(c)
    ensures Ok(BeginPhase(c))
    ensures BeginPhase(c).visited == c.visited && c.phases <= BeginPhase(c).phases && BeginPhase(c).exits == c.exits
  {
    var k := |c.phases|;
    if k < 6 {
      assert SEQUENCE[..k] + [SEQUENCE[k]] == SEQUENCE[..k + 1];
    }
  }

  lemma EndKeeps(c: Controller)
    requires Ok(c)
    ensures Ok(EndSequence(c))
    ensures c.visited <= EndSequence(c).visited && EndSequence(c).phases == c.phases && c.exits <= EndSequence(c).exits
  {
  }

  lemma {:induction false} AfterOk(events: seq<Event>)
    ensures Ok(After(events))
  {
    hide Ok, Step;
    if events == [] {
      InitialOk();
    } else {
      AfterOk(events[..|events| - 1]);
      StepKeeps(After(events[..|events| - 1]), events[|events| - 1]);
    }
  }

  lemma InitialOk()
    ensures Ok(INITIAL)
  {
  }

  /** For every order of events: the states run through Running, Draining, Stopping, Stopped
      without skipping or repeating one, and the phases through their fixed order. */
  lemma MonotoneAndOrdered(events: seq<Event>)
    ensures var c := After(events);
            && [Running] <= c.visited <= [Running, Draining, Stopping, Stopped] && c.state == c.visited[|c.visited| - 1]
            && c.phases <= [Settle, Http, Room, Socket, Cache, Pg]
  {
    AfterOk(events);
    hide After;
  }

  lemma PhasesReached(phases: seq<Phase>)
    requires |phases| <= 6 && phases == SEQUENCE[..|phases|]
    ensures (Socket in phases <==> |phases| > 3) && (Pg in phases <==> |phases| > 5)
  {
    assert |phases| > 3 ==> phases[3] == Socket;
    assert |phases| > 5 ==> phases[5] == Pg;
  }

  /** io.close and closePool are called once each, in the socket and in the pg phase; exit is called at
      most once; Stopped is reached only if the watchdog did not fire, and then with the
      accepted request's code, or 1 after an internal error. */
  lemma AtMostOnce(events: seq<Event>)
    ensures var c := After(events);
            && c.ioCloses == (if Socket in c.phases then 1 else 0) && c.poolCloses == (if Pg in c.phases then 1 else 0)
            && |c.exits| <= 1
            && (c.state == Stopped ==> c.watchdog != Fired && |c.exits| == 1)
            && (c.state == Stopped ==> c.broken || c.phases == [Settle, Http, Room, Socket, Cache, Pg])
            && (c.watchdog == Fired ==> c.exits == [1] && c.state == Stopping)
  {
    AfterOk(events);
    PhasesReached(After(events).phases);
    hide After;
  }

  /** The exit code of the first complete request. */
  function Accepted(events: seq<Event>): Option<int> {
    if events == [] then None
    else
      var earlier, e := Accepted(events[..|events| - 1]), events[|events| - 1];
      if earlier.None? && e.Request? && e.depsComplete then Some(e.exitCode) else earlier
  }

  lemma CodeStep(c: Controller, e: Event)
    requires c.broken ==> c.started && c.code == 1
    ensures var c' := Step(c, e);
            && (c'.started <==> c.started || (e.Request? && e.depsComplete))
            && (c'.broken ==> c'.started) && (c.broken ==> c'.broken)
            && c'.code == if c'.broken && !c.broken then 1 else if c'.started && !c.started then e.exitCode else c.code
  {
  }

  lemma {:induction false} CodeIs(events: seq<Event>)
    ensures var c := After(events);
            && (c.started <==> Accepted(events).Some?) && (c.broken ==> c.started)
            && (c.started ==> c.code == if c.broken then 1 else Accepted(events).value)
  {
    hide Step;
    if events != [] {
      var n := |events| - 1;
      CodeIs(events[..n]);
      CodeStep(After(events[..n]), events[n]);
    }
  }

  /** The process exits with the code of the first complete request if its sequence ran
      through, and with 1 if the watchdog fired or the sequence broke; duplicates change
      neither, and nothing exits before a request. */
  lemma ExitCodeExact(events: seq<Event>)
    ensures var c := After(events);
            && (Accepted(events).None? ==> c.exits == [])
            && (c.watchdog == Fired ==> c.exits == [1])
            && (c.state == Stopped ==> Accepted(events).Some? && c.exits == [if c.broken then 1 else Accepted(events).value])
            && (c.watchdog != Fired && c.state != Stopped ==> c.exits == [])
  {
    AfterOk(events);
    CodeIs(events);
    hide After, Accepted;
  }

  /** A preStop trigger alone never runs a phase; only a request starts the sequence. */
  lemma {:induction false} PreStopOnlyDrains(events: seq<Event>)
    requires forall e <- events :: !(e.Request? && e.depsComplete)
    ensures var c := After(events);
            && !c.started && c.phases == [] && c.exits == [] && c.ioCloses == 0 && c.poolCloses == 0
            && (c.state == Draining <==> exists e <- events :: e.PreStop? && e.loopback)
            && (c.prestopSeen <==> c.state == Draining)
  {
    AfterOk(events);
    if events != [] {
      var n := |events| - 1;
      PreStopOnlyDrains(events[..n]);
      AfterOk(events[..n]);
      assert events == events[..n] + [events[n]];
      assert events[n] in events;
    }
  }

  // ---- the module as an object ----

  class Process {
    var c: Controller

    constructor ()
      ensures c == INITIAL
    {
      c := INITIAL;
    }

    /** enterDraining: true on the transition. */
    method TriggerDrain(prestop: bool) returns (transitioned: bool)
      modifies this
      ensures c == EnterDraining(old(c), prestop)
      ensures transitioned <==> old(c).state == Running
    {
      if c.state != Running { return false; }
      if prestop { c := c.(prestopSeen := true); }
      c := c.(state := Draining, visited := c.visited + [Draining]);
      return true;
    }

    /** The signal handlers and runShutdownSequence up to its first await. */
    method Accept(exitCode: int, depsComplete: bool) returns (accepted: bool)
      modifies this
      ensures c == RequestShutdown(old(c), exitCode, depsComplete)
      ensures accepted <==> !old(c).started && depsComplete
    {
      if c.started || !depsComplete { return false; }
      var transitioned := TriggerDrain(false);
      c := c.(state := Stopping, visited := c.visited + [Stopping]);
      c := c.(started := true, code := exitCode, watchdog := Armed);
      return true;
    }

    /** The rest of the sequence when no timer fires and nothing throws. */
    method RunSequence()
      requires Ok(c) && Active(c) && c.phases == [] && !c.busy && !c.broken && c.watchdog == Armed
      modifies this
      ensures Ok(c) && c.state == Stopped && c.phases == SEQUENCE && c.exits == [old(c).code]
      ensures c.ioCloses == 1 && c.poolCloses == 1
    {
      for i := 0 to 6
        invariant Ok(c) && Active(c) && |c.phases| == i && !c.busy && !c.broken && c.watchdog == Armed
        invariant c.code == old(c).code
      {
        StepKeeps(c, PhaseBegins);
        c := BeginPhase(c);
        StepKeeps(c, PhaseEnds);
        c := c.(busy := false);
      }
      StepKeeps(c, SequenceEnds);
      c := EndSequence(c);
    }
  }
}

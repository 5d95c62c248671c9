/** services/shutdown.js: the time budgets, with ideal timers (a wait of w milliseconds takes
    exactly w, anything else takes none). */
module ShutdownBudget {
  import opened Basics

  function Min(a: int, b: int): int { if a < b then a else b }
  function Max(a: int, b: int): int { if a < b then b else a }

  // ---- phaseHttp ----

  datatype Result = Completed | Timeout | Forced

  const HTTP_POLL_MS := 25

  /** getInflight() at a given time; an exception counts as none. */
  function Inflight(getInflight: int -> Option<int>, now: int): int {
    if getInflight(now).None? then 0 else getInflight(now).value
  }

  /** When the polling loop that stands at `now` ends. */
  function HttpEnd(getInflight: int -> Option<int>, now: int, deadline: int): (end: int)
    requires now <= deadline
    ensures now <= end <= deadline
    decreases deadline - now
  {
    if !(Inflight(getInflight, now) > 0) || now == deadline then now
    else HttpEnd(getInflight, now + Min(HTTP_POLL_MS, deadline - now), deadline)
  }

  /** The polling loop ends on its own deadline, never overshoots it, and reports a timeout
      exactly when requests are still in flight then. */
  method PhaseHttp(getInflight: int -> Option<int>, start: int, budgetMs: int) returns (result: Result, now: int)
    ensures start <= now <= start + Max(0, budgetMs)
    ensures now == HttpEnd(getInflight, start, start + Max(0, budgetMs))
    ensures result == if Inflight(getInflight, now) > 0 then Timeout else Completed
    ensures result == Timeout ==> now == start + Max(0, budgetMs)
    ensures forall k :: 0 <= k && start + HTTP_POLL_MS * k < now ==>
              Inflight(getInflight, start + HTTP_POLL_MS * k) > 0
  {
    now := start;
    var deadline := now + Max(0, budgetMs);
    ghost var polls := 0;
    while true
      invariant start <= now <= deadline && 0 <= polls
      invariant HttpEnd(getInflight, now, deadline) == HttpEnd(getInflight, start, deadline)
      invariant now == start + HTTP_POLL_MS * polls || now == deadline < start + HTTP_POLL_MS * polls
      invariant now == deadline ==> polls > 0 || deadline == start
      invariant forall k :: 0 <= k < polls ==> Inflight(getInflight, start + HTTP_POLL_MS * k) > 0
      decreases deadline - now
    {
      var inflight := Inflight(getInflight, now);
      if !(inflight > 0) { break; }
      var remaining := deadline - now;
      if !(remaining > 0) { break; }
      now := now + Min(HTTP_POLL_MS, remaining);
      polls := polls + 1;
    }
    var left := Inflight(getInflight, now);
    result := if left > 0 then Timeout else Completed;
  }

  /** The polling loop looks every 25 ms and once more at the deadline, and ends at the first
      look that finds nothing in flight. */
  lemma {:induction false} HttpExactly(getInflight: int -> Option<int>, now: int, deadline: int) returns (k: nat)
    requires now <= deadline
    ensures var end := HttpEnd(getInflight, now, deadline);
            && end == (if now + 25 * k < deadline then now + 25 * k else deadline)
            && (end < deadline ==> getInflight(end).None? || getInflight(end).value <= 0)
            && forall j :: 0 <= j < k ==>
                 now + 25 * j < deadline && getInflight(now + 25 * j).Some? && getInflight(now + 25 * j).value > 0
    decreases deadline - now
  {
    if !(Inflight(getInflight, now) > 0) || now == deadline {
      k := 0;
    } else {
      var next := now + Min(HTTP_POLL_MS, deadline - now);
      var rest := HttpExactly(getInflight, next, deadline);
      k := if next == deadline then 1 else rest + 1;
      forall j | 0 <= j < k
        ensures now + 25 * j < deadline && getInflight(now + 25 * j).Some? && getInflight(now + 25 * j).value > 0
      {
        if j > 0 {
          assert next + 25 * (j - 1) == now + 25 * j;
        }
      }
    }
  }

  // ---- phaseSocket ----

  /** withDeadline(promise, ms) when the promise settles `settles` ms from now (None: never):
      whether it won, and the time taken. A deadline that is not positive loses at once. */
  function WithDeadline(settles: Option<nat>, ms: int): (bool, nat) {
    if !(ms > 0) then (false, 0)
    else if settles.Some? && settles.value <= ms then (true, settles.value)
    else (false, ms)
  }

  function Later(settles: Option<nat>, elapsed: nat): Option<nat> {
    match settles
    case None => None
    case Some(t) => Some(Max(0, t - elapsed))
  }

  /** phaseSocket: race io.close, then a short settle after the forced close. */
  function PhaseSocket(budgetMs: int, raceMs: int, settleMs: int, closes: Option<nat>): (Result, nat) {
    var first := Min(raceMs, Max(0, budgetMs));
    var (raced, spent) := WithDeadline(closes, first);
    if raced then (Completed, spent)
    else
      var rest := Max(0, Max(0, budgetMs) - Min(raceMs, Max(0, budgetMs)));
      (Forced, spent + WithDeadline(Later(closes, spent), Min(settleMs, rest)).1)
  }

  /** What the socket phase does, with `first` the race and `second` the settle time it grants:
      completed exactly when io.close settles within the race, otherwise forced, and then it
      waits until io.close settles or the settle time is over. */
  lemma SocketExactly(budgetMs: int, raceMs: int, settleMs: int, closes: Option<nat>)
    ensures var (result, time) := PhaseSocket(budgetMs, raceMs, settleMs, closes);
            var budget := if budgetMs > 0 then budgetMs else 0;
            var first := if raceMs < budget then raceMs else budget;
            var second := if settleMs < budget - first then settleMs else budget - first;
            && result == (if first > 0 && closes.Some? && closes.value <= first then Completed else Forced)
            && (result == Completed ==> time == closes.value)
            && var forced := if first > 0 then first else 0;
            && (result == Forced && second <= 0 ==> time == forced)
            && (result == Forced && second > 0 && (closes.None? || closes.value > forced + second) ==> time == forced + second)
            && (result == Forced && second > 0 && closes.Some? && closes.value <= forced + second ==>
                  time == if closes.value > forced then closes.value else forced)
  {
  }

  /** The socket phase keeps to its budget exactly when the race is not negative or the
      settle time alone fits: a negative race would otherwise be added back to the rest. */
  lemma SocketWithinBudget(budgetMs: int, raceMs: int, settleMs: int)
    ensures (forall closes :: PhaseSocket(budgetMs, raceMs, settleMs, closes).1 <= Max(0, budgetMs))
            <==> raceMs >= 0 || settleMs <= Max(0, budgetMs)
  {
    if raceMs < 0 && settleMs > Max(0, budgetMs) {
      assert PhaseSocket(budgetMs, raceMs, settleMs, None).1 > Max(0, budgetMs);
    }
  }

  /** For example: 100 ms of budget, a race of -1000 and a settle of 2000 take 1100 ms. */
  lemma SocketOverrun()
    ensures PhaseSocket(100, -1000, 2000, None) == (Forced, 1100)
  {
  }

  // ---- the sequence ----

  /** The caps of runShutdownSequence after the overrides; any integers. */
  datatype Caps = Caps(
    global: int, settle: int, http: int, room: int, socket: int, socketRace: int, socketSettle: int, cache: int, pg: int)

  /** What the outside does during one sequence: requests in flight at each time since the
      start, and when the room drain, io.close, the cache close and the pool close settle,
      in ms from the start of their phase (None: never). */
  datatype World = World(
    getInflight: int -> Option<int>, room: Option<nat>, closes: Option<nat>, cache: Option<nat>, pg: Option<nat>)

  const PHASES: nat := 6

  /** remaining() when `elapsed` milliseconds have passed. */
  function Remaining(caps: Caps, elapsed: nat): nat {
    Max(0, caps.global - elapsed)
  }

  function CapOf(caps: Caps, phase: nat): int {
    match phase
    case 0 => caps.settle
    case 1 => caps.http
    case 2 => caps.room
    case 3 => caps.socket
    case 4 => caps.cache
    case _ => caps.pg
  }

  /** What a phase is given when it starts `elapsed` milliseconds into the sequence. */
  function Budget(caps: Caps, phase: nat, elapsed: nat): int {
    Min(CapOf(caps, phase), Remaining(caps, elapsed))
  }

  /** How long the phase takes: a wait, the polling loop, and four races. */
  function Takes(caps: Caps, world: World, phase: nat, elapsed: nat): nat {
    var budget := Budget(caps, phase, elapsed);
    match phase
    case 0 => if budget > 0 then budget else 0
    case 1 => HttpEnd(world.getInflight, elapsed, elapsed + Max(0, budget)) - elapsed
    case 2 => WithDeadline(world.room, Max(0, budget)).1
    case 3 => PhaseSocket(budget, caps.socketRace, caps.socketSettle, world.closes).1
    case 4 => WithDeadline(world.cache, Max(0, budget)).1
    case _ => WithDeadline(world.pg, Max(0, budget)).1
  }

  /** How long the other phases take, `budget` being their cap or what is left of the global
      budget: the first waits it out, and the room, cache and pool phases end when their call
      settles or their budget is over. */
  lemma PhaseTimes(caps: Caps, world: World, phase: nat, elapsed: nat)
    requires phase in {0, 2, 4, 5}
    ensures var cap := match phase case 0 => caps.settle case 2 => caps.room case 4 => caps.cache case _ => caps.pg;
            var settles := match phase case 0 => None case 2 => world.room case 4 => world.cache case _ => world.pg;
            var left := if caps.global > elapsed then caps.global - elapsed else 0;
            var budget := if cap < left then cap else left;
            Takes(caps, world, phase, elapsed) ==
              if budget <= 0 then 0
              else if settles.Some? && settles.value <= budget then settles.value
              else budget
  {
  }

  /** The time passed after the first n phases. */
  function Elapsed(caps: Caps, world: World, n: nat): nat {
    if n == 0 then 0
    else var before := Elapsed(caps, world, n - 1); before + Takes(caps, world, n - 1, before)
  }

  /** The latest moment at which the socket phase can start. */
  function LatestSocket(caps: Caps): nat {
    Min(Max(0, caps.global), Max(0, caps.settle) + Max(0, caps.http) + Max(0, caps.room))
  }

  /** Overrides for which the sequence fits its global budget: the race is not negative, or
      the settle time fits into what is left when the socket phase starts last, or a budget
      capped below that plus the length of the negative race does. */
  predicate Fits(caps: Caps) {
    var left := Max(0, caps.global) - LatestSocket(caps);
    || caps.socketRace >= 0
    || caps.socketSettle <= left
    || Max(0, caps.socket) - caps.socketRace <= left
  }

  lemma PhaseWithinBudget(caps: Caps, world: World, phase: nat, elapsed: nat)
    requires phase != 3 || caps.socketRace >= 0
    ensures Takes(caps, world, phase, elapsed) <= Max(0, Budget(caps, phase, elapsed))
  {
  }

  lemma NegativeRace(caps: Caps, world: World, elapsed: nat)
    requires caps.socketRace < 0
    ensures Takes(caps, world, 3, elapsed)
         <= Max(0, Min(caps.socketSettle, Max(0, Budget(caps, 3, elapsed)) - caps.socketRace))
    ensures world.closes == None ==>
              Takes(caps, world, 3, elapsed)
              == Max(0, Min(caps.socketSettle, Max(0, Budget(caps, 3, elapsed)) - caps.socketRace))
  {
  }

  /** The first three phases never end after the latest start of the socket phase. */
  lemma SocketStart(caps: Caps, world: World)
    ensures Elapsed(caps, world, 3) <= LatestSocket(caps)
  {
    hide Takes;
    assert Elapsed(caps, world, 0) == 0;
    forall n: nat | n < 3 ensures var e := Elapsed(caps, world, n);
        Elapsed(caps, world, n + 1) <= e + Max(0, Budget(caps, n, e))
    {
      PhaseWithinBudget(caps, world, n, Elapsed(caps, world, n));
    }
    assert Elapsed(caps, world, 1) <= 0 + Max(0, Budget(caps, 0, 0));
    assert Elapsed(caps, world, 2) <= Elapsed(caps, world, 1) + Max(0, Budget(caps, 1, Elapsed(caps, world, 1)));
  }

  lemma SocketEnd(caps: Caps, world: World)
    requires Fits(caps)
    ensures Elapsed(caps, world, 4) <= Max(0, caps.global)
  {
    SocketStart(caps, world);
    var e := Elapsed(caps, world, 3);
    if caps.socketRace >= 0 {
      PhaseWithinBudget(caps, world, 3, e);
    } else {
      NegativeRace(caps, world, e);
    }
    hide Takes;
    assert Elapsed(caps, world, 4) == e + Takes(caps, world, 3, e);
  }

  lemma LastPhases(caps: Caps, world: World)
    ensures Elapsed(caps, world, 4) <= Elapsed(caps, world, PHASES)
    ensures Elapsed(caps, world, 4) <= Max(0, caps.global) ==> Elapsed(caps, world, PHASES) <= Max(0, caps.global)
  {
    var e4, e5 := Elapsed(caps, world, 4), Elapsed(caps, world, 5);
    PhaseWithinBudget(caps, world, 4, e4);
    PhaseWithinBudget(caps, world, 5, e5);
    hide Takes;
    assert e5 == e4 + Takes(caps, world, 4, e4);
    assert Elapsed(caps, world, PHASES) == e5 + Takes(caps, world, 5, e5);
  }

  function AlwaysBusy(now: int): Option<int> { Some(1) }

  /** Requests always in flight and nothing ever settling. */
  const STUCK := World(AlwaysBusy, None, None, None, None)

  lemma {:induction false} BusyToTheDeadline(now: int, deadline: int)
    requires now <= deadline
    ensures HttpEnd(AlwaysBusy, now, deadline) == deadline
    decreases deadline - now
  {
    if now < deadline {
      BusyToTheDeadline(now + Min(HTTP_POLL_MS, deadline - now), deadline);
    }
  }

  lemma StuckStart(caps: Caps)
    ensures Elapsed(caps, STUCK, 3) == LatestSocket(caps)
  {
    var e1 := Elapsed(caps, STUCK, 1);
    assert Elapsed(caps, STUCK, 0) == 0;
    assert e1 == Takes(caps, STUCK, 0, 0) == Max(0, Budget(caps, 0, 0));
    BusyToTheDeadline(e1, e1 + Max(0, Budget(caps, 1, e1)));
    var e2 := Elapsed(caps, STUCK, 2);
    assert e2 == e1 + Takes(caps, STUCK, 1, e1) == e1 + Max(0, Budget(caps, 1, e1));
    assert Elapsed(caps, STUCK, 3) == e2 + Takes(caps, STUCK, 2, e2);
    assert Takes(caps, STUCK, 2, e2) == Max(0, Budget(caps, 2, e2));
  }

  lemma StuckOverruns(caps: Caps)
    requires !Fits(caps)
    ensures Elapsed(caps, STUCK, PHASES) > Max(0, caps.global)
  {
    StuckStart(caps);
    var e := Elapsed(caps, STUCK, 3);
    NegativeRace(caps, STUCK, e);
    LastPhases(caps, STUCK);
    hide Takes;
    assert Elapsed(caps, STUCK, 4) == e + Takes(caps, STUCK, 3, e);
  }

  /** The six phases together stay within the global budget, whatever the outside does,
      exactly for the overrides that fit. */
  lemma SequenceWithinBudget(caps: Caps)
    ensures (forall world :: Elapsed(caps, world, PHASES) <= Max(0, caps.global)) <==> Fits(caps)
  {
    hide Elapsed, Fits;
    if Fits(caps) {
      forall world ensures Elapsed(caps, world, PHASES) <= Max(0, caps.global) {
        SocketEnd(caps, world);
        LastPhases(caps, world);
      }
    } else {
      StuckOverruns(caps);
    }
  }

  const SHIPPED := Caps(22000, 2000, 3000, 6000, 2000, 1500, 500, 5000, 3000)

  /** For example: with a race of -100000 and a settle of 100000 and otherwise the shipped
      caps, a sequence in which nothing settles takes 111 s instead of 22. */
  lemma SequenceOverrun()
    ensures var caps := SHIPPED.(socketRace := -100000, socketSettle := 100000);
            !Fits(caps) && Elapsed(caps, STUCK, PHASES) == 111000
  {
    var caps := SHIPPED.(socketRace := -100000, socketSettle := 100000);
    StuckStart(caps);
    NegativeRace(caps, STUCK, 11000);
    LastPhases(caps, STUCK);
    hide Takes;
    assert Elapsed(caps, STUCK, 4) == 11000 + Takes(caps, STUCK, 3, 11000);
  }

  function CapTotal(caps: Caps, n: nat): nat {
    if n == 0 then 0 else CapTotal(caps, n - 1) + Max(0, CapOf(caps, n - 1))
  }

  /** Unless the race is negative, the first n phases also stay within their own caps. */
  lemma {:induction false} SequenceWithinCaps(caps: Caps, world: World, n: nat)
    requires caps.socketRace >= 0
    ensures Elapsed(caps, world, n) <= CapTotal(caps, n)
  {
    if n > 0 {
      SequenceWithinCaps(caps, world, n - 1);
      PhaseWithinBudget(caps, world, n - 1, Elapsed(caps, world, n - 1));
      hide Takes;
    }
  }

  /** With the shipped caps no sequence takes more than 21 of the 22 s, and the socket phase
      no more than its two. */
  lemma ShippedBudgets(world: World, closes: Option<nat>)
    ensures Elapsed(SHIPPED, world, PHASES) <= 21000
    ensures PhaseSocket(2000, 1500, 500, closes).1 <= 2000
  {
    SequenceWithinCaps(SHIPPED, world, PHASES);
    assert CapTotal(SHIPPED, 3) == 11000;
    assert CapTotal(SHIPPED, 5) == 18000;
    hide Elapsed;
  }

  /** The worst case: when requests stay in flight and nothing ever settles, the six phases take
      2, 3, 6, 2, 5 and 3 seconds, one after the other. */
  lemma ShippedWorstCase()
    ensures Elapsed(SHIPPED, STUCK, 1) == 2000 && Elapsed(SHIPPED, STUCK, 2) == 5000
    ensures Elapsed(SHIPPED, STUCK, 3) == 11000 && Elapsed(SHIPPED, STUCK, 4) == 13000
    ensures Elapsed(SHIPPED, STUCK, 5) == 18000 && Elapsed(SHIPPED, STUCK, 6) == 21000
  {
    assert Elapsed(SHIPPED, STUCK, 0) == 0;
    PhaseTimes(SHIPPED, STUCK, 0, 0);
    BusyToTheDeadline(2000, 5000);
    assert Takes(SHIPPED, STUCK, 1, 2000) == 3000;
    PhaseTimes(SHIPPED, STUCK, 2, 5000);
    SocketExactly(2000, 1500, 500, None);
    assert Takes(SHIPPED, STUCK, 3, 11000) == 2000;
    PhaseTimes(SHIPPED, STUCK, 4, 13000);
    PhaseTimes(SHIPPED, STUCK, 5, 18000);
    hide Takes;
    assert Elapsed(SHIPPED, STUCK, 1) == 2000;
    assert Elapsed(SHIPPED, STUCK, 2) == 5000;
    assert Elapsed(SHIPPED, STUCK, 3) == 11000;
    assert Elapsed(SHIPPED, STUCK, 4) == 13000;
    assert Elapsed(SHIPPED, STUCK, 5) == 18000;
  }
}

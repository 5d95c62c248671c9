/** roomTask, refreshRoomFromDb and drainRoomOperations of socket/gameSocket.js: the promise
    chain of one room entry and what draining its tail guarantees. */
module RoomDrain {
  import opened Basics

  datatype Progress = Waiting | Running | Settled

  /** A linked task runs once promise `after` has settled. Promise 0 is the resolved promise a
      room starts with; promise k + 1 settles when task k does, failed or not. */
  datatype Task = Task(after: nat, progress: Progress)

  /** `objects[o]` is room.operation of the o-th room object built for this entry; `live` is
      the object in activeRooms. Older objects may still be held by handlers. */
  datatype Entry = Entry(tasks: seq<Task>, objects: seq<nat>, live: nat, draining: bool)

  const FRESH := Entry([], [0], 0, false)

  datatype Event = Link(obj: nat) | Begin(task: nat) | Finish(task: nat, ok: bool) | Swap | StartDraining

  predicate SettledPromise(tasks: seq<Task>, p: nat) {
    p == 0 || (p <= |tasks| && tasks[p - 1].progress == Settled)
  }

  /** roomTask: rejected while draining, otherwise linked behind the object's tail. */
  function LinkTask(e: Entry, obj: nat): Entry {
    if e.draining || obj >= |e.objects| then e
    else e.(tasks := e.tasks + [Task(e.objects[obj], Waiting)],
            objects := e.objects[obj := |e.tasks| + 1])
  }

  /** refreshRoomFromDb: a new object takes over the live object's tail. */
  function SwapObject(e: Entry): Entry {
    if e.live >= |e.objects| then e
    else e.(objects := e.objects + [e.objects[e.live]], live := |e.objects|)
  }

  function Step(e: Entry, event: Event): Entry {
    match event
    case Link(obj) => LinkTask(e, obj)
    case Begin(k) =>
      if k < |e.tasks| && e.tasks[k].progress == Waiting && SettledPromise(e.tasks, e.tasks[k].after)
      then e.(tasks := e.tasks[k := e.tasks[k].(progress := Running)]) else e
    case Finish(k, _) =>
      if k < |e.tasks| && e.tasks[k].progress == Running
      then e.(tasks := e.tasks[k := e.tasks[k].(progress := Settled)]) else e
    case Swap => SwapObject(e)
    case StartDraining => e.(draining := true)
  }

  function After(e: Entry, events: seq<Event>): Entry {
    if events == [] then e else Step(After(e, events[..|events| - 1]), events[|events| - 1])
  }

  function LiveTail(e: Entry): nat {
    if e.live < |e.objects| then e.objects[e.live] else 0
  }

  // ---- what a tail covers ----

  ghost predicate Backward(tasks: seq<Task>) {
    forall k :: 0 <= k < |tasks| ==> tasks[k].after <= k
  }

  /** The tasks promise `p` waits for, directly or not. */
  ghost function Behind(tasks: seq<Task>, p: nat): set<nat>
    requires Backward(tasks) && p <= |tasks|
    decreases p
  {
    if p == 0 then {} else {p - 1} + Behind(tasks, tasks[p - 1].after)
  }

  /** Every task linked so far is behind the live tail. */
  ghost predicate Covered(e: Entry) {
    && Backward(e.tasks) && e.live < |e.objects| && e.objects[e.live] <= |e.tasks|
    && forall k :: 0 <= k < |e.tasks| ==> k in Behind(e.tasks, e.objects[e.live])
  }

  lemma {:induction false} BehindBelow(tasks: seq<Task>, p: nat)
    requires Backward(tasks) && p <= |tasks|
    ensures forall k <- Behind(tasks, p) :: k < p
    decreases p
  {
    if p > 0 {
      BehindBelow(tasks, tasks[p - 1].after);
    }
  }

  /** Being covered means being one chain: each task waits for the previous one. */
  ghost predicate Chained(e: Entry) {
    && e.live < |e.objects| && e.objects[e.live] == |e.tasks|
    && forall k :: 0 <= k < |e.tasks| ==> e.tasks[k].after == k
  }

  lemma {:induction false} BehindChained(tasks: seq<Task>, p: nat)
    requires p <= |tasks| && forall k :: 0 <= k < |tasks| ==> tasks[k].after == k
    ensures forall k :: 0 <= k < p ==> k in Behind(tasks, p)
    decreases p
  {
    if p > 0 {
      BehindChained(tasks, p - 1);
    }
  }

  lemma {:induction false} CoveredLinks(tasks: seq<Task>, p: nat, k: nat)
    requires Backward(tasks) && p <= |tasks| && k < p && forall j :: 0 <= j < p ==> j in Behind(tasks, p)
    ensures tasks[k].after == k
    decreases p
  {
    var q := tasks[p - 1].after;
    BehindBelow(tasks, q);
    assert p >= 2 ==> p - 2 in Behind(tasks, p);
    assert q == p - 1;
    if k < p - 1 {
      assert Behind(tasks, p) == {p - 1} + Behind(tasks, p - 1);
      CoveredLinks(tasks, p - 1, k);
    }
  }

  lemma CoveredIsChained(e: Entry)
    requires Backward(e.tasks) && e.live < |e.objects| && e.objects[e.live] <= |e.tasks|
    ensures Covered(e) <==> Chained(e)
  {
    var n := |e.tasks|;
    if Covered(e) {
      BehindBelow(e.tasks, e.objects[e.live]);
      assert n > 0 ==> n - 1 in Behind(e.tasks, e.objects[e.live]);
      forall k | 0 <= k < n ensures e.tasks[k].after == k {
        CoveredLinks(e.tasks, n, k);
      }
    }
    if Chained(e) {
      BehindChained(e.tasks, n);
    }
  }

  /** A link keeps every task behind the live tail exactly when it is made on the live object
      (or is rejected): a handler that still holds an older object forks the chain. */
  lemma LinkKeepsCover(e: Entry, obj: nat)
    requires Chained(e) && obj < |e.objects|
    requires forall o :: 0 <= o < |e.objects| ==> e.objects[o] <= |e.tasks|
    ensures Covered(LinkTask(e, obj)) <==> e.draining || obj == e.live
  {
    var e' := LinkTask(e, obj);
    CoveredIsChained(e');
  }

  // ---- one entry, linked only through its live object ----

  ghost predicate Ok(e: Entry) {
    && Chained(e)
    && (forall o :: 0 <= o < |e.objects| ==> e.objects[o] <= |e.tasks|)
    && (forall k :: 0 <= k < |e.tasks| && e.tasks[k].progress != Waiting ==> SettledPromise(e.tasks, k))
  }

  ghost predicate LinksLive(e: Entry, events: seq<Event>) {
    forall i :: 0 <= i < |events| && events[i].Link? ==> events[i].obj == After(e, events[..i]).live
  }

  lemma StepKeeps(e: Entry, event: Event)
    requires Ok(e) && (event.Link? ==> event.obj == e.live || e.draining)
    ensures Ok(Step(e, event))
    ensures e.draining ==> Step(e, event).draining && |Step(e, event).tasks| == |e.tasks|
  {
    if event.Begin? || event.Finish? {
      ProgressKeeps(e, event);
    }
  }

  lemma ProgressKeeps(e: Entry, event: Event)
    requires Ok(e) && (event.Begin? || event.Finish?)
    ensures Ok(Step(e, event)) && Step(e, event).draining == e.draining && |Step(e, event).tasks| == |e.tasks|
  {
    var e' := Step(e, event);
    assert forall k :: 0 <= k < |e.tasks| ==> e'.tasks[k].after == e.tasks[k].after;
    forall k | 0 <= k < |e.tasks| && e'.tasks[k].progress != Waiting
      ensures SettledPromise(e'.tasks, k)
    {
      StaysSettled(e, event, k);
    }
    hide SettledPromise;
  }

  lemma StaysSettled(e: Entry, event: Event, p: nat)
    requires event.Begin? || event.Finish?
    ensures SettledPromise(e.tasks, p) ==> SettledPromise(Step(e, event).tasks, p)
  {
  }

  lemma {:induction false} AfterKeeps(e: Entry, events: seq<Event>)
    requires Ok(e) && LinksLive(e, events)
    ensures Ok(After(e, events))
    ensures e.draining ==> After(e, events).draining && |After(e, events).tasks| == |e.tasks|
  {
    hide Ok, Step;
    if events != [] {
      var front := events[..|events| - 1];
      forall i | 0 <= i < |front| ensures front[..i] == events[..i] {
      }
      AfterKeeps(e, front);
      StepKeeps(After(e, front), events[|events| - 1]);
    }
  }

  lemma {:induction false} SettledBelow(e: Entry, p: nat, k: nat)
    requires Ok(e) && p <= |e.tasks| && SettledPromise(e.tasks, p) && k < p
    ensures e.tasks[k].progress == Settled
    decreases p
  {
    if k < p - 1 {
      SettledBelow(e, p - 1, k);
    }
  }

  /** Tasks run one at a time and in link order, whether or not they fail and however often
      the object is swapped; the live tail settles only after all of them. */
  lemma OneAtATime(events: seq<Event>, j: nat, k: nat)
    requires LinksLive(FRESH, events) && j < k < |After(FRESH, events).tasks|
    ensures var e := After(FRESH, events);
            && (e.tasks[k].progress != Waiting ==> e.tasks[j].progress == Settled)
            && !(e.tasks[j].progress == Running && e.tasks[k].progress == Running)
            && (SettledPromise(e.tasks, LiveTail(e)) ==> e.tasks[j].progress == Settled)
  {
    AfterKeeps(FRESH, events);
    var e := After(FRESH, events);
    if e.tasks[k].progress != Waiting {
      SettledBelow(e, k, j);
    }
    if SettledPromise(e.tasks, LiveTail(e)) {
      SettledBelow(e, |e.tasks|, j);
    }
  }

  /** A linked task can start exactly when every task linked before it has settled, failed or
      not: nothing else holds it back. */
  lemma StartsExactlyWhen(events: seq<Event>, k: nat)
    requires LinksLive(FRESH, events)
    requires k < |After(FRESH, events).tasks| && After(FRESH, events).tasks[k].progress == Waiting
    ensures var e := After(FRESH, events);
            && k < |Step(e, Begin(k)).tasks|
            && (Step(e, Begin(k)).tasks[k].progress == Running <==> forall j :: 0 <= j < k ==> e.tasks[j].progress == Settled)
  {
    AfterKeeps(FRESH, events);
    var e := After(FRESH, events);
    if SettledPromise(e.tasks, k) {
      forall j | 0 <= j < k ensures e.tasks[j].progress == Settled {
        SettledBelow(e, k, j);
      }
    }
  }

  /** Once draining, links on whatever object are rejected. */
  lemma {:induction false} DrainingKeeps(e: Entry, events: seq<Event>)
    requires Ok(e) && e.draining
    ensures Ok(After(e, events)) && After(e, events).draining && |After(e, events).tasks| == |e.tasks|
  {
    hide Ok, Step;
    if events != [] {
      DrainingKeeps(e, events[..|events| - 1]);
      StepKeeps(After(e, events[..|events| - 1]), events[|events| - 1]);
    }
  }

  lemma TailCoversAll(e: Entry, p: nat)
    requires Ok(e) && p == |e.tasks| && SettledPromise(e.tasks, p)
    ensures forall k :: 0 <= k < |e.tasks| ==> e.tasks[k].progress == Settled
  {
    forall k | 0 <= k < |e.tasks| ensures e.tasks[k].progress == Settled {
      SettledBelow(e, |e.tasks|, k);
    }
  }

  /** Once draining, nothing is linked, on the live object or any other; so when the tail taken
      at the snapshot has settled, every task of the entry has, and none will start again. */
  lemma DrainCoversAll(before: seq<Event>, later: seq<Event>)
    requires LinksLive(FRESH, before) && After(FRESH, before).draining
    ensures var snapshot := After(FRESH, before);
            var e := After(snapshot, later);
            && |e.tasks| == |snapshot.tasks|
            && (SettledPromise(e.tasks, LiveTail(snapshot)) ==>
                  forall k :: 0 <= k < |e.tasks| ==> e.tasks[k].progress == Settled)
  {
    AfterKeeps(FRESH, before);
    var snapshot := After(FRESH, before);
    DrainingKeeps(snapshot, later);
    var e := After(snapshot, later);
    if SettledPromise(e.tasks, LiveTail(snapshot)) {
      TailCoversAll(e, LiveTail(snapshot));
    }
  }

  /** With one link on an older object, two tasks of a room do run together and the live
      tail has settled while one still runs. */
  lemma StaleLinkForks()
    ensures exists events, e ::
              && e == After(FRESH, events) && |e.tasks| == 2
              && e.tasks[0].progress == Running && e.tasks[1].progress == Settled
              && SettledPromise(e.tasks, LiveTail(e))
  {
    var s1 := [] + [Swap];
    var s2 := s1 + [Link(0)];
    var s3 := s2 + [Link(1)];
    var s4 := s3 + [Begin(0)];
    var s5 := s4 + [Begin(1)];
    var s6 := s5 + [Finish(1, true)];
    AfterStep(FRESH, [], Swap);
    AfterStep(FRESH, s1, Link(0));
    AfterStep(FRESH, s2, Link(1));
    AfterStep(FRESH, s3, Begin(0));
    AfterStep(FRESH, s4, Begin(1));
    AfterStep(FRESH, s5, Finish(1, true));
    hide After;
    assert After(FRESH, s3) == Entry([Task(0, Waiting), Task(0, Waiting)], [1, 2], 1, false);
    assert After(FRESH, s6) == Entry([Task(0, Running), Task(0, Settled)], [1, 2], 1, false);
  }

  lemma AfterStep(e: Entry, events: seq<Event>, event: Event)
    ensures After(e, events + [event]) == Step(After(e, events), event)
  {
    assert (events + [event])[..|events|] == events;
  }

  // ---- drainRoomOperations ----

  datatype Drained = Drained(total: nat, drained: nat, timedOut: bool, elapsed: nat)

  /** `settles[i]`: when the i-th tail of the snapshot settles (None: never), in ms from now. */
  method DrainRoomOperations(settles: seq<Option<nat>>, budgetMs: int) returns (result: Drained)
    ensures result == Drain(settles, budgetMs)
    ensures result.total == |settles| && result.drained <= result.total
    ensures !result.timedOut ==>
              && result.drained == result.total
              && forall settle <- settles :: settle.Some? && settle.value <= result.elapsed
    ensures result.timedOut <==> settles != [] && (budgetMs <= 0 || AnyLate(settles, budgetMs))
    ensures result.elapsed <= if budgetMs > 0 then budgetMs else 0
  {
    var total, drained, timedOut, elapsed := |settles|, 0, false, 0;
    if settles == [] { return Drained(0, 0, false, 0); }
    if budgetMs <= 0 { return Drained(total, 0, true, 0); }
    for i := 0 to |settles|
      invariant (drained, elapsed) == InTime(settles[..i], budgetMs)
      invariant timedOut == AnyLate(settles[..i], budgetMs)
      invariant drained <= i && elapsed <= budgetMs
    {
      assert settles[..i + 1][..i] == settles[..i];
      assert settles[..i + 1] == settles[..i] + [settles[i]];
      if settles[i].Some? && settles[i].value <= budgetMs {
        drained := drained + 1;
        if settles[i].value > elapsed { elapsed := settles[i].value; }
      } else {
        timedOut := true;
      }
    }
    assert settles[..|settles|] == settles;
    if timedOut {
      elapsed := budgetMs;
    } else {
      InTimeBounds(settles, budgetMs);
    }
    return Drained(total, drained, timedOut, elapsed);
  }

  predicate Late(settle: Option<nat>, budgetMs: int) {
    settle.None? || settle.value > budgetMs
  }

  predicate AnyLate(settles: seq<Option<nat>>, budgetMs: int) {
    exists settle <- settles :: Late(settle, budgetMs)
  }

  /** How many tails settle within the budget, and when the last of them does. */
  function InTime(settles: seq<Option<nat>>, budgetMs: int): (nat, nat) {
    if settles == [] then (0, 0)
    else
      var (n, last) := InTime(settles[..|settles| - 1], budgetMs);
      var settle := settles[|settles| - 1];
      if Late(settle, budgetMs) then (n, last) else (n + 1, if settle.value > last then settle.value else last)
  }

  function Drain(settles: seq<Option<nat>>, budgetMs: int): Drained {
    if settles == [] then Drained(0, 0, false, 0)
    else if budgetMs <= 0 then Drained(|settles|, 0, true, 0)
    else
      var (drained, last) := InTime(settles, budgetMs);
      var timedOut := AnyLate(settles, budgetMs);
      Drained(|settles|, drained, timedOut, if timedOut then budgetMs else last)
  }

  lemma {:induction false} InTimeBounds(settles: seq<Option<nat>>, budgetMs: int)
    requires !AnyLate(settles, budgetMs)
    ensures InTime(settles, budgetMs).0 == |settles|
    ensures forall settle <- settles :: settle.Some? && settle.value <= InTime(settles, budgetMs).1
  {
    if settles != [] {
      var n := |settles| - 1;
      assert settles[n] in settles && !Late(settles[n], budgetMs);
      forall settle <- settles[..n] ensures !Late(settle, budgetMs) {
        assert settle in settles;
      }
      InTimeBounds(settles[..n], budgetMs);
      assert settles == settles[..n] + [settles[n]];
    }
  }

  function InTimeSet(settles: seq<Option<nat>>, budgetMs: int): set<nat> {
    set i | 0 <= i < |settles| && settles[i].Some? && settles[i].value <= budgetMs
  }

  lemma {:induction false} InTimeCount(settles: seq<Option<nat>>, budgetMs: int)
    ensures InTime(settles, budgetMs).0 == |InTimeSet(settles, budgetMs)|
    ensures forall i <- InTimeSet(settles, budgetMs) :: settles[i].value <= InTime(settles, budgetMs).1
    ensures InTime(settles, budgetMs).1 == 0 ||
            exists i <- InTimeSet(settles, budgetMs) :: settles[i].value == InTime(settles, budgetMs).1
  {
    if settles != [] {
      var n := |settles| - 1;
      InTimeCount(settles[..n], budgetMs);
      var front, all := InTimeSet(settles[..n], budgetMs), InTimeSet(settles, budgetMs);
      assert forall i <- front :: i in all && settles[..n][i] == settles[i];
      if Late(settles[n], budgetMs) {
        assert all == front;
      } else {
        assert all == front + {n};
      }
    }
  }

  /** With a positive budget the drain counts the tails that settle within it, each once; it
      returns when the last one does, or at the end of the budget if one is late. */
  lemma DrainExactly(settles: seq<Option<nat>>, budgetMs: nat)
    requires budgetMs > 0
    ensures var d, inTime := Drain(settles, budgetMs), InTimeSet(settles, budgetMs);
            && d.total == |settles| && d.drained == |inTime|
            && (d.timedOut <==> exists settle <- settles :: settle.None? || settle.value > budgetMs)
            && (d.timedOut ==> d.elapsed == budgetMs)
            && (!d.timedOut && settles != [] ==>
                  exists i <- inTime :: settles[i].value == d.elapsed && forall j <- inTime :: settles[j].value <= d.elapsed)
  {
    InTimeCount(settles, budgetMs);
    if settles != [] && !AnyLate(settles, budgetMs) {
      assert settles[0] in settles && !Late(settles[0], budgetMs);
      assert 0 in InTimeSet(settles, budgetMs);
    }
  }

  // ---- draining entries that keep running ----

  /** One room: what happened before the snapshot, and what happens in each ms after it. */
  datatype Timeline = Timeline(before: seq<Event>, during: nat -> seq<Event>)

  function Snapshot(room: Timeline): Entry {
    After(FRESH, room.before)
  }

  function EntryAt(room: Timeline, now: nat): Entry {
    if now == 0 then Snapshot(room) else After(EntryAt(room, now - 1), room.during(now - 1))
  }

  predicate TailSettled(room: Timeline, now: nat) {
    SettledPromise(EntryAt(room, now).tasks, LiveTail(Snapshot(room)))
  }

  /** `settle` is the first moment at which the tail taken at the snapshot has settled. */
  ghost predicate Observed(room: Timeline, settle: Option<nat>) {
    match settle
    case None => forall now: nat :: !TailSettled(room, now)
    case Some(t) => TailSettled(room, t) && forall now: nat :: now < t ==> !TailSettled(room, now)
  }

  ghost predicate AllDone(e: Entry) {
    forall k :: 0 <= k < |e.tasks| ==> e.tasks[k].progress == Settled
  }

  lemma FreshOk()
    ensures Ok(FRESH)
  {
  }

  lemma {:induction false} EntryAtOk(room: Timeline, now: nat)
    requires LinksLive(FRESH, room.before) && Snapshot(room).draining
    ensures Ok(EntryAt(room, now)) && EntryAt(room, now).draining
    ensures |EntryAt(room, now).tasks| == |Snapshot(room).tasks|
  {
    hide Ok, LinksLive;
    if now == 0 {
      FreshOk();
      AfterKeeps(FRESH, room.before);
    } else {
      EntryAtOk(room, now - 1);
      DrainingKeeps(EntryAt(room, now - 1), room.during(now - 1));
    }
  }

  lemma SnapshotTail(room: Timeline)
    requires LinksLive(FRESH, room.before)
    ensures LiveTail(Snapshot(room)) == |Snapshot(room).tasks|
  {
    AfterKeeps(FRESH, room.before);
  }

  lemma SettledIsDone(e: Entry, p: nat)
    requires Ok(e) && p == |e.tasks| && SettledPromise(e.tasks, p)
    ensures AllDone(e)
  {
    TailCoversAll(e, p);
  }

  lemma AllDoneStays(e: Entry, event: Event)
    requires e.draining && AllDone(e)
    ensures AllDone(Step(e, event)) && Step(e, event).draining
  {
  }

  lemma {:induction false} AllDoneLater(e: Entry, events: seq<Event>)
    requires e.draining && AllDone(e)
    ensures AllDone(After(e, events)) && After(e, events).draining
  {
    hide AllDone, Step;
    if events != [] {
      AllDoneLater(e, events[..|events| - 1]);
      AllDoneStays(After(e, events[..|events| - 1]), events[|events| - 1]);
    }
  }

  lemma {:induction false} DoneFrom(room: Timeline, t: nat, now: nat)
    requires LinksLive(FRESH, room.before) && Snapshot(room).draining && TailSettled(room, t) && t <= now
    ensures AllDone(EntryAt(room, now))
    decreases now - t
  {
    hide LinksLive, AllDone, After;
    if now == t {
      EntryAtOk(room, t);
      SnapshotTail(room);
      SettledIsDone(EntryAt(room, t), LiveTail(Snapshot(room)));
    } else {
      DoneFrom(room, t, now - 1);
      EntryAtOk(room, now - 1);
      AllDoneLater(EntryAt(room, now - 1), room.during(now - 1));
    }
  }

  /** The snapshots drainRoomOperations takes once draining, and when their tails settle. */
  ghost predicate Observing(rooms: seq<Timeline>, settles: seq<Option<nat>>) {
    && |settles| == |rooms|
    && forall i :: 0 <= i < |rooms| ==>
         LinksLive(FRESH, rooms[i].before) && Snapshot(rooms[i]).draining && Observed(rooms[i], settles[i])
  }

  /** Drain any number of rooms that keep running, with stale handlers still trying to link.
      If that does not time out, then from the moment it returns no task of any of the rooms
      is running or ever will. */
  lemma DrainedRoomsAreIdle(rooms: seq<Timeline>, settles: seq<Option<nat>>, budgetMs: int, i: nat, now: nat)
    requires Observing(rooms, settles) && i < |rooms|
    requires !Drain(settles, budgetMs).timedOut && Drain(settles, budgetMs).elapsed <= now
    ensures Drain(settles, budgetMs).drained == |rooms|
    ensures AllDone(EntryAt(rooms[i], now))
  {
    hide LinksLive, EntryAt, Snapshot, TailSettled, AllDone;
    InTimeBounds(settles, budgetMs);
    assert settles[i] in settles;
    DoneFrom(rooms[i], settles[i].value, now);
  }

  /** At no moment within the budget has the snapshot's tail settled. */
  ghost predicate TooLate(room: Timeline, budgetMs: int) {
    forall now: nat :: now <= budgetMs ==> !TailSettled(room, now)
  }

  lemma LateIsTooLate(room: Timeline, settle: Option<nat>, budgetMs: int)
    requires Observed(room, settle)
    ensures Late(settle, budgetMs) <==> TooLate(room, budgetMs)
  {
    hide TailSettled;
  }

  /** ... and it times out exactly when there are rooms and no budget, or some room's tail does
      not settle within it. */
  lemma DrainTimesOutExactlyWhen(rooms: seq<Timeline>, settles: seq<Option<nat>>, budgetMs: int)
    requires Observing(rooms, settles)
    ensures Drain(settles, budgetMs).timedOut <==>
              rooms != [] && (budgetMs <= 0 || exists room <- rooms :: TooLate(room, budgetMs))
  {
    hide LinksLive, Snapshot, Observed, TooLate, InTime, Late;
    forall i | 0 <= i < |rooms| ensures Late(settles[i], budgetMs) <==> TooLate(rooms[i], budgetMs) {
      LateIsTooLate(rooms[i], settles[i], budgetMs);
    }
    if AnyLate(settles, budgetMs) {
      var i :| 0 <= i < |settles| && Late(settles[i], budgetMs);
      assert rooms[i] in rooms;
    }
    if exists room <- rooms :: TooLate(room, budgetMs) {
      var i :| 0 <= i < |rooms| && TooLate(rooms[i], budgetMs);
      assert settles[i] in settles;
    }
  }

  // ---- the entry as an object ----

  /** Room objects share one promise chain; link and swap run without an await in between. */
  class RoomEntry {
    var tasks: seq<Task>
    var objects: seq<nat>
    var live: nat
    var draining: bool

    function State(): Entry
      reads this
    {
      Entry(tasks, objects, live, draining)
    }

    constructor ()
      ensures State() == FRESH && Ok(State())
    {
      tasks, objects, live, draining := [], [0], 0, false;
    }

    /** roomTask on the live object: false is the drain rejection. */
    method RoomTask() returns (linked: bool)
      requires Ok(State())
      modifies this
      ensures State() == LinkTask(old(State()), old(live)) && Ok(State())
      ensures linked <==> !old(draining)
    {
      if draining { return false; }
      StepKeeps(State(), Link(live));
      tasks := tasks + [Task(objects[live], Waiting)];
      objects := objects[live := |tasks|];
      return true;
    }

    /** refreshRoomFromDb: rebuilt.operation = current.operation */
    method Refresh()
      requires Ok(State())
      modifies this
      ensures State() == SwapObject(old(State())) && Ok(State())
    {
      StepKeeps(State(), Swap);
      objects := objects + [objects[live]];
      live := |objects| - 1;
    }
  }
}

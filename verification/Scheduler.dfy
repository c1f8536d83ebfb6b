/**
 The trials of a scenario in parallel: a semaphore bounds how many run at a time, and their steps
 interleave in any order on one push receiver.
 */
module Scheduler {
  import opened Wrappers
  import opened Runner
  import opened Lifetimes
  import Push

  const MAX_PARALLEL_TRIALS: nat := 32

  // ---------------------------------------------------------------------------------------------
  // The system
  // ---------------------------------------------------------------------------------------------

  /** What a trial was given from outside: its context, an unused route at each turn, and replies. */
  datatype Given = Context(id: string) | Route(path: string) | Got(reply: Reply)

  /** A trial that waits for the semaphore, runs or has ended, and what it was given so far. */
  datatype Slot = Slot(trial: Option<Trial>, log: seq<Given>)

  datatype System = System(slots: seq<Slot>, pool: Pool)

  /** A step of one trial: entering the semaphore, running to the next await, or being resumed. */
  datatype Move = Move(slot: nat, given: Given)

  function Initial(trials: nat, pool: Pool): System {
    System(seq(trials, i => Slot(None, [])), pool)
  }

  predicate InFlight(slot: Slot) { slot.trial.Some? && !slot.trial.value.phase.Ended? }

  function Running(slots: seq<Slot>): nat {
    if slots == [] then 0
    else Running(slots[..|slots| - 1]) + if InFlight(slots[|slots| - 1]) then 1 else 0
  }

  predicate CanBegin(turns: seq<Turn>, slot: Slot) {
    slot.trial.Some? && slot.trial.value.phase.Ready? && slot.trial.value.next < |turns|
  }

  predicate CanResume(turns: seq<Turn>, slot: Slot) {
    slot.trial.Some? && slot.trial.value.phase.Awaiting? && slot.trial.value.next < |turns|
  }

  /** A move is possible while there is a permit, and with a route that is not in use. */
  predicate Enabled(limit: nat, turns: seq<Turn>, y: System, m: Move) {
    m.slot < |y.slots| &&
    match m.given
    case Context(_) => y.slots[m.slot].trial.None? && Running(y.slots) < limit
    case Route(path) => CanBegin(turns, y.slots[m.slot]) && path !in y.pool.paths
    case Got(_) => CanResume(turns, y.slots[m.slot])
  }

  /** The effect of what a trial is given on the trial and the pool. */
  function Moved(setup: Setup, turns: seq<Turn>, trial: Option<Trial>, pool: Pool, given: Given)
    : (Option<Trial>, Pool)
  {
    match given
    case Context(id) => (Some(Start(id)), pool)
    case Route(path) =>
      if trial.Some? && trial.value.phase.Ready? && trial.value.next < |turns| then
        var (t, pool1) := Begin(setup, turns, trial.value, pool, path); (Some(t), pool1)
      else (trial, pool)
    case Got(reply) =>
      if trial.Some? && trial.value.phase.Awaiting? && trial.value.next < |turns| then
        var (t, pool1) := Resume(setup, turns, trial.value, pool, reply); (Some(t), pool1)
      else (trial, pool)
  }

  function Next(limit: nat, setup: Setup, turns: seq<Turn>, y: System, m: Move): System {
    if !Enabled(limit, turns, y, m) then y
    else
      var slot := y.slots[m.slot];
      var (trial, pool) := Moved(setup, turns, slot.trial, y.pool, m.given);
      System(y.slots[m.slot := Slot(trial, slot.log + [m.given])], pool)
  }

  function Run(limit: nat, setup: Setup, turns: seq<Turn>, y: System, moves: seq<Move>): System {
    if moves == [] then y
    else Next(limit, setup, turns, Run(limit, setup, turns, y, moves[..|moves| - 1]), moves[|moves| - 1])
  }

  // ---------------------------------------------------------------------------------------------
  // Who owns what
  // ---------------------------------------------------------------------------------------------

  function OwnedBy(slot: Slot): set<string> {
    if slot.trial.Some? then Owned(slot.trial.value) else {}
  }

  function AllOwned(slots: seq<Slot>): set<string> {
    if slots == [] then {} else AllOwned(slots[..|slots| - 1]) + OwnedBy(slots[|slots| - 1])
  }

  predicate Disjoint(slots: seq<Slot>) {
    slots == [] ||
    (Disjoint(slots[..|slots| - 1]) && AllOwned(slots[..|slots| - 1]) !! OwnedBy(slots[|slots| - 1]))
  }

  lemma {:induction false} OwnedIsOwned(slots: seq<Slot>, i: nat)
    requires i < |slots|
    ensures OwnedBy(slots[i]) <= AllOwned(slots)
  {
    if i < |slots| - 1 { OwnedIsOwned(slots[..|slots| - 1], i); }
  }

  lemma ExchangeInUnion(a: set<string>, b: set<string>, before: set<string>, after: set<string>)
    requires a !! b && before <= a && after !! (a + b) - before
    ensures after !! a - before && (a - before) + after !! b
    ensures ((a - before) + after) + b == ((a + b) - before) + after
  {
    assert forall x :: x in b ==> x in (a + b) - before;
    assert forall x :: x in a - before ==> x in (a + b) - before;
  }

  /** Replacing one trial exchanges what it owned, and nothing else. */
  lemma {:induction false} Exchange(slots: seq<Slot>, i: nat, slot: Slot)
    requires i < |slots| && Disjoint(slots)
    requires OwnedBy(slot) !! AllOwned(slots) - OwnedBy(slots[i])
    ensures Disjoint(slots[i := slot])
    ensures AllOwned(slots[i := slot]) == (AllOwned(slots) - OwnedBy(slots[i])) + OwnedBy(slot)
  {
    var init, last := slots[..|slots| - 1], slots[|slots| - 1];
    var slots' := slots[i := slot];
    if i == |slots| - 1 {
      assert slots'[..|slots| - 1] == init;
    } else {
      OwnedIsOwned(init, i);
      ExchangeInUnion(AllOwned(init), OwnedBy(last), OwnedBy(slots[i]), OwnedBy(slot));
      Exchange(init, i, slot);
      assert slots'[..|slots| - 1] == init[i := slot];
    }
  }

  lemma {:induction false} Recount(slots: seq<Slot>, i: nat, slot: Slot)
    requires i < |slots|
    ensures Running(slots[i := slot])
         == Running(slots) - (if InFlight(slots[i]) then 1 else 0) + (if InFlight(slot) then 1 else 0)
  {
    var init, slots' := slots[..|slots| - 1], slots[i := slot];
    if i == |slots| - 1 {
      assert slots'[..|slots| - 1] == init;
    } else {
      Recount(init, i, slot);
      assert slots'[..|slots| - 1] == init[i := slot];
    }
  }

  predicate SlotFits(turns: seq<Turn>, slot: Slot) {
    slot.trial.Some? ==> Fits(turns, slot.trial.value)
  }

  /** At most one path for every trial in flight. */
  lemma {:induction false} OwnedAtMostRunning(turns: seq<Turn>, slots: seq<Slot>)
    requires WellShaped(turns) && forall i :: 0 <= i < |slots| ==> SlotFits(turns, slots[i])
    ensures |AllOwned(slots)| <= Running(slots)
  {
    if slots != [] {
      var init, last := slots[..|slots| - 1], slots[|slots| - 1];
      OwnedAtMostRunning(turns, init);
      assert SlotFits(turns, last);
      UnionSize(AllOwned(init), OwnedBy(last));
      if InFlight(last) {
        AtMostOne(turns, last.trial.value);
      } else {
        assert OwnedBy(last) == {};
      }
    }
  }

  lemma UnionSize(a: set<string>, b: set<string>)
    ensures |a + b| <= |a| + |b|
  {
    assert a + b == a + (b - a);
    assert |b - a| + |b * a| == |b| by { assert (b - a) + (b * a) == b; }
  }

  // ---------------------------------------------------------------------------------------------
  // A trial on its own
  // ---------------------------------------------------------------------------------------------

  /** The trial that was given the same, with the receiver to itself. */
  function Alone(setup: Setup, turns: seq<Turn>, status: ReceiverStatus, log: seq<Given>): Option<Trial> {
    if log == [] then None
    else Moved(setup, turns, Alone(setup, turns, status, log[..|log| - 1]), Pool(status, {}), log[|log| - 1]).0
  }

  /** Other subscriptions make no difference until the receiver is full. */
  lemma BeginAlone(setup: Setup, turns: seq<Turn>, t: Trial, pool: Pool, route: string)
    requires t.phase.Ready? && t.next < |turns|
    requires turns[t.next].push ==> |pool.paths| < Push.MAX_PUSH_SUBSCRIPTIONS
    ensures Begin(setup, turns, t, pool, route).0 == Begin(setup, turns, t, Pool(pool.status, {}), route).0
  {
  }

  lemma AdvanceAlone(setup: Setup, turns: seq<Turn>, t: Trial, pool: Pool, other: Pool, reply: Reply)
    requires t.phase.Awaiting? && t.next < |turns|
    ensures Advance(setup, turns, t, pool, reply).0 == Advance(setup, turns, t, other, reply).0
  {
    assert FinishTurn(t.phase.pending, t.held, pool, reply).0 == FinishTurn(t.phase.pending, t.held, other, reply).0;
  }

  lemma ResumeAlone(setup: Setup, turns: seq<Turn>, t: Trial, pool: Pool, reply: Reply)
    requires t.phase.Awaiting? && t.next < |turns|
    ensures Resume(setup, turns, t, pool, reply).0 == Resume(setup, turns, t, Pool(pool.status, {}), reply).0
  {
    AdvanceAlone(setup, turns, t, pool, Pool(pool.status, {}), reply);
  }

  // ---------------------------------------------------------------------------------------------
  // The invariant
  // ---------------------------------------------------------------------------------------------

  predicate Valid(limit: nat, setup: Setup, turns: seq<Turn>, found: Pool, y: System) {
    && y.pool.status == found.status
    && Running(y.slots) <= limit
    && Disjoint(y.slots)
    && AllOwned(y.slots) !! found.paths
    && y.pool.paths == found.paths + AllOwned(y.slots)
    && (forall i :: 0 <= i < |y.slots| ==> SlotFits(turns, y.slots[i]))
    && (forall i :: 0 <= i < |y.slots| ==> y.slots[i].trial == Alone(setup, turns, found.status, y.slots[i].log))
  }

  lemma PoolSize(limit: nat, setup: Setup, turns: seq<Turn>, found: Pool, y: System)
    requires WellShaped(turns) && Valid(limit, setup, turns, found, y)
    ensures |y.pool.paths| <= |found.paths| + Running(y.slots)
  {
    OwnedAtMostRunning(turns, y.slots);
    UnionSize(found.paths, AllOwned(y.slots));
  }

  /** What a move does to one trial and its paths. */
  predicate Keeps(turns: seq<Turn>, found: Pool, before: Slot, pool0: Pool, after: Slot, pool: Pool) {
    && after.trial.Some? && SlotFits(turns, after)
    && pool.status == pool0.status
    && OwnedBy(after) <= pool.paths && pool.paths - OwnedBy(after) == pool0.paths - OwnedBy(before)
    && OwnedBy(after) !! found.paths
  }

  lemma RouteKeeps(
    setup: Setup, turns: seq<Turn>, found: Pool, slot: Slot, pool: Pool, path: string, log: seq<Given>)
    requires WellShaped(turns) && CanBegin(turns, slot) && SlotFits(turns, slot) && path !in pool.paths
    requires OwnedBy(slot) <= pool.paths && OwnedBy(slot) !! found.paths && found.paths <= pool.paths
    requires |pool.paths| < Push.MAX_PUSH_SUBSCRIPTIONS
    ensures var (trial, pool1) := Moved(setup, turns, slot.trial, pool, Route(path));
      && Keeps(turns, found, slot, pool, Slot(trial, log), pool1)
      && trial == Moved(setup, turns, slot.trial, Pool(pool.status, {}), Route(path)).0
  {
    BeginConserves(setup, turns, slot.trial.value, pool, path);
    BeginAlone(setup, turns, slot.trial.value, pool, path);
  }

  lemma ReplyKeeps(
    setup: Setup, turns: seq<Turn>, found: Pool, slot: Slot, pool: Pool, reply: Reply, log: seq<Given>)
    requires WellShaped(turns) && CanResume(turns, slot) && SlotFits(turns, slot)
    requires OwnedBy(slot) <= pool.paths && OwnedBy(slot) !! found.paths
    ensures var (trial, pool1) := Moved(setup, turns, slot.trial, pool, Got(reply));
      && Keeps(turns, found, slot, pool, Slot(trial, log), pool1)
      && trial == Moved(setup, turns, slot.trial, Pool(pool.status, {}), Got(reply)).0
  {
    ResumeConserves(setup, turns, slot.trial.value, pool, reply);
    ResumeAlone(setup, turns, slot.trial.value, pool, reply);
  }

  lemma MovedKeeps(limit: nat, setup: Setup, turns: seq<Turn>, found: Pool, y: System, m: Move)
    requires WellShaped(turns) && Valid(limit, setup, turns, found, y) && Enabled(limit, turns, y, m)
    requires |found.paths| + limit < Push.MAX_PUSH_SUBSCRIPTIONS
    ensures var slot := y.slots[m.slot];
      var (trial, pool) := Moved(setup, turns, slot.trial, y.pool, m.given);
      var log := slot.log + [m.given];
      && Keeps(turns, found, slot, y.pool, Slot(trial, log), pool)
      && trial == Alone(setup, turns, found.status, log)
  {
    var slot := y.slots[m.slot];
    assert SlotFits(turns, slot);
    OwnedIsOwned(y.slots, m.slot);
    PoolSize(limit, setup, turns, found, y);
    var log := slot.log + [m.given];
    assert log[..|log| - 1] == slot.log;
    match m.given {
      case Context(id) =>
      case Route(path) => RouteKeeps(setup, turns, found, slot, y.pool, path, log);
      case Got(reply) => ReplyKeeps(setup, turns, found, slot, y.pool, reply, log);
    }
  }

  lemma PathsExchanged(
    found: set<string>, all: set<string>, before: set<string>, after: set<string>, pool0: set<string>,
    pool: set<string>)
    requires pool0 == found + all && all !! found && before <= all && after <= pool && after !! found
    requires pool - after == pool0 - before
    ensures after !! all - before
    ensures var all1 := (all - before) + after; pool == found + all1 && all1 !! found
  {
    assert forall x :: x in pool <==> x in pool - after || x in after;
    assert forall x :: x in all - before ==> x in pool - after;
  }

  /** Exchanging one trial keeps the invariant, if its paths are exchanged in the pool as well. */
  lemma ExchangeKeepsValid(
    limit: nat, setup: Setup, turns: seq<Turn>, found: Pool, y: System, i: nat, after: Slot, pool: Pool)
    requires Valid(limit, setup, turns, found, y) && i < |y.slots|
    requires Keeps(turns, found, y.slots[i], y.pool, after, pool)
    requires after.trial == Alone(setup, turns, found.status, after.log)
    requires InFlight(after) ==> InFlight(y.slots[i]) || Running(y.slots) < limit
    ensures Valid(limit, setup, turns, found, System(y.slots[i := after], pool))
  {
    var slots := y.slots[i := after];
    OwnedIsOwned(y.slots, i);
    PathsExchanged(found.paths, AllOwned(y.slots), OwnedBy(y.slots[i]), OwnedBy(after), y.pool.paths, pool.paths);
    Exchange(y.slots, i, after);
    Recount(y.slots, i, after);
    assert forall j :: 0 <= j < |slots| ==> slots[j] == if j == i then after else y.slots[j];
  }

  lemma NextKeepsValid(limit: nat, setup: Setup, turns: seq<Turn>, found: Pool, y: System, m: Move)
    requires WellShaped(turns) && Valid(limit, setup, turns, found, y)
    requires |found.paths| + limit < Push.MAX_PUSH_SUBSCRIPTIONS
    ensures Valid(limit, setup, turns, found, Next(limit, setup, turns, y, m))
  {
    if Enabled(limit, turns, y, m) {
      var slot := y.slots[m.slot];
      var (trial, pool) := Moved(setup, turns, slot.trial, y.pool, m.given);
      var after := Slot(trial, slot.log + [m.given]);
      MovedKeeps(limit, setup, turns, found, y, m);
      ExchangeKeepsValid(limit, setup, turns, found, y, m.slot, after, pool);
    }
  }

  // ---------------------------------------------------------------------------------------------
  // Main results
  // ---------------------------------------------------------------------------------------------

  lemma {:induction false} InitialOwnsNothing(trials: nat, pool: Pool)
    ensures AllOwned(Initial(trials, pool).slots) == {} && Disjoint(Initial(trials, pool).slots)
    ensures Running(Initial(trials, pool).slots) == 0
  {
    if trials > 0 {
      InitialOwnsNothing(trials - 1, pool);
      assert Initial(trials, pool).slots[..trials - 1] == Initial(trials - 1, pool).slots;
    }
  }

  /** Every reachable state is valid. */
  lemma {:induction false} ReachableValid(
    limit: nat, setup: Setup, turns: seq<Turn>, trials: nat, found: Pool, moves: seq<Move>)
    requires WellShaped(turns) && |found.paths| + limit < Push.MAX_PUSH_SUBSCRIPTIONS
    ensures Valid(limit, setup, turns, found, Run(limit, setup, turns, Initial(trials, found), moves))
  {
    if moves == [] {
      InitialOwnsNothing(trials, found);
    } else {
      var init := moves[..|moves| - 1];
      ReachableValid(limit, setup, turns, trials, found, init);
      NextKeepsValid(limit, setup, turns, found, Run(limit, setup, turns, Initial(trials, found), init),
                     moves[|moves| - 1]);
    }
  }

  predicate AllEnded(slots: seq<Slot>) {
    forall i :: 0 <= i < |slots| ==> slots[i].trial.Some? && !InFlight(slots[i])
  }

  lemma {:induction false} EndedOwnNothing(turns: seq<Turn>, slots: seq<Slot>)
    requires AllEnded(slots) && forall i :: 0 <= i < |slots| ==> SlotFits(turns, slots[i])
    ensures AllOwned(slots) == {}
  {
    if slots != [] {
      EndedOwnNothing(turns, slots[..|slots| - 1]);
      assert SlotFits(turns, slots[|slots| - 1]) && !InFlight(slots[|slots| - 1]);
    }
  }

  lemma {:induction false} AloneNeverRefused(setup: Setup, turns: seq<Turn>, status: ReceiverStatus, log: seq<Given>)
    ensures var t := Alone(setup, turns, status, log);
      t.None? || t.value.phase != Ended(Some(TooManySubscriptions))
  {
    if log != [] { AloneNeverRefused(setup, turns, status, log[..|log| - 1]); }
  }

  /**
   In every reachable state of a scenario with at most MAX_PARALLEL_TRIALS permits, there are at most as
   many subscriptions as permits, far from the receiver's limit, so no trial is ever refused one; and each
   trial is in the state it would have reached alone with the same replies.
   */
  lemma ParallelTrials(limit: nat, setup: Setup, turns: seq<Turn>, trials: nat, found: Pool, moves: seq<Move>)
    requires WellShaped(turns) && limit <= MAX_PARALLEL_TRIALS && found.paths == {}
    ensures var y := Run(limit, setup, turns, Initial(trials, found), moves);
      && |y.pool.paths| <= Running(y.slots) <= limit < Push.MAX_PUSH_SUBSCRIPTIONS
      && (forall i :: 0 <= i < |y.slots| ==>
            var t := y.slots[i].trial;
            && t == Alone(setup, turns, found.status, y.slots[i].log)
            && (t.None? || t.value.phase != Ended(Some(TooManySubscriptions))))
      && (AllEnded(y.slots) ==> y.pool == found)
  {
    var y := Run(limit, setup, turns, Initial(trials, found), moves);
    ReachableValid(limit, setup, turns, trials, found, moves);
    PoolSize(limit, setup, turns, found, y);
    forall i | 0 <= i < |y.slots|
      ensures var t := y.slots[i].trial;
        && t == Alone(setup, turns, found.status, y.slots[i].log)
        && (t.None? || t.value.phase != Ended(Some(TooManySubscriptions)))
    {
      AloneNeverRefused(setup, turns, found.status, y.slots[i].log);
    }
    if AllEnded(y.slots) { EndedOwnNothing(turns, y.slots); }
  }
}

/**
 Trials in parallel are trials: whatever the schedule, a trial among others ends as a sequential one with the same
 context, routes and replies, and so does the verdict on its scenario.
 */
module ParallelRuns {
  import opened Wrappers
  import opened Runner
  import opened Lifetimes
  import opened Scheduler
  import opened Scenarios
  import Push
  import Report

  // ---------------------------------------------------------------------------------------------
  // What a sequential trial is given
  // ---------------------------------------------------------------------------------------------

  /** The routes and replies a world gives to the turns from here on, in the order in which they are asked for. */
  function LoopGivens<S>(w: World<S>, setup: Setup, turns: seq<Turn>, t: Trial, pool: Pool, s: S): seq<Given>
    requires t.phase.Ready? && t.next <= |turns|
    decreases |turns| - t.next
  {
    if t.next == |turns| then []
    else
      var (t1, pool1) := Begin(setup, turns, t, pool, w.route(s));
      if t1.phase.Ended? then [Route(w.route(s))]
      else
        var (s1, reply) := w.call(s, t1.phase.pending.request);
        var (t2, pool2) := Advance(setup, turns, t1, pool1, reply);
        [Route(w.route(s)), Got(reply)]
        + if t2.phase.Ended? then [] else LoopGivens(w, setup, turns, t2, pool2, s1)
  }

  /** Everything it gives to a trial. */
  function Givens<S>(w: World<S>, setup: Setup, turns: seq<Turn>, pool: Pool, s: S): seq<Given> {
    [Context(w.uuid(s))] + LoopGivens(w, setup, turns, Start(w.uuid(s)), pool, s)
  }

  /** A trial that is given these, on its own. */
  function Feed(setup: Setup, turns: seq<Turn>, status: ReceiverStatus, trial: Option<Trial>, log: seq<Given>)
    : Option<Trial>
    decreases |log|
  {
    if log == [] then trial
    else Feed(setup, turns, status, Moved(setup, turns, trial, Pool(status, {}), log[0]).0, log[1..])
  }

  lemma {:induction false} FeedLast(
    setup: Setup, turns: seq<Turn>, status: ReceiverStatus, trial: Option<Trial>, log: seq<Given>, given: Given)
    ensures Feed(setup, turns, status, trial, log + [given])
         == Moved(setup, turns, Feed(setup, turns, status, trial, log), Pool(status, {}), given).0
    decreases |log|
  {
    if log == [] {
      assert (log + [given])[1..] == [];
    } else {
      assert (log + [given])[1..] == log[1..] + [given];
      FeedLast(setup, turns, status, Moved(setup, turns, trial, Pool(status, {}), log[0]).0, log[1..], given);
    }
  }

  lemma {:induction false} AloneIsFed(setup: Setup, turns: seq<Turn>, status: ReceiverStatus, log: seq<Given>)
    ensures Alone(setup, turns, status, log) == Feed(setup, turns, status, None, log)
  {
    if log != [] {
      var init, last := log[..|log| - 1], log[|log| - 1];
      AloneIsFed(setup, turns, status, init);
      FeedLast(setup, turns, status, None, init, last);
      assert log == init + [last];
    }
  }

  /** A trial as far as its turns go, with room for its subscription beside those of others. */
  predicate Roomy(turns: seq<Turn>, t: Trial, pool: Pool) {
    Fits(turns, t) && |Others(t, pool)| < Push.MAX_PUSH_SUBSCRIPTIONS
  }

  /** The same trial, with only its own subscription registered. */
  function Sole(t: Trial, pool: Pool): Pool { Pool(pool.status, Owned(t)) }

  lemma NotMore(a: set<string>, b: set<string>)
    requires a <= b
    ensures |a| <= |b|
  {
    assert b == a + (b - a);
  }

  lemma BeginLeaves(setup: Setup, turns: seq<Turn>, t: Trial, pool: Pool, route: string)
    requires WellShaped(turns) && Fits(turns, t) && t.phase.Ready? && t.next < |turns|
    ensures var (t1, pool1) := Begin(setup, turns, t, pool, route);
      && pool1.status == pool.status && Others(t1, pool1) <= Others(t, pool)
      && !t1.phase.Ready? && t1.next == t.next
  {
    var turn := turns[t.next];
    if turn.action.None? {
      assert t.held.None? && Owned(t) == {};
      var (start, pool1) := StartInput(turn, t.contextId, t.taskId, t.held, pool, route);
      assert pool1.paths <= pool.paths + if start.Ok? && turn.push then {route} else {};
    }
  }

  lemma PusherHasRoom(turns: seq<Turn>, t: Trial, pool: Pool)
    requires WellShaped(turns) && Roomy(turns, t, pool) && t.phase.Ready? && t.next < |turns| && turns[t.next].push
    ensures |pool.paths| < Push.MAX_PUSH_SUBSCRIPTIONS && Owned(t) == {}
  {
    assert Pushes(turns, t.next) && !AwaitsPush(turns, t.next);
    assert Others(t, pool) == pool.paths;
  }

  lemma TrialBegins(setup: Setup, turns: seq<Turn>, t: Trial, pool: Pool, route: string)
    requires WellShaped(turns) && Roomy(turns, t, pool) && t.phase.Ready? && t.next < |turns|
    ensures var (t1, pool1) := Begin(setup, turns, t, pool, route);
      && Roomy(turns, t1, pool1) && pool1.status == pool.status && !t1.phase.Ready? && t1.next == t.next
      && Moved(setup, turns, Some(t), Pool(pool.status, {}), Route(route)).0 == Some(t1)
  {
    var (t1, pool1) := Begin(setup, turns, t, pool, route);
    if turns[t.next].push { PusherHasRoom(turns, t, pool); }
    BeginAlone(setup, turns, t, pool, route);
    BeginAlone(setup, turns, t, Sole(t, pool), route);
    BeginConserves(setup, turns, t, Sole(t, pool), route);
    BeginLeaves(setup, turns, t, pool, route);
    NotMore(Others(t1, pool1), Others(t, pool));
  }

  lemma AdvanceLeaves(setup: Setup, turns: seq<Turn>, t: Trial, pool: Pool, reply: Reply)
    requires WellShaped(turns) && Fits(turns, t) && t.phase.Awaiting? && t.next < |turns|
    ensures var (t1, pool1) := Advance(setup, turns, t, pool, reply);
      && pool1.status == pool.status && Others(t1, pool1) <= Others(t, pool)
      && !t1.phase.Awaiting? && (t1.phase.Ready? ==> t1.next == t.next + 1)
  {
    assert Pushes(turns, t.next) ==> !AwaitsPush(turns, t.next);
  }

  lemma TrialAdvances(setup: Setup, turns: seq<Turn>, t: Trial, pool: Pool, reply: Reply)
    requires WellShaped(turns) && Roomy(turns, t, pool) && t.phase.Awaiting? && t.next < |turns|
    ensures var (t1, pool1) := Advance(setup, turns, t, pool, reply);
      && Roomy(turns, t1, pool1) && pool1.status == pool.status && !t1.phase.Awaiting?
      && (t1.phase.Ready? ==> t1.next == t.next + 1)
  {
    var (t1, pool1) := Advance(setup, turns, t, pool, reply);
    AdvanceAlone(setup, turns, t, pool, Sole(t, pool), reply);
    AdvanceConserves(setup, turns, t, Sole(t, pool), reply);
    AdvanceLeaves(setup, turns, t, pool, reply);
    NotMore(Others(t1, pool1), Others(t, pool));
  }

  /** Where a reply leads: to what the trial advanced to, or to its end when no turn is left. */
  function AfterReply(turns: seq<Turn>, t: Trial): Trial {
    if t.phase.Ready? && t.next == |turns| then t.(held := None, phase := Ended(None)) else t
  }

  lemma TrialResumes(setup: Setup, turns: seq<Turn>, t: Trial, pool: Pool, reply: Reply)
    requires WellShaped(turns) && Roomy(turns, t, pool) && t.phase.Awaiting? && t.next < |turns|
    ensures Moved(setup, turns, Some(t), Pool(pool.status, {}), Got(reply)).0
         == Some(AfterReply(turns, Advance(setup, turns, t, pool, reply).0))
  {
    TrialAdvances(setup, turns, t, pool, reply);
    ResumeAlone(setup, turns, t, pool, reply);
  }

  lemma NoTurnLeft<S>(w: World<S>, setup: Setup, turns: seq<Turn>, t: Trial, pool: Pool, s: S)
    requires t.phase.Ready? && t.next == |turns|
    ensures TurnLoop(w, setup, turns, t, pool, s).0 == AfterReply(turns, t)
    ensures LoopGivens(w, setup, turns, t, pool, s) == []
  {
  }

  lemma FeedOne(setup: Setup, turns: seq<Turn>, status: ReceiverStatus, trial: Option<Trial>, given: Given)
    ensures Feed(setup, turns, status, trial, [given]) == Moved(setup, turns, trial, Pool(status, {}), given).0
  {
    assert [given][1..] == [];
  }

  lemma FeedTwo(
    setup: Setup, turns: seq<Turn>, status: ReceiverStatus, trial: Option<Trial>, a: Given, b: Given, rest: seq<Given>)
    ensures var pool := Pool(status, {});
      Feed(setup, turns, status, trial, [a, b] + rest)
      == Feed(setup, turns, status, Moved(setup, turns, Moved(setup, turns, trial, pool, a).0, pool, b).0, rest)
  {
    var log := [a, b] + rest;
    assert log[1..] == [b] + rest && log[1..][1..] == rest;
  }

  /** A trial that is given what a world gives ends as the loop over its turns does in that world. */
  lemma {:induction false} FedIsLoop<S>(
    w: World<S>, setup: Setup, turns: seq<Turn>, t: Trial, pool: Pool, s: S)
    requires WellShaped(turns) && Roomy(turns, t, pool) && t.phase.Ready? && t.next < |turns|
    ensures Feed(setup, turns, pool.status, Some(t), LoopGivens(w, setup, turns, t, pool, s))
         == Some(TurnLoop(w, setup, turns, t, pool, s).0)
    decreases |turns| - t.next
  {
    var route, status := w.route(s), pool.status;
    var (t1, pool1) := Begin(setup, turns, t, pool, route);
    TrialBegins(setup, turns, t, pool, route);
    if t1.phase.Ended? {
      FeedOne(setup, turns, status, Some(t), Route(route));
    } else {
      var (s1, reply) := w.call(s, t1.phase.pending.request);
      var (t2, pool2) := Advance(setup, turns, t1, pool1, reply);
      TrialAdvances(setup, turns, t1, pool1, reply);
      TrialResumes(setup, turns, t1, pool1, reply);
      TurnLoopStep(w, setup, turns, t, pool, s, t2, pool2, s1);
      var rest := if t2.phase.Ended? then [] else LoopGivens(w, setup, turns, t2, pool2, s1);
      FeedTwo(setup, turns, status, Some(t), Route(route), Got(reply), rest);
      if t2.phase.Ready? {
        if t2.next == |turns| {
          NoTurnLeft(w, setup, turns, t2, pool2, s1);
        } else {
          FedIsLoop(w, setup, turns, t2, pool2, s1);
        }
      }
    }
  }

  /** For every world: the trial that is given what the world gives to a sequential trial is that trial. */
  lemma GivenTrialIsSequential<S>(w: World<S>, setup: Setup, turns: seq<Turn>, index: nat, pool: Pool, s: S)
    requires WellShaped(turns) && |pool.paths| < Push.MAX_PUSH_SUBSCRIPTIONS
    ensures var t := Alone(setup, turns, pool.status, Givens(w, setup, turns, pool, s));
      && t.Some? && t.value.phase.Ended?
      && t.value == TurnLoop(w, setup, turns, Start(w.uuid(s)), pool, s).0
      && forall d :: ResultOf(t.value, index, d)
                  == TrialRun(w, setup, turns, index, pool, s).0.(durationMs := d)
  {
    var t, log := Start(w.uuid(s)), Givens(w, setup, turns, pool, s);
    AloneIsFed(setup, turns, pool.status, log);
    assert log[1..] == LoopGivens(w, setup, turns, t, pool, s);
    assert Others(t, pool) == pool.paths;
    FedIsLoop(w, setup, turns, t, pool, s);
    TurnLoopEnds(w, setup, turns, t, pool, s);
  }

  // ---------------------------------------------------------------------------------------------
  // What a trial among others was given
  // ---------------------------------------------------------------------------------------------

  /** What a trial in this state can be given next. */
  predicate Admits(turns: seq<Turn>, trial: Option<Trial>, given: Given) {
    match given
    case Context(_) => trial.None?
    case Route(_) => trial.Some? && trial.value.phase.Ready? && trial.value.next < |turns|
    case Got(_) => trial.Some? && trial.value.phase.Awaiting? && trial.value.next < |turns|
  }

  /** Each entry of the log was what the trial could be given. */
  predicate Admitted(setup: Setup, turns: seq<Turn>, status: ReceiverStatus, log: seq<Given>)
    decreases |log|
  {
    log == [] ||
    (var init := log[..|log| - 1];
     && Admitted(setup, turns, status, init)
     && Admits(turns, Alone(setup, turns, status, init), log[|log| - 1]))
  }

  predicate AllAdmitted(setup: Setup, turns: seq<Turn>, status: ReceiverStatus, slots: seq<Slot>) {
    forall i :: 0 <= i < |slots| ==> Admitted(setup, turns, status, slots[i].log)
  }

  /** So it is for every trial of every schedule. */
  lemma {:induction false} ScheduleAdmits(
    limit: nat, setup: Setup, turns: seq<Turn>, trials: nat, found: Pool, moves: seq<Move>)
    requires WellShaped(turns) && |found.paths| + limit < Push.MAX_PUSH_SUBSCRIPTIONS
    ensures AllAdmitted(
      setup, turns, found.status, Run(limit, setup, turns, Initial(trials, found), moves).slots)
  {
    if moves != [] {
      var init, m := moves[..|moves| - 1], moves[|moves| - 1];
      var y := Run(limit, setup, turns, Initial(trials, found), init);
      ScheduleAdmits(limit, setup, turns, trials, found, init);
      ReachableValid(limit, setup, turns, trials, found, init);
      if Enabled(limit, turns, y, m) {
        var log := y.slots[m.slot].log + [m.given];
        assert log[..|log| - 1] == y.slots[m.slot].log;
        assert Admitted(setup, turns, found.status, log);
      }
    }
  }

  function IdIn(log: seq<Given>): string { if log != [] && log[0].Context? then log[0].id else "" }

  function RouteIn(log: seq<Given>, m: nat): string {
    if 2 * m + 1 < |log| && log[2 * m + 1].Route? then log[2 * m + 1].path else ""
  }

  function ReplyIn(log: seq<Given>, m: nat): Reply {
    if 2 * m + 2 < |log| && log[2 * m + 2].Got? then log[2 * m + 2].reply else Err("nothing was given")
  }

  function NextIn(log: seq<Given>, m: nat): (nat, Reply) { (m + 1, ReplyIn(log, m)) }

  /** The world that gives just what is in a log; its state is the number of replies it gave. */
  function LogWorld(log: seq<Given>, clock: World<nat>): World<nat> {
    var id: nat -> string := (m: nat) => IdIn(log);
    var route: nat -> string := (m: nat) => RouteIn(log, m);
    World((m: nat, request: Request) => NextIn(log, m), id, route, clock.elapsed)
  }

  /** The k-th entry was admitted, and led from one state to the next. */
  predicate StepOf(
    setup: Setup, turns: seq<Turn>, status: ReceiverStatus, log: seq<Given>, states: seq<Option<Trial>>, k: int)
    requires 0 <= k < |log| && |states| == |log| + 1
  {
    && Admits(turns, states[k], log[k])
    && states[k + 1] == Moved(setup, turns, states[k], Pool(status, {}), log[k]).0
  }

  /** The states of a trial along its log, to its end. */
  predicate History(
    setup: Setup, turns: seq<Turn>, status: ReceiverStatus, log: seq<Given>, states: seq<Option<Trial>>)
  {
    && |states| == |log| + 1 && states[0].None?
    && (forall k :: 0 <= k < |log| ==> StepOf(setup, turns, status, log, states, k))
    && states[|log|].Some? && states[|log|].value.phase.Ended?
  }

  /** The states of an admitted log. */
  lemma {:induction false} StatesAlong(setup: Setup, turns: seq<Turn>, status: ReceiverStatus, log: seq<Given>)
    returns (states: seq<Option<Trial>>)
    requires Admitted(setup, turns, status, log)
    ensures |states| == |log| + 1 && states[0].None? && states[|log|] == Alone(setup, turns, status, log)
    ensures forall k :: 0 <= k < |log| ==> StepOf(setup, turns, status, log, states, k)
  {
    if log == [] {
      states := [None];
    } else {
      var init := log[..|log| - 1];
      var earlier := StatesAlong(setup, turns, status, init);
      states := earlier + [Alone(setup, turns, status, log)];
      forall k | 0 <= k < |log| ensures StepOf(setup, turns, status, log, states, k) {
        if k < |init| { assert StepOf(setup, turns, status, init, earlier, k); }
      }
    }
  }

  /** In front of a turn after the k-th entry of the log. */
  predicate InFront(
    turns: seq<Turn>, status: ReceiverStatus, states: seq<Option<Trial>>, k: nat, t: Trial, pool: Pool)
  {
    && k < |states| && states[k] == Some(t)
    && t.phase.Ready? && t.next < |turns| && Roomy(turns, t, pool) && pool.status == status
  }

  /** A trial that has ended is given nothing more, and any other is. */
  lemma GivenNext(
    setup: Setup, turns: seq<Turn>, status: ReceiverStatus, log: seq<Given>, states: seq<Option<Trial>>, k: nat,
    t: Trial)
    requires History(setup, turns, status, log, states) && k <= |log| && states[k] == Some(t)
    ensures t.phase.Ended? <==> k == |log|
    ensures k < |log| ==>
      Admits(turns, Some(t), log[k]) && states[k + 1] == Moved(setup, turns, Some(t), Pool(status, {}), log[k]).0
  {
    if k < |log| { assert StepOf(setup, turns, status, log, states, k); }
  }

  /** The trial in front of a turn is given a route next. */
  lemma RouteOfLog(
    setup: Setup, turns: seq<Turn>, status: ReceiverStatus, log: seq<Given>, states: seq<Option<Trial>>, m: nat,
    t: Trial, pool: Pool)
    requires WellShaped(turns) && History(setup, turns, status, log, states)
    requires InFront(turns, status, states, 2 * m + 1, t, pool)
    ensures 2 * m + 1 < |log| && log[2 * m + 1] == Route(RouteIn(log, m))
    ensures states[2 * m + 2] == Some(Begin(setup, turns, t, pool, RouteIn(log, m)).0)
  {
    GivenNext(setup, turns, status, log, states, 2 * m + 1, t);
    TrialBegins(setup, turns, t, pool, RouteIn(log, m));
  }

  /** And then a reply, if it awaits one. */
  lemma ReplyOfLog(
    setup: Setup, turns: seq<Turn>, status: ReceiverStatus, log: seq<Given>, states: seq<Option<Trial>>, m: nat,
    t: Trial)
    requires History(setup, turns, status, log, states) && 2 * m + 2 < |states|
    requires states[2 * m + 2] == Some(t) && t.phase.Awaiting?
    ensures 2 * m + 2 < |log| && log[2 * m + 2] == Got(ReplyIn(log, m))
    ensures states[2 * m + 3] == Moved(setup, turns, Some(t), Pool(status, {}), Got(ReplyIn(log, m))).0
  {
    GivenNext(setup, turns, status, log, states, 2 * m + 2, t);
  }

  lemma GivensEnd<S>(
    w: World<S>, setup: Setup, turns: seq<Turn>, t: Trial, pool: Pool, s: S, route: string, t1: Trial, pool1: Pool)
    requires t.phase.Ready? && t.next < |turns| && route == w.route(s)
    requires (t1, pool1) == Begin(setup, turns, t, pool, route) && t1.phase.Ended?
    ensures LoopGivens(w, setup, turns, t, pool, s) == [Route(route)]
  {
  }

  lemma GivensStep<S>(
    w: World<S>, setup: Setup, turns: seq<Turn>, t: Trial, pool: Pool, s: S, route: string, t1: Trial, pool1: Pool,
    s1: S, reply: Reply, t2: Trial, pool2: Pool)
    requires t.phase.Ready? && t.next < |turns| && route == w.route(s)
    requires (t1, pool1) == Begin(setup, turns, t, pool, route) && t1.phase.Awaiting?
    requires (s1, reply) == w.call(s, t1.phase.pending.request)
    requires (t2, pool2) == Advance(setup, turns, t1, pool1, reply) && (t2.phase.Ready? ==> t2.next <= |turns|)
    requires !t2.phase.Awaiting?
    ensures LoopGivens(w, setup, turns, t, pool, s)
         == [Route(route), Got(reply)] + if t2.phase.Ended? then [] else LoopGivens(w, setup, turns, t2, pool2, s1)
  {
  }

  lemma FromTwo(log: seq<Given>, k: nat, a: Given, b: Given)
    requires k + 1 < |log| && log[k] == a && log[k + 1] == b
    ensures log[k..] == [a, b] + log[k + 2..]
  {
  }

  lemma LogEnds(
    setup: Setup, turns: seq<Turn>, status: ReceiverStatus, log: seq<Given>, states: seq<Option<Trial>>, k: nat,
    t: Trial)
    requires History(setup, turns, status, log, states) && k <= |log| && states[k] == Some(t) && t.phase.Ended?
    ensures log[k..] == []
  {
    GivenNext(setup, turns, status, log, states, k, t);
  }

  /** A trial that ends before it asks for anything was given its route and nothing more. */
  lemma LogOfEnd(
    setup: Setup, turns: seq<Turn>, status: ReceiverStatus, log: seq<Given>, states: seq<Option<Trial>>, m: nat,
    t: Trial, pool: Pool, t1: Trial)
    requires WellShaped(turns) && History(setup, turns, status, log, states)
    requires InFront(turns, status, states, 2 * m + 1, t, pool)
    requires t1 == Begin(setup, turns, t, pool, RouteIn(log, m)).0 && t1.phase.Ended?
    ensures log[2 * m + 1..] == [Route(RouteIn(log, m))]
  {
    RouteOfLog(setup, turns, status, log, states, m, t, pool);
    GivenNext(setup, turns, status, log, states, 2 * m + 2, t1);
  }

  /** A trial that asks is given its route and a reply. */
  lemma RouteAndReply(
    setup: Setup, turns: seq<Turn>, status: ReceiverStatus, log: seq<Given>, states: seq<Option<Trial>>, m: nat,
    k: nat, t: Trial, pool: Pool, t1: Trial, pool1: Pool)
    requires WellShaped(turns) && History(setup, turns, status, log, states)
    requires k == 2 * m + 1 && InFront(turns, status, states, k, t, pool)
    requires (t1, pool1) == Begin(setup, turns, t, pool, RouteIn(log, m)) && t1.phase.Awaiting?
    ensures k + 2 <= |log| && log[k..] == [Route(RouteIn(log, m)), Got(ReplyIn(log, m))] + log[k + 2..]
    ensures states[k + 2] == Moved(setup, turns, Some(t1), Pool(status, {}), Got(ReplyIn(log, m))).0
  {
    RouteOfLog(setup, turns, status, log, states, m, t, pool);
    ReplyOfLog(setup, turns, status, log, states, m, t1);
    FromTwo(log, k, Route(RouteIn(log, m)), Got(ReplyIn(log, m)));
  }

  lemma BehindReply(
    setup: Setup, turns: seq<Turn>, status: ReceiverStatus, log: seq<Given>, states: seq<Option<Trial>>, k: nat,
    t: Trial, pool: Pool)
    requires History(setup, turns, status, log, states) && k <= |log|
    requires states[k] == Some(AfterReply(turns, t)) && !t.phase.Awaiting? && (t.phase.Ready? ==> t.next <= |turns|)
    requires Roomy(turns, t, pool) && pool.status == status
    ensures t.phase.Ready? && t.next < |turns| ==> InFront(turns, status, states, k, t, pool)
    ensures !(t.phase.Ready? && t.next < |turns|) ==> log[k..] == []
  {
    if !(t.phase.Ready? && t.next < |turns|) { LogEnds(setup, turns, status, log, states, k, AfterReply(turns, t)); }
  }

  /** A trial that has asked is where the reply leads it. */
  lemma LogOfTurn(
    setup: Setup, turns: seq<Turn>, status: ReceiverStatus, log: seq<Given>, states: seq<Option<Trial>>, m: nat,
    k: nat, t: Trial, pool: Pool, t1: Trial, pool1: Pool, t2: Trial, pool2: Pool)
    requires WellShaped(turns) && History(setup, turns, status, log, states)
    requires k == 2 * m + 1 && InFront(turns, status, states, k, t, pool)
    requires (t1, pool1) == Begin(setup, turns, t, pool, RouteIn(log, m)) && t1.phase.Awaiting?
    requires t1.next == t.next && (t2, pool2) == Advance(setup, turns, t1, pool1, ReplyIn(log, m))
    ensures k + 2 <= |log| && log[k..] == [Route(RouteIn(log, m)), Got(ReplyIn(log, m))] + log[k + 2..]
    ensures !t2.phase.Awaiting? && (t2.phase.Ready? ==> t2.next == t.next + 1)
    ensures t2.phase.Ready? && t2.next < |turns| ==> InFront(turns, status, states, k + 2, t2, pool2)
    ensures !(t2.phase.Ready? && t2.next < |turns|) ==> log[k + 2..] == []
  {
    RouteAndReply(setup, turns, status, log, states, m, k, t, pool, t1, pool1);
    TrialBegins(setup, turns, t, pool, RouteIn(log, m));
    TrialAdvances(setup, turns, t1, pool1, ReplyIn(log, m));
    TrialResumes(setup, turns, t1, pool1, ReplyIn(log, m));
    BehindReply(setup, turns, status, log, states, k + 2, t2, pool2);
  }

  lemma GivenNothing(
    setup: Setup, turns: seq<Turn>, status: ReceiverStatus, log: seq<Given>, states: seq<Option<Trial>>,
    clock: World<nat>, m: nat, t: Trial, pool: Pool, t1: Trial, pool1: Pool)
    requires WellShaped(turns) && History(setup, turns, status, log, states)
    requires InFront(turns, status, states, 2 * m + 1, t, pool)
    requires (t1, pool1) == Begin(setup, turns, t, pool, RouteIn(log, m)) && t1.phase.Ended?
    ensures log[2 * m + 1..] == LoopGivens(LogWorld(log, clock), setup, turns, t, pool, m)
  {
    LogOfEnd(setup, turns, status, log, states, m, t, pool, t1);
    GivensEnd(LogWorld(log, clock), setup, turns, t, pool, m, RouteIn(log, m), t1, pool1);
  }

  /** What the world of the log gives from here on, when a turn led from one trial to the next. */
  function GivenOn(
    setup: Setup, turns: seq<Turn>, log: seq<Given>, clock: World<nat>, m: nat, t: Trial, pool: Pool): seq<Given>
    requires t.phase.Ready? ==> t.next <= |turns|
  {
    if t.phase.Ready? then LoopGivens(LogWorld(log, clock), setup, turns, t, pool, m) else []
  }

  lemma GivenTurn(
    setup: Setup, turns: seq<Turn>, log: seq<Given>, clock: World<nat>, m: nat, t: Trial, pool: Pool,
    t1: Trial, pool1: Pool, t2: Trial, pool2: Pool)
    requires t.phase.Ready? && t.next < |turns|
    requires (t1, pool1) == Begin(setup, turns, t, pool, RouteIn(log, m)) && t1.phase.Awaiting? && t1.next == t.next
    requires (t2, pool2) == Advance(setup, turns, t1, pool1, ReplyIn(log, m)) && !t2.phase.Awaiting?
    requires t2.phase.Ready? ==> t2.next <= |turns|
    ensures LoopGivens(LogWorld(log, clock), setup, turns, t, pool, m)
         == [Route(RouteIn(log, m)), Got(ReplyIn(log, m))] + GivenOn(setup, turns, log, clock, m + 1, t2, pool2)
  {
    GivensStep(LogWorld(log, clock), setup, turns, t, pool, m, RouteIn(log, m), t1, pool1, m + 1, ReplyIn(log, m),
               t2, pool2);
  }

  lemma GivenNoMore(
    setup: Setup, turns: seq<Turn>, log: seq<Given>, clock: World<nat>, m: nat, t: Trial, pool: Pool)
    requires t.phase.Ready? ==> t.next == |turns|
    ensures GivenOn(setup, turns, log, clock, m, t, pool) == []
  {
    if t.phase.Ready? { NoTurnLeft(LogWorld(log, clock), setup, turns, t, pool, m); }
  }

  /** One turn of a log: either nothing is given behind it, or it leads in front of the next. */
  lemma TurnIsGiven(
    setup: Setup, turns: seq<Turn>, status: ReceiverStatus, log: seq<Given>, states: seq<Option<Trial>>,
    clock: World<nat>, m: nat, k: nat, t: Trial, pool: Pool)
    returns (more: bool, t2: Trial, pool2: Pool)
    requires WellShaped(turns) && History(setup, turns, status, log, states)
    requires k == 2 * m + 1 && InFront(turns, status, states, k, t, pool)
    ensures more ==> k + 2 <= |log| && InFront(turns, status, states, k + 2, t2, pool2)
    ensures (more ==> log[k + 2..] == LoopGivens(LogWorld(log, clock), setup, turns, t2, pool2, m + 1)) ==>
      log[k..] == LoopGivens(LogWorld(log, clock), setup, turns, t, pool, m)
  {
    var (t1, pool1) := Begin(setup, turns, t, pool, RouteIn(log, m));
    BeginLeaves(setup, turns, t, pool, RouteIn(log, m));
    if t1.phase.Ended? {
      more, t2, pool2 := false, t, pool;
      GivenNothing(setup, turns, status, log, states, clock, m, t, pool, t1, pool1);
    } else {
      var next := Advance(setup, turns, t1, pool1, ReplyIn(log, m));
      t2, pool2 := next.0, next.1;
      more := t2.phase.Ready? && t2.next < |turns|;
      LogOfTurn(setup, turns, status, log, states, m, k, t, pool, t1, pool1, t2, pool2);
      GivenTurn(setup, turns, log, clock, m, t, pool, t1, pool1, t2, pool2);
      if !more { GivenNoMore(setup, turns, log, clock, m + 1, t2, pool2); }
    }
  }

  /** The rest of a log is what its world gives to the turns that are left. */
  lemma {:induction false} LogIsGiven(
    setup: Setup, turns: seq<Turn>, status: ReceiverStatus, log: seq<Given>, states: seq<Option<Trial>>,
    clock: World<nat>, m: nat, k: nat, t: Trial, pool: Pool)
    requires WellShaped(turns) && History(setup, turns, status, log, states)
    requires k == 2 * m + 1 && InFront(turns, status, states, k, t, pool)
    ensures log[k..] == LoopGivens(LogWorld(log, clock), setup, turns, t, pool, m)
    decreases |log| - m
  {
    var more, t2, pool2 := TurnIsGiven(setup, turns, status, log, states, clock, m, k, t, pool);
    if more { LogIsGiven(setup, turns, status, log, states, clock, m + 1, k + 2, t2, pool2); }
  }

  // ---------------------------------------------------------------------------------------------
  // Main results
  // ---------------------------------------------------------------------------------------------

  predicate EndedLog(setup: Setup, turns: seq<Turn>, status: ReceiverStatus, log: seq<Given>) {
    && Admitted(setup, turns, status, log)
    && var t := Alone(setup, turns, status, log); t.Some? && t.value.phase.Ended?
  }

  /** A log begins with the context of the trial, and goes on with its first turn. */
  lemma LogStarts(
    setup: Setup, turns: seq<Turn>, found: Pool, log: seq<Given>, states: seq<Option<Trial>>)
    requires WellShaped(turns) && |found.paths| < Push.MAX_PUSH_SUBSCRIPTIONS
    requires History(setup, turns, found.status, log, states)
    ensures log != [] && log[0] == Context(IdIn(log))
    ensures InFront(turns, found.status, states, 1, Start(IdIn(log)), found)
  {
    assert Others(Start(IdIn(log)), found) == found.paths;
    assert log != [] && StepOf(setup, turns, found.status, log, states, 0);
    assert !AwaitsPush(turns, 0);
  }

  /** A log of a trial that has ended is what its own world gives to a sequential trial. */
  lemma LogIsGivens(setup: Setup, turns: seq<Turn>, found: Pool, log: seq<Given>, clock: World<nat>)
    requires WellShaped(turns) && |found.paths| < Push.MAX_PUSH_SUBSCRIPTIONS
    requires EndedLog(setup, turns, found.status, log)
    ensures log == Givens(LogWorld(log, clock), setup, turns, found, 0)
  {
    var states := StatesAlong(setup, turns, found.status, log);
    LogStarts(setup, turns, found, log, states);
    LogIsGiven(setup, turns, found.status, log, states, clock, 0, 1, Start(IdIn(log)), found);
    assert log == [log[0]] + log[1..];
  }

  /** The i-th trial, run alone and one turn after the other on what it was given among the others. */
  function SequentialTrial(
    setup: Setup, turns: seq<Turn>, found: Pool, clock: World<nat>, slot: Slot, i: nat): TrialResult
  {
    TrialRun(LogWorld(slot.log, clock), setup, turns, i + 1, found, 0).0
  }

  function SequentialTrials(
    setup: Setup, turns: seq<Turn>, found: Pool, clock: World<nat>, slots: seq<Slot>): (trials: seq<TrialResult>)
    ensures |trials| == |slots|
  {
    seq(|slots|, i requires 0 <= i < |slots| => SequentialTrial(setup, turns, found, clock, slots[i], i))
  }

  /** A trial that has ended among others has the result of a sequential one, but for its duration. */
  lemma SlotIsSequential(
    setup: Setup, turns: seq<Turn>, found: Pool, clock: World<nat>, slot: Slot, i: nat, d: int)
    requires WellShaped(turns) && |found.paths| < Push.MAX_PUSH_SUBSCRIPTIONS
    requires Admitted(setup, turns, found.status, slot.log)
    requires slot.trial == Alone(setup, turns, found.status, slot.log)
    requires slot.trial.Some? && slot.trial.value.phase.Ended?
    ensures ResultOf(slot.trial.value, i + 1, d)
         == SequentialTrial(setup, turns, found, clock, slot, i).(durationMs := d)
  {
    LogIsGivens(setup, turns, found, slot.log, clock);
    GivenTrialIsSequential(LogWorld(slot.log, clock), setup, turns, i + 1, found, 0);
  }

  /** The same results, up to how long the trials took. */
  predicate SameButDurations(a: seq<TrialResult>, b: seq<TrialResult>) {
    |a| == |b| && forall i :: 0 <= i < |a| ==> a[i] == b[i].(durationMs := a[i].durationMs)
  }

  lemma VerdictIgnoresDurations(sc: Scenario, required: int, a: seq<TrialResult>, b: seq<TrialResult>)
    requires SameButDurations(a, b)
    ensures Summarize(sc, required, a).passedTrials == Summarize(sc, required, b).passedTrials
    ensures sc.latency.None? ==> Summarize(sc, required, a).passed == Summarize(sc, required, b).passed
  {
    assert Verdicts(a) == Verdicts(b);
  }

  lemma ResultAt(y: System, durations: seq<int>, i: nat)
    requires AllEnded(y.slots) && |durations| == |y.slots| && i < |y.slots|
    ensures y.slots[i].trial.Some? && y.slots[i].trial.value.phase.Ended?
    ensures Report.ParallelResults(y, durations)[i] == ResultOf(y.slots[i].trial.value, i + 1, durations[i])
  {
    assert !InFlight(y.slots[i]);
  }

  lemma SlotsAreSequential(
    setup: Setup, turns: seq<Turn>, found: Pool, y: System, durations: seq<int>, clock: World<nat>)
    requires WellShaped(turns) && |found.paths| < Push.MAX_PUSH_SUBSCRIPTIONS
    requires AllEnded(y.slots) && |durations| == |y.slots|
    requires AllAdmitted(setup, turns, found.status, y.slots)
    requires forall i :: 0 <= i < |y.slots| ==>
      y.slots[i].trial == Alone(setup, turns, found.status, y.slots[i].log)
    ensures SameButDurations(
      Report.ParallelResults(y, durations), SequentialTrials(setup, turns, found, clock, y.slots))
  {
    var parallel, sequential :=
      Report.ParallelResults(y, durations), SequentialTrials(setup, turns, found, clock, y.slots);
    forall i | 0 <= i < |y.slots| ensures parallel[i] == sequential[i].(durationMs := parallel[i].durationMs) {
      var slot := y.slots[i];
      ResultAt(y, durations, i);
      SlotIsSequential(setup, turns, found, clock, slot, i, durations[i]);
      SameWithDuration(parallel[i], sequential[i], durations[i]);
    }
  }

  lemma SameWithDuration(a: TrialResult, b: TrialResult, d: int)
    requires a == b.(durationMs := d)
    ensures a == b.(durationMs := a.durationMs)
  {
  }

  lemma EndedLeaves(limit: nat, setup: Setup, turns: seq<Turn>, found: Pool, y: System)
    requires Valid(limit, setup, turns, found, y) && AllEnded(y.slots)
    ensures y.pool == found
    ensures forall i :: 0 <= i < |y.slots| ==> y.slots[i].trial == Alone(setup, turns, found.status, y.slots[i].log)
  {
    EndedOwnNothing(turns, y.slots);
  }

  lemma EndedSchedule(
    limit: nat, setup: Setup, turns: seq<Turn>, trials: nat, found: Pool, moves: seq<Move>, y: System)
    requires WellShaped(turns) && |found.paths| + limit < Push.MAX_PUSH_SUBSCRIPTIONS
    requires y == Run(limit, setup, turns, Initial(trials, found), moves) && AllEnded(y.slots)
    ensures y.pool == found
    ensures forall i :: 0 <= i < |y.slots| ==> y.slots[i].trial == Alone(setup, turns, found.status, y.slots[i].log)
  {
    ReachableValid(limit, setup, turns, trials, found, moves);
    EndedLeaves(limit, setup, turns, found, y);
  }

  /**
   Whatever the schedule: when all trials of a scenario have ended, each has the result of a sequential trial on what
   it was given, and the receiver is as it was found; so the scenario has the verdict of the sequential trials.
   */
  lemma ParallelIsSequential(
    limit: nat, setup: Setup, sc: Scenario, required: int, found: Pool, moves: seq<Move>, durations: seq<int>,
    clock: World<nat>, y: System)
    requires WellShaped(sc.turns) && |found.paths| + limit < Push.MAX_PUSH_SUBSCRIPTIONS
    requires y == Run(limit, setup, sc.turns, Initial(sc.trials, found), moves) && AllEnded(y.slots)
    requires |durations| == |y.slots|
    ensures y.pool == found
    ensures var parallel, sequential :=
        Report.ParallelResults(y, durations), SequentialTrials(setup, sc.turns, found, clock, y.slots);
      && SameButDurations(parallel, sequential)
      && Summarize(sc, required, parallel).passedTrials == Summarize(sc, required, sequential).passedTrials
      && (sc.latency.None? ==>
            Summarize(sc, required, parallel).passed == Summarize(sc, required, sequential).passed)
  {
    EndedSchedule(limit, setup, sc.turns, sc.trials, found, moves, y);
    ScheduleAdmits(limit, setup, sc.turns, sc.trials, found, moves);
    SlotsAreSequential(setup, sc.turns, found, y, durations, clock);
    VerdictIgnoresDurations(
      sc, required, Report.ParallelResults(y, durations), SequentialTrials(setup, sc.turns, found, clock, y.slots));
  }
}

/**
 What a trial asks of the outside: the request of each turn, and how the context and task of a response are
 carried over to the request that follows it.
 */
module Requests {
  import opened Wrappers
  import opened Protocol
  import opened Runner
  import Invariants
  import Push

  /** A turn that can be asked for: nothing it needs is missing. */
  predicate CanAsk(setup: Setup, turn: Turn, taskId: Option<string>, held: Option<string>, pool: Pool) {
    match turn.action
    case None =>
      && turn.input.files.Ok?
      && (turn.push ==> pool.status.Listening? && |pool.paths| < Push.MAX_PUSH_SUBSCRIPTIONS)
    case Some(AwaitPush) => taskId.Some? && held.Some?
    case Some(action) => taskId.Some? && action in setup.operations
  }

  /** The request of a turn; a push turn names the subscription registered for it, others the one that is held. */
  predicate Asks(
    turn: Turn, contextId: string, taskId: Option<string>, held: Option<string>, route: string, pending: Pending)
  {
    match turn.action
    case None =>
      var target := if turn.push then Some(route) else held;
      && pending.request == Send(turn.input, contextId, taskId, turn.returnImmediately, target)
      && pending.registered == if turn.push then Some(route) else None
    case Some(AwaitPush) => held.Some? && pending == Pending(Wait(held.value), None)
    case Some(action) =>
      var history := if action == GetTask then turn.historyLength else None;
      taskId.Some? && pending == Pending(Operate(action, taskId.value, contextId, history), None)
  }

  /** A turn ends its trial at once exactly if something it needs is missing; otherwise it asks for itself. */
  lemma TurnAsks(setup: Setup, turns: seq<Turn>, t: Trial, pool: Pool, route: string)
    requires t.phase.Ready? && t.next < |turns|
    ensures var t1 := Begin(setup, turns, t, pool, route).0;
      && (t1.phase.Awaiting? <==> CanAsk(setup, turns[t.next], t.taskId, t.held, pool))
      && (t1.phase.Awaiting? ==> Asks(turns[t.next], t.contextId, t.taskId, t.held, route, t1.phase.pending))
      && (!t1.phase.Awaiting? ==> t1.phase.Ended? && t1.phase.error.Some? && t1.results == t.results)
  {
    var turn := turns[t.next];
    match turn.action {
      case None =>
      case Some(AwaitPush) =>
      case Some(action) =>
    }
  }

  /** A request in this context and for this task. */
  predicate Addresses(request: Request, context: string, task: Option<string>) {
    match request
    case Send(_, c, t, _, _) => c == context && t == task
    case Operate(_, t, c, _) => c == context && Some(t) == task
    case Wait(_) => task.Some?
  }

  /** The first request starts a conversation: its context is the random one, and it names no task. */
  lemma FirstRequest(setup: Setup, turns: seq<Turn>, pool: Pool, route: string, context: string)
    requires turns != [] && Begin(setup, turns, Start(context), pool, route).0.phase.Awaiting?
    ensures Addresses(Begin(setup, turns, Start(context), pool, route).0.phase.pending.request, context, None)
  {
    TurnAsks(setup, turns, Start(context), pool, route);
  }

  predicate Named(id: Option<string>) {
    id.Some? && id.value != ""
  }

  /** A response that asks for more, or a turn that acts on a task, goes on with the task. */
  predicate GoesOn(outcome: TurnOutcome, turn: Turn) {
    outcome.state == "input_required" || outcome.state == "auth_required" || turn.action.Some?
  }

  /**
   The request after a response is in the context that the response returned, or else in the one before. It names
   the task that was returned, or else the one before, exactly if the conversation goes on with the task.
   */
  lemma NextRequest(
    setup: Setup, turns: seq<Turn>, t: Trial, pool: Pool, outcome: TurnOutcome, t1: Trial, pool1: Pool, route: string)
    requires t.phase.Awaiting? && t.next + 1 < |turns| && (t1, pool1) == Advance(setup, turns, t, pool, Ok(outcome))
    requires t1.phase.Ready? && Begin(setup, turns, t1, pool1, route).0.phase.Awaiting?
    ensures var request := Begin(setup, turns, t1, pool1, route).0.phase.pending.request;
      var task := if Named(outcome.taskId) then outcome.taskId else t.taskId;
      Addresses(
        request, if Named(outcome.contextId) then outcome.contextId.value else t.contextId,
        if GoesOn(outcome, turns[t.next + 1]) then task else None)
  {
    TurnAsks(setup, turns, t1, pool1, route);
  }

  // ---------------------------------------------------------------------------------------------
  // Going on
  // ---------------------------------------------------------------------------------------------

  /** The reply to a turn that passes: returned, with a task if one was subscribed to, and nothing to complain about. */
  predicate Passes(setup: Setup, turn: Turn, pending: Pending, reply: Reply) {
    && reply.Ok?
    && (pending.registered.Some? ==> reply.value.taskId.Some?)
    && turn.check(reply.value) == Ok([])
    && (setup.invariants.Some? ==> Invariants.Holds(setup.invariants.value, reply.value.text))
  }

  /** A trial goes on to its next turn exactly if the turn passes; the turn is then the next result. */
  lemma GoesOnExactly(setup: Setup, turns: seq<Turn>, t: Trial, pool: Pool, reply: Reply)
    requires t.phase.Awaiting? && t.next < |turns|
    ensures var t1 := Advance(setup, turns, t, pool, reply).0;
      && (t1.phase.Ready? <==> Passes(setup, turns[t.next], t.phase.pending, reply))
      && (t1.phase.Ready? ==>
            t1.next == t.next + 1 && |t1.results| == |t.results| + 1 && t1.results[..|t.results|] == t.results)
      && (t1.phase.Ended? && t1.phase.error.None? ==>
            t1.results != [] && !t1.results[|t1.results| - 1].passed)
  {
    if setup.invariants.Some? && reply.Ok? { Invariants.NoFailuresExactly(setup.invariants.value, reply.value.text); }
  }

  lemma OneTurnGoesOn<S>(w: World<S>, setup: Setup, turns: seq<Turn>, t: Trial, pool: Pool, s: S)
    requires t.phase.Ready? && t.next < |turns|
    ensures var t1 := OneTurn(w, setup, turns, t, pool, s).0;
      && (t1.phase.Ready? ==> t1.next == t.next + 1 && |t1.results| == |t.results| + 1)
      && (t1.phase.Ended? ==> t1.phase.error.Some? || !AllPassed(t1.results))
  {
    TurnAsks(setup, turns, t, pool, w.route(s));
    var (t1, pool1) := Begin(setup, turns, t, pool, w.route(s));
    if t1.phase.Awaiting? {
      GoesOnExactly(setup, turns, t1, pool1, w.call(s, t1.phase.pending.request).1);
    }
  }

  lemma {:induction false} LoopInFull<S>(w: World<S>, setup: Setup, turns: seq<Turn>, t: Trial, pool: Pool, s: S)
    requires t.phase.Ready? && t.next == |t.results| <= |turns|
    ensures var t1 := TurnLoop(w, setup, turns, t, pool, s).0;
      t1.phase == Ended(None) && AllPassed(t1.results) ==> |t1.results| == |turns|
    decreases |turns| - t.next
  {
    if t.next < |turns| {
      OneTurnGoesOn(w, setup, turns, t, pool, s);
      var (t1, pool1, s1) := OneTurn(w, setup, turns, t, pool, s);
      if t1.phase.Ready? { LoopInFull(w, setup, turns, t1, pool1, s1); }
    }
  }

  /** A trial passes only in full: with a passed result for every turn and without an error. */
  lemma PassedInFull<S>(w: World<S>, setup: Setup, turns: seq<Turn>, index: nat, pool: Pool, s: S)
    ensures var r := TrialRun(w, setup, turns, index, pool, s).0;
      r.passed ==> |r.turns| == |turns| && AllPassed(r.turns) && r.error.None?
  {
    LoopInFull(w, setup, turns, Start(w.uuid(s)), pool, s);
    TurnLoopEnds(w, setup, turns, Start(w.uuid(s)), pool, s);
  }
}

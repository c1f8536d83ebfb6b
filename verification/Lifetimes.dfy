/**
 The push subscriptions of a trial: a validated conversation never holds more than one, shows it only to
 the turns that asked for it, and leaves the receiver as it found it, whatever is returned or raised.
 */
module Lifetimes {
  import opened Wrappers
  import opened Protocol
  import opened Runner
  import Push

  function AsSet(path: Option<string>): set<string> {
    if path.Some? then {path.value} else {}
  }

  /** The paths a trial has to close. */
  function Owned(t: Trial): set<string> {
    AsSet(t.held) + if t.phase.Awaiting? then AsSet(t.phase.pending.registered) else {}
  }

  /**
   What a trial holds follows from its position: before and in an await_push turn the subscription of the
   turn before it, in a push turn the one just registered, and otherwise none. The request it awaits shows
   a push target exactly in a push turn.
   */
  predicate Fits(turns: seq<Turn>, t: Trial) {
    match t.phase
    case Ready => t.held.Some? <==> AwaitsPush(turns, t.next)
    case Awaiting(pending) =>
      && t.next < |turns|
      && (t.held.Some? <==> AwaitsPush(turns, t.next))
      && (pending.registered.Some? <==> Pushes(turns, t.next))
      && (match pending.request
          case Send(_, _, _, _, target) => target == pending.registered
          case Operate(_, _, _, _) => !AwaitsPush(turns, t.next)
          case Wait(path) => t.held == Some(path))
      && (pending.request.Wait? <==> AwaitsPush(turns, t.next))
    case Ended(_) => t.held.None?
  }

  lemma AtMostOne(turns: seq<Turn>, t: Trial)
    requires WellShaped(turns) && Fits(turns, t)
    ensures |Owned(t)| <= 1
  {
    if t.phase.Awaiting? && Pushes(turns, t.next) {
      assert !AwaitsPush(turns, t.next);
      assert Owned(t) == AsSet(t.phase.pending.registered);
    } else {
      assert Owned(t) == AsSet(t.held);
    }
  }

  /** The registered paths of anyone else. */
  function Others(t: Trial, pool: Pool): set<string> { pool.paths - Owned(t) }

  /** A step of a trial: its own paths change, those of others do not. */
  predicate Conserved(t: Trial, pool: Pool, t1: Trial, pool1: Pool) {
    && pool1.status == pool.status
    && Owned(t1) <= pool1.paths
    && Others(t1, pool1) == Others(t, pool)
  }

  lemma BeginInputConserves(setup: Setup, turns: seq<Turn>, t: Trial, pool: Pool, route: string)
    requires WellShaped(turns) && Fits(turns, t) && t.phase.Ready? && t.next < |turns| && Owned(t) <= pool.paths
    requires turns[t.next].action.None? && route !in pool.paths
    ensures var (t1, pool1) := Begin(setup, turns, t, pool, route);
      Fits(turns, t1) && Conserved(t, pool, t1, pool1) && Owned(t1) <= {route}
  {
    assert t.held.None?;
    var (start, pool1) := StartInput(turns[t.next], t.contextId, t.taskId, t.held, pool, route);
    if start.Err? {
      assert pool1.paths == pool.paths;
    } else {
      assert Owned(t) == {};
      assert Owned(Begin(setup, turns, t, pool, route).0) == if turns[t.next].push then {route} else {};
      assert Pushes(turns, t.next) == turns[t.next].push;
    }
  }

  lemma BeginActionConserves(setup: Setup, turns: seq<Turn>, t: Trial, pool: Pool, route: string)
    requires WellShaped(turns) && Fits(turns, t) && t.phase.Ready? && t.next < |turns| && Owned(t) <= pool.paths
    requires turns[t.next].action.Some?
    ensures var (t1, pool1) := Begin(setup, turns, t, pool, route);
      Fits(turns, t1) && Conserved(t, pool, t1, pool1) && Owned(t1) <= Owned(t)
  {
    assert !Pushes(turns, t.next);
    assert AwaitsPush(turns, t.next) <==> turns[t.next].action.value.AwaitPush?;
  }

  /** The start of a turn, with an unpredictable route that is not in use. */
  lemma BeginConserves(setup: Setup, turns: seq<Turn>, t: Trial, pool: Pool, route: string)
    requires WellShaped(turns) && Fits(turns, t) && t.phase.Ready? && t.next < |turns| && Owned(t) <= pool.paths
    requires Pushes(turns, t.next) ==> route !in pool.paths
    ensures var (t1, pool1) := Begin(setup, turns, t, pool, route);
      && Fits(turns, t1) && Conserved(t, pool, t1, pool1)
      && Owned(t1) <= Owned(t) + if Pushes(turns, t.next) then {route} else {}
  {
    if turns[t.next].action.Some? {
      BeginActionConserves(setup, turns, t, pool, route);
    } else if turns[t.next].push {
      BeginInputConserves(setup, turns, t, pool, route);
    }
  }

  lemma FinishConserves(turns: seq<Turn>, t: Trial, pool: Pool, reply: Reply)
    requires WellShaped(turns) && Fits(turns, t) && t.phase.Awaiting? && Owned(t) <= pool.paths
    ensures var (finish, pool1) := FinishTurn(t.phase.pending, t.held, pool, reply);
      && pool1.status == pool.status
      && (match finish
          case Err(_) => Release(pool1, t.held).paths == Others(t, pool)
          case Ok(answer) =>
            && (answer.held.Some? <==> AwaitsPush(turns, t.next + 1))
            && AsSet(answer.held) <= Owned(t) && AsSet(answer.held) <= pool1.paths
            && pool1.paths - AsSet(answer.held) == Others(t, pool))
  {
    assert Pushes(turns, t.next) <==> AwaitsPush(turns, t.next + 1);
    assert Pushes(turns, t.next) ==> !AwaitsPush(turns, t.next);
  }

  /** The two ways a turn concludes, as far as its subscription goes. */
  predicate Concluded(t: Trial, pool: Pool, answer: Answer, t1: Trial, pool1: Pool) {
    || (t1.phase.Ended? && t1.held.None? && pool1 == Release(pool, answer.held))
    || (t1.phase.Ready? && t1.held == answer.held && t1.next == t.next + 1 && pool1 == pool)
  }

  lemma ConcludedConserves(turns: seq<Turn>, t: Trial, pool: Pool, answer: Answer, t1: Trial, pool1: Pool)
    requires Concluded(t, pool, answer, t1, pool1) && AsSet(answer.held) <= pool.paths
    requires answer.held.Some? <==> AwaitsPush(turns, t.next + 1)
    ensures Fits(turns, t1) && pool1.status == pool.status
    ensures Owned(t1) <= AsSet(answer.held) && Owned(t1) <= pool1.paths
    ensures Others(t1, pool1) == pool.paths - AsSet(answer.held)
  {
  }

  lemma ConcludeConserves(setup: Setup, turns: seq<Turn>, t: Trial, pool: Pool, answer: Answer)
    requires t.next < |turns| && AsSet(answer.held) <= pool.paths
    requires answer.held.Some? <==> AwaitsPush(turns, t.next + 1)
    ensures var (t1, pool1) := Conclude(setup, turns, t, pool, answer);
      && Fits(turns, t1) && pool1.status == pool.status
      && Owned(t1) <= AsSet(answer.held) && Owned(t1) <= pool1.paths
      && Others(t1, pool1) == pool.paths - AsSet(answer.held)
  {
    var (t1, pool1) := Conclude(setup, turns, t, pool, answer);
    ConcludedConserves(turns, t, pool, answer, t1, pool1);
  }

  lemma AdvanceConserves(setup: Setup, turns: seq<Turn>, t: Trial, pool: Pool, reply: Reply)
    requires WellShaped(turns) && Fits(turns, t) && t.phase.Awaiting? && Owned(t) <= pool.paths
    ensures var (t1, pool1) := Advance(setup, turns, t, pool, reply);
      Fits(turns, t1) && Conserved(t, pool, t1, pool1) && Owned(t1) <= Owned(t)
  {
    var (finish, pool1) := FinishTurn(t.phase.pending, t.held, pool, reply);
    FinishConserves(turns, t, pool, reply);
    if finish.Ok? { ConcludeConserves(setup, turns, t, pool1, finish.value); }
  }

  lemma SettleConserves(turns: seq<Turn>, t: Trial, pool: Pool)
    requires Fits(turns, t) && Owned(t) <= pool.paths
    ensures var (t1, pool1) := Settle(turns, t, pool);
      Fits(turns, t1) && Conserved(t, pool, t1, pool1) && Owned(t1) <= Owned(t)
  {
  }

  /** The reply: a subscription is bound and held for the next turn, or closed. */
  lemma ResumeConserves(setup: Setup, turns: seq<Turn>, t: Trial, pool: Pool, reply: Reply)
    requires WellShaped(turns) && Fits(turns, t) && t.phase.Awaiting? && Owned(t) <= pool.paths
    ensures var (t1, pool1) := Resume(setup, turns, t, pool, reply);
      Fits(turns, t1) && Conserved(t, pool, t1, pool1) && Owned(t1) <= Owned(t)
  {
    var (t1, pool1) := Advance(setup, turns, t, pool, reply);
    AdvanceConserves(setup, turns, t, pool, reply);
    SettleConserves(turns, t1, pool1);
  }

  lemma OneTurnConserves<S>(
    w: World<S>, setup: Setup, turns: seq<Turn>, t: Trial, pool: Pool, s: S, t1: Trial, pool1: Pool, s1: S)
    requires WellShaped(turns) && Fits(turns, t) && t.phase.Ready? && t.next < |turns|
    requires Owned(t) <= pool.paths && w.route(s) !in Others(t, pool)
    requires (t1, pool1, s1) == OneTurn(w, setup, turns, t, pool, s)
    ensures Fits(turns, t1) && Conserved(t, pool, t1, pool1)
    ensures t1.phase.Ended? ==> pool1 == Pool(pool.status, Others(t, pool))
  {
    if Pushes(turns, t.next) { assert !AwaitsPush(turns, t.next); }
    BeginConserves(setup, turns, t, pool, w.route(s));
    var (begun, pool') := Begin(setup, turns, t, pool, w.route(s));
    if begun.phase.Awaiting? {
      AdvanceConserves(setup, turns, begun, pool', w.call(s, begun.phase.pending.request).1);
    }
  }

  lemma {:induction false} LoopConserves<S>(
    w: World<S>, setup: Setup, turns: seq<Turn>, t: Trial, pool: Pool, s: S, others: set<string>)
    requires WellShaped(turns) && Fits(turns, t) && t.phase.Ready? && t.next <= |turns|
    requires Owned(t) <= pool.paths && Others(t, pool) == others && forall s' :: w.route(s') !in others
    ensures TurnLoop(w, setup, turns, t, pool, s).1 == Pool(pool.status, others)
    decreases |turns| - t.next
  {
    if t.next < |turns| {
      var (t1, pool1, s1) := OneTurn(w, setup, turns, t, pool, s);
      OneTurnConserves(w, setup, turns, t, pool, s, t1, pool1, s1);
      if t1.phase.Ready? { LoopConserves(w, setup, turns, t1, pool1, s1, others); }
    }
  }

  /** A trial of a validated conversation leaves the receiver as it found it, whatever the agent does. */
  lemma LeavesReceiver<S>(w: World<S>, setup: Setup, turns: seq<Turn>, index: nat, pool: Pool, s: S)
    requires WellShaped(turns) && forall s' :: w.route(s') !in pool.paths
    ensures TrialRun(w, setup, turns, index, pool, s).1 == pool
  {
    LoopConserves(w, setup, turns, Start(w.uuid(s)), pool, s, pool.paths);
  }

  /** Faults for want of a receiver or a subscription. */
  predicate WantsSubscription(f: Fault) {
    f.NoReceiver? || f.NotRunning? || f.TooManySubscriptions? || f.NoSubscription?
  }

  predicate EndsWell(t: Trial) {
    t.phase.Ended? && t.phase.error.Some? ==> !WantsSubscription(t.phase.error.value)
  }

  lemma BeginEndsWell(
    setup: Setup, turns: seq<Turn>, t: Trial, pool: Pool, route: string)
    requires WellShaped(turns) && Fits(turns, t) && t.phase.Ready? && t.next < |turns|
    requires |Others(t, pool)| < Push.MAX_PUSH_SUBSCRIPTIONS && pool.status.Listening?
    ensures EndsWell(Begin(setup, turns, t, pool, route).0)
  {
    if turns[t.next].action.Some? {
      assert AwaitsPush(turns, t.next) == turns[t.next].action.value.AwaitPush?;
    } else if turns[t.next].push {
      assert Pushes(turns, t.next);
      assert !AwaitsPush(turns, t.next);
      assert pool.paths == Others(t, pool);
    }
  }

  lemma AdvanceEndsWell(setup: Setup, turns: seq<Turn>, t: Trial, pool: Pool, reply: Reply)
    requires t.phase.Awaiting? && t.next < |turns|
    ensures EndsWell(Advance(setup, turns, t, pool, reply).0)
  {
  }

  lemma OneTurnEndsWell<S>(w: World<S>, setup: Setup, turns: seq<Turn>, t: Trial, pool: Pool, s: S)
    requires WellShaped(turns) && Fits(turns, t) && t.phase.Ready? && t.next < |turns|
    requires |Others(t, pool)| < Push.MAX_PUSH_SUBSCRIPTIONS && pool.status.Listening?
    ensures EndsWell(OneTurn(w, setup, turns, t, pool, s).0)
  {
    var (t1, pool1) := Begin(setup, turns, t, pool, w.route(s));
    BeginEndsWell(setup, turns, t, pool, w.route(s));
    if t1.phase.Awaiting? {
      AdvanceEndsWell(setup, turns, t1, pool1, w.call(s, t1.phase.pending.request).1);
    }
  }

  lemma {:induction false} LoopEndsWell<S>(
    w: World<S>, setup: Setup, turns: seq<Turn>, t: Trial, pool: Pool, s: S, others: set<string>)
    requires WellShaped(turns) && Fits(turns, t) && t.phase.Ready? && t.next <= |turns|
    requires Owned(t) <= pool.paths && Others(t, pool) == others && forall s' :: w.route(s') !in others
    requires |others| < Push.MAX_PUSH_SUBSCRIPTIONS && pool.status.Listening?
    ensures EndsWell(TurnLoop(w, setup, turns, t, pool, s).0)
    decreases |turns| - t.next
  {
    if t.next < |turns| {
      var (t1, pool1, s1) := OneTurn(w, setup, turns, t, pool, s);
      OneTurnConserves(w, setup, turns, t, pool, s, t1, pool1, s1);
      OneTurnEndsWell(w, setup, turns, t, pool, s);
      if t1.phase.Ready? { LoopEndsWell(w, setup, turns, t1, pool1, s1, others); }
    }
  }

  /** With a receiver that listens and has room, no validated conversation ends for want of a subscription. */
  lemma NeverWantsSubscription<S>(w: World<S>, setup: Setup, turns: seq<Turn>, index: nat, pool: Pool, s: S)
    requires WellShaped(turns) && forall s' :: w.route(s') !in pool.paths
    requires |pool.paths| < Push.MAX_PUSH_SUBSCRIPTIONS && pool.status.Listening?
    ensures var error := TrialRun(w, setup, turns, index, pool, s).0.error;
      error.Some? ==> !WantsSubscription(error.value)
  {
    TurnLoopEnds(w, setup, turns, Start(w.uuid(s)), pool, s);
    LoopEndsWell(w, setup, turns, Start(w.uuid(s)), pool, s, pool.paths);
  }

  /** A subscription that belongs to no one here. */
  predicate Forgotten(t: Trial, pool: Pool, path: string) {
    path in pool.paths && path !in Owned(t)
  }

  lemma BeginForgets(setup: Setup, turns: seq<Turn>, t: Trial, pool: Pool, route: string, path: string)
    requires t.phase.Ready? && t.next < |turns| && Forgotten(t, pool, path) && route != path
    ensures var (t1, pool1) := Begin(setup, turns, t, pool, route); Forgotten(t1, pool1, path)
  {
    var (start, pool1) := StartTurn(setup, turns[t.next], t.contextId, t.taskId, t.held, pool, route);
    assert path in pool1.paths && (start.Ok? ==> start.value.registered != Some(path));
  }

  lemma AdvanceForgets(setup: Setup, turns: seq<Turn>, t: Trial, pool: Pool, reply: Reply, path: string)
    requires t.phase.Awaiting? && t.next < |turns| && Forgotten(t, pool, path)
    ensures var (t1, pool1) := Advance(setup, turns, t, pool, reply); Forgotten(t1, pool1, path)
  {
    var (finish, pool1) := FinishTurn(t.phase.pending, t.held, pool, reply);
    assert path in pool1.paths && (finish.Ok? ==> finish.value.held != Some(path));
    if finish.Ok? { ConcludeForgets(setup, turns, t, pool1, finish.value, path); }
  }

  lemma ConcludeForgets(setup: Setup, turns: seq<Turn>, t: Trial, pool: Pool, answer: Answer, path: string)
    requires t.next < |turns| && path in pool.paths && answer.held != Some(path)
    ensures var (t1, pool1) := Conclude(setup, turns, t, pool, answer); Forgotten(t1, pool1, path)
  {
    var (t1, pool1) := Conclude(setup, turns, t, pool, answer);
    assert Concluded(t, pool, answer, t1, pool1);
  }

  lemma OneTurnForgets<S>(w: World<S>, setup: Setup, turns: seq<Turn>, t: Trial, pool: Pool, s: S, path: string)
    requires t.phase.Ready? && t.next < |turns| && Forgotten(t, pool, path) && w.route(s) != path
    ensures var (t1, pool1, _) := OneTurn(w, setup, turns, t, pool, s); Forgotten(t1, pool1, path)
  {
    var (t1, pool1) := Begin(setup, turns, t, pool, w.route(s));
    BeginForgets(setup, turns, t, pool, w.route(s), path);
    if t1.phase.Awaiting? {
      AdvanceForgets(setup, turns, t1, pool1, w.call(s, t1.phase.pending.request).1, path);
    }
  }

  /** Whatever the trial does from then on, and however it ends, a forgotten subscription stays. */
  lemma {:induction false} ForgottenForGood<S>(
    w: World<S>, setup: Setup, turns: seq<Turn>, t: Trial, pool: Pool, s: S, path: string)
    requires t.phase.Ready? && t.next <= |turns| && Forgotten(t, pool, path) && forall s' :: w.route(s') != path
    ensures path in TurnLoop(w, setup, turns, t, pool, s).1.paths
    decreases |turns| - t.next
  {
    if t.next < |turns| {
      var (t1, pool1, s1) := OneTurn(w, setup, turns, t, pool, s);
      OneTurnForgets(w, setup, turns, t, pool, s, path);
      TurnLoopStep(w, setup, turns, t, pool, s, t1, pool1, s1);
      if t1.phase.Ready? { ForgottenForGood(w, setup, turns, t1, pool1, s1, path); }
    }
  }

  /**
   The validation is what this rests on: a push turn that succeeds while a subscription is still held
   forgets that subscription. `ForgottenForGood` shows that no later step of the trial closes it.
   */
  lemma SecondPushLeaks(setup: Setup, turns: seq<Turn>, t: Trial, pool: Pool, route: string, outcome: TurnOutcome)
    requires t.phase.Ready? && t.next < |turns| && turns[t.next].push && turns[t.next].action.None?
    requires t.held.Some? && t.held.value in pool.paths && t.held.value != route
    requires pool.status.Listening? && |pool.paths| < Push.MAX_PUSH_SUBSCRIPTIONS
    requires turns[t.next].input.files.Ok? && outcome.taskId.Some?
    ensures var (t1, pool1) := Begin(setup, turns, t, pool, route);
      t1.phase.Awaiting? &&
      var (t2, pool2) := Resume(setup, turns, t1, pool1, Ok(outcome));
      Forgotten(t2, pool2, t.held.value)
  {
    var (t1, pool1) := Begin(setup, turns, t, pool, route);
    var (finish, pool2) := FinishTurn(t1.phase.pending, t1.held, pool1, Ok(outcome));
    assert finish == Ok(Answer(outcome, Some(route))) && pool2 == pool1;
  }
}

/**
 Push subscriptions in trials: a world in which a subscription is an entity of its own, so that the reply to
 awaiting push notifications is the wait on it. A push turn and the turn that awaits it give what the collector
 makes of the deliveries, also of those that arrive before the task is known.
 */
module PushTrial {
  import opened Wrappers
  import opened Runner
  import Protocol
  import Push
  import PushSchedule
  import PushOutcome

  /**
   An agent and the network: what its operations return, what arrives for a subscription during the request that
   names it, and what arrives while the waiter is suspended. `text` are the messages of a failed wait.
   */
  datatype Network<!S> = Network(
    call: (S, Request) -> (S, Reply),
    arrivals: (S, Request) -> seq<Push.Arrival>,
    ticks: (S, string) -> seq<Push.Tick>,
    now: S -> real,
    text: Push.WaitError -> string,
    uuid: S -> string, route: S -> string, elapsed: (S, S) -> int)

  /** The state of the agent with the subscriptions that were registered so far, by path. */
  datatype Hosted<S> = Hosted(agent: S, subs: map<string, Push.Sub>)

  function Registered(now: real): Push.Sub { Push.Sub(now, [], None, None, None, None, 0, {}) }

  function Bound(s: Push.Sub, task: string, context: string): Push.Sub {
    s.(taskId := Some(task), contextId := Some(context))
  }

  /** A subscription after the request it was registered for: handlers ran, and it is bound to the task returned. */
  function AfterSend(s: Push.Sub, arrivals: seq<Push.Arrival>, contextId: string, reply: Reply): Push.Sub {
    var received := Push.ReceiveAll(s, arrivals);
    if reply.Ok? && reply.value.taskId.Some? then
      Bound(received, reply.value.taskId.value, NonEmptyOr(reply.value.contextId, contextId))
    else received
  }

  function ReplyOf(r: Result<Protocol.TurnOutcome, Push.WaitError>, text: Push.WaitError -> string): Reply {
    if r.Ok? then Ok(r.value) else Err(text(r.error))
  }

  /** The wait on a bound subscription, as `PushSubscription.Wait` has it. */
  function WaitOn(s: Push.Sub, ticks: seq<Push.Tick>): (Push.Sub, Result<Protocol.TurnOutcome, Push.WaitError>) {
    if s.taskId.None? then (s, Err(Push.NotBound))
    else Push.WaitRun(s, Protocol.Fresh(Push.ContextOf(s), None), false, ticks)
  }

  function Answered<S>(net: Network<S>, y: Hosted<S>, request: Request): (Hosted<S>, Reply) {
    if request.Wait? then
      if request.path !in y.subs then (y, Err(net.text(Push.Closed)))
      else
        var (s, r) := WaitOn(y.subs[request.path], net.ticks(y.agent, request.path));
        (y.(subs := y.subs[request.path := s]), ReplyOf(r, net.text))
    else
      var (agent, reply) := net.call(y.agent, request);
      if request.Send? && request.target.Some? then
        var path, arrivals := request.target.value, net.arrivals(y.agent, request);
        var s :=
          if path in y.subs then Push.ReceiveAll(y.subs[path], arrivals)
          else AfterSend(Registered(net.now(y.agent)), arrivals, request.contextId, reply);
        (Hosted(agent, y.subs[path := s]), reply)
      else (Hosted(agent, y.subs), reply)
  }

  function Hosting<S>(net: Network<S>): World<Hosted<S>> {
    World(
      (y: Hosted<S>, request: Request) => Answered(net, y, request),
      (y: Hosted<S>) => net.uuid(y.agent),
      (y: Hosted<S>) => net.route(y.agent),
      (y: Hosted<S>, z: Hosted<S>) => net.elapsed(y.agent, z.agent))
  }

  // ---------------------------------------------------------------------------------------------
  // The push turn
  // ---------------------------------------------------------------------------------------------

  /** What a push turn sends. */
  function PushRequest(turns: seq<Turn>, t: Trial, route: string): Request
    requires Pushes(turns, t.next)
  {
    Send(turns[t.next].input, t.contextId, t.taskId, turns[t.next].returnImmediately, Some(route))
  }

  /** A trial in front of a push turn, under a new route. */
  predicate AtPush<S>(net: Network<S>, turns: seq<Turn>, t: Trial, pool: Pool, y: Hosted<S>) {
    && WellShaped(turns) && t.phase.Ready? && Pushes(turns, t.next) && t.held.None?
    && net.route(y.agent) !in pool.paths && net.route(y.agent) !in y.subs
  }

  /** The operation of a push turn: an answer for the registered subscription, or a fault. */
  lemma ExecutePush<S>(net: Network<S>, setup: Setup, turns: seq<Turn>, t: Trial, pool: Pool, y: Hosted<S>)
    requires AtPush(net, turns, t, pool, y)
    ensures var route := net.route(y.agent);
      var request := PushRequest(turns, t, route);
      var (agent, reply) := net.call(y.agent, request);
      var (answer, pool1, y1) :=
        Execute(Hosting(net), setup, turns[t.next], t.contextId, t.taskId, t.held, pool, y);
      answer.Ok? ==>
        && reply.Ok? && reply.value.taskId.Some? && answer == Ok(Answer(reply.value, Some(route)))
        && pool1 == pool.(paths := pool.paths + {route})
        && y1 == Hosted(agent, y.subs[route :=
          AfterSend(Registered(net.now(y.agent)), net.arrivals(y.agent, request), t.contextId, reply)])
  {
    assert turns[t.next].action.None?;
  }

  /** A push turn that succeeds leaves its subscription held, and bound to the task that was returned. */
  lemma PushTurn<S>(net: Network<S>, setup: Setup, turns: seq<Turn>, t: Trial, pool: Pool, y: Hosted<S>)
    requires AtPush(net, turns, t, pool, y)
    requires OneTurn(Hosting(net), setup, turns, t, pool, y).0.phase.Ready?
    ensures var route := net.route(y.agent);
      var request := PushRequest(turns, t, route);
      var (agent, reply) := net.call(y.agent, request);
      var (t1, pool1, y1) := OneTurn(Hosting(net), setup, turns, t, pool, y);
      && t1.held == Some(route) && t1.next == t.next + 1
      && pool1 == pool.(paths := pool.paths + {route})
      && reply.Ok? && reply.value.taskId.Some? && (reply.value.taskId.value != "" ==> t1.taskId.Some?)
      && y1 == Hosted(agent, y.subs[route :=
        AfterSend(Registered(net.now(y.agent)), net.arrivals(y.agent, request), t.contextId, reply)])
  {
    var (answer, pool1, y1) := Execute(Hosting(net), setup, turns[t.next], t.contextId, t.taskId, t.held, pool, y);
    ExecutePush(net, setup, turns, t, pool, y);
    OneTurnByExecution(Hosting(net), setup, turns, t, pool, y, answer, pool1, y1);
    assert AwaitsPush(turns, t.next + 1);
  }

  // ---------------------------------------------------------------------------------------------
  // The turn that awaits it
  // ---------------------------------------------------------------------------------------------

  /** What an awaiting turn makes of the result of the wait. */
  ghost predicate AwaitOutcome(
    setup: Setup, turns: seq<Turn>, t: Trial, r: Result<Protocol.TurnOutcome, Push.WaitError>,
    text: Push.WaitError -> string, after: Trial)
    requires t.next < |turns|
  {
    if r.Err? then after.phase == Ended(Some(Raised(text(r.error)))) && after.results == t.results
    else
      var report := Report(setup, turns[t.next], t.next + 1, r.value);
      if report.Err? then after.phase == Ended(Some(Raised(report.error))) && after.results == t.results
      else after.results == t.results + [report.value] && (after.phase.Ready? <==> report.value.failures == [])
  }

  lemma ExecuteAwait<S>(
    net: Network<S>, setup: Setup, turns: seq<Turn>, t: Trial, pool: Pool, y: Hosted<S>, route: string)
    requires AwaitsPush(turns, t.next) && t.held == Some(route) && t.taskId.Some? && route in y.subs
    ensures var r := WaitOn(y.subs[route], net.ticks(y.agent, route)).1;
      var (answer, pool1, y1) :=
        Execute(Hosting(net), setup, turns[t.next], t.contextId, t.taskId, t.held, pool, y);
      && (if r.Ok? then answer == Ok(Answer(r.value, None)) && pool1 == Release(pool, Some(route))
          else answer == Err(Raised(net.text(r.error))) && pool1 == pool)
      && y1.agent == y.agent
  {
  }

  /** The trial and the receiver after a turn. */
  function TurnOf<S>(net: Network<S>, setup: Setup, turns: seq<Turn>, t: Trial, pool: Pool, y: Hosted<S>): (Trial, Pool)
    requires t.phase.Ready? && t.next < |turns|
  {
    var (t1, pool1, _) := OneTurn(Hosting(net), setup, turns, t, pool, y);
    (t1, pool1)
  }

  /** Whatever the wait gives becomes the turn's response or the trial's error, and the subscription is closed. */
  lemma AwaitTurn<S>(
    net: Network<S>, setup: Setup, turns: seq<Turn>, t: Trial, pool: Pool, y: Hosted<S>, route: string,
    r: Result<Protocol.TurnOutcome, Push.WaitError>, t1: Trial, pool1: Pool)
    requires t.phase.Ready? && AwaitsPush(turns, t.next) && t.held == Some(route) && t.taskId.Some? && route in y.subs
    requires r == WaitOn(y.subs[route], net.ticks(y.agent, route)).1
    requires (t1, pool1) == TurnOf(net, setup, turns, t, pool, y)
    ensures AwaitOutcome(setup, turns, t, r, net.text, t1)
    ensures t1.held.None? && pool1 == Release(pool, Some(route))
  {
    var (answer, pool2, y1) := Execute(Hosting(net), setup, turns[t.next], t.contextId, t.taskId, t.held, pool, y);
    ExecuteAwait(net, setup, turns, t, pool, y, route);
    OneTurnByExecution(Hosting(net), setup, turns, t, pool, y, answer, pool2, y1);
  }

  // ---------------------------------------------------------------------------------------------
  // Both
  // ---------------------------------------------------------------------------------------------

  /** Deliveries before and after the task is known make no difference to the wait. */
  lemma WaitOnBound(now: real, early: seq<Push.Arrival>, ticks: seq<Push.Tick>, task: string, context: string)
    requires PushSchedule.Clean(early + PushSchedule.Flatten(ticks))
    requires PushOutcome.IdentitiesMatch(
      Bound(Registered(now), task, context), PushSchedule.Distinct(early + PushSchedule.InTime(ticks)))
    ensures WaitOn(Bound(Push.ReceiveAll(Registered(now), early), task, context), ticks).1
         == Collected(Bound(Registered(now), task, context), early + PushSchedule.InTime(ticks))
  {
    PushSchedule.BindCommutes(Registered(now), early, task, context);
    PushOutcome.WaitReturnsCollected(Bound(Registered(now), task, context), early, ticks);
  }

  /** What the collector makes of the distinct deliveries up to the first terminal one. */
  function Collected(s: Push.Sub, inTime: seq<Push.Arrival>): Result<Protocol.TurnOutcome, Push.WaitError> {
    var ds := PushSchedule.Distinct(inTime);
    PushOutcome.Collect(
      s.(firstReceivedAt := PushSchedule.FirstTime(ds)), Protocol.Fresh(Push.ContextOf(s), None), ds)
  }

  /** Everything the network does for the subscription of a push turn and of the turn that awaits it. */
  datatype Traffic = Traffic(reply: Reply, early: seq<Push.Arrival>, ticks: seq<Push.Tick>)

  function TrafficOf<S>(net: Network<S>, turns: seq<Turn>, t: Trial, y: Hosted<S>): Traffic
    requires Pushes(turns, t.next)
  {
    var route := net.route(y.agent);
    var request := PushRequest(turns, t, route);
    var (agent, reply) := net.call(y.agent, request);
    Traffic(reply, net.arrivals(y.agent, request), net.ticks(agent, route))
  }

  /** The subscription as if it had been bound from the start. */
  function Subscribed(now: real, contextId: string, f: Traffic): Push.Sub
    requires f.reply.Ok? && f.reply.value.taskId.Some?
  {
    Bound(Registered(now), f.reply.value.taskId.value, NonEmptyOr(f.reply.value.contextId, contextId))
  }

  /** No rejection, and every delivery in time names the task that the push turn returned. */
  predicate Undisturbed(now: real, contextId: string, f: Traffic) {
    && PushSchedule.Clean(f.early + PushSchedule.Flatten(f.ticks))
    && f.reply.Ok? && f.reply.value.taskId.Some? && f.reply.value.taskId.value != ""
    && PushOutcome.IdentitiesMatch(
      Subscribed(now, contextId, f), PushSchedule.Distinct(f.early + PushSchedule.InTime(f.ticks)))
  }

  lemma WaitAfterPush(now: real, contextId: string, f: Traffic)
    requires Undisturbed(now, contextId, f)
    ensures WaitOn(AfterSend(Registered(now), f.early, contextId, f.reply), f.ticks).1
         == Collected(Subscribed(now, contextId, f), f.early + PushSchedule.InTime(f.ticks))
  {
    WaitOnBound(
      now, f.early, f.ticks, f.reply.value.taskId.value, NonEmptyOr(f.reply.value.contextId, contextId));
  }

  /** After a push turn that succeeds, the wait on its subscription gives what was collected. */
  lemma HeldAfterPush<S>(
    net: Network<S>, setup: Setup, turns: seq<Turn>, t: Trial, pool: Pool, y: Hosted<S>,
    t1: Trial, pool1: Pool, y1: Hosted<S>)
    requires AtPush(net, turns, t, pool, y)
    requires (t1, pool1, y1) == OneTurn(Hosting(net), setup, turns, t, pool, y) && t1.phase.Ready?
    requires Undisturbed(net.now(y.agent), t.contextId, TrafficOf(net, turns, t, y))
    ensures var f, route := TrafficOf(net, turns, t, y), net.route(y.agent);
      && route in y1.subs
      && WaitOn(y1.subs[route], net.ticks(y1.agent, route)).1
         == Collected(Subscribed(net.now(y.agent), t.contextId, f), f.early + PushSchedule.InTime(f.ticks))
    ensures t1.held == Some(net.route(y.agent)) && t1.taskId.Some? && AwaitsPush(turns, t1.next)
    ensures Release(pool1, t1.held) == pool
  {
    PushTurn(net, setup, turns, t, pool, y);
    WaitAfterPush(net.now(y.agent), t.contextId, TrafficOf(net, turns, t, y));
    assert AwaitsPush(turns, t.next + 1);
    assert pool.paths + {net.route(y.agent)} - {net.route(y.agent)} == pool.paths;
  }

  /**
   A push turn that succeeds and the turn that awaits it: without a rejection, and with every delivery in time
   naming the task that was returned, the second turn is judged on what the collector makes of the distinct
   deliveries up to the first terminal one, whether they arrived before or after that task was known; and the
   receiver is left as it was found.
   */
  lemma PairCollects<S>(
    net: Network<S>, setup: Setup, turns: seq<Turn>, t: Trial, pool: Pool, y: Hosted<S>,
    t1: Trial, pool1: Pool, y1: Hosted<S>, t2: Trial, pool2: Pool)
    requires AtPush(net, turns, t, pool, y)
    requires (t1, pool1, y1) == OneTurn(Hosting(net), setup, turns, t, pool, y) && t1.phase.Ready?
    requires Undisturbed(net.now(y.agent), t.contextId, TrafficOf(net, turns, t, y))
    requires t1.next < |turns| ==> (t2, pool2) == TurnOf(net, setup, turns, t1, pool1, y1)
    ensures AwaitsPush(turns, t1.next)
    ensures var f := TrafficOf(net, turns, t, y);
      AwaitOutcome(
        setup, turns, t1,
        Collected(Subscribed(net.now(y.agent), t.contextId, f), f.early + PushSchedule.InTime(f.ticks)), net.text, t2)
    ensures t2.held.None? && pool2 == pool
  {
    HeldAfterPush(net, setup, turns, t, pool, y, t1, pool1, y1);
    var f, route := TrafficOf(net, turns, t, y), net.route(y.agent);
    var r := Collected(Subscribed(net.now(y.agent), t.contextId, f), f.early + PushSchedule.InTime(f.ticks));
    AwaitTurn(net, setup, turns, t1, pool1, y1, route, r, t2, pool2);
  }
}

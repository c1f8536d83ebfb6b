/**
 Trials: the turns of a conversation executed one after the other against an agent, with at most one push
 subscription at a time.

 A trial runs without interruption between the operations it awaits, so it is described by two steps:
 Begin leads from the start of a turn to the request it awaits, and Resume from the reply to the start of
 the next turn or to the end.
 */
module Runner {
  import opened Wrappers
  import opened Json
  import opened Parts
  import opened Protocol
  import Redaction
  import Push
  import Invariants

  const REDACTED_RESPONSE := "[REDACTED: global invariant]"

  // ---------------------------------------------------------------------------------------------
  // Turns
  // ---------------------------------------------------------------------------------------------

  datatype Action = CancelTask | GetTask | SubscribeTask | AwaitPush

  /** What an input turn sends; preparing its files may fail. */
  datatype Input = Input(message: Option<string>, data: seq<Json>, files: Result<seq<string>, string>)

  /**
   One turn. `check` stands for the expectations on the response: it lists failures, or raises; `ap2` are
   the expectations whose values are redacted in reports.
   */
  datatype Turn = Turn(
    input: Input,
    action: Option<Action>,
    historyLength: Option<nat>,
    returnImmediately: bool,
    push: bool,
    check: TurnOutcome -> Result<seq<string>, string>,
    ap2: seq<Redaction.Expectation>)

  /** The operations there are for tasks, and the invariants on every response. */
  datatype Setup = Setup(operations: set<Action>, invariants: Option<Invariants.Rules>)

  datatype ShapeError = FirstIsAction | PushWithoutAwait | AwaitWithoutPush

  predicate AwaitsPush(turns: seq<Turn>, i: int) {
    0 <= i < |turns| && turns[i].action == Some(AwaitPush)
  }

  predicate Pushes(turns: seq<Turn>, i: int) {
    0 <= i < |turns| && turns[i].push
  }

  /** A turn that was validated on its own: only an input turn may ask for push notifications. */
  predicate TurnsValid(turns: seq<Turn>) {
    turns != [] && forall i :: 0 <= i < |turns| && turns[i].push ==> turns[i].action.None?
  }

  /** Push turns and the turns awaiting them come in pairs, and no conversation starts with an action. */
  predicate WellShaped(turns: seq<Turn>) {
    && TurnsValid(turns)
    && turns[0].action.None?
    && forall i :: 0 <= i < |turns| ==> (Pushes(turns, i) <==> AwaitsPush(turns, i + 1))
  }

  method ValidateShape(turns: seq<Turn>) returns (error: Option<ShapeError>)
    requires TurnsValid(turns)
    ensures error.None? <==> WellShaped(turns)
    ensures error == Some(FirstIsAction) <==> turns[0].action.Some?
    ensures error == Some(PushWithoutAwait) ==> exists i :: Pushes(turns, i) && !AwaitsPush(turns, i + 1)
    ensures error == Some(AwaitWithoutPush) ==> exists i :: AwaitsPush(turns, i) && !Pushes(turns, i - 1)
  {
    if turns[0].action.Some? { return Some(FirstIsAction); }
    for index := 0 to |turns|
      invariant forall i :: 0 <= i < index && Pushes(turns, i) ==> AwaitsPush(turns, i + 1)
      invariant forall i :: 0 <= i < index && AwaitsPush(turns, i) ==> Pushes(turns, i - 1)
    {
      var turn := turns[index];
      if turn.push {
        if !(index + 1 < |turns| && turns[index + 1].action == Some(AwaitPush)) {
          assert Pushes(turns, index) && !AwaitsPush(turns, index + 1);
          return Some(PushWithoutAwait);
        }
      }
      if turn.action == Some(AwaitPush) {
        assert AwaitsPush(turns, index);
        if !(index > 0 && turns[index - 1].push) {
          assert !Pushes(turns, index - 1);
          return Some(AwaitWithoutPush);
        }
      }
    }
    return None;
  }

  // ---------------------------------------------------------------------------------------------
  // The outside
  // ---------------------------------------------------------------------------------------------

  datatype Request =
    | Send(input: Input, contextId: string, taskId: Option<string>, returnImmediately: bool, target: Option<string>)
    | Operate(action: Action, task: string, context: string, historyLength: Option<nat>)
    | Wait(path: string)

  /** What an awaited operation returned or raised. */
  type Reply = Result<TurnOutcome, string>

  /** Everything outside, with a state of its own: the agent, random identifiers and the clock. */
  datatype World<!S> = World(
    call: (S, Request) -> (S, Reply), uuid: S -> string, route: S -> string, elapsed: (S, S) -> int)

  datatype ReceiverStatus = Missing | Stopped | Listening

  /** The push receiver, if there is one, and the paths of its subscriptions. */
  datatype Pool = Pool(status: ReceiverStatus, paths: set<string>)

  function Release(pool: Pool, path: Option<string>): Pool {
    if path.Some? then pool.(paths := pool.paths - {path.value}) else pool
  }

  // ---------------------------------------------------------------------------------------------
  // One turn
  // ---------------------------------------------------------------------------------------------

  datatype Fault =
    | NoReceiver | NotRunning | TooManySubscriptions
    | NoTaskId | NoTask | NoSubscription | Unavailable(action: Action)
    | Raised(message: string)

  /** A request under way, and the subscription registered for it. */
  datatype Pending = Pending(request: Request, registered: Option<string>)

  datatype Answer = Answer(outcome: TurnOutcome, held: Option<string>)

  /** The subscription an input turn asks for, if it does. */
  function Registration(turn: Turn, pool: Pool, route: string): (Result<Option<string>, Fault>, Pool) {
    if !turn.push then (Ok(None), pool)
    else if pool.status.Missing? then (Err(NoReceiver), pool)
    else if pool.status.Stopped? then (Err(NotRunning), pool)
    else if |pool.paths| >= Push.MAX_PUSH_SUBSCRIPTIONS then (Err(TooManySubscriptions), pool)
    else (Ok(Some(route)), pool.(paths := pool.paths + {route}))
  }

  function StartInput(
    turn: Turn, contextId: string, taskId: Option<string>, held: Option<string>, pool: Pool, route: string)
    : (Result<Pending, Fault>, Pool)
  {
    var (registration, pool1) := Registration(turn, pool, route);
    match registration
    case Err(fault) => (Err(fault), pool1)
    case Ok(registered) =>
      var target := if registered.Some? then registered else held;
      match turn.input.files
      case Err(message) => (Err(Raised(message)), Release(pool1, registered))
      case Ok(_) =>
        (Ok(Pending(Send(turn.input, contextId, taskId, turn.returnImmediately, target), registered)), pool1)
  }

  function StartAction(setup: Setup, turn: Turn, contextId: string, taskId: Option<string>, held: Option<string>)
    : Result<Pending, Fault>
    requires turn.action.Some?
  {
    var action := turn.action.value;
    if taskId.None? then Err(NoTask)
    else if action.AwaitPush? then
      if held.None? then Err(NoSubscription) else Ok(Pending(Wait(held.value), None))
    else if action !in setup.operations then Err(Unavailable(action))
    else
      var history := if action.GetTask? then turn.historyLength else None;
      Ok(Pending(Operate(action, taskId.value, contextId, history), None))
  }

  /** From the start of a turn to the request it awaits. */
  function StartTurn(
    setup: Setup, turn: Turn, contextId: string, taskId: Option<string>, held: Option<string>, pool: Pool,
    route: string)
    : (Result<Pending, Fault>, Pool)
  {
    if turn.action.Some? then (StartAction(setup, turn, contextId, taskId, held), pool)
    else StartInput(turn, contextId, taskId, held, pool, route)
  }

  /** From the reply to the answer: a registered subscription is bound and held, or closed on a failure. */
  function FinishTurn(pending: Pending, held: Option<string>, pool: Pool, reply: Reply): (Result<Answer, Fault>, Pool) {
    match reply
    case Err(message) => (Err(Raised(message)), Release(pool, pending.registered))
    case Ok(outcome) =>
      if pending.registered.Some? then
        if outcome.taskId.None? then (Err(NoTaskId), Release(pool, pending.registered))
        else (Ok(Answer(outcome, pending.registered)), pool)
      else if pending.request.Wait? then (Ok(Answer(outcome, None)), Release(pool, held))
      else (Ok(Answer(outcome, held)), pool)
  }

  /** A turn's operation as a whole. */
  function Execute<S>(
    w: World<S>, setup: Setup, turn: Turn, contextId: string, taskId: Option<string>, held: Option<string>,
    pool: Pool, s: S)
    : (Result<Answer, Fault>, Pool, S)
  {
    var (start, pool1) := StartTurn(setup, turn, contextId, taskId, held, pool, w.route(s));
    match start
    case Err(fault) => (Err(fault), pool1, s)
    case Ok(pending) =>
      var (s1, reply) := w.call(s, pending.request);
      var (finish, pool2) := FinishTurn(pending, held, pool1, reply);
      (finish, pool2, s1)
  }

  // ---------------------------------------------------------------------------------------------
  // Results
  // ---------------------------------------------------------------------------------------------

  datatype TurnResult = TurnResult(
    index: nat,
    passed: bool,
    state: string,
    states: seq<string>,
    durationMs: int,
    firstEventMs: Option<int>,
    text: string,
    data: seq<DataPart>,
    files: seq<FilePart>,
    redacted: bool,
    failures: seq<string>)

  datatype TrialResult = TrialResult(
    index: nat, passed: bool, durationMs: int, turns: seq<TurnResult>, error: Option<Fault>)

  function InvariantFailures(setup: Setup, outcome: TurnOutcome): seq<string> {
    if setup.invariants.Some? then Invariants.Failures(setup.invariants.value, outcome.text) else []
  }

  function ReportedData(turn: Turn, data: seq<DataPart>): seq<DataPart> {
    seq(|data|, i requires 0 <= i < |data| => Redaction.RedactPart(turn.ap2, data[i]))
  }

  /** The result of a turn; a response that violates an invariant is not shown. */
  function Report(setup: Setup, turn: Turn, index: nat, outcome: TurnOutcome): Result<TurnResult, string> {
    match turn.check(outcome)
    case Err(message) => Err(message)
    case Ok(unmet) =>
      var violations := InvariantFailures(setup, outcome);
      var failures, hidden := unmet + violations, violations != [];
      Ok(TurnResult(
        index, failures == [], outcome.state, outcome.states, outcome.durationMs, outcome.firstEventMs,
        if hidden then REDACTED_RESPONSE else outcome.text,
        if hidden then [] else ReportedData(turn, outcome.data),
        if hidden then [] else outcome.files,
        hidden, failures))
  }

  /**
   What a result says of a response: its states and timings, every failure, and unless it is hidden its structured
   data with the values that are expected to hold AP2 tokens replaced.
   */
  ghost predicate Shows(setup: Setup, turn: Turn, index: nat, outcome: TurnOutcome, r: TurnResult) {
    && r.index == index && r.state == outcome.state && r.states == outcome.states
    && r.durationMs == outcome.durationMs && r.firstEventMs == outcome.firstEventMs
    && turn.check(outcome).Ok? && r.failures == turn.check(outcome).value + InvariantFailures(setup, outcome)
    && (r.passed <==> r.failures == [])
    && (r.redacted ==> r.text == REDACTED_RESPONSE && r.data == [] && r.files == [])
    && (!r.redacted ==> r.text == outcome.text && r.files == outcome.files && ShowsData(turn, outcome.data, r.data))
  }

  ghost predicate ShowsData(turn: Turn, data: seq<DataPart>, shown: seq<DataPart>) {
    && |shown| == |data|
    && forall i :: 0 <= i < |data| ==> Redaction.RedactedFrom(turn.ap2, data[i], shown[i])
  }

  lemma ReportShows(setup: Setup, turn: Turn, index: nat, outcome: TurnOutcome)
    requires Report(setup, turn, index, outcome).Ok?
    ensures Shows(setup, turn, index, outcome, Report(setup, turn, index, outcome).value)
  {
    forall i | 0 <= i < |outcome.data|
      ensures Redaction.RedactedFrom(turn.ap2, outcome.data[i], ReportedData(turn, outcome.data)[i])
    {
      Redaction.PartRedacted(turn.ap2, outcome.data[i]);
    }
  }

  function NonEmptyOr(s: Option<string>, otherwise: string): string {
    if s.Some? && s.value != "" then s.value else otherwise
  }

  /** The task is kept for a response that asks for input, or for an action that follows. */
  function NextTask(turns: seq<Turn>, i: nat, outcome: TurnOutcome, taskId: Option<string>): Option<string> {
    if outcome.state in {"auth_required", "input_required"} || (i + 1 < |turns| && turns[i + 1].action.Some?) then
      if outcome.taskId.Some? && outcome.taskId.value != "" then outcome.taskId else taskId
    else None
  }

  // ---------------------------------------------------------------------------------------------
  // A trial
  // ---------------------------------------------------------------------------------------------

  datatype Phase = Ready | Awaiting(pending: Pending) | Ended(error: Option<Fault>)

  /** A trial under way: the position of its turn, its identifiers and results, and what it holds. */
  datatype Trial = Trial(
    next: nat,
    contextId: string,
    taskId: Option<string>,
    results: seq<TurnResult>,
    held: Option<string>,
    phase: Phase)

  function Start(contextId: string): Trial { Trial(0, contextId, None, [], None, Ready) }

  /** The end of a trial closes the subscription it still holds. */
  function End(t: Trial, pool: Pool, error: Option<Fault>): (Trial, Pool) {
    (t.(held := None, phase := Ended(error)), Release(pool, t.held))
  }

  function Begin(setup: Setup, turns: seq<Turn>, t: Trial, pool: Pool, route: string): (Trial, Pool)
    requires t.phase.Ready? && t.next < |turns|
  {
    var (start, pool1) := StartTurn(setup, turns[t.next], t.contextId, t.taskId, t.held, pool, route);
    match start
    case Err(fault) => End(t, pool1, Some(fault))
    case Ok(pending) => (t.(phase := Awaiting(pending)), pool1)
  }

  /** What follows an answer: an end on a failed check, and otherwise the next turn. */
  function Conclude(setup: Setup, turns: seq<Turn>, t: Trial, pool: Pool, answer: Answer): (Trial, Pool)
    requires t.next < |turns|
  {
    match Report(setup, turns[t.next], t.next + 1, answer.outcome)
    case Err(message) => End(t.(held := answer.held), pool, Some(Raised(message)))
    case Ok(result) =>
      var results := t.results + [result];
      if result.failures != [] then End(t.(held := answer.held, results := results), pool, None)
      else
        (Trial(t.next + 1, NonEmptyOr(answer.outcome.contextId, t.contextId),
               NextTask(turns, t.next, answer.outcome, t.taskId), results, answer.held, Ready), pool)
  }

  function Advance(setup: Setup, turns: seq<Turn>, t: Trial, pool: Pool, reply: Reply): (Trial, Pool)
    requires t.phase.Awaiting? && t.next < |turns|
  {
    var (finish, pool1) := FinishTurn(t.phase.pending, t.held, pool, reply);
    match finish
    case Err(fault) => End(t, pool1, Some(fault))
    case Ok(answer) => Conclude(setup, turns, t, pool1, answer)
  }

  /** A trial without a further turn has ended. */
  function Settle(turns: seq<Turn>, t: Trial, pool: Pool): (Trial, Pool) {
    if t.phase.Ready? && t.next >= |turns| then End(t, pool, None) else (t, pool)
  }

  function Resume(setup: Setup, turns: seq<Turn>, t: Trial, pool: Pool, reply: Reply): (Trial, Pool)
    requires t.phase.Awaiting? && t.next < |turns|
  {
    var (t1, pool1) := Advance(setup, turns, t, pool, reply);
    Settle(turns, t1, pool1)
  }

  /** One turn with nothing else running. */
  function OneTurn<S>(w: World<S>, setup: Setup, turns: seq<Turn>, t: Trial, pool: Pool, s: S): (r: (Trial, Pool, S))
    requires t.phase.Ready? && t.next < |turns|
    ensures r.0.phase.Ended? || (r.0.phase.Ready? && r.0.next == t.next + 1)
  {
    var (t1, pool1) := Begin(setup, turns, t, pool, w.route(s));
    if t1.phase.Ended? then (t1, pool1, s)
    else
      var (s1, reply) := w.call(s, t1.phase.pending.request);
      var (t2, pool2) := Advance(setup, turns, t1, pool1, reply);
      (t2, pool2, s1)
  }

  /** The turns from here on, one after the other. */
  function TurnLoop<S>(w: World<S>, setup: Setup, turns: seq<Turn>, t: Trial, pool: Pool, s: S): (Trial, Pool, S)
    requires t.phase.Ready? && t.next <= |turns|
    decreases |turns| - t.next
  {
    if t.next == |turns| then var (t1, pool1) := End(t, pool, None); (t1, pool1, s)
    else
      var (t1, pool1, s1) := OneTurn(w, setup, turns, t, pool, s);
      if t1.phase.Ended? then (t1, pool1, s1) else TurnLoop(w, setup, turns, t1, pool1, s1)
  }

  predicate AllPassed(results: seq<TurnResult>) {
    forall i :: 0 <= i < |results| ==> results[i].passed
  }

  function ResultOf(t: Trial, index: nat, durationMs: int): TrialResult
    requires t.phase.Ended?
  {
    TrialResult(index, t.phase.error.None? && AllPassed(t.results), durationMs, t.results, t.phase.error)
  }

  lemma {:induction false} TurnLoopEnds<S>(w: World<S>, setup: Setup, turns: seq<Turn>, t: Trial, pool: Pool, s: S)
    requires t.phase.Ready? && t.next <= |turns|
    ensures TurnLoop(w, setup, turns, t, pool, s).0.phase.Ended?
    decreases |turns| - t.next
  {
    if t.next < |turns| {
      var (t1, pool1, s1) := OneTurn(w, setup, turns, t, pool, s);
      if t1.phase.Ready? { TurnLoopEnds(w, setup, turns, t1, pool1, s1); }
    }
  }

  /** A whole trial with nothing else running. */
  function TrialRun<S>(w: World<S>, setup: Setup, turns: seq<Turn>, index: nat, pool: Pool, s: S)
    : (TrialResult, Pool, S)
  {
    var (t, pool1, s1) := TurnLoop(w, setup, turns, Start(w.uuid(s)), pool, s);
    TurnLoopEnds(w, setup, turns, Start(w.uuid(s)), pool, s);
    (ResultOf(t, index, w.elapsed(s, s1)), pool1, s1)
  }

  // ---------------------------------------------------------------------------------------------
  // The same on objects
  // ---------------------------------------------------------------------------------------------

  function PoolOf(receiver: Push.PushReceiver?): Pool
    reads receiver
  {
    if receiver == null then Pool(Missing, {})
    else Pool(if receiver.running then Listening else Stopped, receiver.subscriptions.Keys)
  }

  function PathOf(subscription: Push.PushSubscription?): Option<string> {
    if subscription == null then None else Some(subscription.path)
  }

  /** An open subscription of the receiver, or none. */
  predicate Held(subscription: Push.PushSubscription?, receiver: Push.PushReceiver?)
    reads subscription
  {
    subscription != null ==> !subscription.closed && subscription.receiver == receiver
  }

  function FaultOf(e: Push.RegisterError): Fault {
    match e
    case NotRunning => NotRunning
    case TooManySubscriptions => TooManySubscriptions
  }

  method Call<S>(w: World<S>, s0: S, request: Request) returns (s: S, reply: Reply)
    ensures (s, reply) == w.call(s0, request)
  {
    var next := w.call(s0, request);
    return next.0, next.1;
  }

  /** The rest of an input turn, after its subscription was registered. */
  function SendOn<S>(
    w: World<S>, turn: Turn, contextId: string, taskId: Option<string>, registered: Option<string>,
    target: Option<string>, pool: Pool, s: S)
    : (Result<Answer, Fault>, Pool, S)
  {
    match turn.input.files
    case Err(message) => (Err(Raised(message)), Release(pool, registered), s)
    case Ok(_) =>
      var request := Send(turn.input, contextId, taskId, turn.returnImmediately, target);
      var (s1, reply) := w.call(s, request);
      var (finish, pool1) := FinishTurn(Pending(request, registered), target, pool, reply);
      (finish, pool1, s1)
  }

  lemma InputInTwoParts<S>(
    w: World<S>, setup: Setup, turn: Turn, contextId: string, taskId: Option<string>, held: Option<string>,
    pool: Pool, s: S)
    requires turn.action.None?
    ensures var (registration, pool1) := Registration(turn, pool, w.route(s));
      Execute(w, setup, turn, contextId, taskId, held, pool, s) ==
        match registration
        case Err(fault) => (Err(fault), pool1, s)
        case Ok(path) =>
          SendOn(w, turn, contextId, taskId, path, if path.Some? then path else held, pool1, s)
  {
  }

  /** The part of an input turn in which a registered subscription is closed on whatever is raised. */
  method SendInput<S>(
    w: World<S>, turn: Turn, receiver: Push.PushReceiver?, registered: Push.PushSubscription?, target: Option<string>,
    contextId: string, taskId: Option<string>, s0: S)
    returns (r: Result<TurnOutcome, Fault>, s: S)
    requires Held(registered, receiver)
    modifies receiver, registered, if registered == null then {} else {registered.state}
    ensures var (answer, pool1, s1) :=
      SendOn(w, turn, contextId, taskId, PathOf(registered), target, old(PoolOf(receiver)), s0);
      && PoolOf(receiver) == pool1 && s == s1
      && (match answer
          case Err(fault) => r == Err(fault)
          case Ok(a) =>
            r == Ok(a.outcome) && a.held == if registered != null then PathOf(registered) else target)
    ensures r.Ok? ==> Held(registered, receiver)
  {
    s := s0;
    if turn.input.files.Err? {
      if registered != null { registered.Close(); }
      return Err(Raised(turn.input.files.error)), s;
    }
    var reply;
    s, reply := Call(w, s, Send(turn.input, contextId, taskId, turn.returnImmediately, target));
    if reply.Err? {
      if registered != null { registered.Close(); }
      return Err(Raised(reply.error)), s;
    }
    if registered != null {
      if reply.value.taskId.None? {
        registered.Close();
        return Err(NoTaskId), s;
      }
      var _ := registered.Bind(reply.value.taskId.value, NonEmptyOr(reply.value.contextId, contextId));
    }
    return Ok(reply.value), s;
  }

  method RegisterFor(turn: Turn, receiver: Push.PushReceiver?, route: string)
    returns (r: Result<Push.PushSubscription?, Fault>)
    modifies receiver
    ensures var (registration, pool1) := Registration(turn, old(PoolOf(receiver)), route);
      && PoolOf(receiver) == pool1
      && (match registration
          case Err(fault) => r == Err(fault)
          case Ok(path) => r.Ok? && PathOf(r.value) == path)
    ensures r.Ok? ==> Held(r.value, receiver)
    ensures r.Ok? && r.value != null ==> fresh(r.value) && fresh(r.value.state)
  {
    if !turn.push { return Ok(null); }
    if receiver == null { return Err(NoReceiver); }
    assert |receiver.subscriptions| == |receiver.subscriptions.Keys|;
    var registration := receiver.Register(route, 0.0);
    if registration.Err? { return Err(FaultOf(registration.error)); }
    return Ok(registration.value);
  }

  /** An input turn, with a subscription of its own if it asks for push notifications. */
  method ExecuteInput<S>(
    w: World<S>, setup: Setup, turn: Turn, receiver: Push.PushReceiver?, subscription: Push.PushSubscription?,
    contextId: string, taskId: Option<string>, s0: S)
    returns (r: Result<TurnOutcome, Fault>, held: Push.PushSubscription?, s: S)
    requires turn.action.None? && Held(subscription, receiver)
    modifies receiver
    ensures var (answer, pool1, s1) := Execute(
      w, setup, turn, contextId, taskId, PathOf(subscription), old(PoolOf(receiver)), s0);
      && PoolOf(receiver) == pool1 && s == s1
      && (match answer
          case Err(fault) => r == Err(fault)
          case Ok(a) => r == Ok(a.outcome) && PathOf(held) == a.held)
    ensures r.Ok? ==> Held(held, receiver) && (held == subscription || fresh(held))
  {
    held, s := subscription, s0;
    InputInTwoParts(w, setup, turn, contextId, taskId, PathOf(subscription), PoolOf(receiver), s);
    var registration := RegisterFor(turn, receiver, w.route(s));
    if registration.Err? { return Err(registration.error), held, s; }
    var registered := registration.value;
    if registered != null { held := registered; }
    r, s := SendInput(w, turn, receiver, registered, PathOf(held), contextId, taskId, s);
  }

  /** An action on a task; awaiting push notifications closes the subscription. */
  method ExecuteAction<S>(
    w: World<S>, setup: Setup, turn: Turn, receiver: Push.PushReceiver?, subscription: Push.PushSubscription?,
    contextId: string, taskId: Option<string>, s0: S)
    returns (r: Result<TurnOutcome, Fault>, held: Push.PushSubscription?, s: S)
    requires turn.action.Some? && Held(subscription, receiver)
    modifies receiver, subscription
    ensures var (answer, pool1, s1) := Execute(
      w, setup, turn, contextId, taskId, PathOf(subscription), old(PoolOf(receiver)), s0);
      && PoolOf(receiver) == pool1 && s == s1
      && (match answer
          case Err(fault) => r == Err(fault)
          case Ok(a) => r == Ok(a.outcome) && PathOf(held) == a.held)
    ensures r.Ok? ==> Held(held, receiver) && (held == null || held == subscription)
    ensures r.Err? ==> Held(subscription, receiver)
  {
    var action := turn.action.value;
    held, s := subscription, s0;
    if taskId.None? { return Err(NoTask), held, s; }
    var reply;
    if action.AwaitPush? {
      if subscription == null { return Err(NoSubscription), held, s; }
      s, reply := Call(w, s, Wait(subscription.path));
      if reply.Err? { return Err(Raised(reply.error)), held, s; }
      subscription.Close();
      return Ok(reply.value), null, s;
    }
    if action !in setup.operations { return Err(Unavailable(action)), held, s; }
    s, reply := Call(
      w, s, Operate(action, taskId.value, contextId, if action.GetTask? then turn.historyLength else None));
    if reply.Err? { return Err(Raised(reply.error)), held, s; }
    return Ok(reply.value), held, s;
  }

  method ExecuteTurn<S>(
    w: World<S>, setup: Setup, turn: Turn, receiver: Push.PushReceiver?, subscription: Push.PushSubscription?,
    contextId: string, taskId: Option<string>, s0: S)
    returns (r: Result<TurnOutcome, Fault>, held: Push.PushSubscription?, s: S)
    requires Held(subscription, receiver)
    modifies receiver, subscription
    ensures var (answer, pool1, s1) := Execute(
      w, setup, turn, contextId, taskId, PathOf(subscription), old(PoolOf(receiver)), s0);
      && PoolOf(receiver) == pool1 && s == s1
      && (match answer
          case Err(fault) => r == Err(fault)
          case Ok(a) => r == Ok(a.outcome) && PathOf(held) == a.held)
    ensures r.Ok? ==> Held(held, receiver) && (held == null || held == subscription || fresh(held))
    ensures r.Err? ==> Held(subscription, receiver)
  {
    if turn.action.Some? {
      r, held, s := ExecuteAction(w, setup, turn, receiver, subscription, contextId, taskId, s0);
    } else {
      r, held, s := ExecuteInput(w, setup, turn, receiver, subscription, contextId, taskId, s0);
    }
  }

  /** The state of a trial in the variables of its loop. */
  function Current(i: nat, contextId: string, taskId: Option<string>, results: seq<TurnResult>, held: Option<string>)
    : Trial
  {
    Trial(i, contextId, taskId, results, held, Ready)
  }

  lemma ConcludeCases(setup: Setup, turns: seq<Turn>, t: Trial, pool: Pool, a: Answer)
    requires t.next < |turns|
    ensures var (t2, pool2) := Conclude(setup, turns, t, pool, a);
      match Report(setup, turns[t.next], t.next + 1, a.outcome)
      case Err(message) =>
        t2.phase == Ended(Some(Raised(message))) && t2.results == t.results && pool2 == Release(pool, a.held)
      case Ok(result) =>
        if result.failures != [] then
          t2.phase == Ended(None) && t2.results == t.results + [result] && pool2 == Release(pool, a.held)
        else
          && pool2 == pool
          && t2 == Current(t.next + 1, NonEmptyOr(a.outcome.contextId, t.contextId),
                           NextTask(turns, t.next, a.outcome, t.taskId), t.results + [result], a.held)
  {
  }

  /** A turn from its execution: it ends the trial on a fault, an exception or a failure, or leads to the next. */
  lemma OneTurnByExecution<S>(
    w: World<S>, setup: Setup, turns: seq<Turn>, t: Trial, pool: Pool, s: S,
    answer: Result<Answer, Fault>, pool1: Pool, s1: S)
    requires t.phase.Ready? && t.next < |turns|
    requires (answer, pool1, s1) == Execute(w, setup, turns[t.next], t.contextId, t.taskId, t.held, pool, s)
    ensures var (t2, pool2, s2) := OneTurn(w, setup, turns, t, pool, s);
      s2 == s1 &&
      match answer
      case Err(fault) =>
        t2.phase == Ended(Some(fault)) && t2.results == t.results && pool2 == Release(pool1, t.held)
      case Ok(a) =>
        match Report(setup, turns[t.next], t.next + 1, a.outcome)
        case Err(message) =>
          t2.phase == Ended(Some(Raised(message))) && t2.results == t.results && pool2 == Release(pool1, a.held)
        case Ok(result) =>
          if result.failures != [] then
            t2.phase == Ended(None) && t2.results == t.results + [result] && pool2 == Release(pool1, a.held)
          else
            && pool2 == pool1
            && t2 == Current(t.next + 1, NonEmptyOr(a.outcome.contextId, t.contextId),
                             NextTask(turns, t.next, a.outcome, t.taskId), t.results + [result], a.held)
  {
    if answer.Ok? { ConcludeCases(setup, turns, t, pool1, answer.value); }
  }

  /** The result of a turn: its checks, the invariants, and the response with AP2 tokens replaced. */
  method Assess(setup: Setup, turn: Turn, index: nat, outcome: TurnOutcome) returns (r: Result<TurnResult, string>)
    ensures r == Report(setup, turn, index, outcome)
    ensures r.Ok? ==> Shows(setup, turn, index, outcome, r.value)
  {
    var checked := turn.check(outcome);
    if checked.Err? { return Err(checked.error); }
    var failures, violations := checked.value, [];
    if setup.invariants.Some? {
      violations := Invariants.Evaluate(setup.invariants.value, outcome.text);
    }
    failures := failures + violations;
    var hidden := violations != [];
    var data := Redaction.RedactAp2(turn.ap2, outcome.data);
    assert data == ReportedData(turn, outcome.data);
    return Ok(TurnResult(
      index, failures == [], outcome.state, outcome.states, outcome.durationMs, outcome.firstEventMs,
      if hidden then REDACTED_RESPONSE else outcome.text,
      if hidden then [] else data,
      if hidden then [] else outcome.files,
      hidden, failures));
  }

  /** One turn and its result; `ended` with an error, with a failed turn, or not at all. */
  method RunTurn<S>(
    w: World<S>, setup: Setup, turns: seq<Turn>, i: nat, receiver: Push.PushReceiver?,
    subscription: Push.PushSubscription?, contextId: string, taskId: Option<string>, results: seq<TurnResult>, s0: S)
    returns (
      ended: bool, error: Option<Fault>, held: Push.PushSubscription?,
      contextId': string, taskId': Option<string>, results': seq<TurnResult>, s: S)
    requires i < |turns| && Held(subscription, receiver)
    modifies receiver, subscription
    ensures Held(held, receiver) && (held == null || held == subscription || fresh(held))
    ensures var (t, pool, s1) :=
      OneTurn(w, setup, turns, Current(i, contextId, taskId, results, PathOf(subscription)), old(PoolOf(receiver)), s0);
      && s == s1
      && (if ended
          then t.phase == Ended(error) && t.results == results' && pool == Release(PoolOf(receiver), PathOf(held))
          else
            && error.None? && pool == PoolOf(receiver)
            && t == Current(i + 1, contextId', taskId', results', PathOf(held)))
  {
    ghost var t := Current(i, contextId, taskId, results, PathOf(subscription));
    ghost var (a, pool1, s1) := Execute(w, setup, turns[i], contextId, taskId, t.held, PoolOf(receiver), s0);
    OneTurnByExecution(w, setup, turns, t, PoolOf(receiver), s0, a, pool1, s1);
    ended, error, contextId', taskId', results' := true, None, contextId, taskId, results;
    var answer;
    answer, held, s := ExecuteTurn(w, setup, turns[i], receiver, subscription, contextId, taskId, s0);
    if answer.Err? { return true, Some(answer.error), subscription, contextId, taskId, results, s; }
    var report := Assess(setup, turns[i], i + 1, answer.value);
    if report.Err? { return true, Some(Raised(report.error)), held, contextId, taskId, results, s; }
    results' := results + [report.value];
    if report.value.failures == [] {
      ended := false;
      var outcome := answer.value;
      if outcome.contextId.Some? && outcome.contextId.value != "" { contextId' := outcome.contextId.value; }
      var actionFollows := i + 1 < |turns| && turns[i + 1].action.Some?;
      var keepTask := outcome.state in {"auth_required", "input_required"} || actionFollows;
      if !keepTask {
        taskId' := None;
      } else if outcome.taskId.Some? && outcome.taskId.value != "" {
        taskId' := outcome.taskId;
      }
    }
  }

  lemma TurnLoopStep<S>(
    w: World<S>, setup: Setup, turns: seq<Turn>, t: Trial, pool: Pool, s: S, t1: Trial, pool1: Pool, s1: S)
    requires t.phase.Ready? && t.next < |turns| && (t1, pool1, s1) == OneTurn(w, setup, turns, t, pool, s)
    ensures TurnLoop(w, setup, turns, t, pool, s) ==
      if t1.phase.Ended? then (t1, pool1, s1) else TurnLoop(w, setup, turns, t1, pool1, s1)
  {
  }

  /** Turns until one fails or raises; a subscription may still be held afterwards. */
  method RunTurns<S>(
    w: World<S>, setup: Setup, turns: seq<Turn>, receiver: Push.PushReceiver?, contextId0: string, s0: S)
    returns (results: seq<TurnResult>, error: Option<Fault>, held: Push.PushSubscription?, s: S)
    modifies receiver
    ensures Held(held, receiver) && (held != null ==> fresh(held))
    ensures var (t, pool, s1) := TurnLoop(w, setup, turns, Start(contextId0), old(PoolOf(receiver)), s0);
      && t.phase == Ended(error) && t.results == results && s == s1
      && pool == Release(PoolOf(receiver), PathOf(held))
  {
    var contextId, taskId: Option<string>, ended := contextId0, None, false;
    results, error, held, s := [], None, null, s0;
    ghost var expected := TurnLoop(w, setup, turns, Start(contextId), PoolOf(receiver), s);
    var i := 0;
    while i < |turns|
      invariant i <= |turns| && error.None?
      invariant Held(held, receiver) && (held != null ==> fresh(held))
      invariant expected ==
        TurnLoop(w, setup, turns, Current(i, contextId, taskId, results, PathOf(held)), PoolOf(receiver), s)
    {
      ghost var t := Current(i, contextId, taskId, results, PathOf(held));
      ghost var (t1, pool1, s1) := OneTurn(w, setup, turns, t, PoolOf(receiver), s);
      TurnLoopStep(w, setup, turns, t, PoolOf(receiver), s, t1, pool1, s1);
      ended, error, held, contextId, taskId, results, s :=
        RunTurn(w, setup, turns, i, receiver, held, contextId, taskId, results, s);
      if ended { return; }
      i := i + 1;
    }
  }

  /** A trial; whatever subscription is held at its end is closed. */
  method RunTrial<S>(w: World<S>, setup: Setup, turns: seq<Turn>, index: nat, receiver: Push.PushReceiver?, s0: S)
    returns (r: TrialResult, s: S)
    modifies receiver
    ensures (r, PoolOf(receiver), s) == TrialRun(w, setup, turns, index, old(PoolOf(receiver)), s0)
  {
    var results, error, subscription;
    results, error, subscription, s := RunTurns(w, setup, turns, receiver, w.uuid(s0), s0);
    if subscription != null { subscription.Close(); }
    return TrialResult(index, error.None? && AllPassed(results), w.elapsed(s0, s), results, error), s;
  }
}

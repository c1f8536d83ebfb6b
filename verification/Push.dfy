/**
 Push subscriptions: handlers of concurrent connections deposit deliveries into the bounded queue of a
 subscription, and a waiter drains it into a response collector.

 The event loop runs one handler or the waiter at a time, so everything between two suspensions is one
 step. What happens while the waiter is suspended is given to it as a list of ticks.
 */
module Push {
  import opened Wrappers
  import opened Rounding
  import opened Protocol
  import opened Collector

  const MAX_PUSH_TOTAL_BYTES: nat := 20_000_000
  const MAX_PUSH_EVENTS: nat := 1_000
  const MAX_PUSH_SUBSCRIPTIONS: nat := 100

  // ---------------------------------------------------------------------------------------------
  // Handlers
  // ---------------------------------------------------------------------------------------------

  datatype Delivery = Delivery(event: Event, receivedAt: real)

  /** A subscription's state; None in the queue is the sentinel that reports a rejection. */
  datatype Sub = Sub(
    createdAt: real,
    queue: seq<Option<Delivery>>,
    taskId: Option<string>,
    contextId: Option<string>,
    firstReceivedAt: Option<real>,
    rejection: Option<string>,
    receivedBytes: nat,
    fingerprints: set<Event>)

  /**
   What a connection handler does to a subscription: record a complete request body, whose event is None
   when it does not parse, or refuse the request for its headers or size.
   */
  datatype Arrival =
    | Post(length: nat, parsed: Option<Event>, now: real)
    | Refusal(reason: string, status: int)

  /** The HTTP status answered, or a crash of the handler on a full queue. */
  datatype Reply = Answered(code: int) | QueueFull

  predicate WellFormed(parsed: Option<Event>) {
    parsed.Some? && !parsed.value.EmptyEvent?
  }

  /** The first rejection is kept, and announced if the queue has room. */
  function Reject(s: Sub, reason: string): Sub {
    if s.rejection.Some? then s
    else
      s.(rejection := Some(reason),
         queue := if |s.queue| < MAX_PUSH_EVENTS then s.queue + [None] else s.queue)
  }

  /** The state after a handler ran and its reply. The fingerprint stands for the event itself. */
  function Receive(s: Sub, a: Arrival): (Sub, Reply) {
    match a
    case Refusal(reason, status) => (Reject(s, reason), Answered(status))
    case Post(length, parsed, now) =>
      if !WellFormed(parsed) then (Reject(s, "invalid StreamResponse"), Answered(400))
      else if s.receivedBytes + length > MAX_PUSH_TOTAL_BYTES then
        (Reject(s, "total body size exceeded the limit"), Answered(413))
      else
        var s1 := s.(receivedBytes := s.receivedBytes + length);
        if parsed.value in s.fingerprints then (s1, Answered(204))
        else if |s.fingerprints| >= MAX_PUSH_EVENTS then (Reject(s1, "event limit exceeded"), Answered(429))
        else
          var s2 := s1.(firstReceivedAt := if s.firstReceivedAt.None? then Some(now) else s.firstReceivedAt,
                        fingerprints := s.fingerprints + {parsed.value});
          if |s.queue| >= MAX_PUSH_EVENTS then (s2, QueueFull)
          else (s2.(queue := s.queue + [Some(Delivery(parsed.value, now))]), Answered(204))
  }

  function ReceiveAll(s: Sub, arrivals: seq<Arrival>): Sub {
    if arrivals == [] then s
    else Receive(ReceiveAll(s, arrivals[..|arrivals| - 1]), arrivals[|arrivals| - 1]).0
  }

  // ---------------------------------------------------------------------------------------------
  // The waiter
  // ---------------------------------------------------------------------------------------------

  datatype WaitError =
    | Closed | NotBound
    | Rejected(reason: string) | TimedOut
    | Unidentified | UnexpectedTask | UnexpectedContext
    | Refused(error: Error)

  predicate IsTerminal(e: Event) {
    match e
    case MessageEvent(_) => true
    case TaskEvent(t) => Interrupted(t.status.state)
    case StatusEvent(_, _, status) => Interrupted(status.state)
    case _ => false
  }

  function IdentityFault(s: Sub, e: Event): Option<WaitError> {
    var id := if IdentityOf(e).Some? then IdentityOf(e).value else Identity("", "");
    if id.taskId == "" then Some(Unidentified)
    else if Some(id.taskId) != s.taskId then Some(UnexpectedTask)
    else if Some(id.contextId) != s.contextId then Some(UnexpectedContext)
    else None
  }

  function Milliseconds(from: real, to: real): int { Round((to - from) * 1000.0) }

  datatype Step = Continue(collected: Collected) | Finished(result: Result<TurnOutcome, WaitError>)

  /** What the waiter does with one delivery. */
  function Consume(s: Sub, c: Collected, d: Delivery): Step {
    var fault := IdentityFault(s, d.event);
    var (c1, error) := AddEvent(c, d.event);
    if fault.Some? then Finished(Err(fault.value))
    else if error.Some? then Finished(Err(Refused(error.value)))
    else if !IsTerminal(d.event) then Continue(c1)
    else
      match Finish(c1, Milliseconds(s.createdAt, d.receivedAt), FirstEvent(s), true)
      case Ok(outcome) => Finished(Ok(outcome))
      case Err(e) => Finished(Err(Refused(e)))
  }

  function FirstEvent(s: Sub): Option<int> {
    if s.firstReceivedAt.Some? then Some(Milliseconds(s.createdAt, s.firstReceivedAt.value)) else None
  }

  function WaitFault(s: Sub): WaitError {
    if s.rejection.Some? then Rejected(s.rejection.value) else TimedOut
  }

  datatype Progress =
    | Suspended(sub: Sub, collected: Collected)
    | Done(sub: Sub, result: Result<TurnOutcome, WaitError>)

  /**
   The waiter from one suspension to the next. A rejection is noticed before every take, except the one
   that ends a suspension.
   */
  function Drain(s: Sub, c: Collected, resumed: bool): Progress
    decreases |s.queue|
  {
    if !resumed && s.rejection.Some? then Done(s, Err(WaitFault(s)))
    else if s.queue == [] then Suspended(s, c)
    else
      var s1 := s.(queue := s.queue[1..]);
      if s.queue[0].None? then Done(s1, Err(WaitFault(s1)))
      else
        match Consume(s1, c, s.queue[0].value)
        case Finished(r) => Done(s1, r)
        case Continue(c1) => Drain(s1, c1, false)
  }

  /** What happens in one suspension: handlers run, then the waiter resumes or its deadline passes. */
  datatype Tick = Tick(arrivals: seq<Arrival>, expired: bool)

  /** A whole wait; without further ticks the deadline passes. */
  function WaitRun(s: Sub, c: Collected, resumed: bool, ticks: seq<Tick>): (Sub, Result<TurnOutcome, WaitError>)
    decreases |ticks|
  {
    match Drain(s, c, resumed)
    case Done(s1, r) => (s1, r)
    case Suspended(s1, c1) =>
      if ticks == [] then (s1, Err(WaitFault(s1)))
      else
        var s2 := ReceiveAll(s1, ticks[0].arrivals);
        if ticks[0].expired then (s2, Err(WaitFault(s2))) else WaitRun(s2, c1, true, ticks[1..])
  }

  /** The same, seen from the loop that takes one element at a time. */
  lemma WaitStep(s: Sub, c: Collected, resumed: bool, ticks: seq<Tick>)
    ensures var here := WaitRun(s, c, resumed, ticks);
      if !resumed && s.rejection.Some? then here == (s, Err(WaitFault(s)))
      else if s.queue == [] then
        if ticks == [] then here == (s, Err(WaitFault(s)))
        else
          var s2 := ReceiveAll(s, ticks[0].arrivals);
          here == if ticks[0].expired then (s2, Err(WaitFault(s2))) else WaitRun(s2, c, true, ticks[1..])
      else
        var s1 := s.(queue := s.queue[1..]);
        if s.queue[0].None? then here == (s1, Err(WaitFault(s1)))
        else
          match Consume(s1, c, s.queue[0].value)
          case Finished(r) => here == (s1, r)
          case Continue(c1) => here == WaitRun(s1, c1, false, ticks)
  {
  }

  // ---------------------------------------------------------------------------------------------
  // The objects
  // ---------------------------------------------------------------------------------------------

  class SubscriptionState {
    const createdAt: real
    var queue: seq<Option<Delivery>>
    var taskId: Option<string>
    var contextId: Option<string>
    var firstReceivedAt: Option<real>
    var rejection: Option<string>
    var receivedBytes: nat
    var fingerprints: set<Event>

    function View(): Sub
      reads this
    {
      Sub(createdAt, queue, taskId, contextId, firstReceivedAt, rejection, receivedBytes, fingerprints)
    }

    constructor (now: real)
      ensures View() == Sub(now, [], None, None, None, None, 0, {})
    {
      createdAt, queue, taskId, contextId, firstReceivedAt := now, [], None, None, None;
      rejection, receivedBytes, fingerprints := None, 0, {};
    }

    method Refuse(reason: string, status: int) returns (reply: Reply)
      modifies this
      ensures View() == Reject(old(View()), reason) && reply == Answered(status)
    {
      if rejection.None? {
        rejection := Some(reason);
        if |queue| < MAX_PUSH_EVENTS { queue := queue + [None]; }
      }
      return Answered(status);
    }

    method RecordDelivery(length: nat, parsed: Option<Event>, now: real) returns (reply: Reply)
      modifies this
      ensures (View(), reply) == Receive(old(View()), Post(length, parsed, now))
    {
      if !WellFormed(parsed) {
        reply := Refuse("invalid StreamResponse", 400);
        return;
      }
      var fingerprint := parsed.value;
      if receivedBytes + length > MAX_PUSH_TOTAL_BYTES {
        reply := Refuse("total body size exceeded the limit", 413);
        return;
      }
      receivedBytes := receivedBytes + length;
      if fingerprint in fingerprints { return Answered(204); }
      if |fingerprints| >= MAX_PUSH_EVENTS {
        reply := Refuse("event limit exceeded", 429);
        return;
      }
      if firstReceivedAt.None? { firstReceivedAt := Some(now); }
      fingerprints := fingerprints + {fingerprint};
      if |queue| >= MAX_PUSH_EVENTS { return QueueFull; }
      queue := queue + [Some(Delivery(parsed.value, now))];
      return Answered(204);
    }

    /** The handlers that run while the waiter is suspended. */
    method Handle(arrivals: seq<Arrival>)
      modifies this
      ensures View() == ReceiveAll(old(View()), arrivals)
    {
      for i := 0 to |arrivals|
        invariant View() == ReceiveAll(old(View()), arrivals[..i])
      {
        assert arrivals[..i + 1][..i] == arrivals[..i];
        match arrivals[i] {
          case Post(length, parsed, now) => var _ := RecordDelivery(length, parsed, now);
          case Refusal(reason, status) => var _ := Refuse(reason, status);
        }
      }
      assert arrivals[..|arrivals|] == arrivals;
    }
  }

  class PushSubscription {
    const receiver: PushReceiver
    const path: string
    const state: SubscriptionState
    var closed: bool

    constructor (receiver: PushReceiver, path: string, state: SubscriptionState)
      ensures this.receiver == receiver && this.path == path && this.state == state && !closed
    {
      this.receiver, this.path, this.state, closed := receiver, path, state, false;
    }

    method Bind(task: string, context: string) returns (ok: bool)
      modifies state
      ensures ok == !closed
      ensures state.View() ==
        if ok then old(state.View()).(taskId := Some(task), contextId := Some(context)) else old(state.View())
    {
      if closed { return false; }
      state.taskId := Some(task);
      state.contextId := Some(context);
      return true;
    }

    /** Drains the queue, suspending whenever it is empty, until a terminal delivery or an error. */
    method Wait(ticks: seq<Tick>) returns (r: Result<TurnOutcome, WaitError>)
      modifies state
      ensures closed ==> r == Err(Closed) && state.View() == old(state.View())
      ensures !closed && old(state.taskId).None? ==> r == Err(NotBound) && state.View() == old(state.View())
      ensures !closed && old(state.taskId).Some? ==>
        (state.View(), r) == WaitRun(old(state.View()), Fresh(ContextOf(old(state.View())), None), false, ticks)
    {
      if closed { return Err(Closed); }
      if state.taskId.None? { return Err(NotBound); }
      var collector := new ResponseCollector(ContextOf(state.View()), None);
      r := TakeAll(collector, ticks);
    }

    /** The loop of a wait: one element of the queue or one suspension at a time. */
    method TakeAll(collector: ResponseCollector, ticks: seq<Tick>) returns (r: Result<TurnOutcome, WaitError>)
      modifies state, collector
      ensures (state.View(), r) == WaitRun(old(state.View()), old(collector.View()), false, ticks)
    {
      var i, resumed := 0, false;
      assert ticks[0..] == ticks;
      while true
        invariant 0 <= i <= |ticks|
        invariant WaitRun(state.View(), collector.View(), resumed, ticks[i..])
               == WaitRun(old(state.View()), old(collector.View()), false, ticks)
        decreases |ticks| - i, |state.queue|
      {
        WaitStep(state.View(), collector.View(), resumed, ticks[i..]);
        if !resumed && state.rejection.Some? { return Err(WaitFault(state.View())); }
        if state.queue == [] {
          if i == |ticks| { return Err(WaitFault(state.View())); }
          var tick := ticks[i];
          assert ticks[i..][0] == tick && ticks[i..][1..] == ticks[i + 1..];
          state.Handle(tick.arrivals);
          if tick.expired { return Err(WaitFault(state.View())); }
          i, resumed := i + 1, true;
        } else {
          var delivery := state.queue[0];
          state.queue, resumed := state.queue[1..], false;
          if delivery.None? { return Err(WaitFault(state.View())); }
          var done;
          done, r := Take(collector, delivery.value);
          if done { return r; }
        }
      }
    }

    /** A notification has to name the bound task and context, and some task at all. */
    method ValidateIdentity(e: Event) returns (fault: Option<WaitError>)
      ensures fault == IdentityFault(state.View(), e)
      ensures fault.None? <==>
        && IdentityOf(e).Some? && IdentityOf(e).value.taskId != ""
        && state.taskId == Some(IdentityOf(e).value.taskId) && state.contextId == Some(IdentityOf(e).value.contextId)
    {
      var id := Identity("", "");
      if IdentityOf(e).Some? { id := IdentityOf(e).value; }
      if id.taskId == "" { return Some(Unidentified); }
      if Some(id.taskId) != state.taskId { return Some(UnexpectedTask); }
      if Some(id.contextId) != state.contextId { return Some(UnexpectedContext); }
      return None;
    }

    /** One delivery: its identity is checked, it is collected, and a terminal one ends the wait. */
    method Take(collector: ResponseCollector, d: Delivery) returns (done: bool, r: Result<TurnOutcome, WaitError>)
      modifies collector
      ensures var step := Consume(state.View(), old(collector.View()), d);
        if done then step == Finished(r) else step == Continue(collector.View())
    {
      done, r := true, Err(TimedOut);
      var fault := ValidateIdentity(d.event);
      if fault.Some? { return true, Err(fault.value); }
      var error := collector.Add(d.event);
      if error.Some? { return true, Err(Refused(error.value)); }
      if !IsTerminal(d.event) { return false, r; }
      var outcome := collector.Result(
        Milliseconds(state.createdAt, d.receivedAt), FirstEvent(state.View()), true);
      match outcome {
        case Ok(o) => r := Ok(o);
        case Err(e) => r := Err(Refused(e));
      }
    }

    method Close()
      modifies this, receiver
      ensures closed
      ensures receiver.subscriptions.Keys ==
        if old(closed) then old(receiver.subscriptions).Keys else old(receiver.subscriptions).Keys - {path}
      ensures forall p :: p in receiver.subscriptions ==> receiver.subscriptions[p] == old(receiver.subscriptions)[p]
      ensures receiver.running == old(receiver.running)
    {
      if !closed {
        receiver.Remove(path);
        closed := true;
      }
    }
  }

  function ContextOf(s: Sub): string {
    if s.contextId.Some? then s.contextId.value else ""
  }

  datatype RegisterError = NotRunning | TooManySubscriptions

  class PushReceiver {
    var running: bool
    var subscriptions: map<string, SubscriptionState>

    constructor ()
      ensures running && subscriptions == map[]
    {
      running, subscriptions := true, map[];
    }

    /** A new subscription under an unpredictable path, given by the caller. */
    method Register(path: string, now: real) returns (r: Result<PushSubscription, RegisterError>)
      modifies this
      ensures !old(running) ==> r == Err(NotRunning)
      ensures old(running) && |old(subscriptions)| >= MAX_PUSH_SUBSCRIPTIONS ==> r == Err(TooManySubscriptions)
      ensures r.Err? ==> subscriptions == old(subscriptions)
      ensures old(running) && |old(subscriptions)| < MAX_PUSH_SUBSCRIPTIONS ==>
        && r.Ok? && fresh(r.value) && fresh(r.value.state)
        && r.value.receiver == this && r.value.path == path && !r.value.closed
        && subscriptions == old(subscriptions)[path := r.value.state]
        && r.value.state.View() == Sub(now, [], None, None, None, None, 0, {})
      ensures running == old(running)
    {
      if !running { return Err(NotRunning); }
      if |subscriptions| >= MAX_PUSH_SUBSCRIPTIONS { return Err(TooManySubscriptions); }
      var state := new SubscriptionState(now);
      subscriptions := subscriptions[path := state];
      var subscription := new PushSubscription(this, path, state);
      return Ok(subscription);
    }

    method Remove(path: string)
      modifies this
      ensures subscriptions == old(subscriptions) - {path} && running == old(running)
    {
      subscriptions := subscriptions - {path};
    }

    method Shutdown()
      modifies this
      ensures subscriptions == map[] && !running
    {
      subscriptions, running := map[], false;
    }
  }
}

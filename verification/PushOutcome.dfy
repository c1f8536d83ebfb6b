/**
 What a wait returns in terms of the collector: with matching identities, the outcome collected from the
 deliveries up to the first terminal one; and what a rejection does to it.
 */
module PushOutcome {
  import opened Wrappers
  import opened Rounding
  import opened Protocol
  import opened CollectorLaws
  import opened Push
  import opened PushInvariant
  import opened PushSchedule

  // ---------------------------------------------------------------------------------------------
  // The fold is the collector's
  // ---------------------------------------------------------------------------------------------

  predicate IdentitiesMatch(s: Sub, ds: seq<Delivery>) {
    forall i :: 0 <= i < |ds| ==> IdentityFault(s, ds[i].event).None?
  }

  function EventList(ds: seq<Delivery>): seq<Event> {
    seq(|ds|, i requires 0 <= i < |ds| => ds[i].event)
  }

  /** The position of the first terminal delivery, or the number of deliveries. */
  function FirstTerminal(ds: seq<Delivery>): (n: nat)
    ensures n <= |ds|
    ensures n < |ds| ==> IsTerminal(ds[n].event)
    ensures forall i :: 0 <= i < n ==> !IsTerminal(ds[i].event)
  {
    if ds == [] || IsTerminal(ds[0].event) then 0 else 1 + FirstTerminal(ds[1..])
  }

  /** Everything up to and including the first terminal delivery. */
  function ThroughTerminal(ds: seq<Delivery>): seq<Delivery> {
    if FirstTerminal(ds) < |ds| then ds[..FirstTerminal(ds) + 1] else ds
  }

  /** The result in terms of the collector alone. */
  function Collect(s: Sub, c: Collected, ds: seq<Delivery>): Result<TurnOutcome, WaitError> {
    var used := ThroughTerminal(ds);
    var (c1, error) := AddEvents(c, EventList(used));
    if error.Some? then Err(Refused(error.value))
    else if FirstTerminal(ds) == |ds| then Err(TimedOut)
    else
      match Finish(c1, Milliseconds(s.createdAt, ds[FirstTerminal(ds)].receivedAt), FirstEvent(s), true)
      case Ok(outcome) => Ok(outcome)
      case Err(e) => Err(Refused(e))
  }

  lemma {:induction false} AddEventsFirst(c: Collected, e: Event, es: seq<Event>, all: seq<Event>)
    requires all == [e] + es
    ensures AddEvents(c, all) ==
      (var (c1, error) := AddEvent(c, e); if error.Some? then (c1, error) else AddEvents(c1, es))
    decreases |es|
  {
    var init := all[..|all| - 1];
    if es == [] {
      assert init == [] && AddEvents(c, init) == (c, None);
    } else {
      AddEventsFirst(c, e, es[..|es| - 1], init);
      assert all[|all| - 1] == es[|es| - 1];
    }
  }

  lemma TerminalFirst(s: Sub, c: Collected, ds: seq<Delivery>, used: seq<Event>)
    requires ds != [] && IdentityFault(s, ds[0].event).None? && IsTerminal(ds[0].event)
    requires used == EventList(ThroughTerminal(ds))
    ensures Conclude(Fold(s, c, ds)) == Collect(s, c, ds)
  {
    assert used == [ds[0].event] + [];
    AddEventsFirst(c, ds[0].event, [], used);
  }

  /** With matching identities, consuming deliveries one by one is collecting them. */
  lemma {:induction false} FoldIsCollected(s: Sub, c: Collected, ds: seq<Delivery>)
    requires IdentitiesMatch(s, ds)
    ensures Conclude(Fold(s, c, ds)) == Collect(s, c, ds)
    decreases |ds|
  {
    if ds != [] {
      var d, rest := ds[0], ds[1..];
      if IsTerminal(d.event) {
        TerminalFirst(s, c, ds, EventList(ThroughTerminal(ds)));
      } else {
        var used, more := EventList(ThroughTerminal(ds)), EventList(ThroughTerminal(rest));
        assert ThroughTerminal(ds) == [d] + ThroughTerminal(rest);
        assert used == [d.event] + more;
        AddEventsFirst(c, d.event, more, used);
        if AddEvent(c, d.event).1.None? { FoldIsCollected(s, AddEvent(c, d.event).0, rest); }
      }
    }
  }

  // ---------------------------------------------------------------------------------------------
  // Terminal events finish
  // ---------------------------------------------------------------------------------------------

  lemma {:induction false} ContentKeepsState(c: Collected, ops: seq<Op>)
    requires forall i :: 0 <= i < |ops| ==> !ops[i].SeeState?
    ensures ApplyAll(c, ops).0.state == c.state
  {
    if ops != [] {
      ContentKeepsState(c, ops[..|ops| - 1]);
      OtherOpsKeepStates(ApplyAll(c, ops[..|ops| - 1]).0, ops[|ops| - 1]);
    }
  }

  lemma StatusSetsState(c: Collected, task: string, context: string, status: Protocol.Status, more: seq<Op>)
    requires forall i :: 0 <= i < |more| ==> !more[i].SeeState?
    requires ApplyAll(c, StatusOps(task, context, status) + more).1.None?
    ensures ApplyAll(c, StatusOps(task, context, status) + more).0.state == status.state
  {
    var ops := StatusOps(task, context, status);
    var ops3, tail := ops[..3], ops[3..] + more;
    assert ops + more == ops3 + tail;
    Collector.ApplyConcat(c, ops3, tail);
    Collector.FirstEffects(c, ops);
    ContentKeepsState(ApplyAll(c, ops3).0, tail);
  }

  lemma {:induction false} EventsCounted(c: Collected, ops: seq<Op>)
    ensures ApplyAll(c, ops).0.events == c.events
  {
    if ops != [] { EventsCounted(c, ops[..|ops| - 1]); }
  }

  /** The state an accepted event leaves, when its effects leave it. */
  lemma AcceptedState(c: Collected, e: Event, c1: Collected, state: string)
    requires AddEvent(c, e).1.None? && c1 == c.(events := c.events + 1)
    requires ApplyAll(c1, Expand(e)).1.None? ==> ApplyAll(c1, Expand(e)).0.state == state
    ensures AddEvent(c, e).0.state == state && AddEvent(c, e).0.events > 0
  {
    EventsCounted(c1, Expand(e));
  }

  function TerminalState(e: Event): string {
    match e
    case TaskEvent(t) => t.status.state
    case StatusEvent(_, _, status) => status.state
    case _ => "message"
  }

  lemma MessageStateRecorded(c: Collected, m: Message)
    requires ApplyAll(c, Expand(MessageEvent(m))).1.None?
    ensures ApplyAll(c, Expand(MessageEvent(m))).0.state == "message"
  {
    var ops := Expand(MessageEvent(m));
    assert ops[..1] == [Speak(m)];
    assert Apply(ApplyAll(c, [Speak(m)]).0, SeeState("message")) == ApplyAll(c, ops);
  }

  lemma TaskStateRecorded(c: Collected, t: Task)
    requires ApplyAll(c, Expand(TaskEvent(t))).1.None?
    ensures ApplyAll(c, Expand(TaskEvent(t))).0.state == t.status.state
  {
    var more := Speaks(t.history) + Publishes(t.artifacts);
    assert Expand(TaskEvent(t)) == StatusOps(t.id, t.contextId, t.status) + more;
    StatusSetsState(c, t.id, t.contextId, t.status, more);
  }

  lemma StatusStateRecorded(c: Collected, task: string, context: string, status: Protocol.Status)
    requires ApplyAll(c, Expand(StatusEvent(task, context, status))).1.None?
    ensures ApplyAll(c, Expand(StatusEvent(task, context, status))).0.state == status.state
  {
    assert StatusOps(task, context, status) + [] == StatusOps(task, context, status);
    StatusSetsState(c, task, context, status, []);
  }

  lemma StateRecorded(c: Collected, e: Event)
    requires !e.ArtifactEvent? && !e.EmptyEvent? && ApplyAll(c, Expand(e)).1.None?
    ensures ApplyAll(c, Expand(e)).0.state == TerminalState(e)
  {
    match e {
      case MessageEvent(m) => MessageStateRecorded(c, m);
      case TaskEvent(t) => TaskStateRecorded(c, t);
      case StatusEvent(task, context, status) => StatusStateRecorded(c, task, context, status);
    }
  }

  /** After a terminal event the collected state is one a response may end in. */
  lemma TerminalFinishes(c: Collected, e: Event, duration: int, first: Option<int>)
    requires AddEvent(c, e).1.None? && IsTerminal(e)
    ensures Finish(AddEvent(c, e).0, duration, first, true).Ok?
  {
    var c1 := c.(events := c.events + 1);
    if ApplyAll(c1, Expand(e)).1.None? { StateRecorded(c1, e); }
    AcceptedState(c, e, c1, TerminalState(e));
  }

  /**
   An accepted message, task or status ends the wait exactly if the collector could finish after it; no
   task is in a state named like that of a message.
   */
  lemma TerminalExactly(c: Collected, e: Event, duration: int, first: Option<int>)
    requires AddEvent(c, e).1.None? && !e.ArtifactEvent? && (!e.MessageEvent? ==> TerminalState(e) != "message")
    ensures IsTerminal(e) <==> Finish(AddEvent(c, e).0, duration, first, true).Ok?
  {
    var c1 := c.(events := c.events + 1);
    if ApplyAll(c1, Expand(e)).1.None? { StateRecorded(c1, e); }
    AcceptedState(c, e, c1, TerminalState(e));
  }

  // ---------------------------------------------------------------------------------------------
  // The collector's own event limit
  // ---------------------------------------------------------------------------------------------

  lemma AddWithinEvents(c: Collected, e: Event, c1: Collected, ops: seq<Op>)
    requires c.events < MAX_EVENTS && c1 == c.(events := c.events + 1) && ops == Expand(e)
    ensures AddEvent(c, e).1 != Some(TooManyEvents) && AddEvent(c, e).0.events == c.events + 1
  {
    NoOpCountsEvents(c1, ops);
    EventsCounted(c1, ops);
    if IdentityError(c1, e).None? && !e.EmptyEvent? {
      var (c2, error) := ApplyAll(c1, ops);
      assert AddEvent(c, e) == if error.Some? then (c2, error) else (c2, SizeError(c2.messages + c2.artifacts));
    }
  }

  lemma FinishNeverCounts(c: Collected, duration: int, first: Option<int>)
    ensures Finish(c, duration, first, true) != Err(TooManyEvents)
  {
  }

  lemma ConsumeWithinEvents(s: Sub, c: Collected, d: Delivery)
    requires c.events < MAX_EVENTS
    ensures Consume(s, c, d) != Finished(Err(Refused(TooManyEvents)))
    ensures Consume(s, c, d).Continue? ==> Consume(s, c, d).collected.events == c.events + 1
  {
    AddWithinEvents(c, d.event, c.(events := c.events + 1), Expand(d.event));
    FinishNeverCounts(AddEvent(c, d.event).0, Milliseconds(s.createdAt, d.receivedAt), FirstEvent(s));
  }

  lemma {:induction false} FoldWithinEvents(s: Sub, c: Collected, ds: seq<Delivery>)
    requires c.events + |ds| <= MAX_EVENTS
    ensures Conclude(Fold(s, c, ds)) != Err(Refused(TooManyEvents))
    decreases |ds|
  {
    if ds != [] {
      ConsumeWithinEvents(s, c, ds[0]);
      if Consume(s, c, ds[0]).Continue? { FoldWithinEvents(s, Consume(s, c, ds[0]).collected, ds[1..]); }
    }
  }

  lemma {:induction false} NoOpCountsEvents(c: Collected, ops: seq<Op>)
    ensures ApplyAll(c, ops).1 != Some(TooManyEvents)
  {
    if ops != [] {
      NoOpCountsEvents(c, ops[..|ops| - 1]);
      var c1, last := ApplyAll(c, ops[..|ops| - 1]).0, ops[|ops| - 1];
      match last {
        case Speak(m) => FilesNeverCount(m.parts, None, None);
        case Publish(a, _) =>
          FilesNeverCount(a.parts, OrNone(a.id), ArtifactName(Lookup(c1.artifacts, ArtifactKey(c1.artifacts, a)), a));
        case _ =>
      }
    }
  }

  lemma {:induction false} FilesNeverCount(parts: seq<Part>, id: Option<string>, name: Option<string>)
    ensures FileError(parts, id, name) != Some(TooManyEvents)
  {
    if parts != [] { FilesNeverCount(parts[1..], id, name); }
  }

  // ---------------------------------------------------------------------------------------------
  // Main results
  // ---------------------------------------------------------------------------------------------

  lemma InTimeWithinEvents(s: Sub, c: Collected, arrivals: seq<Arrival>, ticks: seq<Tick>, ds: seq<Delivery>)
    requires Clean(arrivals + Flatten(ticks)) && ds == Distinct(arrivals + InTime(ticks)) && c.events == 0
    ensures Conclude(Fold(s, c, ds)) != Err(Refused(TooManyEvents))
  {
    InTimePrefix(ticks);
    var n := |arrivals + InTime(ticks)|;
    assert (arrivals + Flatten(ticks))[..n] == arrivals + InTime(ticks);
    CleanPrefixes(arrivals + Flatten(ticks), n);
    FoldWithinEvents(s, c, ds);
  }

  /** A terminal delivery that could be collected ends in an outcome. */
  lemma CollectedTerminal(s: Sub, c: Collected, ds: seq<Delivery>)
    requires FirstTerminal(ds) < |ds| && AddEvents(c, EventList(ThroughTerminal(ds))).1.None?
    ensures Collect(s, c, ds).Ok?
  {
    var es, m := EventList(ThroughTerminal(ds)), FirstTerminal(ds);
    assert es[|es| - 1] == ds[m].event;
    TerminalFinishes(AddEvents(c, es[..|es| - 1]).0, ds[m].event,
                     Milliseconds(s.createdAt, ds[m].receivedAt), FirstEvent(s));
  }

  /**
   Without a rejection, and with every delivery in time naming the bound task and context, a wait returns
   what the collector makes of the distinct deliveries up to the first terminal one; it never runs into
   the collector's event limit, and a terminal delivery that is collected gives an outcome.
   */
  lemma WaitReturnsCollected(s: Sub, arrivals: seq<Arrival>, ticks: seq<Tick>)
    requires Untouched(s) && Clean(arrivals + Flatten(ticks))
    requires IdentitiesMatch(s, Distinct(arrivals + InTime(ticks)))
    ensures var ds := Distinct(arrivals + InTime(ticks));
      var t, c := s.(firstReceivedAt := FirstTime(ds)), Fresh(ContextOf(s), None);
      var r := WaitRun(ReceiveAll(s, arrivals), c, false, ticks).1;
      && r == Collect(t, c, ds)
      && r != Err(Refused(TooManyEvents))
      && (FirstTerminal(ds) < |ds| && AddEvents(c, EventList(ThroughTerminal(ds))).1.None? ==> r.Ok?)
  {
    var ds := Distinct(arrivals + InTime(ticks));
    var t, c := s.(firstReceivedAt := FirstTime(ds)), Fresh(ContextOf(s), None);
    WaitIsFold(s, c, arrivals, ticks);
    FoldIsCollected(t, c, ds);
    InTimeWithinEvents(t, c, arrivals, ticks, ds);
    if FirstTerminal(ds) < |ds| && AddEvents(c, EventList(ThroughTerminal(ds))).1.None? {
      CollectedTerminal(t, c, ds);
    }
  }

  /** The milliseconds between two times, to the nearest whole number. */
  predicate Elapsed(ms: int, from: real, to: real) {
    Nearest(1000.0 * (to - from), ms)
  }

  lemma MillisecondsElapsed(from: real, to: real)
    ensures Elapsed(Milliseconds(from, to), from, to)
  {
  }

  lemma FinishedTimes(c: Collected, duration: int, first: Option<int>, outcome: TurnOutcome)
    requires Finish(c, duration, first, true) == Ok(outcome)
    ensures outcome.durationMs == duration && outcome.firstEventMs == first
  {
  }

  lemma CollectedIsFinished(s: Sub, c: Collected, ds: seq<Delivery>, n: nat, outcome: TurnOutcome)
    requires Collect(s, c, ds) == Ok(outcome) && n == FirstTerminal(ds)
    ensures n < |ds|
    ensures Finish(AddEvents(c, EventList(ThroughTerminal(ds))).0,
                   Milliseconds(s.createdAt, ds[n].receivedAt), FirstEvent(s), true) == Ok(outcome)
  {
  }

  lemma CollectedTimes(s: Sub, c: Collected, ds: seq<Delivery>, n: nat, outcome: TurnOutcome)
    requires Collect(s, c, ds) == Ok(outcome) && n == FirstTerminal(ds)
    ensures n < |ds| && outcome.durationMs == Milliseconds(s.createdAt, ds[n].receivedAt)
    ensures outcome.firstEventMs == FirstEvent(s)
  {
    CollectedIsFinished(s, c, ds, n, outcome);
    var c1 := AddEvents(c, EventList(ThroughTerminal(ds))).0;
    FinishedTimes(c1, Milliseconds(s.createdAt, ds[n].receivedAt), FirstEvent(s), outcome);
  }

  /** The outcome of a wait tells how long after registration its first and its terminal delivery were received. */
  lemma WaitTimes(s: Sub, arrivals: seq<Arrival>, ticks: seq<Tick>)
    requires Untouched(s) && Clean(arrivals + Flatten(ticks))
    requires IdentitiesMatch(s, Distinct(arrivals + InTime(ticks)))
    requires WaitRun(ReceiveAll(s, arrivals), Fresh(ContextOf(s), None), false, ticks).1.Ok?
    ensures var ds := Distinct(arrivals + InTime(ticks));
      var outcome := WaitRun(ReceiveAll(s, arrivals), Fresh(ContextOf(s), None), false, ticks).1.value;
      && FirstTerminal(ds) < |ds|
      && Elapsed(outcome.durationMs, s.createdAt, ds[FirstTerminal(ds)].receivedAt)
      && outcome.firstEventMs.Some? && Elapsed(outcome.firstEventMs.value, s.createdAt, ds[0].receivedAt)
  {
    var ds := Distinct(arrivals + InTime(ticks));
    WaitReturnsCollected(s, arrivals, ticks);
    var t, c := s.(firstReceivedAt := FirstTime(ds)), Fresh(ContextOf(s), None);
    CollectedTimes(t, c, ds, FirstTerminal(ds), Collect(t, c, ds).value);
    MillisecondsElapsed(s.createdAt, ds[FirstTerminal(ds)].receivedAt);
    MillisecondsElapsed(s.createdAt, ds[0].receivedAt);
  }

  lemma {:induction false} InTimePrefix(ticks: seq<Tick>)
    ensures InTime(ticks) <= Flatten(ticks)
  {
    if ticks != [] && !ticks[0].expired { InTimePrefix(ticks[1..]); }
  }

  // ---------------------------------------------------------------------------------------------
  // Rejections
  // ---------------------------------------------------------------------------------------------

  /** A wait that starts after a rejection fails with its reason, whatever has been delivered. */
  lemma RejectedBefore(s: Sub, c: Collected, ticks: seq<Tick>)
    requires s.rejection.Some?
    ensures WaitRun(s, c, false, ticks).1 == Err(Rejected(s.rejection.value))
  {
  }

  lemma ConsumeSame(s: Sub, t: Sub, c: Collected, d: Delivery)
    requires SameTerms(s, t)
    ensures Consume(s, c, d) == Consume(t, c, d)
  {
  }

  /** What a resumed waiter makes of the element that woke it, when a rejection is recorded. */
  lemma RejectedDrain(s: Sub, c: Collected, s1: Sub)
    requires s.rejection.Some? && s.queue != [] && s1 == s.(queue := s.queue[1..])
    ensures Drain(s, c, true).Done?
    ensures s.queue[0].None? ==> Drain(s, c, true).result == Err(WaitFault(s1))
    ensures s.queue[0].Some? ==>
      match Consume(s1, c, s.queue[0].value)
      case Finished(r) => Drain(s, c, true).result == r
      case Continue(_) => Drain(s, c, true).result == Err(WaitFault(s1))
  {
  }

  /**
   A rejection recorded while the waiter was suspended is noticed one delivery late: the wait still
   succeeds exactly when the first queued element is a delivery that ends it successfully.
   */
  lemma RejectedMeanwhile(s: Sub, c: Collected, ticks: seq<Tick>)
    requires s.rejection.Some? && s.queue != []
    ensures WaitRun(s, c, true, ticks).1.Ok? <==>
      s.queue[0].Some? && Consume(s, c, s.queue[0].value).Finished?
      && Consume(s, c, s.queue[0].value).result.Ok?
  {
    var s1 := s.(queue := s.queue[1..]);
    RejectedDrain(s, c, s1);
    Delivered(s, c, true, ticks);
    if s.queue[0].Some? { ConsumeSame(s, s1, c, s.queue[0].value); }
  }

  /** A delivery followed by a body that does not parse. */
  lemma DeliveryThenRefusal(s: Sub, e: Event, first: Arrival, second: Arrival)
    requires Untouched(s) && !e.EmptyEvent?
    requires first == Post(1, Some(e), s.createdAt) && second == Post(1, None, s.createdAt)
    ensures var s2 := ReceiveAll(s, [first, second]);
      && s2.rejection.Some? && s2.queue != [] && s2.queue[0] == Some(Delivery(e, s.createdAt))
      && s2.taskId == s.taskId && s2.contextId == s.contextId
  {
    var both := [first, second];
    assert both[..1] == [first] && [first][..0] == [] && both == [first] + [second];
    var s1 := Receive(s, first).0;
    assert ReceiveAll(s, [first]) == s1;
    assert s1.queue == [Some(Delivery(e, s.createdAt))];
    assert ReceiveAll(s, both) == Receive(s1, second).0;
  }

  /** A terminal delivery that is collected without an error ends the wait with an outcome. */
  lemma TerminalEndsWait(s: Sub, c: Collected, d: Delivery)
    requires IdentityFault(s, d.event).None? && IsTerminal(d.event) && AddEvent(c, d.event).1.None?
    ensures Consume(s, c, d).Finished? && Consume(s, c, d).result.Ok?
  {
    TerminalFinishes(c, d.event, Milliseconds(s.createdAt, d.receivedAt), FirstEvent(s));
  }

  lemma OneSuspension(s: Sub, c: Collected, tick: Tick)
    requires s.rejection.None? && s.queue == [] && !tick.expired
    ensures WaitRun(s, c, false, [tick]) == WaitRun(ReceiveAll(s, tick.arrivals), c, true, [])
  {
  }

  /**
   So an invalid body right behind a completed task fails the wait or not depending on whether both
   arrive before the waiter starts or while it is suspended.
   */
  lemma RejectionRace(s: Sub)
    requires Untouched(s) && s.taskId == Some("t") && s.contextId == Some("c")
    ensures var completed := StatusEvent("t", "c", Protocol.Status("completed", None));
      var both, c := [Post(1, Some(completed), s.createdAt), Post(1, None, s.createdAt)], Fresh("c", None);
      && WaitRun(ReceiveAll(s, both), c, false, []).1.Err?
      && WaitRun(s, c, false, [Tick(both, false)]).1.Ok?
  {
    var completed := StatusEvent("t", "c", Protocol.Status("completed", None));
    var first, second := Post(1, Some(completed), s.createdAt), Post(1, None, s.createdAt);
    var both, c, d := [first, second], Fresh("c", None), Delivery(completed, s.createdAt);
    var s2 := ReceiveAll(s, both);
    DeliveryThenRefusal(s, completed, first, second);
    RejectedBefore(s2, c, []);
    OneSuspension(s, c, Tick(both, false));
    CompletedIsCollected(c);
    TerminalEndsWait(s2, c, d);
    RejectedMeanwhile(s2, c, []);
  }

  lemma CompletedIsCollected(c: Collected)
    requires c == Fresh("c", None)
    ensures AddEvent(c, StatusEvent("t", "c", Protocol.Status("completed", None))).1.None?
  {
    var e := StatusEvent("t", "c", Protocol.Status("completed", None));
    var c1 := c.(events := 1);
    Collector.FirstEffects(c1, Expand(e));
    assert Expand(e)[..3] == Expand(e);
  }
}

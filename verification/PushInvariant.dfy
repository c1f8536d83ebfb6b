/**
 What every reachable subscription state keeps, over all interleavings of handlers and takes, and when a
 full queue can crash a handler.
 */
module PushInvariant {
  import opened Wrappers
  import opened Decimal
  import opened Protocol
  import opened Push

  /** A subscription with the deliveries it enqueued and those taken from it so far. */
  datatype History = History(sub: Sub, accepted: seq<Delivery>, consumed: seq<Delivery>)

  datatype Action = Arrive(arrival: Arrival) | TakeNext

  function Start(now: real): History {
    History(Sub(now, [], None, None, None, None, 0, {}), [], [])
  }

  /** The delivery a handler enqueues, if it does. */
  function Enqueued(s: Sub, a: Arrival): Option<Delivery> {
    var s1 := Receive(s, a).0;
    if |s1.queue| > |s.queue| then s1.queue[|s1.queue| - 1] else None
  }

  function Next(h: History, action: Action): History {
    match action
    case Arrive(a) =>
      var d := Enqueued(h.sub, a);
      History(Receive(h.sub, a).0, if d.Some? then h.accepted + [d.value] else h.accepted, h.consumed)
    case TakeNext =>
      if h.sub.queue == [] then h
      else
        var d := h.sub.queue[0];
        History(h.sub.(queue := h.sub.queue[1..]), h.accepted,
                if d.Some? then h.consumed + [d.value] else h.consumed)
  }

  function Run(h: History, actions: seq<Action>): History {
    if actions == [] then h else Next(Run(h, actions[..|actions| - 1]), actions[|actions| - 1])
  }

  // ---------------------------------------------------------------------------------------------
  // The invariant
  // ---------------------------------------------------------------------------------------------

  function Deliveries(queue: seq<Option<Delivery>>): seq<Delivery> {
    if queue == [] then []
    else
      var before, last := Deliveries(queue[..|queue| - 1]), queue[|queue| - 1];
      if last.Some? then before + [last.value] else before
  }

  function Sentinels(queue: seq<Option<Delivery>>): nat {
    if queue == [] then 0
    else Sentinels(queue[..|queue| - 1]) + if queue[|queue| - 1].None? then 1 else 0
  }

  function EventsOf(ds: seq<Delivery>): set<Event> {
    set i | 0 <= i < |ds| :: ds[i].event
  }

  predicate DistinctEvents(ds: seq<Delivery>) {
    forall i, j :: 0 <= i < j < |ds| ==> ds[i].event != ds[j].event
  }

  predicate Valid(h: History) {
    var s := h.sub;
    && s.receivedBytes <= MAX_PUSH_TOTAL_BYTES
    && |s.fingerprints| <= MAX_PUSH_EVENTS
    && h.accepted == h.consumed + Deliveries(s.queue)
    && DistinctEvents(h.accepted) && EventsOf(h.accepted) <= s.fingerprints
    && |h.accepted| <= |s.fingerprints|
    && Sentinels(s.queue) <= 1
    && |s.queue| <= MAX_PUSH_EVENTS
    && (s.rejection.None? ==> Sentinels(s.queue) == 0 && EventsOf(h.accepted) == s.fingerprints)
    && (s.rejection.None? ==> |h.accepted| == |s.fingerprints|)
  }

  lemma QueueLength(queue: seq<Option<Delivery>>)
    ensures |queue| == |Deliveries(queue)| + Sentinels(queue)
  {
    if queue != [] { QueueLength(queue[..|queue| - 1]); }
  }

  lemma {:induction false} QueueHead(queue: seq<Option<Delivery>>)
    requires queue != []
    ensures queue[0].Some? ==>
      Deliveries(queue) == [queue[0].value] + Deliveries(queue[1..]) && Sentinels(queue) == Sentinels(queue[1..])
    ensures queue[0].None? ==>
      Deliveries(queue) == Deliveries(queue[1..]) && Sentinels(queue) == 1 + Sentinels(queue[1..])
  {
    if |queue| == 1 {
      assert queue[..0] == [];
    } else {
      QueueHead(queue[..|queue| - 1]);
      assert queue[1..][..|queue| - 2] == queue[..|queue| - 1][1..];
    }
  }

  lemma QueueTail(queue: seq<Option<Delivery>>, x: Option<Delivery>)
    ensures Deliveries(queue + [x]) == if x.Some? then Deliveries(queue) + [x.value] else Deliveries(queue)
    ensures Sentinels(queue + [x]) == Sentinels(queue) + if x.None? then 1 else 0
  {
    assert (queue + [x])[..|queue|] == queue;
  }

  lemma EventsAppended(ds: seq<Delivery>, d: Delivery)
    ensures EventsOf(ds + [d]) == EventsOf(ds) + {d.event}
    ensures DistinctEvents(ds) && d.event !in EventsOf(ds) ==> DistinctEvents(ds + [d])
  {
    var r := ds + [d];
    assert r[|ds|] == d && forall i :: 0 <= i < |ds| ==> r[i] == ds[i];
    forall e | e in EventsOf(ds) + {d.event} ensures e in EventsOf(r) {
      if e in EventsOf(ds) {
        var i :| 0 <= i < |ds| && ds[i].event == e;
        assert r[i].event == e;
      } else {
        assert r[|ds|].event == e;
      }
    }
  }

  lemma RejectKeepsValid(h: History, reason: string)
    requires Valid(h)
    ensures Valid(h.(sub := Reject(h.sub, reason)))
  {
    QueueTail(h.sub.queue, None);
  }

  lemma EnqueueKeepsValid(h: History, length: nat, e: Event, now: real, first: Option<real>)
    requires Valid(h) && h.sub.receivedBytes + length <= MAX_PUSH_TOTAL_BYTES
    requires e !in h.sub.fingerprints && |h.sub.fingerprints| < MAX_PUSH_EVENTS && |h.sub.queue| < MAX_PUSH_EVENTS
    ensures var d := Delivery(e, now);
      Valid(History(
        h.sub.(receivedBytes := h.sub.receivedBytes + length, firstReceivedAt := first,
               fingerprints := h.sub.fingerprints + {e}, queue := h.sub.queue + [Some(d)]),
        h.accepted + [d], h.consumed))
  {
    var d := Delivery(e, now);
    QueueTail(h.sub.queue, Some(d));
    EventsAppended(h.accepted, d);
    assert h.accepted + [d] == h.consumed + (Deliveries(h.sub.queue) + [d]);
  }

  /** The four ways an accepted body ends. */
  lemma PostEffect(h: History, length: nat, e: Event, now: real)
    requires !e.EmptyEvent? && h.sub.receivedBytes + length <= MAX_PUSH_TOTAL_BYTES
    ensures var s := h.sub;
      var s1 := s.(receivedBytes := s.receivedBytes + length);
      var first := if s.firstReceivedAt.None? then Some(now) else s.firstReceivedAt;
      var s2 := s1.(firstReceivedAt := first, fingerprints := s.fingerprints + {e});
      Next(h, Arrive(Post(length, Some(e), now))) ==
        if e in s.fingerprints then h.(sub := s1)
        else if |s.fingerprints| >= MAX_PUSH_EVENTS then h.(sub := Reject(s1, "event limit exceeded"))
        else if |s.queue| >= MAX_PUSH_EVENTS then h.(sub := s2)
        else History(s2.(queue := s.queue + [Some(Delivery(e, now))]), h.accepted + [Delivery(e, now)], h.consumed)
  {
  }

  lemma DroppedKeepsValid(h: History, length: nat, e: Event, first: Option<real>)
    requires Valid(h) && h.sub.receivedBytes + length <= MAX_PUSH_TOTAL_BYTES
    requires e !in h.sub.fingerprints && |h.sub.fingerprints| < MAX_PUSH_EVENTS && |h.sub.queue| >= MAX_PUSH_EVENTS
    ensures Valid(h.(sub := h.sub.(receivedBytes := h.sub.receivedBytes + length, firstReceivedAt := first,
                                   fingerprints := h.sub.fingerprints + {e})))
  {
    QueueLength(h.sub.queue);
  }

  lemma PostKeepsValid(h: History, length: nat, e: Event, now: real)
    requires Valid(h) && !e.EmptyEvent? && h.sub.receivedBytes + length <= MAX_PUSH_TOTAL_BYTES
    ensures Valid(Next(h, Arrive(Post(length, Some(e), now))))
  {
    var s := h.sub;
    var first := if s.firstReceivedAt.None? then Some(now) else s.firstReceivedAt;
    PostEffect(h, length, e, now);
    if e in s.fingerprints {
    } else if |s.fingerprints| >= MAX_PUSH_EVENTS {
      RejectKeepsValid(h.(sub := s.(receivedBytes := s.receivedBytes + length)), "event limit exceeded");
    } else if |s.queue| < MAX_PUSH_EVENTS {
      EnqueueKeepsValid(h, length, e, now, first);
    } else {
      DroppedKeepsValid(h, length, e, first);
    }
  }

  lemma ArriveKeepsValid(h: History, a: Arrival)
    requires Valid(h)
    ensures Valid(Next(h, Arrive(a)))
  {
    match a {
      case Refusal(reason, _) => RejectKeepsValid(h, reason);
      case Post(length, parsed, now) =>
        RejectKeepsValid(h, "invalid StreamResponse");
        RejectKeepsValid(h, "total body size exceeded the limit");
        if WellFormed(parsed) && h.sub.receivedBytes + length <= MAX_PUSH_TOTAL_BYTES {
          PostKeepsValid(h, length, parsed.value, now);
        }
    }
  }

  lemma TakeKeepsValid(h: History)
    requires Valid(h)
    ensures Valid(Next(h, TakeNext))
  {
    var q := h.sub.queue;
    if q != [] {
      QueueHead(q);
      if q[0].Some? {
        assert h.consumed + ([q[0].value] + Deliveries(q[1..])) == (h.consumed + [q[0].value]) + Deliveries(q[1..]);
      }
    }
  }

  /** The invariant holds after any interleaving of handlers and takes. */
  lemma {:induction false} ReachableValid(now: real, actions: seq<Action>)
    ensures Valid(Run(Start(now), actions))
  {
    if actions != [] {
      var h, last := Run(Start(now), actions[..|actions| - 1]), actions[|actions| - 1];
      ReachableValid(now, actions[..|actions| - 1]);
      if last.Arrive? { ArriveKeepsValid(h, last.arrival); } else { TakeKeepsValid(h); }
    }
  }

  /** The queue never holds more than one element per fingerprint and one sentinel. */
  lemma OccupancyBound(now: real, actions: seq<Action>)
    ensures var s := Run(Start(now), actions).sub;
      |s.queue| <= |s.fingerprints| + (if s.rejection.Some? then 1 else 0)
  {
    ReachableValid(now, actions);
    QueueLength(Run(Start(now), actions).sub.queue);
  }

  /** The first rejection reason is final. */
  lemma {:induction false} RejectionIsFinal(h: History, actions: seq<Action>)
    requires h.sub.rejection.Some?
    ensures Run(h, actions).sub.rejection == h.sub.rejection
  {
    if actions != [] { RejectionIsFinal(h, actions[..|actions| - 1]); }
  }

  // ---------------------------------------------------------------------------------------------
  // A full queue
  // ---------------------------------------------------------------------------------------------

  /** A post that is new, well-formed and within all limits. */
  predicate Admissible(s: Sub, a: Arrival) {
    && a.Post? && WellFormed(a.parsed)
    && s.receivedBytes + a.length <= MAX_PUSH_TOTAL_BYTES
    && a.parsed.value !in s.fingerprints && |s.fingerprints| < MAX_PUSH_EVENTS
  }

  /**
   A handler crashes on a full queue in exactly one situation: a rejection was announced and not taken,
   nothing was consumed, and all but the last of the allowed events have been accepted.
   */
  lemma CrashExactly(now: real, actions: seq<Action>, a: Arrival)
    ensures var h := Run(Start(now), actions);
      Receive(h.sub, a).1.QueueFull? <==>
        && Admissible(h.sub, a) && h.consumed == [] && Sentinels(h.sub.queue) == 1
        && |h.accepted| == MAX_PUSH_EVENTS - 1
  {
    var h := Run(Start(now), actions);
    ReachableValid(now, actions);
    QueueLength(h.sub.queue);
  }

  /** While nothing has been rejected there is always room. */
  lemma RoomUntilRejected(now: real, actions: seq<Action>, a: Arrival)
    requires Run(Start(now), actions).sub.rejection.None?
    ensures !Receive(Run(Start(now), actions).sub, a).1.QueueFull?
  {
    CrashExactly(now, actions, a);
    ReachableValid(now, actions);
  }

  /** The k-th of a series of distinct events. */
  function Nth(k: nat): Event { StatusEvent(Numeral(k), "", Protocol.Status("working", None)) }

  function Earlier(n: nat): set<Event> {
    if n == 0 then {} else Earlier(n - 1) + {Nth(n - 1)}
  }

  lemma {:induction false} NthIsNew(n: nat, m: nat)
    requires m <= n
    ensures Nth(n) !in Earlier(m)
  {
    if m > 0 {
      NthIsNew(n, m - 1);
      ValueOfNumeral(n);
      ValueOfNumeral(m - 1);
    }
  }

  /** One refused request and then n distinct events. */
  function Flood(n: nat): seq<Action> {
    if n == 0 then [Arrive(Refusal("unsupported content type", 415))]
    else Flood(n - 1) + [Arrive(Post(1, Some(Nth(n - 1)), 0.0))]
  }

  predicate Flooded(h: History, n: nat) {
    && h.sub.rejection.Some? && h.consumed == [] && |h.accepted| == n && |h.sub.queue| == n + 1
    && Sentinels(h.sub.queue) == 1 && h.sub.receivedBytes == n
    && h.sub.fingerprints == Earlier(n) && |Earlier(n)| == n
  }

  lemma FloodStep(h: History, n: nat)
    requires Flooded(h, n) && n < MAX_PUSH_EVENTS - 1
    ensures Flooded(Next(h, Arrive(Post(1, Some(Nth(n)), 0.0))), n + 1)
  {
    NthIsNew(n, n);
    QueueTail(h.sub.queue, Some(Delivery(Nth(n), 0.0)));
  }

  lemma {:induction false} FloodFills(n: nat)
    requires n < MAX_PUSH_EVENTS
    ensures Flooded(Run(Start(0.0), Flood(n)), n)
  {
    if n == 0 {
      assert Flood(0)[..0] == [];
      QueueTail([], None);
      assert [] + [None] == Run(Start(0.0), Flood(0)).sub.queue;
    } else {
      FloodFills(n - 1);
      assert Flood(n)[..|Flood(n)| - 1] == Flood(n - 1);
      FloodStep(Run(Start(0.0), Flood(n - 1)), n - 1);
    }
  }

  /** It can happen: one refused request, and then a thousand distinct events that nobody takes. */
  lemma CrashAfterRejection(last: nat)
    requires last == MAX_PUSH_EVENTS - 1
    ensures Receive(Run(Start(0.0), Flood(last)).sub, Post(1, Some(Nth(last)), 0.0)).1.QueueFull?
  {
    FloodFills(last);
    NthIsNew(last, last);
    CrashExactly(0.0, Flood(last), Post(1, Some(Nth(last)), 0.0));
  }

  // ---------------------------------------------------------------------------------------------
  // Replies
  // ---------------------------------------------------------------------------------------------

  /** The first limit a body runs into, in the order of the checks; a delivery seen before counts as bytes only. */
  predicate TooManyBytes(s: Sub, length: nat) { s.receivedBytes + length > 20_000_000 }

  predicate TooManyEvents(s: Sub, e: Event) { e !in s.fingerprints && |s.fingerprints| >= 1_000 }

  /** Which status a body is answered with, unless the handler crashes on a full queue. */
  lemma AnsweredExactly(s: Sub, length: nat, parsed: Option<Event>, now: real)
    ensures var reply := Receive(s, Post(length, parsed, now)).1;
      var whole := parsed.Some? && !parsed.value.EmptyEvent?;
      && (reply == Answered(400) <==> !whole)
      && (reply == Answered(413) <==> whole && TooManyBytes(s, length))
      && (reply == Answered(429) <==> whole && !TooManyBytes(s, length) && TooManyEvents(s, parsed.value))
      && (reply.Answered? ==> reply.code in {204, 400, 413, 429})
  {
  }

  /** A body that is answered with another status than 204 is a rejection, and any other is not. */
  lemma RejectedExactly(s: Sub, length: nat, parsed: Option<Event>, now: real)
    requires s.rejection.None?
    ensures var (t, reply) := Receive(s, Post(length, parsed, now));
      t.rejection.Some? <==> reply.Answered? && reply.code != 204
  {
  }
}

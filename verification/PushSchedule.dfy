/**
 The outcome of waiting for push notifications does not depend on timing: without a rejection it is the
 collector's fold over the distinct deliveries, however handlers and waiter interleave, and retries of
 deliveries already accepted change nothing.
 */
module PushSchedule {
  import opened Sequences
  import opened Wrappers
  import opened Protocol
  import opened Push
  import opened PushInvariant

  // ---------------------------------------------------------------------------------------------
  // Arrivals without a rejection
  // ---------------------------------------------------------------------------------------------

  /** The first delivery of every event, in order of arrival. */
  function Distinct(arrivals: seq<Arrival>): seq<Delivery> {
    if arrivals == [] then []
    else
      var before, last := Distinct(arrivals[..|arrivals| - 1]), arrivals[|arrivals| - 1];
      if last.Post? && WellFormed(last.parsed) && last.parsed.value !in EventsOf(before)
      then before + [Delivery(last.parsed.value, last.now)] else before
  }

  /** Bytes of all bodies, retries included. */
  function Bytes(arrivals: seq<Arrival>): nat {
    if arrivals == [] then 0
    else
      var last := arrivals[|arrivals| - 1];
      Bytes(arrivals[..|arrivals| - 1]) + if last.Post? then last.length else 0
  }

  predicate AllParse(arrivals: seq<Arrival>) {
    forall i :: 0 <= i < |arrivals| ==> arrivals[i].Post? && WellFormed(arrivals[i].parsed)
  }

  /** Arrivals that give no reason for a rejection. */
  predicate Clean(arrivals: seq<Arrival>) {
    AllParse(arrivals) && Bytes(arrivals) <= MAX_PUSH_TOTAL_BYTES && |Distinct(arrivals)| <= MAX_PUSH_EVENTS
  }

  lemma CleanPrefix(arrivals: seq<Arrival>)
    requires arrivals != [] && Clean(arrivals)
    ensures Clean(arrivals[..|arrivals| - 1])
  {
  }

  lemma {:induction false} CleanPrefixes(arrivals: seq<Arrival>, n: nat)
    requires n <= |arrivals| && Clean(arrivals)
    ensures Clean(arrivals[..n])
  {
    if n < |arrivals| {
      CleanPrefix(arrivals);
      CleanPrefixes(arrivals[..|arrivals| - 1], n);
      assert arrivals[..|arrivals| - 1][..n] == arrivals[..n];
    } else {
      assert arrivals[..n] == arrivals;
    }
  }

  lemma {:induction false} DistinctConcat(xs: seq<Arrival>, ys: seq<Arrival>)
    ensures Distinct(xs) <= Distinct(xs + ys)
    decreases |ys|
  {
    if ys == [] {
      assert xs + ys == xs;
    } else {
      DistinctConcat(xs, ys[..|ys| - 1]);
      assert (xs + ys)[..|xs + ys| - 1] == xs + ys[..|ys| - 1];
    }
  }

  lemma {:induction false} DistinctEventsDiffer(arrivals: seq<Arrival>)
    ensures |EventsOf(Distinct(arrivals))| == |Distinct(arrivals)|
  {
    if arrivals != [] {
      var before, last := Distinct(arrivals[..|arrivals| - 1]), arrivals[|arrivals| - 1];
      DistinctEventsDiffer(arrivals[..|arrivals| - 1]);
      if Distinct(arrivals) != before { EventsAppended(before, Delivery(last.parsed.value, last.now)); }
    } else {
      assert EventsOf([]) == {};
    }
  }

  // ---------------------------------------------------------------------------------------------
  // Subscription states on clean arrivals
  // ---------------------------------------------------------------------------------------------

  /** A subscription nothing has arrived for. */
  predicate Untouched(s: Sub) {
    s.queue == [] && s.rejection.None? && s.receivedBytes == 0 && s.fingerprints == {} && s.firstReceivedAt.None?
  }

  function Wrap(ds: seq<Delivery>): seq<Option<Delivery>> {
    seq(|ds|, i requires 0 <= i < |ds| => Some(ds[i]))
  }

  function FirstTime(ds: seq<Delivery>): Option<real> {
    if ds == [] then None else Some(ds[0].receivedAt)
  }

  /** The state after some arrivals, of whose distinct deliveries k have been taken. */
  function After(s: Sub, arrivals: seq<Arrival>, k: nat): Sub
    requires k <= |Distinct(arrivals)|
  {
    var ds := Distinct(arrivals);
    s.(queue := Wrap(ds[k..]), receivedBytes := Bytes(arrivals), fingerprints := EventsOf(ds),
       firstReceivedAt := FirstTime(ds))
  }

  lemma ReceiveClean(s: Sub, arrivals: seq<Arrival>, k: nat, a: Arrival)
    requires Untouched(s) && k <= |Distinct(arrivals)| && Clean(arrivals + [a])
    ensures k <= |Distinct(arrivals + [a])|
    ensures Receive(After(s, arrivals, k), a).0 == After(s, arrivals + [a], k)
  {
    var all, ds := arrivals + [a], Distinct(arrivals);
    assert all[..|arrivals|] == arrivals && all[|arrivals|] == a;
    DistinctEventsDiffer(arrivals);
    CleanPrefix(all);
    if a.parsed.value !in EventsOf(ds) {
      var d := Delivery(a.parsed.value, a.now);
      EventsAppended(ds, d);
      assert (ds + [d])[k..] == ds[k..] + [d];
      assert Wrap((ds + [d])[k..]) == Wrap(ds[k..]) + [Some(d)];
    }
  }

  lemma {:induction false} ReceiveAllClean(s: Sub, arrivals: seq<Arrival>, k: nat, more: seq<Arrival>)
    requires Untouched(s) && k <= |Distinct(arrivals)| && Clean(arrivals + more)
    ensures k <= |Distinct(arrivals + more)|
    ensures ReceiveAll(After(s, arrivals, k), more) == After(s, arrivals + more, k)
    decreases |more|
  {
    DistinctConcat(arrivals, more);
    if more == [] {
      assert arrivals + more == arrivals;
    } else {
      var init, last := more[..|more| - 1], more[|more| - 1];
      assert arrivals + more == (arrivals + init) + [last];
      CleanPrefix(arrivals + more);
      ReceiveAllClean(s, arrivals, k, init);
      ReceiveClean(s, arrivals + init, k, last);
    }
  }

  lemma NothingArrived(s: Sub)
    requires Untouched(s)
    ensures Distinct([]) == [] && After(s, [], 0) == s
  {
    assert EventsOf([]) == {} && Wrap([]) == [];
  }

  lemma RejectionStays(s: Sub, a: Arrival)
    requires s.rejection.Some?
    ensures Receive(s, a).0.rejection.Some?
  {
  }

  lemma OneMoreClean(s: Sub, arrivals: seq<Arrival>, k: nat, a: Arrival)
    requires Untouched(s) && Clean(arrivals) && k <= |Distinct(arrivals)|
    requires Receive(After(s, arrivals, k), a).0.rejection.None?
    ensures Clean(arrivals + [a])
  {
    var all, ds := arrivals + [a], Distinct(arrivals);
    assert all[..|arrivals|] == arrivals && all[|arrivals|] == a;
    DistinctEventsDiffer(arrivals);
  }

  /** A subscription is free of rejections exactly when its arrivals were clean. */
  lemma {:induction false} CleanExactly(s: Sub, arrivals: seq<Arrival>)
    requires Untouched(s)
    ensures ReceiveAll(s, arrivals).rejection.None? <==> Clean(arrivals)
  {
    if arrivals == [] {
      NothingArrived(s);
    } else {
      var init, last := arrivals[..|arrivals| - 1], arrivals[|arrivals| - 1];
      assert arrivals == init + [last] && [] + init == init;
      CleanExactly(s, init);
      NothingArrived(s);
      if Clean(init) {
        ReceiveAllClean(s, [], 0, init);
        if Clean(arrivals) {
          ReceiveClean(s, init, 0, last);
        } else if Receive(After(s, init, 0), last).0.rejection.None? {
          OneMoreClean(s, init, 0, last);
        }
      } else {
        RejectionStays(ReceiveAll(s, init), last);
        if Clean(arrivals) { CleanPrefix(arrivals); }
      }
    }
  }

  // ---------------------------------------------------------------------------------------------
  // Folding deliveries
  // ---------------------------------------------------------------------------------------------

  /** Deliveries consumed one after the other until one of them ends the wait. */
  function Fold(s: Sub, c: Collected, ds: seq<Delivery>): Step
    decreases |ds|
  {
    if ds == [] then Continue(c)
    else
      match Consume(s, c, ds[0])
      case Finished(r) => Finished(r)
      case Continue(c1) => Fold(s, c1, ds[1..])
  }

  /** A wait that consumed everything without an end runs into its deadline. */
  function Conclude(step: Step): Result<TurnOutcome, WaitError> {
    match step
    case Finished(r) => r
    case Continue(_) => Err(TimedOut)
  }

  predicate SameTerms(s: Sub, t: Sub) {
    s.taskId == t.taskId && s.contextId == t.contextId && s.createdAt == t.createdAt
    && s.firstReceivedAt == t.firstReceivedAt
  }

  lemma {:induction false} FoldSame(s: Sub, t: Sub, c: Collected, ds: seq<Delivery>)
    requires SameTerms(s, t)
    ensures Fold(s, c, ds) == Fold(t, c, ds)
    decreases |ds|
  {
    if ds != [] {
      assert Consume(s, c, ds[0]) == Consume(t, c, ds[0]);
      if Consume(s, c, ds[0]).Continue? { FoldSame(s, t, Consume(s, c, ds[0]).collected, ds[1..]); }
    }
  }

  lemma {:induction false} FoldConcat(s: Sub, c: Collected, xs: seq<Delivery>, ys: seq<Delivery>)
    ensures Fold(s, c, xs + ys) ==
      (match Fold(s, c, xs) case Finished(r) => Finished(r) case Continue(c1) => Fold(s, c1, ys))
    decreases |xs|
  {
    if xs == [] {
      assert xs + ys == ys;
    } else {
      assert (xs + ys)[0] == xs[0] && (xs + ys)[1..] == xs[1..] + ys;
      if Consume(s, c, xs[0]).Continue? { FoldConcat(s, Consume(s, c, xs[0]).collected, xs[1..], ys); }
    }
  }

  /** One delivery of a drain without a rejection. */
  lemma DrainTakes(s: Sub, c: Collected, resumed: bool, s1: Sub, d: Delivery)
    requires s.rejection.None? && s.queue != [] && s.queue[0] == Some(d) && s1 == s.(queue := s.queue[1..])
    ensures Consume(s1, c, d) == Consume(s, c, d)
    ensures Consume(s, c, d).Finished? ==> Drain(s, c, resumed) == Done(s1, Consume(s, c, d).result)
    ensures Consume(s, c, d).Continue? ==> Drain(s, c, resumed) == Drain(s1, Consume(s, c, d).collected, false)
  {
  }

  /** Without a rejection, draining the queue is folding over what it holds. */
  lemma {:induction false} DrainIsFold(s: Sub, c: Collected, resumed: bool, ds: seq<Delivery>)
    requires s.rejection.None? && s.queue == Wrap(ds)
    ensures match Fold(s, c, ds)
      case Finished(r) => Drain(s, c, resumed).Done? && Drain(s, c, resumed).result == r
      case Continue(c1) => Drain(s, c, resumed) == Suspended(s.(queue := []), c1)
    decreases |ds|
  {
    if ds != [] {
      var s1 := s.(queue := s.queue[1..]);
      assert s1.queue == Wrap(ds[1..]);
      DrainTakes(s, c, resumed, s1, ds[0]);
      if Consume(s, c, ds[0]).Continue? {
        var c1 := Consume(s, c, ds[0]).collected;
        DrainIsFold(s1, c1, false, ds[1..]);
        FoldSame(s, s1, c1, ds[1..]);
      }
    }
  }

  // ---------------------------------------------------------------------------------------------
  // Schedules
  // ---------------------------------------------------------------------------------------------

  function Flatten(ticks: seq<Tick>): seq<Arrival> {
    if ticks == [] then [] else ticks[0].arrivals + Flatten(ticks[1..])
  }

  /** What arrives before the suspension in which the deadline passes. */
  function InTime(ticks: seq<Tick>): seq<Arrival> {
    if ticks == [] || ticks[0].expired then [] else ticks[0].arrivals + InTime(ticks[1..])
  }

  /** What the waiter should return for a list of distinct deliveries. */
  function Expected(s: Sub, c: Collected, ds: seq<Delivery>): Result<TurnOutcome, WaitError> {
    Conclude(Fold(s.(firstReceivedAt := FirstTime(ds)), c, ds))
  }

  /** The fold when k of the distinct deliveries have been consumed already. */
  function FoldRest(s: Sub, c: Collected, whole: seq<Delivery>, k: nat): Step
    requires k <= |whole|
  {
    Fold(s.(firstReceivedAt := FirstTime(whole)), c, whole[k..])
  }

  function Rest(s: Sub, c: Collected, whole: seq<Delivery>, k: nat): Result<TurnOutcome, WaitError>
    requires k <= |whole|
  {
    Conclude(FoldRest(s, c, whole, k))
  }

  /** Folding over what has arrived ends the wait, or leaves the rest to be folded. */
  lemma RestAfterQueue(s: Sub, arrivals: seq<Arrival>, k: nat, c: Collected, all: seq<Arrival>)
    requires k <= |Distinct(arrivals)| && arrivals <= all
    ensures var n, whole := |Distinct(arrivals)|, Distinct(all);
      n <= |whole| &&
      (match Fold(After(s, arrivals, k), c, Distinct(arrivals)[k..])
       case Finished(r) => FoldRest(s, c, whole, k) == Finished(r)
       case Continue(c1) => FoldRest(s, c, whole, k) == FoldRest(s, c1, whole, n))
  {
    var n, ds, whole := |Distinct(arrivals)|, Distinct(arrivals)[k..], Distinct(all);
    assert all == arrivals + all[|arrivals|..];
    DistinctConcat(arrivals, all[|arrivals|..]);
    assert whole[k..] == ds + whole[n..];
    var t := s.(firstReceivedAt := FirstTime(whole));
    FoldConcat(t, c, ds, whole[n..]);
    if ds != [] { FoldSame(After(s, arrivals, k), t, c, ds); }
  }

  lemma NothingLeft(s: Sub, c: Collected, whole: seq<Delivery>)
    ensures Rest(s, c, whole, |whole|) == Err(TimedOut)
  {
  }

  lemma CleanStep(arrivals: seq<Arrival>, ticks: seq<Tick>, next: seq<Arrival>)
    requires ticks != [] && Clean(arrivals + Flatten(ticks)) && next == arrivals + ticks[0].arrivals
    ensures Clean(next) && Clean(next + Flatten(ticks[1..]))
  {
    var rest := Flatten(ticks[1..]);
    Associative(arrivals, ticks[0].arrivals, rest);
    CleanPrefixes(next + rest, |next|);
    assert (next + rest)[..|next|] == next;
  }

  /** One suspension of the waiter in a clean run. */
  lemma Suspension(s: Sub, arrivals: seq<Arrival>, c: Collected, c1: Collected, k: nat, resumed: bool, ticks: seq<Tick>)
    requires Untouched(s) && k <= |Distinct(arrivals)| && Clean(arrivals + Flatten(ticks))
    requires var n := |Distinct(arrivals)|;
      Drain(After(s, arrivals, k), c, resumed) == Suspended(After(s, arrivals, n), c1)
    ensures ticks == [] || ticks[0].expired ==>
      WaitRun(After(s, arrivals, k), c, resumed, ticks).1 == Err(TimedOut)
    ensures ticks != [] && !ticks[0].expired ==>
      var n := |Distinct(arrivals)|;
      n <= |Distinct(arrivals + ticks[0].arrivals)| &&
      WaitRun(After(s, arrivals, k), c, resumed, ticks)
        == WaitRun(After(s, arrivals + ticks[0].arrivals, n), c1, true, ticks[1..])
  {
    if ticks != [] {
      CleanStep(arrivals, ticks, arrivals + ticks[0].arrivals);
      ReceiveAllClean(s, arrivals, |Distinct(arrivals)|, ticks[0].arrivals);
    }
  }

  lemma Delivered(s: Sub, c: Collected, resumed: bool, ticks: seq<Tick>)
    requires Drain(s, c, resumed).Done?
    ensures WaitRun(s, c, resumed, ticks).1 == Drain(s, c, resumed).result
  {
  }

  lemma WaitEnds(s: Sub, arrivals: seq<Arrival>, k: nat, c: Collected, resumed: bool, ticks: seq<Tick>)
    requires Untouched(s) && k <= |Distinct(arrivals)| && Clean(arrivals + Flatten(ticks))
    ensures match Fold(After(s, arrivals, k), c, Distinct(arrivals)[k..])
      case Finished(r) => WaitRun(After(s, arrivals, k), c, resumed, ticks).1 == r
      case Continue(c1) =>
        if ticks == [] || ticks[0].expired
        then WaitRun(After(s, arrivals, k), c, resumed, ticks).1 == Err(TimedOut)
        else
          var n := |Distinct(arrivals)|;
          n <= |Distinct(arrivals + ticks[0].arrivals)| &&
          WaitRun(After(s, arrivals, k), c, resumed, ticks)
            == WaitRun(After(s, arrivals + ticks[0].arrivals, n), c1, true, ticks[1..])
  {
    var here, n := After(s, arrivals, k), |Distinct(arrivals)|;
    DrainIsFold(here, c, resumed, Distinct(arrivals)[k..]);
    var step := Fold(here, c, Distinct(arrivals)[k..]);
    if step.Finished? {
      Delivered(here, c, resumed, ticks);
    } else {
      assert here.(queue := []) == After(s, arrivals, n);
      Suspension(s, arrivals, c, step.collected, k, resumed, ticks);
    }
  }

  lemma NextTick(arrivals: seq<Arrival>, ticks: seq<Tick>, all: seq<Arrival>, flat: seq<Arrival>)
    requires all == arrivals + InTime(ticks) && flat == arrivals + Flatten(ticks)
    ensures arrivals <= all
    ensures ticks == [] || ticks[0].expired ==> all == arrivals
    ensures ticks != [] && !ticks[0].expired ==>
      var next := arrivals + ticks[0].arrivals;
      all == next + InTime(ticks[1..]) && flat == next + Flatten(ticks[1..])
  {
  }

  /** The waiter, entered at any point of a clean run, returns the fold over what is still to come. */
  lemma {:induction false} WaitFromHere(
    s: Sub, arrivals: seq<Arrival>, k: nat, c: Collected, resumed: bool, ticks: seq<Tick>,
    all: seq<Arrival>, flat: seq<Arrival>)
    requires all == arrivals + InTime(ticks) && flat == arrivals + Flatten(ticks)
    requires Untouched(s) && k <= |Distinct(arrivals)| && Clean(flat)
    ensures k <= |Distinct(all)|
    ensures WaitRun(After(s, arrivals, k), c, resumed, ticks).1 == Rest(s, c, Distinct(all), k)
    decreases |ticks|
  {
    var n, whole := |Distinct(arrivals)|, Distinct(all);
    NextTick(arrivals, ticks, all, flat);
    WaitEnds(s, arrivals, k, c, resumed, ticks);
    RestAfterQueue(s, arrivals, k, c, all);
    var step := Fold(After(s, arrivals, k), c, Distinct(arrivals)[k..]);
    if step.Continue? {
      if ticks == [] || ticks[0].expired {
        NothingLeft(s, step.collected, whole);
      } else {
        WaitFromHere(s, arrivals + ticks[0].arrivals, n, step.collected, true, ticks[1..], all, flat);
      }
    }
  }

  /**
   For every schedule of clean arrivals, the wait returns the fold over the distinct deliveries that came
   in time, in the order of their first arrival.
   */
  lemma WaitIsFold(s: Sub, c: Collected, arrivals: seq<Arrival>, ticks: seq<Tick>)
    requires Untouched(s) && Clean(arrivals + Flatten(ticks))
    ensures WaitRun(ReceiveAll(s, arrivals), c, false, ticks).1
         == Expected(s, c, Distinct(arrivals + InTime(ticks)))
  {
    NothingArrived(s);
    CleanPrefixes(arrivals + Flatten(ticks), |arrivals|);
    assert (arrivals + Flatten(ticks))[..|arrivals|] == arrivals;
    assert [] + arrivals == arrivals;
    ReceiveAllClean(s, [], 0, arrivals);
    WaitFromHere(s, arrivals, 0, c, false, ticks, arrivals + InTime(ticks), arrivals + Flatten(ticks));
    var whole := Distinct(arrivals + InTime(ticks));
    assert whole[0..] == whole;
  }

  lemma BindCommutesOnce(s: Sub, a: Arrival, task: string, context: string)
    ensures Receive(s.(taskId := Some(task), contextId := Some(context)), a).0
         == Receive(s, a).0.(taskId := Some(task), contextId := Some(context))
  {
  }

  /** Deliveries may arrive before the subscription is bound to its task. */
  lemma {:induction false} BindCommutes(s: Sub, arrivals: seq<Arrival>, task: string, context: string)
    ensures ReceiveAll(s.(taskId := Some(task), contextId := Some(context)), arrivals)
         == ReceiveAll(s, arrivals).(taskId := Some(task), contextId := Some(context))
  {
    if arrivals != [] {
      var init := arrivals[..|arrivals| - 1];
      BindCommutes(s, init, task, context);
      BindCommutesOnce(ReceiveAll(s, init), arrivals[|arrivals| - 1], task, context);
    }
  }

  // ---------------------------------------------------------------------------------------------
  // Retries
  // ---------------------------------------------------------------------------------------------

  /** A body that carries an event delivered before. */
  predicate IsRetry(a: Arrival, earlier: seq<Arrival>) {
    a.Post? && WellFormed(a.parsed) && a.parsed.value in EventsOf(Distinct(earlier))
  }

  lemma {:induction false} RetryIgnored(
    u: seq<Arrival>, r: Arrival, v: seq<Arrival>, with: seq<Arrival>, without: seq<Arrival>)
    requires IsRetry(r, u) && with == u + [r] + v && without == u + v
    ensures Distinct(with) == Distinct(without)
    ensures Bytes(with) == Bytes(without) + r.length
    decreases |v|
  {
    if v == [] {
      assert with[..|u|] == u && without == u;
    } else {
      RetryIgnored(u, r, v[..|v| - 1], with[..|with| - 1], without[..|without| - 1]);
      assert with[|with| - 1] == v[|v| - 1] && without[|without| - 1] == v[|v| - 1];
    }
  }

  /** Within the byte budget a retry is no reason for a rejection. */
  lemma RetriesStayClean(u: seq<Arrival>, r: Arrival, v: seq<Arrival>)
    requires IsRetry(r, u) && Clean(u + v) && Bytes(u + [r] + v) <= MAX_PUSH_TOTAL_BYTES
    ensures Clean(u + [r] + v)
  {
    var with := u + [r] + v;
    RetryIgnored(u, r, v, with, u + v);
    forall i | 0 <= i < |with| ensures with[i].Post? && WellFormed(with[i].parsed) {
      if i < |u| {
        assert with[i] == (u + v)[i];
      } else if i > |u| {
        assert with[i] == (u + v)[i - 1];
      }
    }
  }

  /**
   Inserting a retry anywhere, under whatever other schedule, leaves the result of the wait as it was, as
   long as the total of all bodies stays within the limit.
   */
  lemma RetryChangesNothing(
    s: Sub, c: Collected, u: seq<Arrival>, r: Arrival, v: seq<Arrival>,
    before: seq<Arrival>, ticks: seq<Tick>, before': seq<Arrival>, ticks': seq<Tick>)
    requires Untouched(s) && IsRetry(r, u)
    requires before + InTime(ticks) == u + v && before' + InTime(ticks') == u + [r] + v
    requires Clean(before + Flatten(ticks)) && Clean(before' + Flatten(ticks'))
    ensures WaitRun(ReceiveAll(s, before'), c, false, ticks').1 == WaitRun(ReceiveAll(s, before), c, false, ticks).1
  {
    WaitIsFold(s, c, before, ticks);
    WaitIsFold(s, c, before', ticks');
    RetryIgnored(u, r, v, u + [r] + v, u + v);
  }
}

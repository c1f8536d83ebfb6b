/**
 What a rejection does to a wait, over whole schedules: after clean arrivals, one suspension brings something
 that is rejected. The wait may still succeed, for it looks for a rejection only after the element that wakes it.
 */
module PushRejection {
  import Sequences
  import opened Wrappers
  import opened Protocol
  import opened Push
  import opened PushInvariant
  import opened PushSchedule
  import opened PushOutcome

  // ---------------------------------------------------------------------------------------------
  // Arrivals that are not clean
  // ---------------------------------------------------------------------------------------------

  /** Handlers never take from the queue, and a rejection leaves something in it. */
  lemma QueueGrows(s: Sub, a: Arrival)
    ensures s.queue != [] ==> Receive(s, a).0.queue != []
    ensures s.rejection.None? && Receive(s, a).0.rejection.Some? ==> Receive(s, a).0.queue != []
  {
  }

  /** Arrivals that end the clean ones leave a rejection and a queue that is not empty. */
  lemma {:induction false} UncleanRejects(s: Sub, arrivals: seq<Arrival>, k: nat, more: seq<Arrival>)
    requires Untouched(s) && k <= |Distinct(arrivals)| && Clean(arrivals) && !Clean(arrivals + more)
    ensures var s2 := ReceiveAll(After(s, arrivals, k), more); s2.rejection.Some? && s2.queue != []
    decreases |more|
  {
    assert more == [] ==> arrivals + more == arrivals;
    if more != [] {
      var init, last := more[..|more| - 1], more[|more| - 1];
      var before := ReceiveAll(After(s, arrivals, k), init);
      assert arrivals + more == (arrivals + init) + [last];
      QueueGrows(before, last);
      if Clean(arrivals + init) {
        ReceiveAllClean(s, arrivals, k, init);
        if Receive(before, last).0.rejection.None? { OneMoreClean(s, arrivals + init, k, last); }
      } else {
        UncleanRejects(s, arrivals, k, init);
        RejectionStays(before, last);
      }
    }
  }

  // ---------------------------------------------------------------------------------------------
  // One suspension
  // ---------------------------------------------------------------------------------------------

  /** The queue starts with a delivery that ends the wait with an outcome. */
  predicate EndsNext(s: Sub, c: Collected) {
    s.queue != [] && s.queue[0].Some? &&
    var e := s.queue[0].value.event;
    IdentityFault(s, e).None? && IsTerminal(e) && AddEvent(c, e).1.None?
  }

  lemma ConsumedToTheEnd(s: Sub, c: Collected, d: Delivery)
    ensures Consume(s, c, d).Finished? && Consume(s, c, d).result.Ok?
       <==> IdentityFault(s, d.event).None? && IsTerminal(d.event) && AddEvent(c, d.event).1.None?
  {
    if IdentityFault(s, d.event).None? && IsTerminal(d.event) && AddEvent(c, d.event).1.None? {
      TerminalEndsWait(s, c, d);
    }
  }

  /** A waiter that is woken after a rejection succeeds exactly if the first delivery ends it. */
  lemma WokenAfterRejection(s: Sub, c: Collected, ticks: seq<Tick>)
    requires s.rejection.Some? && s.queue != []
    ensures WaitRun(s, c, true, ticks).1.Ok? <==> EndsNext(s, c)
  {
    RejectedMeanwhile(s, c, ticks);
    if s.queue[0].Some? { ConsumedToTheEnd(s, c, s.queue[0].value); }
  }

  /** From one suspension to the next, after clean arrivals and with any schedule to come. */
  lemma SuspensionStep(s: Sub, arrivals: seq<Arrival>, k: nat, c: Collected, resumed: bool, ticks: seq<Tick>)
    requires Untouched(s) && k <= |Distinct(arrivals)| && ticks != []
    ensures var here, n := After(s, arrivals, k), |Distinct(arrivals)|;
      match Fold(here, c, Distinct(arrivals)[k..])
      case Finished(r) => WaitRun(here, c, resumed, ticks).1 == r
      case Continue(c1) =>
        if ticks[0].expired then WaitRun(here, c, resumed, ticks).1.Err?
        else WaitRun(here, c, resumed, ticks)
             == WaitRun(ReceiveAll(After(s, arrivals, n), ticks[0].arrivals), c1, true, ticks[1..])
  {
    var here, n := After(s, arrivals, k), |Distinct(arrivals)|;
    DrainIsFold(here, c, resumed, Distinct(arrivals)[k..]);
    var step := Fold(here, c, Distinct(arrivals)[k..]);
    if step.Finished? {
      Delivered(here, c, resumed, ticks);
    } else {
      assert here.(queue := []) == After(s, arrivals, n);
    }
  }

  // ---------------------------------------------------------------------------------------------
  // Schedules
  // ---------------------------------------------------------------------------------------------

  predicate NoneExpired(ticks: seq<Tick>) {
    forall i :: 0 <= i < |ticks| ==> !ticks[i].expired
  }

  /**
   When the wait succeeds although `bad` brings something that is rejected, k of the clean deliveries being
   taken: they end it with an outcome, or they do not end it, no deadline passes, and the first element that
   `bad` leaves in the queue is a delivery that ends it.
   */
  predicate Succeeds(s: Sub, c: Collected, arrivals: seq<Arrival>, k: nat, ticks: seq<Tick>, bad: Tick) {
    var all := arrivals + InTime(ticks);
    var whole := Distinct(all);
    k <= |whole| &&
    match FoldRest(s, c, whole, k)
    case Finished(r) => r.Ok?
    case Continue(c1) =>
      NoneExpired(ticks) && !bad.expired && EndsNext(ReceiveAll(After(s, all, |whole|), bad.arrivals), c1)
  }

  /** The suspension that brings the rejection. */
  lemma BadSuspension(
    s: Sub, arrivals: seq<Arrival>, k: nat, c: Collected, resumed: bool, bad: Tick, later: seq<Tick>)
    requires Untouched(s) && k <= |Distinct(arrivals)| && Clean(arrivals) && !Clean(arrivals + bad.arrivals)
    ensures WaitRun(After(s, arrivals, k), c, resumed, [bad] + later).1.Ok? <==> Succeeds(s, c, arrivals, k, [], bad)
  {
    var n := |Distinct(arrivals)|;
    assert arrivals + InTime([]) == arrivals && ([bad] + later)[1..] == later;
    SuspensionStep(s, arrivals, k, c, resumed, [bad] + later);
    RestAfterQueue(s, arrivals, k, c, arrivals);
    var step := Fold(After(s, arrivals, k), c, Distinct(arrivals)[k..]);
    if step.Continue? {
      assert Distinct(arrivals)[n..] == [];
      if !bad.expired {
        UncleanRejects(s, arrivals, n, bad.arrivals);
        WokenAfterRejection(ReceiveAll(After(s, arrivals, n), bad.arrivals), step.collected, later);
      }
    }
  }

  lemma SucceedsLater(s: Sub, c: Collected, arrivals: seq<Arrival>, k: nat, ticks: seq<Tick>, bad: Tick)
    requires k <= |Distinct(arrivals)| && ticks != []
    ensures match Fold(After(s, arrivals, k), c, Distinct(arrivals)[k..])
      case Finished(r) => Succeeds(s, c, arrivals, k, ticks, bad) <==> r.Ok?
      case Continue(c1) =>
        if ticks[0].expired then !Succeeds(s, c, arrivals, k, ticks, bad)
        else
          Succeeds(s, c, arrivals, k, ticks, bad)
          == Succeeds(s, c1, arrivals + ticks[0].arrivals, |Distinct(arrivals)|, ticks[1..], bad)
  {
    var all, next := arrivals + InTime(ticks), arrivals + ticks[0].arrivals;
    var n := |Distinct(arrivals)|;
    RestAfterQueue(s, arrivals, k, c, all);
    var step := Fold(After(s, arrivals, k), c, Distinct(arrivals)[k..]);
    if step.Continue? {
      if ticks[0].expired {
        assert all == arrivals && Distinct(all)[n..] == [];
      } else {
        assert all == next + InTime(ticks[1..]);
        assert NoneExpired(ticks) <==> NoneExpired(ticks[1..]) by {
          assert forall i :: 0 <= i < |ticks| - 1 ==> ticks[1..][i] == ticks[i + 1];
        }
      }
    }
  }

  lemma {:induction false} RejectedFromHere(
    s: Sub, arrivals: seq<Arrival>, k: nat, c: Collected, resumed: bool, ticks: seq<Tick>, bad: Tick, later: seq<Tick>)
    requires Untouched(s) && k <= |Distinct(arrivals)|
    requires Clean(arrivals + Flatten(ticks)) && !Clean((arrivals + Flatten(ticks)) + bad.arrivals)
    ensures WaitRun(After(s, arrivals, k), c, resumed, ticks + ([bad] + later)).1.Ok?
       <==> Succeeds(s, c, arrivals, k, ticks, bad)
    decreases |ticks|
  {
    if ticks == [] {
      assert arrivals + Flatten([]) == arrivals && [] + ([bad] + later) == [bad] + later;
      BadSuspension(s, arrivals, k, c, resumed, bad, later);
    } else {
      var next, n, all := arrivals + ticks[0].arrivals, |Distinct(arrivals)|, ticks + ([bad] + later);
      assert all[1..] == ticks[1..] + ([bad] + later);
      CleanStep(arrivals, ticks, next);
      Sequences.Associative(arrivals, ticks[0].arrivals, Flatten(ticks[1..]));
      SuspensionStep(s, arrivals, k, c, resumed, all);
      SucceedsLater(s, c, arrivals, k, ticks, bad);
      var step := Fold(After(s, arrivals, k), c, Distinct(arrivals)[k..]);
      if step.Continue? && !ticks[0].expired {
        ReceiveAllClean(s, arrivals, n, ticks[0].arrivals);
        RejectedFromHere(s, next, n, step.collected, true, ticks[1..], bad, later);
      }
    }
  }

  /** Whatever is rejected first in a schedule, and whatever follows: when the wait still succeeds. */
  lemma RejectedWaitExactly(
    s: Sub, c: Collected, before: seq<Arrival>, ticks: seq<Tick>, bad: Tick, later: seq<Tick>)
    requires Untouched(s)
    requires Clean(before + Flatten(ticks)) && !Clean((before + Flatten(ticks)) + bad.arrivals)
    ensures WaitRun(ReceiveAll(s, before), c, false, ticks + ([bad] + later)).1.Ok?
       <==> Succeeds(s, c, before, 0, ticks, bad)
  {
    NothingArrived(s);
    CleanPrefixes(before + Flatten(ticks), |before|);
    assert (before + Flatten(ticks))[..|before|] == before && [] + before == before;
    ReceiveAllClean(s, [], 0, before);
    RejectedFromHere(s, before, 0, c, false, ticks, bad, later);
  }

  /** What is rejected before the wait fails it, with the first reason. */
  lemma RejectedAtStart(s: Sub, c: Collected, before: seq<Arrival>, ticks: seq<Tick>)
    requires Untouched(s) && !Clean(before)
    ensures ReceiveAll(s, before).rejection.Some?
    ensures WaitRun(ReceiveAll(s, before), c, false, ticks).1 == Err(Rejected(ReceiveAll(s, before).rejection.value))
  {
    CleanExactly(s, before);
    RejectedBefore(ReceiveAll(s, before), c, ticks);
  }

  lemma FlattenFirst(before: seq<Arrival>, tick: Tick, rest: seq<Tick>)
    ensures before + Flatten([tick] + rest) == (before + tick.arrivals) + Flatten(rest)
  {
    assert ([tick] + rest)[1..] == rest;
    Sequences.Associative(before, tick.arrivals, Flatten(rest));
  }

  /** Every schedule is clean, is unclean from the start, or has a first suspension that makes it unclean. */
  lemma {:induction false} FirstUnclean(before: seq<Arrival>, ticks: seq<Tick>) returns (i: nat)
    requires Clean(before) && !Clean(before + Flatten(ticks))
    ensures i < |ticks| && Clean(before + Flatten(ticks[..i]))
    ensures !Clean((before + Flatten(ticks[..i])) + ticks[i].arrivals)
    ensures ticks == ticks[..i] + ([ticks[i]] + ticks[i + 1..])
    decreases |ticks|
  {
    assert before + Flatten([]) == before;
    var tick, rest := ticks[0], ticks[1..];
    assert ticks == [tick] + rest;
    if !Clean(before + tick.arrivals) {
      i := 0;
      assert ticks[..0] == [];
    } else {
      FlattenFirst(before, tick, rest);
      var j := FirstUnclean(before + tick.arrivals, rest);
      i := j + 1;
      FlattenFirst(before, tick, rest[..j]);
      assert ticks[..i] == [tick] + rest[..j];
    }
  }
}

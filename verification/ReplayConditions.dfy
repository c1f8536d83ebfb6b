/**
 What makes a recording in order: the condition call by call, and what is left of it where nothing raised, where
 raises come last, and where everything is replayed.
 */
module ReplayConditions {
  import opened Sequences
  import opened Runner
  import opened Scenarios
  import opened Traces
  import opened Replay
  import opened ReplayOrder
  import opened Revisions
  import opened ReplayTheorem
  import opened Selections

  // ---------------------------------------------------------------------------------------------
  // Call by call
  // ---------------------------------------------------------------------------------------------

  /** Every replayed call was recorded. */
  predicate Recordable(tracks: seq<seq<Reply>>, counts: seq<nat>) {
    |tracks| == |counts| && forall a :: 0 <= a < |tracks| ==> counts[a] <= |tracks[a]|
  }

  /** If the b-th track is replayed, no outcome of the a-th is left out. */
  predicate NoneLeft(tracks: seq<seq<Reply>>, counts: seq<nat>, a: nat, b: nat)
    requires Recordable(tracks, counts) && a < |tracks| && b < |tracks|
  {
    counts[b] > 0 ==> Returned(tracks[a][counts[a]..]) == []
  }

  /** No outcome is left out before a track that is replayed. */
  predicate NoneLeftBefore(tracks: seq<seq<Reply>>, counts: seq<nat>)
    requires Recordable(tracks, counts)
  {
    forall a, b :: 0 <= a < b < |tracks| ==> NoneLeft(tracks, counts, a, b)
  }

  predicate FinalAt(u: seq<Reply>, rest: seq<Reply>, k: nat)
    requires k < |u|
  {
    u[k].Err? ==> Returned(u[k + 1..] + rest) == []
  }

  predicate AllFinal(u: seq<Reply>, rest: seq<Reply>, n: nat)
    requires n <= |u|
  {
    forall k :: 0 <= k < n ==> FinalAt(u, rest, k)
  }

  /** Nothing was returned after a replayed call of the a-th track that raised. */
  predicate RaisesLastIn(tracks: seq<seq<Reply>>, counts: seq<nat>, a: nat)
    requires Recordable(tracks, counts) && a < |tracks|
  {
    AllFinal(tracks[a], Flat(tracks[a + 1..]), counts[a])
  }

  predicate RaisesFinal(tracks: seq<seq<Reply>>, counts: seq<nat>)
    requires Recordable(tracks, counts)
  {
    forall a :: 0 <= a < |tracks| ==> RaisesLastIn(tracks, counts, a)
  }

  lemma RecordableParts(tracks: seq<seq<Reply>>, counts: seq<nat>)
    requires |tracks| == |counts| && tracks != []
    ensures Recordable(tracks, counts) <==> counts[0] <= |tracks[0]| && Recordable(tracks[1..], counts[1..])
  {
    if counts[0] <= |tracks[0]| && Recordable(tracks[1..], counts[1..]) {
      forall a | 0 <= a < |tracks| ensures counts[a] <= |tracks[a]| {
        if a > 0 { assert counts[1..][a - 1] <= |tracks[1..][a - 1]|; }
      }
    }
  }

  lemma NoneLeftParts(tracks: seq<seq<Reply>>, counts: seq<nat>)
    requires Recordable(tracks, counts) && tracks != []
    ensures Recordable(tracks[1..], counts[1..])
    ensures NoneLeftBefore(tracks, counts)
       <==> (Returned(tracks[0][counts[0]..]) != [] ==> NoneReplayed(counts[1..]))
            && NoneLeftBefore(tracks[1..], counts[1..])
  {
    RecordableParts(tracks, counts);
    if NoneLeftBefore(tracks, counts) {
      forall i | 0 <= i < |counts| - 1 && Returned(tracks[0][counts[0]..]) != [] ensures counts[1..][i] == 0 {
        assert NoneLeft(tracks, counts, 0, i + 1);
      }
      forall a, b | 0 <= a < b < |tracks| - 1 ensures NoneLeft(tracks[1..], counts[1..], a, b) {
        assert NoneLeft(tracks, counts, a + 1, b + 1);
      }
    }
    if (Returned(tracks[0][counts[0]..]) != [] ==> NoneReplayed(counts[1..]))
      && NoneLeftBefore(tracks[1..], counts[1..])
    {
      forall a, b | 0 <= a < b < |tracks| ensures NoneLeft(tracks, counts, a, b) {
        if a == 0 {
          assert counts[b] == counts[1..][b - 1];
        } else {
          assert NoneLeft(tracks[1..], counts[1..], a - 1, b - 1);
        }
      }
    }
  }

  lemma RaisesParts(tracks: seq<seq<Reply>>, counts: seq<nat>)
    requires Recordable(tracks, counts) && tracks != []
    ensures Recordable(tracks[1..], counts[1..])
    ensures RaisesFinal(tracks, counts)
       <==> RaisesLastFor(tracks, counts[0]) && RaisesFinal(tracks[1..], counts[1..])
  {
    RecordableParts(tracks, counts);
    RaisesFirst(tracks, counts);
    if RaisesFinal(tracks, counts) {
      assert RaisesLastIn(tracks, counts, 0);
      forall a | 0 <= a < |tracks| - 1 ensures RaisesLastIn(tracks[1..], counts[1..], a) {
        RaisesShifted(tracks, counts, a);
      }
    }
    if RaisesLastFor(tracks, counts[0]) && RaisesFinal(tracks[1..], counts[1..]) {
      forall a | 0 <= a < |tracks| ensures RaisesLastIn(tracks, counts, a) {
        if a > 0 { RaisesShifted(tracks, counts, a - 1); }
      }
    }
  }

  lemma RaisesFirst(tracks: seq<seq<Reply>>, counts: seq<nat>)
    requires Recordable(tracks, counts) && tracks != []
    ensures RaisesLastIn(tracks, counts, 0) <==> RaisesLastFor(tracks, counts[0])
  {
    forall k | 0 <= k < counts[0]
      ensures FinalAt(tracks[0], Flat(tracks[1..]), k) <==> LastIfRaised(tracks, k)
    {
    }
  }

  lemma RaisesShifted(tracks: seq<seq<Reply>>, counts: seq<nat>, a: nat)
    requires Recordable(tracks, counts) && a + 1 < |tracks| && Recordable(tracks[1..], counts[1..])
    ensures RaisesLastIn(tracks[1..], counts[1..], a) <==> RaisesLastIn(tracks, counts, a + 1)
  {
    assert tracks[1..][a] == tracks[a + 1] && counts[1..][a] == counts[a + 1];
    assert tracks[1..][a + 1..] == tracks[a + 2..];
  }

  /** In order, without recursion. */
  lemma {:induction false} InOrderPointwise(tracks: seq<seq<Reply>>, counts: seq<nat>)
    requires |tracks| == |counts|
    ensures InOrder(tracks, counts)
       <==> Recordable(tracks, counts) && NoneLeftBefore(tracks, counts) && RaisesFinal(tracks, counts)
  {
    if tracks != [] {
      RecordableParts(tracks, counts);
      InOrderPointwise(tracks[1..], counts[1..]);
      if Recordable(tracks, counts) {
        NoneLeftParts(tracks, counts);
        RaisesParts(tracks, counts);
      }
    }
  }

  // ---------------------------------------------------------------------------------------------
  // Recordings in which nothing raised, or raises come last
  // ---------------------------------------------------------------------------------------------

  predicate NothingRaised(tracks: seq<seq<Reply>>) {
    forall a, k :: 0 <= a < |tracks| && 0 <= k < |tracks[a]| ==> tracks[a][k].Ok?
  }

  /**
   Where nothing raised, a recording is in order exactly if what is replayed comes before everything that is not:
   all tracks before a replayed one are replayed in full.
   */
  lemma WithoutRaises(tracks: seq<seq<Reply>>, counts: seq<nat>)
    requires NothingRaised(tracks) && |tracks| == |counts|
    ensures InOrder(tracks, counts)
       <==> Recordable(tracks, counts)
            && forall a, b :: 0 <= a < b < |tracks| && counts[b] > 0 ==> counts[a] == |tracks[a]|
  {
    InOrderPointwise(tracks, counts);
    if Recordable(tracks, counts) {
      forall a, b | 0 <= a < b < |tracks|
        ensures NoneLeft(tracks, counts, a, b) <==> (counts[b] > 0 ==> counts[a] == |tracks[a]|)
      {
        var left := tracks[a][counts[a]..];
        NothingReturned(left);
        if left != [] { assert left[0] == tracks[a][counts[a]]; }
      }
      assert RaisesFinal(tracks, counts);
    }
  }

  lemma FinalMeans(u: seq<Reply>, rest: seq<Reply>, k: nat)
    requires k < |u|
    ensures FinalAt(u, rest, k) <==> (u[k].Err? ==> forall j :: k < j < |u + rest| ==> (u + rest)[j].Err?)
  {
    var all, later := u + rest, u[k + 1..] + rest;
    NothingReturned(later);
    assert forall i :: 0 <= i < |later| ==> later[i] == all[k + 1 + i];
    forall j | k < j < |all| ensures all[j] == later[j - k - 1] {}
  }

  lemma RaisesLastSplits(u: seq<Reply>, rest: seq<Reply>)
    requires RaisesLast(u + rest)
    ensures RaisesLast(rest) && forall k :: 0 <= k < |u| ==> FinalAt(u, rest, k)
  {
    var all := u + rest;
    forall i, j | 0 <= i < j < |rest| && rest[i].Err? ensures rest[j].Err? {
      assert all[|u| + i] == rest[i] && all[|u| + j] == rest[j];
    }
    forall k | 0 <= k < |u| ensures FinalAt(u, rest, k) {
      FinalMeans(u, rest, k);
      assert all[k] == u[k];
    }
  }

  lemma RaisesLastJoins(u: seq<Reply>, rest: seq<Reply>)
    requires RaisesLast(rest) && forall k :: 0 <= k < |u| ==> FinalAt(u, rest, k)
    ensures RaisesLast(u + rest)
  {
    var all := u + rest;
    forall i, j | 0 <= i < j < |all| && all[i].Err? ensures all[j].Err? {
      if i >= |u| {
        assert all[i] == rest[i - |u|] && all[j] == rest[j - |u|];
      } else {
        assert FinalAt(u, rest, i);
        FinalMeans(u, rest, i);
      }
    }
  }

  lemma {:induction false} RaisesLastFinal(tracks: seq<seq<Reply>>, counts: seq<nat>)
    requires RaisesLast(Flat(tracks)) && Recordable(tracks, counts)
    ensures RaisesFinal(tracks, counts)
  {
    if tracks != [] {
      RaisesParts(tracks, counts);
      RaisesLastSplits(tracks[0], Flat(tracks[1..]));
      RaisesLastFinal(tracks[1..], counts[1..]);
      forall k | 0 <= k < counts[0] ensures LastIfRaised(tracks, k) {
        assert FinalAt(tracks[0], Flat(tracks[1..]), k);
      }
    }
  }

  /** Where raises come last, only what is left out matters. */
  lemma RaisesLastInOrder(tracks: seq<seq<Reply>>, counts: seq<nat>)
    requires RaisesLast(Flat(tracks)) && |tracks| == |counts|
    ensures InOrder(tracks, counts) <==> Recordable(tracks, counts) && NoneLeftBefore(tracks, counts)
  {
    InOrderPointwise(tracks, counts);
    if Recordable(tracks, counts) { RaisesLastFinal(tracks, counts); }
  }

  lemma {:induction false} FinalRaisesLast(tracks: seq<seq<Reply>>)
    requires InOrder(tracks, Counts(tracks))
    ensures RaisesLast(Flat(tracks))
  {
    if tracks != [] {
      CountsNext(tracks);
      assert Counts(tracks)[1..] == Counts(tracks[1..]);
      FinalRaisesLast(tracks[1..]);
      forall k | 0 <= k < |tracks[0]| ensures FinalAt(tracks[0], Flat(tracks[1..]), k) {
        assert LastIfRaised(tracks, k);
      }
      RaisesLastJoins(tracks[0], Flat(tracks[1..]));
    }
  }

  /** Where everything is replayed, only the raises matter. */
  lemma AllReplayed(tracks: seq<seq<Reply>>)
    ensures InOrder(tracks, Counts(tracks)) <==> RaisesLast(Flat(tracks))
  {
    var counts := Counts(tracks);
    if RaisesLast(Flat(tracks)) {
      forall a, b | 0 <= a < b < |tracks| ensures NoneLeft(tracks, counts, a, b) {
        assert tracks[a][counts[a]..] == [];
      }
      RaisesLastInOrder(tracks, counts);
    }
    if InOrder(tracks, counts) { FinalRaisesLast(tracks); }
  }

  // ---------------------------------------------------------------------------------------------
  // The whole contract again
  // ---------------------------------------------------------------------------------------------

  lemma {:induction false} CutWithoutStop(sc: Scenario, required: int, trials: seq<TrialResult>, k: nat)
    requires k <= |trials|
    ensures Cut(sc, required, false, trials, k) == trials
    decreases |trials| - k
  {
    if k < |trials| { CutWithoutStop(sc, required, trials, k + 1); }
  }

  function All(n: nat): seq<bool> { seq(n, _ => true) }

  lemma {:induction false} AllSelected(plans: seq<Plan>, blocks: seq<seq<seq<Reply>>>, results: seq<ScenarioResult>)
    requires |plans| == |blocks| && Summaries(plans, results)
    requires forall i :: 0 <= i < |plans| ==> |blocks[i]| == plans[i].scenario.trials
    ensures Flat(Selected(plans, All(|plans|), false, blocks, results).0) == Counts(Flat(blocks))
  {
    if plans != [] {
      var block := blocks[0];
      assert All(|plans|)[1..] == All(|plans| - 1);
      assert Summaries(plans[1..], results[1..]) by {
        assert forall i :: 0 <= i < |plans| - 1 ==> plans[1..][i] == plans[i + 1] && results[1..][i] == results[i + 1];
      }
      AllSelected(plans[1..], blocks[1..], results[1..]);
      CutWithoutStop(plans[0].scenario, plans[0].required, results[0].trials, 0);
      assert KeptCounts(block, |block|, 0) == Counts(block);
      var rest := Selected(plans[1..], All(|plans| - 1), false, blocks[1..], results[1..]).0;
      FlatFirst(Counts(block), rest);
      ReplayExact.CountsConcat(block, Flat(blocks[1..]));
    }
  }

  /**
   The whole contract, recorded and replayed without early stop: every call is answered as recorded if and only if
   nothing was returned after something was raised.
   */
  lemma WithoutEarlyStop<S(!new)>(
    w: World<S>, machine: World<nat>, v: Version, plans: seq<Plan>, p: Pool, q: Pool, s: S)
    requires NonePushIn(plans) && CardPassed(v.card)
    ensures var rev := Revision(v, v, Selection(plans, All(|plans|)));
      var trace, blocks := Recorded(w, rev, p, s).2.trace, Blocks(w, rev, p, s);
      Answered(0, Flat(blocks), 0, ReplayCalls(Returned(trace), machine, rev, false, q)) <==> RaisesLast(trace)
  {
    var keep := All(|plans|);
    var rev := Revision(v, v, Selection(plans, keep));
    var results, blocks := Recorded(w, rev, p, s).0.scenarios, Blocks(w, rev, p, s);
    assert Running(rev) == rev.edits;
    RunningPresent(rev);
    SuiteByScenario(w, v.setup, v.card, Present(rev.edits, true), rev.edits, true, false, p, Taped(s, []));
    RecordedSummaries(w, v.setup, plans, keep, p, Taped(s, []));
    AllSelected(plans, blocks, results);
    RecordedTrace(w, rev, p, s);
    SelectionExactly(w, machine, v, plans, keep, false, p, q, s);
    AllReplayed(Flat(blocks));
  }
}

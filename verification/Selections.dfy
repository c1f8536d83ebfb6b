/**
 The same contract recorded and replayed, perhaps restricted to some of its scenarios and with early stop. Every
 trial then goes as it was recorded, so the condition on the recording can be read off its own verdicts.
 */
module Selections {
  import opened Wrappers
  import opened Sequences
  import opened Runner
  import opened Scenarios
  import opened Traces
  import opened Replay
  import opened ReplayOrder
  import opened Revisions
  import opened ReplayScripts
  import opened ReplayExact
  import opened ReplayTheorem

  /** A contract of which only some scenarios are replayed. */
  function Selection(plans: seq<Plan>, keep: seq<bool>): (edits: seq<Edit>)
    requires |plans| == |keep|
    ensures |edits| == |plans|
  {
    seq(|plans|, i requires 0 <= i < |plans| => Edit(Some(plans[i]), if keep[i] then Some(plans[i]) else None))
  }

  /** What is replayed of a scenario: the recorded trials up to where it stops. */
  function Shortened(plan: Plan, earlyStop: bool, r: ScenarioResult): ScenarioResult {
    Summarize(plan.scenario, plan.required, Cut(plan.scenario, plan.required, earlyStop, r.trials, 0))
  }

  /** The first n tracks in full, from the j-th on. */
  function KeptCounts(block: seq<seq<Reply>>, n: nat, j: nat): seq<nat>
    requires j <= |block|
  {
    seq(|block| - j, i requires 0 <= i < |block| - j => if j + i < n then |block[j + i]| else 0)
  }

  /** The recorded scenarios that are selected, and the numbers of calls of all trials, from the recorded verdicts. */
  function Selected(
    plans: seq<Plan>, keep: seq<bool>, earlyStop: bool, blocks: seq<seq<seq<Reply>>>, results: seq<ScenarioResult>)
    : (r: (seq<seq<nat>>, seq<ScenarioResult>))
    requires |plans| == |keep| == |blocks| == |results|
    ensures |r.0| == |plans|
  {
    if plans == [] then ([], [])
    else
      var (counts, rest) := Selected(plans[1..], keep[1..], earlyStop, blocks[1..], results[1..]);
      if keep[0] then
        var short := Shortened(plans[0], earlyStop, results[0]);
        ([KeptCounts(blocks[0], |short.trials|, 0)] + counts, [short] + rest)
      else ([Zeros(|blocks[0]|)] + counts, rest)
  }

  // ---------------------------------------------------------------------------------------------
  // Recorded trials against their own calls
  // ---------------------------------------------------------------------------------------------

  lemma SameTracesRefl(u: seq<Reply>)
    ensures SameTraces(u, u)
  {
  }

  /** A recorded trial against its own calls makes them again, with the same result. */
  lemma OwnTrialIsRecorded<S(!new)>(
    w: World<S>, machine: World<nat>, setup: Setup, turns: seq<Turn>, j: nat, pool: Pool, y: Taped<S>,
    trial: TrialResult, y1: Taped<S>)
    requires NoPush(turns)
    requires var r := TrialRun(Recording(w), setup, turns, j + 1, pool, y); trial == r.0 && y1 == r.2
    ensures var u := Behind(y.trace, y1.trace);
      var own := OwnTrial(u, machine, setup, turns, j);
      own.1 == |u| && SameTrial(trial, own.0)
  {
    var u, start := Behind(y.trace, y1.trace), Taped(0, []);
    SameTracesRefl(u);
    assert u[..|u|] == u;
    OwnAgrees(u, u, |u|);
    TrialFollows(w, Own(u), machine, setup, turns, j + 1, pool, Pool(Missing, {}), y, start);
    var z := TrialRun(Recording(ScriptWorld(Own(u), machine)), setup, turns, j + 1, Pool(Missing, {}), start).2;
    assert Behind(start.trace, z.trace) == z.trace;
  }

  lemma {:induction false} HaltedCounts(
    block: seq<seq<Reply>>, machine: World<nat>, setup: Setup, plan: Plan, earlyStop: bool, j: nat,
    done: seq<TrialResult>)
    requires |done| <= j <= |block| && !Goes(plan, earlyStop, done, j)
    ensures OwnTrials(block, machine, setup, plan, earlyStop, j, done) == (KeptCounts(block, |done|, j), done)
    decreases |block| - j
  {
    if j == |block| {
      assert KeptCounts(block, |done|, j) == [];
    } else {
      var next := OwnTrials(block, machine, setup, plan, earlyStop, j + 1, done);
      HaltedCounts(block, machine, setup, plan, earlyStop, j + 1, done);
      OwnStep(block, machine, setup, plan, earlyStop, j, done, 0, next);
      assert KeptCounts(block, |done|, j) == [0] + KeptCounts(block, |done|, j + 1);
    }
  }

  /** A full recording of a scenario, from its j-th trial on. */
  predicate RecordedFrom<S>(
    w: World<S>, setup: Setup, plan: Plan, block: seq<seq<Reply>>, full: seq<TrialResult>, done: seq<TrialResult>,
    pool: Pool, y: Taped<S>)
  {
    var j := |done|;
    j <= plan.scenario.trials == |block| &&
    var r := TrialByTrial(w, setup, plan, false, |block|, j, done, pool, y);
    block[j..] == r.calls && full == r.trials
  }

  lemma RecordedNext<S>(
    w: World<S>, setup: Setup, plan: Plan, block: seq<seq<Reply>>, full: seq<TrialResult>, done: seq<TrialResult>,
    pool: Pool, y: Taped<S>, trial: TrialResult, pool1: Pool, y1: Taped<S>)
    requires RecordedFrom(w, setup, plan, block, full, done, pool, y) && |done| < |block|
    requires (trial, pool1, y1) == TrialRun(Recording(w), setup, plan.scenario.turns, |done| + 1, pool, y)
    ensures block[|done|] == Behind(y.trace, y1.trace)
    ensures RecordedFrom(w, setup, plan, block, full, done + [trial], pool1, y1)
  {
    assert Goes(plan, false, done, |done|);
    var calls := TrialByTrial(w, setup, plan, false, |block|, |done| + 1, done + [trial], pool1, y1).calls;
    assert block[|done|..] == [Behind(y.trace, y1.trace)] + calls;
    assert block[|done| + 1..] == block[|done|..][1..];
  }

  lemma {:induction false} RecordedExtends<S>(
    w: World<S>, setup: Setup, plan: Plan, block: seq<seq<Reply>>, full: seq<TrialResult>, done: seq<TrialResult>,
    pool: Pool, y: Taped<S>)
    requires RecordedFrom(w, setup, plan, block, full, done, pool, y)
    ensures done <= full && |full| == |block|
    decreases |block| - |done|
  {
    if |done| < |block| {
      var (trial, pool1, y1) := TrialRun(Recording(w), setup, plan.scenario.turns, |done| + 1, pool, y);
      RecordedNext(w, setup, plan, block, full, done, pool, y, trial, pool1, y1);
      RecordedExtends(w, setup, plan, block, full, done + [trial], pool1, y1);
    }
  }

  /** A scenario against its own calls is the recorded one, cut where it stops. */
  lemma {:induction false} OwnIsCut<S(!new)>(
    w: World<S>, machine: World<nat>, setup: Setup, plan: Plan, earlyStop: bool, block: seq<seq<Reply>>,
    full: seq<TrialResult>, done: seq<TrialResult>, done': seq<TrialResult>, pool: Pool, y: Taped<S>)
    requires NoPush(plan.scenario.turns) && SameTrials(done, done')
    requires RecordedFrom(w, setup, plan, block, full, done, pool, y)
    requires done == [] || !StopsEarly(plan.scenario, plan.required, earlyStop, done)
    ensures |done| <= |full|
    ensures var own := OwnTrials(block, machine, setup, plan, earlyStop, |done|, done');
      var cut := Cut(plan.scenario, plan.required, earlyStop, full, |done|);
      SameTrials(cut, own.1) && own.0 == KeptCounts(block, |cut|, |done|)
    decreases |block| - |done|
  {
    var sc, j := plan.scenario, |done|;
    RecordedExtends(w, setup, plan, block, full, done, pool, y);
    if j == |block| {
      assert full == done;
    } else {
      var (trial, pool1, y1) := TrialRun(Recording(w), setup, sc.turns, j + 1, pool, y);
      RecordedNext(w, setup, plan, block, full, done, pool, y, trial, pool1, y1);
      OwnTrialIsRecorded(w, machine, setup, sc.turns, j, pool, y, trial, y1);
      var own := OwnTrial(block[j], machine, setup, sc.turns, j);
      var more, more' := done + [trial], done' + [own.0];
      RecordedExtends(w, setup, plan, block, full, more, pool1, y1);
      SameTrialsNext(done, done', trial, own.0);
      if !StopsEarly(sc, plan.required, earlyStop, more) {
        OwnIsCut(w, machine, setup, plan, earlyStop, block, full, more, more', pool1, y1);
      }
      CutStep(block, machine, setup, plan, earlyStop, full, done, done', trial, own,
              OwnTrials(block, machine, setup, plan, earlyStop, j + 1, more'));
    }
  }

  lemma CutStep(
    block: seq<seq<Reply>>, machine: World<nat>, setup: Setup, plan: Plan, earlyStop: bool, full: seq<TrialResult>,
    done: seq<TrialResult>, done': seq<TrialResult>, trial: TrialResult, own: (TrialResult, nat),
    next: (seq<nat>, seq<TrialResult>))
    requires |done| < |block| == |full| == plan.scenario.trials && done + [trial] <= full
    requires SameTrials(done, done') && SameTrial(trial, own.0)
    requires done == [] || !StopsEarly(plan.scenario, plan.required, earlyStop, done)
    requires own == OwnTrial(block[|done|], machine, setup, plan.scenario.turns, |done|)
    requires own.1 == |block[|done|]|
    requires next == OwnTrials(block, machine, setup, plan, earlyStop, |done| + 1, done' + [own.0])
    requires !StopsEarly(plan.scenario, plan.required, earlyStop, done + [trial]) ==>
      var cut := Cut(plan.scenario, plan.required, earlyStop, full, |done| + 1);
      SameTrials(cut, next.1) && next.0 == KeptCounts(block, |cut|, |done| + 1)
    ensures var r := OwnTrials(block, machine, setup, plan, earlyStop, |done|, done');
      var cut := Cut(plan.scenario, plan.required, earlyStop, full, |done|);
      SameTrials(cut, r.1) && r.0 == KeptCounts(block, |cut|, |done|)
  {
    var sc, j, more, more' := plan.scenario, |done|, done + [trial], done' + [own.0];
    GoesAlike(plan, earlyStop, done, done', j);
    OwnStep(block, machine, setup, plan, earlyStop, j, done', own.1, next);
    SameTrialsNext(done, done', trial, own.0);
    SameStop(sc, plan.required, earlyStop, more, more');
    CutNext(sc, plan.required, earlyStop, full, j, more);
    if StopsEarly(sc, plan.required, earlyStop, more) {
      HaltedCounts(block, machine, setup, plan, earlyStop, j + 1, more');
      KeptNext(block, j + 1, j);
    } else {
      KeptNext(block, |Cut(sc, plan.required, earlyStop, full, j + 1)|, j);
    }
  }

  lemma CutNext(
    sc: Scenario, required: int, earlyStop: bool, full: seq<TrialResult>, j: nat, more: seq<TrialResult>)
    requires j < |full| && |more| == j + 1 && more <= full
    ensures Cut(sc, required, earlyStop, full, j)
         == if StopsEarly(sc, required, earlyStop, more) then more else Cut(sc, required, earlyStop, full, j + 1)
    ensures j < |Cut(sc, required, earlyStop, full, j + 1)|
  {
    assert full[..j + 1] == more;
    CutExtends(sc, required, earlyStop, full, j + 1);
  }

  lemma KeptNext(block: seq<seq<Reply>>, n: nat, j: nat)
    requires j < |block| && j < n
    ensures KeptCounts(block, n, j) == [|block[j]|] + KeptCounts(block, n, j + 1)
  {
  }

  lemma {:induction false} CutExtends(sc: Scenario, required: int, earlyStop: bool, trials: seq<TrialResult>, k: nat)
    requires k <= |trials|
    ensures k <= |Cut(sc, required, earlyStop, trials, k)| <= |trials|
    decreases |trials| - k
  {
    if k < |trials| { CutExtends(sc, required, earlyStop, trials, k + 1); }
  }

  // ---------------------------------------------------------------------------------------------
  // Selected scenarios
  // ---------------------------------------------------------------------------------------------

  predicate NonePushIn(plans: seq<Plan>) {
    forall i :: 0 <= i < |plans| ==> NoPush(plans[i].scenario.turns)
  }

  lemma SelectionRest(plans: seq<Plan>, keep: seq<bool>)
    requires |plans| == |keep| && plans != []
    ensures Selection(plans, keep)[1..] == Selection(plans[1..], keep[1..])
    ensures Width(Selection(plans, keep)[0]) == plans[0].scenario.trials
  {
  }

  lemma ResultFollows(plan: Plan, earlyStop: bool, r: ScenarioResult, trials: seq<TrialResult>)
    requires SameTrials(Cut(plan.scenario, plan.required, earlyStop, r.trials, 0), trials)
    ensures SameScenario(Shortened(plan, earlyStop, r), Summarize(plan.scenario, plan.required, trials))
  {
    SameResult(plan, Cut(plan.scenario, plan.required, earlyStop, r.trials, 0), trials);
  }

  lemma RecordedFirst<S>(w: World<S>, setup: Setup, edits: seq<Edit>, pool: Pool, y: Taped<S>, plan: Plan, width: nat)
    requires edits != [] && edits[0].was == Some(plan) && width == Width(edits[0])
    ensures var r := ScenarioByScenario(w, setup, edits, true, false, pool, y);
      var first := TrialByTrial(w, setup, plan, false, width, 0, [], pool, y);
      var next := ScenarioByScenario(w, setup, edits[1..], true, false, first.pool, first.y);
      && r.blocks == [first.calls] + next.blocks
      && r.results == [Summarize(plan.scenario, plan.required, first.trials)] + next.results
  {
  }

  /** The replay of a selection as it should be, from the recorded verdicts. */
  lemma {:induction false} ShouldBeSelected<S(!new)>(
    w: World<S>, machine: World<nat>, setup: Setup, plans: seq<Plan>, keep: seq<bool>, earlyStop: bool,
    pool: Pool, y: Taped<S>)
    requires NonePushIn(plans) && |plans| == |keep|
    ensures var edits := Selection(plans, keep);
      var r := ScenarioByScenario(w, setup, edits, true, false, pool, y);
      var should := OwnScenarios(r.blocks, machine, setup, edits, earlyStop);
      |r.results| == |plans| && ShouldBe(Selected(plans, keep, earlyStop, r.blocks, r.results), should)
    decreases |plans|
  {
    if plans != [] {
      var edits, plan := Selection(plans, keep), plans[0];
      var first := TrialByTrial(w, setup, plan, false, Width(edits[0]), 0, [], pool, y);
      var next := ScenarioByScenario(w, setup, edits[1..], true, false, first.pool, first.y);
      SelectionRest(plans, keep);
      RecordedFirst(w, setup, edits, pool, y, plan, Width(edits[0]));
      ShouldBeSelected(w, machine, setup, plans[1..], keep[1..], earlyStop, first.pool, first.y);
      FirstSelected(w, machine, setup, plans, keep, earlyStop, pool, y, edits, first,
                    Summarize(plan.scenario, plan.required, first.trials), next.blocks, next.results);
    }
  }

  lemma SelectedFirst(
    plans: seq<Plan>, keep: seq<bool>, earlyStop: bool, block: seq<seq<Reply>>, blocks: seq<seq<seq<Reply>>>,
    result: ScenarioResult, results: seq<ScenarioResult>, next: (seq<seq<nat>>, seq<ScenarioResult>))
    requires |plans| == |keep| == |blocks| + 1 == |results| + 1
    requires next == Selected(plans[1..], keep[1..], earlyStop, blocks, results)
    ensures var r := Selected(plans, keep, earlyStop, [block] + blocks, [result] + results);
      if keep[0] then
        var short := Shortened(plans[0], earlyStop, result);
        r == ([KeptCounts(block, |short.trials|, 0)] + next.0, [short] + next.1)
      else r == ([Zeros(|block|)] + next.0, next.1)
  {
    assert ([block] + blocks)[1..] == blocks && ([result] + results)[1..] == results;
  }

  /** One selected scenario against its own calls. */
  lemma OneSelected<S(!new)>(
    w: World<S>, machine: World<nat>, setup: Setup, plan: Plan, earlyStop: bool, pool: Pool, y: Taped<S>, first: Ran<S>,
    result: ScenarioResult)
    requires NoPush(plan.scenario.turns)
    requires first == TrialByTrial(w, setup, plan, false, plan.scenario.trials, 0, [], pool, y)
    requires result == Summarize(plan.scenario, plan.required, first.trials)
    ensures var own := OwnTrials(first.calls, machine, setup, plan, earlyStop, 0, []);
      var short := Shortened(plan, earlyStop, result);
      && own.0 == KeptCounts(first.calls, |short.trials|, 0)
      && SameScenario(short, Summarize(plan.scenario, plan.required, own.1))
  {
    OwnIsCut(w, machine, setup, plan, earlyStop, first.calls, first.trials, [], [], pool, y);
    ResultFollows(plan, earlyStop, result, OwnTrials(first.calls, machine, setup, plan, earlyStop, 0, []).1);
  }

  /** The replay as it should be, as it is selected. */
  predicate ShouldBe(
    selected: (seq<seq<nat>>, seq<ScenarioResult>), should: (seq<seq<nat>>, seq<ScenarioResult>))
  {
    selected.0 == should.0 && SameScenarios(selected.1, should.1)
  }

  lemma CoversFirst(block: seq<seq<Reply>>, blocks: seq<seq<seq<Reply>>>, edits: seq<Edit>)
    requires edits != [] && |block| == Width(edits[0]) && Covers(blocks, edits[1..])
    ensures Covers([block] + blocks, edits) && ([block] + blocks)[1..] == blocks
  {
    forall i | 0 <= i < |edits| ensures |([block] + blocks)[i]| == Width(edits[i]) {
      if i > 0 { assert edits[i] == edits[1..][i - 1]; }
    }
  }

  lemma FirstSelected<S(!new)>(
    w: World<S>, machine: World<nat>, setup: Setup, plans: seq<Plan>, keep: seq<bool>, earlyStop: bool,
    pool: Pool, y: Taped<S>, edits: seq<Edit>, first: Ran<S>, result: ScenarioResult, blocks: seq<seq<seq<Reply>>>,
    results: seq<ScenarioResult>)
    requires NonePushIn(plans) && |plans| == |keep| && plans != [] && edits == Selection(plans, keep)
    requires first == TrialByTrial(w, setup, plans[0], false, plans[0].scenario.trials, 0, [], pool, y)
    requires result == Summarize(plans[0].scenario, plans[0].required, first.trials)
    requires Covers(blocks, edits[1..]) && |results| == |plans| - 1
    requires ShouldBe(Selected(plans[1..], keep[1..], earlyStop, blocks, results),
                      OwnScenarios(blocks, machine, setup, edits[1..], earlyStop))
    ensures Covers([first.calls] + blocks, edits)
    ensures ShouldBe(Selected(plans, keep, earlyStop, [first.calls] + blocks, [result] + results),
                     OwnScenarios([first.calls] + blocks, machine, setup, edits, earlyStop))
  {
    var sel := Selected(plans[1..], keep[1..], earlyStop, blocks, results);
    var own := OwnScenarios(blocks, machine, setup, edits[1..], earlyStop);
    SelectionRest(plans, keep);
    CoversFirst(first.calls, blocks, edits);
    OwnFirst([first.calls] + blocks, machine, setup, edits, earlyStop, own);
    SelectedFirst(plans, keep, earlyStop, first.calls, blocks, result, results, sel);
    if keep[0] {
      OneSelected(w, machine, setup, plans[0], earlyStop, pool, y, first, result);
      var trials := OwnTrials(first.calls, machine, setup, plans[0], earlyStop, 0, []);
      ShouldBeNext(trials.0, Shortened(plans[0], earlyStop, result),
                   Summarize(plans[0].scenario, plans[0].required, trials.1), sel, own);
    }
  }

  lemma ShouldBeNext(
    c: seq<nat>, a: ScenarioResult, b: ScenarioResult, sel: (seq<seq<nat>>, seq<ScenarioResult>),
    own: (seq<seq<nat>>, seq<ScenarioResult>))
    requires ShouldBe(sel, own) && SameScenario(a, b)
    ensures ShouldBe(([c] + sel.0, [a] + sel.1), ([c] + own.0, [b] + own.1))
  {
  }

  /** The condition on a recording for the replay of a selection, from the recorded verdicts. */
  predicate SelectionInOrder<S>(
    w: World<S>, v: Version, plans: seq<Plan>, keep: seq<bool>, earlyStop: bool, p: Pool, s: S)
    requires |plans| == |keep|
  {
    var rev := Revision(v, v, Selection(plans, keep));
    var results, blocks := Recorded(w, rev, p, s).0.scenarios, Blocks(w, rev, p, s);
    |results| == |plans| &&
    var counts := Flat(Selected(plans, keep, earlyStop, blocks, results).0);
    |counts| == |Flat(blocks)| && InOrder(Flat(blocks), counts)
  }

  /**
   A selection of the recorded scenarios is answered as recorded if and only if the recording is in order for the
   trials the recorded verdicts leave of them; behind a failed card check nothing runs.
   */
  lemma SelectionExactly<S(!new)>(
    w: World<S>, machine: World<nat>, v: Version, plans: seq<Plan>, keep: seq<bool>, earlyStop: bool,
    p: Pool, q: Pool, s: S)
    requires NonePushIn(plans) && |plans| == |keep|
    ensures var rev := Revision(v, v, Selection(plans, keep));
      var blocks := Blocks(w, rev, p, s);
      var calls := ReplayCalls(Returned(Recorded(w, rev, p, s).2.trace), machine, rev, earlyStop, q);
      if CardPassed(v.card) then
        Answered(0, Flat(blocks), 0, calls) == SelectionInOrder(w, v, plans, keep, earlyStop, p, s)
      else Flat(blocks) == [] && calls == []
  {
    var rev := Revision(v, v, Selection(plans, keep));
    ReplayExactly(w, machine, rev, earlyStop, p, q, s);
    if CardPassed(v.card) {
      RecordedSelection(w, machine, v, plans, keep, earlyStop, p, s);
    } else {
      NothingRuns(Running(rev), Blocks(w, rev, p, s));
      var tape := Returned(Recorded(w, rev, p, s).2.trace);
      NothingRuns(Running(rev), ScenarioByScenario(
        TapeWorld(tape, machine), v.setup, Running(rev), false, earlyStop, q, Taped(0, [])).blocks);
    }
  }

  lemma {:induction false} NothingRuns(edits: seq<Edit>, blocks: seq<seq<seq<Reply>>>)
    requires Covers(blocks, edits) && forall i :: 0 <= i < |edits| ==> edits[i] == Edit(None, None)
    ensures Flat(blocks) == []
  {
    if edits != [] { NothingRuns(edits[1..], blocks[1..]); }
  }

  /** The recorded results of a selection, and what its replay should be. */
  lemma RecordedSelection<S(!new)>(
    w: World<S>, machine: World<nat>, v: Version, plans: seq<Plan>, keep: seq<bool>, earlyStop: bool, p: Pool, s: S)
    requires NonePushIn(plans) && |plans| == |keep| && CardPassed(v.card)
    ensures var rev := Revision(v, v, Selection(plans, keep));
      var live, blocks := Recorded(w, rev, p, s).0, Blocks(w, rev, p, s);
      var should := Should(blocks, machine, rev, earlyStop);
      |live.scenarios| == |plans| == |blocks| &&
      var selected := Selected(plans, keep, earlyStop, blocks, live.scenarios);
      Flat(selected.0) == should.0 && SameScenarios(selected.1, should.1)
  {
    var rev := Revision(v, v, Selection(plans, keep));
    assert Running(rev) == rev.edits;
    RunningPresent(rev);
    SuiteByScenario(w, v.setup, v.card, Present(rev.edits, true), rev.edits, true, false, p, Taped(s, []));
    ShouldBeSelected(w, machine, v.setup, plans, keep, earlyStop, p, Taped(s, []));
  }

  // ---------------------------------------------------------------------------------------------
  // What the replay of a selection reports
  // ---------------------------------------------------------------------------------------------

  /** The recorded results of the selected scenarios. */
  function Picked(keep: seq<bool>, results: seq<ScenarioResult>): seq<ScenarioResult>
    requires |keep| == |results|
  {
    if keep == [] then []
    else
      var rest := Picked(keep[1..], results[1..]);
      if keep[0] then [results[0]] + rest else rest
  }

  lemma SameScenariosThrough(a: seq<ScenarioResult>, b: seq<ScenarioResult>, c: seq<ScenarioResult>)
    requires SameScenarios(a, b) && SameScenarios(b, c)
    ensures SameScenarios(a, c)
  {
    forall i | 0 <= i < |a| ensures SameScenario(a[i], c[i]) {
      assert SameScenario(a[i], b[i]) && SameScenario(b[i], c[i]);
      SameTrialsThrough(a[i].trials, b[i].trials, c[i].trials);
    }
  }

  lemma SameTrialsThrough(a: seq<TrialResult>, b: seq<TrialResult>, c: seq<TrialResult>)
    requires SameTrials(a, b) && SameTrials(b, c)
    ensures SameTrials(a, c)
  {
    forall i | 0 <= i < |a| ensures SameTrial(a[i], c[i]) { assert SameTrial(a[i], b[i]) && SameTrial(b[i], c[i]); }
  }

  /** Results of full runs. */
  predicate Summaries(plans: seq<Plan>, results: seq<ScenarioResult>) {
    |plans| == |results| && forall i :: 0 <= i < |plans| ==>
      && |results[i].trials| == plans[i].scenario.trials
      && results[i] == Summarize(plans[i].scenario, plans[i].required, results[i].trials)
  }

  predicate NoLatency(plans: seq<Plan>) {
    forall i :: 0 <= i < |plans| ==> plans[i].scenario.latency.None?
  }

  /** The selected scenarios keep their recorded verdicts, wherever they stop. */
  lemma {:induction false} SelectedVerdicts(
    plans: seq<Plan>, keep: seq<bool>, earlyStop: bool, blocks: seq<seq<seq<Reply>>>, results: seq<ScenarioResult>)
    requires |plans| == |keep| == |blocks| && Summaries(plans, results) && NoLatency(plans)
    ensures var selected, picked := Selected(plans, keep, earlyStop, blocks, results).1, Picked(keep, results);
      |selected| == |picked| && forall i :: 0 <= i < |picked| ==>
        selected[i].passed == picked[i].passed && selected[i].latency.None?
  {
    if plans != [] {
      assert Summaries(plans[1..], results[1..]) by {
        assert forall i :: 0 <= i < |plans| - 1 ==> plans[1..][i] == plans[i + 1] && results[1..][i] == results[i + 1];
      }
      SelectedVerdicts(plans[1..], keep[1..], earlyStop, blocks[1..], results[1..]);
      CutKeepsVerdict(plans[0].scenario, plans[0].required, earlyStop, results[0].trials, 0);
    }
  }

  lemma {:induction false} RecordedSummaries<S>(
    w: World<S>, setup: Setup, plans: seq<Plan>, keep: seq<bool>, pool: Pool, y: Taped<S>)
    requires |plans| == |keep|
    ensures Summaries(plans, ScenarioByScenario(w, setup, Selection(plans, keep), true, false, pool, y).results)
  {
    if plans != [] {
      var edits, plan := Selection(plans, keep), plans[0];
      var first := TrialByTrial(w, setup, plan, false, Width(edits[0]), 0, [], pool, y);
      SelectionRest(plans, keep);
      RecordedFirst(w, setup, edits, pool, y, plan, Width(edits[0]));
      RecordedExtends(w, setup, plan, first.calls, first.trials, [], pool, y);
      RecordedSummaries(w, setup, plans[1..], keep[1..], first.pool, first.y);
    }
  }

  /**
   Then the replay reports of every selected scenario the recorded trials up to where it stops, turn by turn, and
   without latency blocks the recorded verdict.
   */
  lemma SelectionReproduces<S(!new)>(
    w: World<S>, machine: World<nat>, v: Version, plans: seq<Plan>, keep: seq<bool>, earlyStop: bool,
    p: Pool, q: Pool, s: S)
    requires NonePushIn(plans) && |plans| == |keep| && CardPassed(v.card)
    requires SelectionInOrder(w, v, plans, keep, earlyStop, p, s)
    ensures var rev := Revision(v, v, Selection(plans, keep));
      var (live, _, y) := Recorded(w, rev, p, s);
      var replay := Replayed(Returned(y.trace), machine, rev, earlyStop, q).0;
      var selected := Selected(plans, keep, earlyStop, Blocks(w, rev, p, s), live.scenarios).1;
      && SameScenarios(selected, replay.scenarios)
      && replay.passed == AllScenariosPassed(replay.scenarios)
      && (NoLatency(plans) ==> SameVerdicts(Picked(keep, live.scenarios), replay.scenarios))
  {
    var rev := Revision(v, v, Selection(plans, keep));
    var (live, _, y) := Recorded(w, rev, p, s);
    var blocks, replay := Blocks(w, rev, p, s), Replayed(Returned(y.trace), machine, rev, earlyStop, q).0;
    var selected, should :=
      Selected(plans, keep, earlyStop, blocks, live.scenarios), Should(blocks, machine, rev, earlyStop);
    RecordedSelection(w, machine, v, plans, keep, earlyStop, p, s);
    ReplayReproduces(w, machine, rev, earlyStop, p, q, s);
    SameScenariosThrough(selected.1, should.1, replay.scenarios);
    if NoLatency(plans) { VerdictsSelected(w, v, plans, keep, earlyStop, p, s, replay.scenarios); }
  }

  predicate SameVerdicts(a: seq<ScenarioResult>, b: seq<ScenarioResult>) {
    |a| == |b| && forall i :: 0 <= i < |a| ==> a[i].passed == b[i].passed
  }

  lemma VerdictsSelected<S(!new)>(
    w: World<S>, v: Version, plans: seq<Plan>, keep: seq<bool>, earlyStop: bool, p: Pool, s: S,
    replayed: seq<ScenarioResult>)
    requires |plans| == |keep| && CardPassed(v.card) && NoLatency(plans)
    requires SelectionInOrder(w, v, plans, keep, earlyStop, p, s)
    requires var rev := Revision(v, v, Selection(plans, keep));
      SameScenarios(
        Selected(plans, keep, earlyStop, Blocks(w, rev, p, s), Recorded(w, rev, p, s).0.scenarios).1, replayed)
    ensures SameVerdicts(
      Picked(keep, Recorded(w, Revision(v, v, Selection(plans, keep)), p, s).0.scenarios), replayed)
  {
    var rev := Revision(v, v, Selection(plans, keep));
    var results, blocks := Recorded(w, rev, p, s).0.scenarios, Blocks(w, rev, p, s);
    assert Running(rev) == rev.edits;
    RunningPresent(rev);
    SuiteByScenario(w, v.setup, v.card, Present(rev.edits, true), rev.edits, true, false, p, Taped(s, []));
    RecordedSummaries(w, v.setup, plans, keep, p, Taped(s, []));
    SelectedVerdicts(plans, keep, earlyStop, blocks, results);
    var selected := Selected(plans, keep, earlyStop, blocks, results).1;
    forall i | 0 <= i < |replayed| ensures selected[i].passed == replayed[i].passed {
      assert SameScenario(selected[i], replayed[i]);
    }
  }
}

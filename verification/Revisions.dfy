/**
 A contract that is recorded and a revision of it that is replayed: scenarios may be left out, added or changed in
 place. The calls of both runs, trial by trial, and the replay as it should be, in which every trial is answered by
 what was recorded for it.
 */
module Revisions {
  import opened Wrappers
  import opened Sequences
  import opened Protocol
  import opened Runner
  import opened Scenarios
  import opened Traces
  import opened Replay

  /** A scenario as it was recorded, and as it is replayed. */
  datatype Edit = Edit(was: Option<Plan>, now: Option<Plan>)

  function TrialsOf(plan: Option<Plan>): nat { if plan.Some? then plan.value.scenario.trials else 0 }

  /** The number of trials that are considered of a scenario. */
  function Width(e: Edit): nat {
    if TrialsOf(e.was) < TrialsOf(e.now) then TrialsOf(e.now) else TrialsOf(e.was)
  }

  function Side(e: Edit, recorded: bool): Option<Plan> { if recorded then e.was else e.now }

  /** The scenarios of one of the two contracts. */
  function Present(edits: seq<Edit>, recorded: bool): seq<Plan> {
    if edits == [] then []
    else
      var rest := Present(edits[1..], recorded);
      if Side(edits[0], recorded).Some? then [Side(edits[0], recorded).value] + rest else rest
  }

  // ---------------------------------------------------------------------------------------------
  // Trial by trial
  // ---------------------------------------------------------------------------------------------

  /** Whether the j-th trial is run, after these. */
  predicate Goes(plan: Plan, earlyStop: bool, done: seq<TrialResult>, j: nat) {
    |done| == j < plan.scenario.trials && (done == [] || !StopsEarly(plan.scenario, plan.required, earlyStop, done))
  }

  /** A scenario's trials up to a width, with the calls each of them makes; those not run make none. */
  datatype Ran<S> = Ran(calls: seq<seq<Reply>>, trials: seq<TrialResult>, pool: Pool, y: Taped<S>)

  function TrialByTrial<S>(
    w: World<S>, setup: Setup, plan: Plan, earlyStop: bool, width: nat, j: nat, done: seq<TrialResult>, pool: Pool,
    y: Taped<S>)
    : (r: Ran<S>)
    requires j <= width
    ensures |r.calls| == width - j
    decreases width - j
  {
    if j == width then Ran([], done, pool, y)
    else if Goes(plan, earlyStop, done, j) then
      var (trial, pool1, y1) := TrialRun(Recording(w), setup, plan.scenario.turns, j + 1, pool, y);
      var r := TrialByTrial(w, setup, plan, earlyStop, width, j + 1, done + [trial], pool1, y1);
      r.(calls := [Behind(y.trace, y1.trace)] + r.calls)
    else
      var r := TrialByTrial(w, setup, plan, earlyStop, width, j + 1, done, pool, y);
      r.(calls := [[]] + r.calls)
  }

  /** One trial against the calls that were recorded for it, and the number of calls it makes. */
  function OwnTrial(own: seq<Reply>, machine: World<nat>, setup: Setup, turns: seq<Turn>, j: nat): (TrialResult, nat) {
    var (trial, _, y) :=
      TrialRun(Recording(ScriptWorld(Own(own), machine)), setup, turns, j + 1, Pool(Missing, {}), Taped(0, []));
    (trial, |y.trace|)
  }

  /** A scenario, each trial against its own calls. */
  function OwnTrials(
    block: seq<seq<Reply>>, machine: World<nat>, setup: Setup, plan: Plan, earlyStop: bool, j: nat,
    done: seq<TrialResult>)
    : (r: (seq<nat>, seq<TrialResult>))
    requires j <= |block|
    ensures |r.0| == |block| - j
    decreases |block| - j
  {
    if j == |block| then ([], done)
    else if Goes(plan, earlyStop, done, j) then
      var (trial, count) := OwnTrial(block[j], machine, setup, plan.scenario.turns, j);
      var (counts, trials) := OwnTrials(block, machine, setup, plan, earlyStop, j + 1, done + [trial]);
      ([count] + counts, trials)
    else
      var (counts, trials) := OwnTrials(block, machine, setup, plan, earlyStop, j + 1, done);
      ([0] + counts, trials)
  }

  lemma {:induction false} HaltedTrials<S>(
    w: World<S>, setup: Setup, plan: Plan, earlyStop: bool, width: nat, j: nat, done: seq<TrialResult>, pool: Pool,
    y: Taped<S>)
    requires |done| <= j <= width && !Goes(plan, earlyStop, done, j)
    ensures var r := TrialByTrial(w, setup, plan, earlyStop, width, j, done, pool, y);
      r.trials == done && r.pool == pool && r.y == y
    decreases width - j
  {
    if j < width { HaltedTrials(w, setup, plan, earlyStop, width, j + 1, done, pool, y); }
  }

  /** These are the trials of the loop. */
  lemma {:induction false} TrialsAreLoop<S>(
    w: World<S>, setup: Setup, plan: Plan, earlyStop: bool, width: nat, done: seq<TrialResult>, pool: Pool, y: Taped<S>)
    requires |done| <= plan.scenario.trials <= width
    requires done == [] || !StopsEarly(plan.scenario, plan.required, earlyStop, done)
    ensures var r := TrialByTrial(w, setup, plan, earlyStop, width, |done|, done, pool, y);
      (r.trials, r.pool, r.y)
      == TrialLoop(Recording(w), setup, plan.scenario, plan.required, earlyStop, done, pool, y)
    decreases width - |done|
  {
    var sc, j := plan.scenario, |done|;
    if j == sc.trials {
      HaltedTrials(w, setup, plan, earlyStop, width, j, done, pool, y);
    } else {
      var (trial, pool1, y1) := TrialRun(Recording(w), setup, sc.turns, j + 1, pool, y);
      var next := done + [trial];
      LoopStep(Recording(w), setup, sc, plan.required, earlyStop, done, pool, y, trial, pool1, y1);
      if StopsEarly(sc, plan.required, earlyStop, next) {
        HaltedTrials(w, setup, plan, earlyStop, width, j + 1, next, pool1, y1);
      } else {
        TrialsAreLoop(w, setup, plan, earlyStop, width, next, pool1, y1);
      }
    }
  }

  lemma TraceGrows(before: seq<Reply>, after: seq<Reply>, rest: seq<seq<Reply>>, end: seq<Reply>)
    requires before <= after && end == after + Flat(rest)
    ensures end == before + Flat([Behind(before, after)] + rest)
  {
    var calls := Behind(before, after);
    assert after == before + calls;
    FlatFirst(calls, rest);
    Associative(before, calls, Flat(rest));
  }

  lemma TrialGoes<S>(
    w: World<S>, setup: Setup, plan: Plan, earlyStop: bool, width: nat, j: nat, done: seq<TrialResult>, pool: Pool,
    y: Taped<S>, trial: TrialResult, pool1: Pool, y1: Taped<S>)
    requires j < width && Goes(plan, earlyStop, done, j)
    requires (trial, pool1, y1) == TrialRun(Recording(w), setup, plan.scenario.turns, j + 1, pool, y)
    ensures var r := TrialByTrial(w, setup, plan, earlyStop, width, j, done, pool, y);
      var rest := TrialByTrial(w, setup, plan, earlyStop, width, j + 1, done + [trial], pool1, y1);
      r.y == rest.y && r.calls == [Behind(y.trace, y1.trace)] + rest.calls
  {
  }

  lemma TrialHalts<S>(
    w: World<S>, setup: Setup, plan: Plan, earlyStop: bool, width: nat, j: nat, done: seq<TrialResult>, pool: Pool,
    y: Taped<S>)
    requires j < width && !Goes(plan, earlyStop, done, j)
    ensures var r := TrialByTrial(w, setup, plan, earlyStop, width, j, done, pool, y);
      var rest := TrialByTrial(w, setup, plan, earlyStop, width, j + 1, done, pool, y);
      r.y == rest.y && r.calls == [[]] + rest.calls
  {
  }

  /** The calls are the trace. */
  lemma {:induction false} CallsAreTrace<S(!new)>(
    w: World<S>, setup: Setup, plan: Plan, earlyStop: bool, width: nat, j: nat, done: seq<TrialResult>, pool: Pool,
    y: Taped<S>)
    requires j <= width
    ensures var r := TrialByTrial(w, setup, plan, earlyStop, width, j, done, pool, y);
      r.y.trace == y.trace + Flat(r.calls)
    decreases width - j
  {
    if j < width {
      if Goes(plan, earlyStop, done, j) {
        var (trial, pool1, y1) := TrialRun(Recording(w), setup, plan.scenario.turns, j + 1, pool, y);
        TrialGrows(w, setup, plan.scenario.turns, j + 1, pool, y);
        TrialGoes(w, setup, plan, earlyStop, width, j, done, pool, y, trial, pool1, y1);
        CallsAreTrace(w, setup, plan, earlyStop, width, j + 1, done + [trial], pool1, y1);
        var rest := TrialByTrial(w, setup, plan, earlyStop, width, j + 1, done + [trial], pool1, y1);
        TraceGrows(y.trace, y1.trace, rest.calls, rest.y.trace);
      } else {
        TrialHalts(w, setup, plan, earlyStop, width, j, done, pool, y);
        CallsAreTrace(w, setup, plan, earlyStop, width, j + 1, done, pool, y);
        FlatFirst([], TrialByTrial(w, setup, plan, earlyStop, width, j + 1, done, pool, y).calls);
      }
    }
  }

  // ---------------------------------------------------------------------------------------------
  // Scenario by scenario
  // ---------------------------------------------------------------------------------------------

  datatype RanAll<S> = RanAll(blocks: seq<seq<seq<Reply>>>, results: seq<ScenarioResult>, pool: Pool, y: Taped<S>)

  function Silent(width: nat): (block: seq<seq<Reply>>)
    ensures |block| == width
  {
    seq(width, _ => [])
  }

  predicate Covers(blocks: seq<seq<seq<Reply>>>, edits: seq<Edit>) {
    |blocks| == |edits| && forall i :: 0 <= i < |edits| ==> |blocks[i]| == Width(edits[i])
  }

  /** A run of one of the two contracts, with its calls by scenario and trial. */
  function ScenarioByScenario<S>(
    w: World<S>, setup: Setup, edits: seq<Edit>, recorded: bool, earlyStop: bool, pool: Pool, y: Taped<S>)
    : (r: RanAll<S>)
    ensures Covers(r.blocks, edits)
  {
    if edits == [] then RanAll([], [], pool, y)
    else
      var plan, width := Side(edits[0], recorded), Width(edits[0]);
      if plan.None? then
        var r := ScenarioByScenario(w, setup, edits[1..], recorded, earlyStop, pool, y);
        r.(blocks := [Silent(width)] + r.blocks)
      else
        var first := TrialByTrial(w, setup, plan.value, earlyStop, width, 0, [], pool, y);
        var result := Summarize(plan.value.scenario, plan.value.required, first.trials);
        var r := ScenarioByScenario(w, setup, edits[1..], recorded, earlyStop, first.pool, first.y);
        r.(blocks := [first.calls] + r.blocks, results := [result] + r.results)
  }

  /** The replay as it should be: the calls each trial makes when it is answered by what was recorded for it. */
  function OwnScenarios(
    blocks: seq<seq<seq<Reply>>>, machine: World<nat>, setup: Setup, edits: seq<Edit>, earlyStop: bool)
    : (r: (seq<seq<nat>>, seq<ScenarioResult>))
    requires Covers(blocks, edits)
    ensures |r.0| == |edits| && forall i :: 0 <= i < |edits| ==> |r.0[i]| == Width(edits[i])
  {
    if edits == [] then ([], [])
    else
      var (counts, results) := OwnScenarios(blocks[1..], machine, setup, edits[1..], earlyStop);
      var plan := edits[0].now;
      if plan.None? then ([seq(Width(edits[0]), _ => 0)] + counts, results)
      else
        var (first, trials) := OwnTrials(blocks[0], machine, setup, plan.value, earlyStop, 0, []);
        ([first] + counts, [Summarize(plan.value.scenario, plan.value.required, trials)] + results)
  }

  lemma {:induction false} SilentFlat(width: nat)
    ensures Flat(Silent(width)) == []
  {
    if width > 0 {
      assert Silent(width) == [[]] + Silent(width - 1);
      SilentFlat(width - 1);
      FlatFirst([], Silent(width - 1));
    }
  }

  lemma TracePart<T>(y: seq<T>, part: seq<seq<T>>, y1: seq<T>, rest: seq<seq<seq<T>>>, end: seq<T>)
    requires y1 == y + Flat(part) && end == y1 + Flat(Flat(rest))
    ensures end == y + Flat(Flat([part] + rest))
  {
    FlatFirst(part, rest);
    FlatConcat(part, Flat(rest));
    Associative(y, Flat(part), Flat(Flat(rest)));
  }

  /** The blocks are the trace of the run. */
  lemma {:induction false} BlocksAreTrace<S(!new)>(
    w: World<S>, setup: Setup, edits: seq<Edit>, recorded: bool, earlyStop: bool, pool: Pool, y: Taped<S>)
    ensures var r := ScenarioByScenario(w, setup, edits, recorded, earlyStop, pool, y);
      r.y.trace == y.trace + Flat(Flat(r.blocks))
  {
    if edits != [] {
      var plan, width := Side(edits[0], recorded), Width(edits[0]);
      if plan.None? {
        var r := ScenarioByScenario(w, setup, edits[1..], recorded, earlyStop, pool, y);
        BlocksAreTrace(w, setup, edits[1..], recorded, earlyStop, pool, y);
        SilentFlat(width);
        TracePart(y.trace, Silent(width), y.trace, r.blocks, r.y.trace);
      } else {
        var first := TrialByTrial(w, setup, plan.value, earlyStop, width, 0, [], pool, y);
        var r := ScenarioByScenario(w, setup, edits[1..], recorded, earlyStop, first.pool, first.y);
        CallsAreTrace(w, setup, plan.value, earlyStop, width, 0, [], pool, y);
        BlocksAreTrace(w, setup, edits[1..], recorded, earlyStop, first.pool, first.y);
        TracePart(y.trace, first.calls, first.y.trace, r.blocks, r.y.trace);
      }
    }
  }

  /** And the results are those of the suite. */
  lemma {:induction false} ResultsAreSuite<S>(
    w: World<S>, setup: Setup, edits: seq<Edit>, recorded: bool, earlyStop: bool, pool: Pool, y: Taped<S>,
    plans: seq<Plan>, done: seq<ScenarioResult>)
    requires |done| <= |plans| && plans[|done|..] == Present(edits, recorded)
    ensures var r := ScenarioByScenario(w, setup, edits, recorded, earlyStop, pool, y);
      (done + r.results, r.pool, r.y) == SuiteLoop(Recording(w), setup, plans, earlyStop, done, pool, y)
    decreases |edits|
  {
    if edits == [] {
      assert done + [] == done;
    } else {
      var plan, width := Side(edits[0], recorded), Width(edits[0]);
      if plan.None? {
        ResultsAreSuite(w, setup, edits[1..], recorded, earlyStop, pool, y, plans, done);
      } else {
        var first := TrialByTrial(w, setup, plan.value, earlyStop, width, 0, [], pool, y);
        var result := Summarize(plan.value.scenario, plan.value.required, first.trials);
        var rest := ScenarioByScenario(w, setup, edits[1..], recorded, earlyStop, first.pool, first.y).results;
        TrialsAreLoop(w, setup, plan.value, earlyStop, width, [], pool, y);
        assert plans[|done|..][0] == plan.value && plans[|done|..][1..] == plans[|done| + 1..];
        SuiteStep(Recording(w), setup, plans, earlyStop, done, pool, y, result, first.pool, first.y);
        ResultsAreSuite(
          w, setup, edits[1..], recorded, earlyStop, first.pool, first.y, plans, done + [result]);
        Associative(done, [result], rest);
      }
    }
  }
}

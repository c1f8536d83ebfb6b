/**
 The JUnit report: a test case for the card, for every trial and for every latency check, and the counts
 in the attributes of the suite.
 */
module Report {
  import opened Sequences
  import opened Wrappers
  import opened Decimal
  import opened Runner
  import opened Scenarios
  import opened TurnReports
  import Scheduler

  datatype Element = Silent | Failure | Error | Skipped

  datatype TestCase = TestCase(name: string, element: Element)

  /** The attributes as they are counted, and the cases that are emitted. */
  datatype TestSuite = TestSuite(
    tests: nat, failures: nat, errors: nat, skipped: Option<nat>, cases: seq<TestCase>)

  // ---------------------------------------------------------------------------------------------
  // Counted attributes
  // ---------------------------------------------------------------------------------------------

  predicate EnoughPassed(r: ScenarioResult) { r.passedTrials >= r.required }

  function FailedTrials(r: ScenarioResult, n: nat): nat
    requires n <= |r.trials|
  {
    if n == 0 then 0
    else
      var trial := r.trials[n - 1];
      FailedTrials(r, n - 1) + if !trial.passed && trial.error.None? && !EnoughPassed(r) then 1 else 0
  }

  function ErroredTrials(r: ScenarioResult, n: nat): nat
    requires n <= |r.trials|
  {
    if n == 0 then 0
    else ErroredTrials(r, n - 1) + if r.trials[n - 1].error.Some? && !EnoughPassed(r) then 1 else 0
  }

  function ToleratedTrials(r: ScenarioResult, n: nat): nat
    requires n <= |r.trials|
  {
    if n == 0 then 0
    else ToleratedTrials(r, n - 1) + if !r.trials[n - 1].passed && EnoughPassed(r) then 1 else 0
  }

  function LatencyFailed(r: ScenarioResult): nat {
    if r.latency.Some? && !r.latency.value.passed then 1 else 0
  }

  function SumTests(rs: seq<ScenarioResult>): nat {
    if rs == [] then 0
    else
      var r := rs[|rs| - 1];
      SumTests(rs[..|rs| - 1]) + |r.trials| + if r.latency.Some? then 1 else 0
  }

  function SumFailures(rs: seq<ScenarioResult>): nat {
    if rs == [] then 0
    else
      var r := rs[|rs| - 1];
      SumFailures(rs[..|rs| - 1]) + FailedTrials(r, |r.trials|) + LatencyFailed(r)
  }

  function SumErrors(rs: seq<ScenarioResult>): nat {
    if rs == [] then 0
    else SumErrors(rs[..|rs| - 1]) + ErroredTrials(rs[|rs| - 1], |rs[|rs| - 1].trials|)
  }

  function SumTolerated(rs: seq<ScenarioResult>): nat {
    if rs == [] then 0
    else SumTolerated(rs[..|rs| - 1]) + ToleratedTrials(rs[|rs| - 1], |rs[|rs| - 1].trials|)
  }

  // ---------------------------------------------------------------------------------------------
  // Emitted cases
  // ---------------------------------------------------------------------------------------------

  predicate HasFailures(trial: TrialResult) {
    exists i :: 0 <= i < |trial.turns| && trial.turns[i].failures != []
  }

  function TrialName(r: ScenarioResult, trial: TrialResult): string {
    if |r.trials| > 1 then r.name + " [trial " + Numeral(trial.index) + "]" else r.name
  }

  function TrialElement(r: ScenarioResult, trial: TrialResult): Element {
    if !trial.passed && EnoughPassed(r) then Skipped
    else if trial.error.Some? then Error
    else if HasFailures(trial) then Failure
    else Silent
  }

  function TrialCase(r: ScenarioResult, trial: TrialResult): TestCase {
    TestCase(TrialName(r, trial), TrialElement(r, trial))
  }

  function TrialCases(r: ScenarioResult, n: nat): seq<TestCase>
    requires n <= |r.trials|
  {
    if n == 0 then [] else TrialCases(r, n - 1) + [TrialCase(r, r.trials[n - 1])]
  }

  function LatencyCase(name: string, latency: LatencyResult): TestCase {
    TestCase(name + " [latency]", if latency.passed then Silent else Failure)
  }

  function ScenarioCases(r: ScenarioResult): seq<TestCase> {
    var cases := TrialCases(r, |r.trials|);
    if r.latency.None? then cases
    else cases + [LatencyCase(r.name, r.latency.value)]
  }

  function AllCases(rs: seq<ScenarioResult>): seq<TestCase> {
    if rs == [] then [] else AllCases(rs[..|rs| - 1]) + ScenarioCases(rs[|rs| - 1])
  }

  function CardCases(card: Option<CardResult>): seq<TestCase> {
    if card.None? then [] else [TestCase("Agent Card", if card.value.passed then Silent else Failure)]
  }

  predicate CardFailed(result: SuiteResult) { result.card.Some? && !result.card.value.passed }

  /** The element of one trial: none, a failure, an error, or skipped when the scenario passed without it. */
  method RenderTrial(r: ScenarioResult, trial: TrialResult) returns (c: TestCase)
    ensures c == TrialCase(r, trial)
  {
    var element := Silent;
    if !trial.passed && r.passedTrials >= r.required {
      element := Skipped;
    } else if trial.error.Some? {
      element := Error;
    } else if HasFailures(trial) {
      element := Failure;
    }
    return TestCase(TrialName(r, trial), element);
  }

  /** The cases of one scenario: its trials and its latency check. */
  method RenderScenario(r: ScenarioResult) returns (cases: seq<TestCase>)
    ensures cases == ScenarioCases(r)
  {
    cases := [];
    for n := 0 to |r.trials|
      invariant cases == TrialCases(r, n)
    {
      var rendered := RenderTrial(r, r.trials[n]);
      cases := cases + [rendered];
    }
    if r.latency.Some? {
      cases := cases + [LatencyCase(r.name, r.latency.value)];
    }
  }

  lemma NextScenario(rs: seq<ScenarioResult>, i: nat, head: seq<TestCase>, cases: seq<TestCase>)
    requires i < |rs| && cases == head + AllCases(rs[..i])
    ensures cases + ScenarioCases(rs[i]) == head + AllCases(rs[..i + 1])
  {
    var earlier, these := AllCases(rs[..i]), ScenarioCases(rs[i]);
    assert rs[..i + 1][..i] == rs[..i];
    assert AllCases(rs[..i + 1]) == earlier + these;
    Associative(head, earlier, these);
  }

  method RenderJunit(result: SuiteResult) returns (suite: TestSuite)
    ensures suite.tests == SumTests(result.scenarios) + if result.card.Some? then 1 else 0
    ensures suite.failures == SumFailures(result.scenarios) + if CardFailed(result) then 1 else 0
    ensures suite.errors == SumErrors(result.scenarios)
    ensures suite.skipped ==
      if SumTolerated(result.scenarios) > 0 then Some(SumTolerated(result.scenarios)) else None
    ensures suite.cases == CardCases(result.card) + AllCases(result.scenarios)
    ensures Consistent(result) ==>
      && suite.tests == |suite.cases|
      && suite.failures == Count(suite.cases, Failure) && suite.errors == Count(suite.cases, Error)
      && (if suite.skipped.Some? then suite.skipped.value else 0) == Count(suite.cases, Skipped)
      && (suite.failures + suite.errors == 0 <==> result.passed)
  {
    var cases := [];
    if result.card.Some? {
      cases := [TestCase("Agent Card", if result.card.value.passed then Silent else Failure)];
    }
    ghost var head := cases;
    var rs := result.scenarios;
    for i := 0 to |rs|
      invariant cases == head + AllCases(rs[..i])
    {
      var rendered := RenderScenario(rs[i]);
      NextScenario(rs, i, head, cases);
      cases := cases + rendered;
    }
    assert rs[..|rs|] == rs;
    var tolerated := SumTolerated(rs);
    if Consistent(result) {
      CountsAgree(result, cases);
      ReportIsVerdict(result, cases);
    }
    return TestSuite(
      SumTests(rs) + (if result.card.Some? then 1 else 0),
      SumFailures(rs) + (if CardFailed(result) then 1 else 0),
      SumErrors(rs),
      if tolerated > 0 then Some(tolerated) else None,
      cases);
  }

  // ---------------------------------------------------------------------------------------------
  // Results a runner builds
  // ---------------------------------------------------------------------------------------------

  /** A trial passed exactly if it raised no error and no turn lists a failure. */
  predicate TrialConsistent(trial: TrialResult) {
    trial.passed <==> trial.error.None? && !HasFailures(trial)
  }

  predicate TrialsConsistent(trials: seq<TrialResult>) {
    forall i :: 0 <= i < |trials| ==> TrialConsistent(trials[i])
  }

  /** A scenario that missed its number has a failed trial, and its verdict is that on number and latency. */
  predicate ScenarioConsistent(r: ScenarioResult) {
    && TrialsConsistent(r.trials)
    && (!EnoughPassed(r) ==> Failed(Verdicts(r.trials)) > 0)
    && (r.passed <==> EnoughPassed(r) && (r.latency.None? || r.latency.value.passed))
  }

  predicate ScenariosConsistent(rs: seq<ScenarioResult>) {
    forall i :: 0 <= i < |rs| ==> ScenarioConsistent(rs[i])
  }

  predicate Consistent(result: SuiteResult) {
    && ScenariosConsistent(result.scenarios)
    && (result.passed <==> !CardFailed(result) && AllScenariosPassed(result.scenarios))
  }

  /**
   The case of a trial: silent exactly if it passed, skipped exactly if the scenario had enough without it, and else
   an error exactly if there was one.
   */
  lemma CaseExactly(r: ScenarioResult, trial: TrialResult)
    requires TrialConsistent(trial)
    ensures var e := TrialCase(r, trial).element;
      && (e == Silent <==> trial.passed)
      && (e == Skipped <==> !trial.passed && r.passedTrials >= r.required)
      && (e == Error <==> trial.error.Some? && r.passedTrials < r.required)
      && (e == Failure <==> !trial.passed && trial.error.None? && r.passedTrials < r.required)
  {
  }

  // ---------------------------------------------------------------------------------------------
  // The counts are those of the emitted elements
  // ---------------------------------------------------------------------------------------------

  function Count(cases: seq<TestCase>, e: Element): nat {
    if cases == [] then 0
    else Count(cases[..|cases| - 1], e) + if cases[|cases| - 1].element == e then 1 else 0
  }

  lemma {:induction false} CountConcat(a: seq<TestCase>, b: seq<TestCase>, e: Element)
    ensures Count(a + b, e) == Count(a, e) + Count(b, e)
    decreases |b|
  {
    if b == [] {
      assert a + b == a;
    } else {
      CountConcat(a, b[..|b| - 1], e);
      assert (a + b)[..|a + b| - 1] == a + b[..|b| - 1];
    }
  }

  lemma CountOne(c: TestCase, e: Element)
    ensures Count([c], e) == if c.element == e then 1 else 0
  {
    assert [c][..0] == [];
  }

  /** The number a suite's attributes report for an element. */
  function Reported(r: ScenarioResult, n: nat, e: Element): nat
    requires n <= |r.trials|
  {
    match e
    case Failure => FailedTrials(r, n)
    case Error => ErroredTrials(r, n)
    case Skipped => ToleratedTrials(r, n)
    case Silent => 0
  }

  lemma TrialCounted(r: ScenarioResult, n: nat, e: Element)
    requires TrialsConsistent(r.trials) && 0 < n <= |r.trials| && !e.Silent?
    ensures Reported(r, n, e) == Reported(r, n - 1, e) + if TrialElement(r, r.trials[n - 1]) == e then 1 else 0
  {
    assert TrialConsistent(r.trials[n - 1]);
  }

  lemma {:induction false} TrialCounts(r: ScenarioResult, n: nat, e: Element)
    requires TrialsConsistent(r.trials) && n <= |r.trials| && !e.Silent?
    ensures Count(TrialCases(r, n), e) == Reported(r, n, e) && |TrialCases(r, n)| == n
  {
    if n > 0 {
      var c := TrialCase(r, r.trials[n - 1]);
      TrialCounts(r, n - 1, e);
      TrialCounted(r, n, e);
      CountConcat(TrialCases(r, n - 1), [c], e);
      CountOne(c, e);
    }
  }

  lemma ScenarioCounts(r: ScenarioResult, e: Element)
    requires TrialsConsistent(r.trials) && !e.Silent?
    ensures Count(ScenarioCases(r), e)
         == Reported(r, |r.trials|, e) + if e.Failure? then LatencyFailed(r) else 0
    ensures |ScenarioCases(r)| == |r.trials| + if r.latency.Some? then 1 else 0
  {
    TrialCounts(r, |r.trials|, e);
    if r.latency.Some? {
      var last := LatencyCase(r.name, r.latency.value);
      CountConcat(TrialCases(r, |r.trials|), [last], e);
      CountOne(last, e);
    }
  }

  function ReportedSum(rs: seq<ScenarioResult>, e: Element): nat {
    match e
    case Failure => SumFailures(rs)
    case Error => SumErrors(rs)
    case Skipped => SumTolerated(rs)
    case Silent => 0
  }

  lemma {:induction false} AllCounts(rs: seq<ScenarioResult>, e: Element)
    requires ScenariosConsistent(rs) && !e.Silent?
    ensures Count(AllCases(rs), e) == ReportedSum(rs, e) && |AllCases(rs)| == SumTests(rs)
  {
    if rs != [] {
      var init, last := rs[..|rs| - 1], rs[|rs| - 1];
      AllCounts(init, e);
      assert ScenarioConsistent(last);
      ScenarioCounts(last, e);
      CountConcat(AllCases(init), ScenarioCases(last), e);
    }
  }

  /** Every attribute of the suite is the number of elements of its kind. */
  lemma CountsAgree(result: SuiteResult, cases: seq<TestCase>)
    requires Consistent(result) && cases == CardCases(result.card) + AllCases(result.scenarios)
    ensures |cases| == SumTests(result.scenarios) + if result.card.Some? then 1 else 0
    ensures Count(cases, Failure) == SumFailures(result.scenarios) + if CardFailed(result) then 1 else 0
    ensures Count(cases, Error) == SumErrors(result.scenarios)
    ensures Count(cases, Skipped) == SumTolerated(result.scenarios)
  {
    CardCounts(result, cases, Failure);
    CardCounts(result, cases, Error);
    CardCounts(result, cases, Skipped);
  }

  lemma CardCounts(result: SuiteResult, cases: seq<TestCase>, e: Element)
    requires Consistent(result) && cases == CardCases(result.card) + AllCases(result.scenarios) && !e.Silent?
    ensures |cases| == SumTests(result.scenarios) + if result.card.Some? then 1 else 0
    ensures Count(cases, e)
         == ReportedSum(result.scenarios, e) + if e.Failure? && CardFailed(result) then 1 else 0
  {
    AllCounts(result.scenarios, e);
    CountConcat(CardCases(result.card), AllCases(result.scenarios), e);
    if result.card.Some? { CountOne(CardCases(result.card)[0], e); }
  }

  // ---------------------------------------------------------------------------------------------
  // The report and the verdict
  // ---------------------------------------------------------------------------------------------

  lemma {:induction false} NothingReportedWhenEnough(r: ScenarioResult, n: nat)
    requires n <= |r.trials| && EnoughPassed(r)
    ensures FailedTrials(r, n) + ErroredTrials(r, n) == 0
  {
    if n > 0 { NothingReportedWhenEnough(r, n - 1); }
  }

  lemma {:induction false} FailuresReportedWhenShort(r: ScenarioResult, n: nat)
    requires TrialsConsistent(r.trials) && n <= |r.trials| && !EnoughPassed(r)
    ensures FailedTrials(r, n) + ErroredTrials(r, n) == Failed(Verdicts(r.trials)[..n])
  {
    if n > 0 {
      FailuresReportedWhenShort(r, n - 1);
      assert TrialConsistent(r.trials[n - 1]);
      assert Verdicts(r.trials)[..n][..n - 1] == Verdicts(r.trials)[..n - 1];
    }
  }

  lemma ScenarioVerdict(r: ScenarioResult)
    requires ScenarioConsistent(r)
    ensures FailedTrials(r, |r.trials|) + ErroredTrials(r, |r.trials|) + LatencyFailed(r) == 0 <==> r.passed
  {
    if EnoughPassed(r) {
      NothingReportedWhenEnough(r, |r.trials|);
    } else {
      FailuresReportedWhenShort(r, |r.trials|);
      assert Verdicts(r.trials)[..|r.trials|] == Verdicts(r.trials);
    }
  }

  lemma {:induction false} ScenarioVerdicts(rs: seq<ScenarioResult>)
    requires ScenariosConsistent(rs)
    ensures SumFailures(rs) + SumErrors(rs) == 0 <==> AllScenariosPassed(rs)
  {
    if rs != [] {
      var init, last := rs[..|rs| - 1], rs[|rs| - 1];
      ScenarioVerdicts(init);
      assert ScenarioConsistent(last);
      ScenarioVerdict(last);
      assert AllScenariosPassed(rs) <==> AllScenariosPassed(init) && last.passed by {
        assert forall i :: 0 <= i < |init| ==> init[i] == rs[i];
      }
    }
  }

  /** No failure and no error is reported exactly when the suite passed. */
  lemma ReportIsVerdict(result: SuiteResult, cases: seq<TestCase>)
    requires Consistent(result) && cases == CardCases(result.card) + AllCases(result.scenarios)
    ensures Count(cases, Failure) + Count(cases, Error) == 0 <==> result.passed
  {
    CountsAgree(result, cases);
    ScenarioVerdicts(result.scenarios);
  }

  // ---------------------------------------------------------------------------------------------
  // The runner builds consistent results
  // ---------------------------------------------------------------------------------------------

  predicate TurnConsistent(r: TurnResult) { r.passed <==> r.failures == [] }

  lemma ReportsConsistent(setup: Setup)
    ensures Guaranteed(setup, TurnConsistent)
  {
  }

  lemma ResultConsistent(t: Trial, index: nat, durationMs: int)
    requires t.phase.Ended? && All(TurnConsistent, t.results)
    ensures TrialConsistent(ResultOf(t, index, durationMs))
  {
    var r := ResultOf(t, index, durationMs);
    assert forall i :: 0 <= i < |r.turns| ==> TurnConsistent(r.turns[i]);
    if r.error.None? && HasFailures(r) {
      var i :| 0 <= i < |r.turns| && r.turns[i].failures != [];
      assert !r.turns[i].passed;
    }
  }

  lemma TrialRunConsistent<S>(w: World<S>, setup: Setup, turns: seq<Turn>, index: nat, pool: Pool, s: S)
    ensures TrialConsistent(TrialRun(w, setup, turns, index, pool, s).0)
  {
    var (t, pool1, s1) := TurnLoop(w, setup, turns, Start(w.uuid(s)), pool, s);
    TurnLoopEnds(w, setup, turns, Start(w.uuid(s)), pool, s);
    ReportsConsistent(setup);
    TrialReports(TurnConsistent, w, setup, turns, index, pool, s);
    ResultConsistent(t, index, w.elapsed(s, s1));
  }

  lemma {:induction false} TrialsRunConsistent<S>(
    w: World<S>, setup: Setup, sc: Scenario, required: int, earlyStop: bool,
    done: seq<TrialResult>, pool: Pool, s: S)
    requires |done| <= sc.trials && TrialsConsistent(done)
    ensures var trials := TrialLoop(w, setup, sc, required, earlyStop, done, pool, s).0;
      && TrialsConsistent(trials)
      && (|trials| == sc.trials || Failed(Verdicts(trials)) > sc.trials - required)
    decreases sc.trials - |done|
  {
    if |done| < sc.trials {
      var (r, pool1, s1) := TrialRun(w, setup, sc.turns, |done| + 1, pool, s);
      TrialRunConsistent(w, setup, sc.turns, |done| + 1, pool, s);
      LoopStep(w, setup, sc, required, earlyStop, done, pool, s, r, pool1, s1);
      if !StopsEarly(sc, required, earlyStop, done + [r]) {
        TrialsRunConsistent(w, setup, sc, required, earlyStop, done + [r], pool1, s1);
      }
    }
  }

  /** What a scenario is summarised to is consistent, if all its trials ran or too many failed. */
  lemma SummaryConsistent(sc: Scenario, required: int, trials: seq<TrialResult>)
    requires TrialsConsistent(trials) && required <= sc.trials
    requires |trials| == sc.trials || Failed(Verdicts(trials)) > sc.trials - required
    ensures ScenarioConsistent(Summarize(sc, required, trials))
  {
  }

  predicate RequiredWithin(plans: seq<Plan>) {
    forall i :: 0 <= i < |plans| ==> plans[i].required <= plans[i].scenario.trials
  }

  lemma {:induction false} SuiteLoopConsistent<S>(
    w: World<S>, setup: Setup, plans: seq<Plan>, earlyStop: bool, done: seq<ScenarioResult>, pool: Pool, s: S)
    requires |done| <= |plans| && RequiredWithin(plans) && ScenariosConsistent(done)
    ensures ScenariosConsistent(SuiteLoop(w, setup, plans, earlyStop, done, pool, s).0)
    decreases |plans| - |done|
  {
    if |done| < |plans| {
      var plan := plans[|done|];
      var (r, pool1, s1) := ScenarioRun(w, setup, plan, earlyStop, pool, s);
      TrialsRunConsistent(w, setup, plan.scenario, plan.required, earlyStop, [], pool, s);
      SummaryConsistent(plan.scenario, plan.required, r.trials);
      SuiteLoopConsistent(w, setup, plans, earlyStop, done + [r], pool1, s1);
    }
  }

  /** So the report of a sequential run has the run's verdict, and counts what it shows. */
  lemma RunsAreReported<S>(
    w: World<S>, setup: Setup, card: Option<CardResult>, plans: seq<Plan>, earlyStop: bool, pool: Pool, s: S)
    requires RequiredWithin(plans)
    ensures Consistent(SuiteRun(w, setup, card, plans, earlyStop, pool, s).0)
  {
    SuiteLoopConsistent(w, setup, plans, earlyStop, [], pool, s);
  }

  /** The results of parallel trials, in the order of their indices. */
  function ParallelResults(y: Scheduler.System, durations: seq<int>): (trials: seq<TrialResult>)
    requires Scheduler.AllEnded(y.slots) && |durations| == |y.slots|
    ensures |trials| == |y.slots|
  {
    seq(|y.slots|, i requires 0 <= i < |y.slots| =>
      assert !Scheduler.InFlight(y.slots[i]);
      ResultOf(y.slots[i].trial.value, i + 1, durations[i]))
  }

  lemma {:induction false} SlotsStay(
    limit: nat, setup: Setup, turns: seq<Turn>, y: Scheduler.System, moves: seq<Scheduler.Move>)
    ensures |Scheduler.Run(limit, setup, turns, y, moves).slots| == |y.slots|
  {
    if moves != [] { SlotsStay(limit, setup, turns, y, moves[..|moves| - 1]); }
  }

  lemma SlotConsistent(setup: Setup, turns: seq<Turn>, status: ReceiverStatus, slot: Scheduler.Slot, index: nat, d: int)
    requires slot.trial.Some? && !Scheduler.InFlight(slot)
    requires slot.trial == Scheduler.Alone(setup, turns, status, slot.log)
    ensures TrialConsistent(ResultOf(slot.trial.value, index, d))
  {
    ReportsConsistent(setup);
    AloneReports(TurnConsistent, setup, turns, status, slot.log);
    ResultConsistent(slot.trial.value, index, d);
  }

  lemma ParallelResultsConsistent(
    setup: Setup, turns: seq<Turn>, status: ReceiverStatus, y: Scheduler.System, durations: seq<int>)
    requires Scheduler.AllEnded(y.slots) && |durations| == |y.slots|
    requires forall i :: 0 <= i < |y.slots| ==>
      y.slots[i].trial == Scheduler.Alone(setup, turns, status, y.slots[i].log)
    ensures TrialsConsistent(ParallelResults(y, durations))
  {
    forall i | 0 <= i < |y.slots| ensures TrialConsistent(ParallelResults(y, durations)[i]) {
      SlotConsistent(setup, turns, status, y.slots[i], i + 1, durations[i]);
    }
  }

  /** The parallel path builds consistent scenario results as well. */
  lemma ParallelConsistent(
    limit: nat, setup: Setup, sc: Scenario, required: int, found: Pool, moves: seq<Scheduler.Move>,
    durations: seq<int>, y: Scheduler.System)
    requires WellShaped(sc.turns) && limit <= Scheduler.MAX_PARALLEL_TRIALS && found.paths == {}
    requires required <= sc.trials && |durations| == sc.trials
    requires y == Scheduler.Run(limit, setup, sc.turns, Scheduler.Initial(sc.trials, found), moves)
    requires Scheduler.AllEnded(y.slots)
    ensures |y.slots| == sc.trials && ScenarioConsistent(Summarize(sc, required, ParallelResults(y, durations)))
  {
    SlotsStay(limit, setup, sc.turns, Scheduler.Initial(sc.trials, found), moves);
    Scheduler.ParallelTrials(limit, setup, sc.turns, sc.trials, found, moves);
    ParallelResultsConsistent(setup, sc.turns, found.status, y, durations);
    SummaryConsistent(sc, required, ParallelResults(y, durations));
  }

  // ---------------------------------------------------------------------------------------------
  // A suite in parallel
  // ---------------------------------------------------------------------------------------------

  /** The trials of one scenario after a schedule. */
  function ParallelTrials(
    limit: nat, setup: Setup, plan: Plan, found: Pool, moves: seq<Scheduler.Move>): Scheduler.System
  {
    Scheduler.Run(limit, setup, plan.scenario.turns, Scheduler.Initial(plan.scenario.trials, found), moves)
  }

  /** A schedule in which all trials of the scenario end, and a duration for each of them. */
  ghost predicate RunsToEnd(
    limit: nat, setup: Setup, plan: Plan, found: Pool, moves: seq<Scheduler.Move>, durations: seq<int>)
  {
    Scheduler.AllEnded(ParallelTrials(limit, setup, plan, found, moves).slots) && |durations| == plan.scenario.trials
  }

  /** The results of scenarios that follow each other, the trials of each in parallel on the receiver as it is left. */
  ghost predicate RanInParallel(
    limit: nat, setup: Setup, plans: seq<Plan>, moves: seq<seq<Scheduler.Move>>, durations: seq<seq<int>>,
    found: Pool, rs: seq<ScenarioResult>)
    decreases |plans|
  {
    |plans| == |moves| == |durations| == |rs| &&
    (plans == [] ||
     (var y := ParallelTrials(limit, setup, plans[0], found, moves[0]);
      && RunsToEnd(limit, setup, plans[0], found, moves[0], durations[0])
      && |durations[0]| == |y.slots|
      && rs[0] == Summarize(plans[0].scenario, plans[0].required, ParallelResults(y, durations[0]))
      && RanInParallel(limit, setup, plans[1..], moves[1..], durations[1..], y.pool, rs[1..])))
  }

  /** The receiver a scenario leaves to the next one is the one it found. */
  lemma ScenarioRestoresPool(limit: nat, setup: Setup, plan: Plan, found: Pool, moves: seq<Scheduler.Move>)
    requires WellShaped(plan.scenario.turns) && limit <= Scheduler.MAX_PARALLEL_TRIALS && found.paths == {}
    requires Scheduler.AllEnded(ParallelTrials(limit, setup, plan, found, moves).slots)
    ensures ParallelTrials(limit, setup, plan, found, moves).pool == found
  {
    Scheduler.ParallelTrials(limit, setup, plan.scenario.turns, plan.scenario.trials, found, moves);
  }

  lemma {:induction false} ParallelScenariosConsistent(
    limit: nat, setup: Setup, plans: seq<Plan>, moves: seq<seq<Scheduler.Move>>, durations: seq<seq<int>>,
    found: Pool, rs: seq<ScenarioResult>)
    requires limit <= Scheduler.MAX_PARALLEL_TRIALS && found.paths == {}
    requires AllShaped(plans) && RequiredWithin(plans)
    requires RanInParallel(limit, setup, plans, moves, durations, found, rs)
    ensures ScenariosConsistent(rs)
    decreases |plans|
  {
    if plans != [] {
      var y := ParallelTrials(limit, setup, plans[0], found, moves[0]);
      ParallelConsistent(limit, setup, plans[0].scenario, plans[0].required, found, moves[0], durations[0], y);
      ScenarioRestoresPool(limit, setup, plans[0], found, moves[0]);
      ParallelScenariosConsistent(limit, setup, plans[1..], moves[1..], durations[1..], y.pool, rs[1..]);
      forall i | 0 <= i < |rs| ensures ScenarioConsistent(rs[i]) {
        if i > 0 { assert rs[1..][i - 1] == rs[i]; }
      }
    }
  }

  /** So the report of a suite whose scenarios ran in parallel has its verdict as well. */
  lemma ParallelSuiteConsistent(
    limit: nat, setup: Setup, card: Option<CardResult>, plans: seq<Plan>, moves: seq<seq<Scheduler.Move>>,
    durations: seq<seq<int>>, found: Pool, rs: seq<ScenarioResult>, durationMs: int)
    requires limit <= Scheduler.MAX_PARALLEL_TRIALS && found.paths == {}
    requires AllShaped(plans) && RequiredWithin(plans)
    requires if card.Some? && !card.value.passed then rs == []
      else RanInParallel(limit, setup, plans, moves, durations, found, rs)
    ensures Consistent(SuiteResult(
      (card.None? || card.value.passed) && AllScenariosPassed(rs), durationMs, card, rs))
  {
    if card.None? || card.value.passed {
      ParallelScenariosConsistent(limit, setup, plans, moves, durations, found, rs);
    }
  }
}

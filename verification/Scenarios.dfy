/**
 Scenarios and the suite: trials one after the other until enough have run, the verdict on their number
 and their durations, and the verdict on all scenarios.
 */
module Scenarios {
  import opened Sequences
  import opened Wrappers
  import opened Runner
  import opened Statistics
  import Latency
  import Lifetimes
  import Push

  // ---------------------------------------------------------------------------------------------
  // Contracts and results
  // ---------------------------------------------------------------------------------------------

  /** Upper bounds on percentiles of trial durations, in seconds. */
  datatype LatencyRule = LatencyRule(p50: Option<real>, p95: Option<real>)

  datatype Scenario = Scenario(
    name: string, turns: seq<Turn>, trials: nat, passRate: PassRate, latency: Option<LatencyRule>)

  datatype LatencyResult = LatencyResult(
    passed: bool, samples: nat, p50: Option<int>, p95: Option<int>, failures: seq<string>)

  datatype ScenarioResult = ScenarioResult(
    name: string,
    passed: bool,
    passedTrials: nat,
    required: int,
    trials: seq<TrialResult>,
    latency: Option<LatencyResult>)

  datatype CardResult = CardResult(passed: bool, failures: seq<string>)

  datatype SuiteResult = SuiteResult(
    passed: bool, durationMs: int, card: Option<CardResult>, scenarios: seq<ScenarioResult>)

  function Verdicts(trials: seq<TrialResult>): (v: seq<bool>)
    ensures |v| == |trials| && forall i :: 0 <= i < |v| ==> v[i] == trials[i].passed
  {
    seq(|trials|, i requires 0 <= i < |trials| => trials[i].passed)
  }

  function Passed(verdicts: seq<bool>): (n: nat)
    ensures n <= |verdicts|
  {
    if verdicts == [] then 0
    else Passed(verdicts[..|verdicts| - 1]) + if verdicts[|verdicts| - 1] then 1 else 0
  }

  function Failed(verdicts: seq<bool>): nat { |verdicts| - Passed(verdicts) }

  // ---------------------------------------------------------------------------------------------
  // Latency
  // ---------------------------------------------------------------------------------------------

  const ALL_ERRORED := "cannot evaluate latency because every trial errored"

  /** Durations of the trials that ended without an error. */
  function Durations(trials: seq<TrialResult>): seq<int> {
    if trials == [] then []
    else
      var before, last := Durations(trials[..|trials| - 1]), trials[|trials| - 1];
      if last.error.None? then before + [last.durationMs] else before
  }

  function Finished(trials: seq<TrialResult>): (flags: seq<bool>)
    ensures |flags| == |trials|
  {
    seq(|trials|, i requires 0 <= i < |trials| => trials[i].error.None?)
  }

  /** The durations of all trials without an error, in order. */
  ghost predicate DurationsAt(ds: seq<int>, at: seq<nat>, trials: seq<TrialResult>) {
    && |ds| == |at| && Enumerates(at, Finished(trials))
    && forall k :: 0 <= k < |ds| ==> ds[k] == trials[at[k]].durationMs
  }

  ghost predicate DurationsListed(ds: seq<int>, trials: seq<TrialResult>) {
    exists at: seq<nat> :: DurationsAt(ds, at, trials)
  }

  lemma OneMoreDuration(ds: seq<int>, at: seq<nat>, trials: seq<TrialResult>, last: TrialResult)
    requires DurationsAt(ds, at, trials) && last.error.None?
    ensures DurationsAt(ds + [last.durationMs], at + [|trials|], trials + [last])
  {
    EnumeratesMore(at, Finished(trials), true);
    assert Finished(trials + [last]) == Finished(trials) + [true];
    forall k | 0 <= k < |ds| ensures ds[k] == (trials + [last])[at[k]].durationMs {
      assert at[k] < |Finished(trials)|;
    }
  }

  lemma SameDurations(ds: seq<int>, at: seq<nat>, trials: seq<TrialResult>, last: TrialResult)
    requires DurationsAt(ds, at, trials) && last.error.Some?
    ensures DurationsAt(ds, at, trials + [last])
  {
    EnumeratesMore(at, Finished(trials), false);
    assert Finished(trials + [last]) == Finished(trials) + [false];
    forall k | 0 <= k < |ds| ensures ds[k] == (trials + [last])[at[k]].durationMs {
      assert at[k] < |Finished(trials)|;
    }
  }

  lemma {:induction false} DurationsInOrder(trials: seq<TrialResult>)
    ensures DurationsListed(Durations(trials), trials)
  {
    if trials == [] {
      assert DurationsAt(Durations(trials), [], trials);
    } else {
      var init, last := trials[..|trials| - 1], trials[|trials| - 1];
      DurationsInOrder(init);
      var at: seq<nat> :| DurationsAt(Durations(init), at, init);
      assert trials == init + [last];
      if last.error.None? {
        OneMoreDuration(Durations(init), at, init, last);
      } else {
        SameDurations(Durations(init), at, init, last);
      }
    }
  }

  /** The percentile is at most so many seconds, if there is a maximum. */
  ghost predicate Keeps(ds: seq<int>, p: real, percentile: Option<int>, maximum: Option<real>) {
    && percentile.Some? && Latency.IsPercentile(ds, p, percentile.value)
    && (maximum.Some? ==> percentile.value as real <= 1000.0 * maximum.value)
  }

  /** A latency check passes on the durations of the trials without an error, of which there has to be one. */
  lemma LatencyJudged(rule: LatencyRule, trials: seq<TrialResult>, ds: seq<int>)
    requires ds == Durations(trials)
    ensures DurationsListed(ds, trials)
    ensures var r := LatencyOf(rule, ds);
      && r.samples == |ds|
      && (r.passed <==> ds != [] && Keeps(ds, 0.5, r.p50, rule.p50) && Keeps(ds, 0.95, r.p95, rule.p95))
  {
    DurationsInOrder(trials);
    if ds != [] {
      Latency.QuantileIsPercentile(ds, 0.5);
      Latency.QuantileIsPercentile(ds, 0.95);
    }
  }

  predicate Exceeds(actual: int, maximum: Option<real>) {
    maximum.Some? && actual as real > maximum.value * 1000.0
  }

  method EvaluateLatency(rule: LatencyRule, trials: seq<TrialResult>) returns (r: LatencyResult)
    ensures r.samples == |Durations(trials)|
    ensures Durations(trials) == [] ==> !r.passed && r.p50.None? && r.p95.None? && r.failures == [ALL_ERRORED]
    ensures Durations(trials) != [] ==>
      && r.p50 == Some(Latency.Quantile(Durations(trials), 0.5))
      && r.p95 == Some(Latency.Quantile(Durations(trials), 0.95))
      && (r.passed <==> !Exceeds(r.p50.value, rule.p50) && !Exceeds(r.p95.value, rule.p95))
      && |r.failures| ==
        (if Exceeds(r.p50.value, rule.p50) then 1 else 0) + (if Exceeds(r.p95.value, rule.p95) then 1 else 0)
    ensures r == LatencyOf(rule, Durations(trials))
  {
    var durations := [];
    for i := 0 to |trials|
      invariant durations == Durations(trials[..i])
    {
      assert trials[..i + 1][..i] == trials[..i];
      if trials[i].error.None? { durations := durations + [trials[i].durationMs]; }
    }
    assert trials[..|trials|] == trials;
    if durations == [] { return LatencyResult(false, 0, None, None, [ALL_ERRORED]); }
    var p50 := Latency.Percentile(durations, 0.5);
    var p95 := Latency.Percentile(durations, 0.95);
    var failures := [];
    if Exceeds(p50, rule.p50) { failures := failures + ["p50 trial latency exceeded"]; }
    if Exceeds(p95, rule.p95) { failures := failures + ["p95 trial latency exceeded"]; }
    return LatencyResult(failures == [], |durations|, Some(p50), Some(p95), failures);
  }

  function LatencyOf(rule: LatencyRule, durations: seq<int>): LatencyResult {
    if durations == [] then LatencyResult(false, 0, None, None, [ALL_ERRORED])
    else
      var p50, p95 := Latency.Quantile(durations, 0.5), Latency.Quantile(durations, 0.95);
      var low := if Exceeds(p50, rule.p50) then ["p50 trial latency exceeded"] else [];
      var failures := if Exceeds(p95, rule.p95) then low + ["p95 trial latency exceeded"] else low;
      LatencyResult(failures == [], |durations|, Some(p50), Some(p95), failures)
  }

  /** The order in which trials ended does not matter. */
  lemma LatencyIgnoresOrder(rule: LatencyRule, ds: seq<int>, es: seq<int>)
    requires multiset(ds) == multiset(es)
    ensures LatencyOf(rule, ds) == LatencyOf(rule, es)
  {
    assert |ds| == |multiset(ds)| && |es| == |multiset(es)|;
    if ds != [] {
      Latency.QuantileOfPermutation(ds, es, 0.5);
      Latency.QuantileOfPermutation(ds, es, 0.95);
    }
  }

  /** Faster trials never fail a latency check that slower ones passed. */
  lemma FasterPasses(rule: LatencyRule, slow: seq<int>, fast: seq<int>)
    requires |slow| == |fast| && forall i :: 0 <= i < |fast| ==> fast[i] <= slow[i]
    ensures LatencyOf(rule, slow).passed ==> LatencyOf(rule, fast).passed
  {
    if slow != [] {
      Latency.QuantileMonotoneInSamples(fast, slow, 0.5);
      Latency.QuantileMonotoneInSamples(fast, slow, 0.95);
    }
  }

  // ---------------------------------------------------------------------------------------------
  // One scenario
  // ---------------------------------------------------------------------------------------------

  /** The result of a scenario, from its trials in order. */
  function Summarize(sc: Scenario, required: int, trials: seq<TrialResult>): ScenarioResult {
    var passed := Passed(Verdicts(trials));
    var latency := if sc.latency.Some? then Some(LatencyOf(sc.latency.value, Durations(trials))) else None;
    ScenarioResult(
      sc.name, passed >= required && (latency.None? || latency.value.passed), passed, required, trials, latency)
  }

  /** Stop when more trials have failed than the pass rate tolerates, unless durations are checked. */
  predicate StopsEarly(sc: Scenario, required: int, earlyStop: bool, trials: seq<TrialResult>) {
    earlyStop && sc.latency.None? && Failed(Verdicts(trials)) > sc.trials - required
  }

  /** The trials still to run after `done`. */
  function TrialLoop<S>(
    w: World<S>, setup: Setup, sc: Scenario, required: int, earlyStop: bool,
    done: seq<TrialResult>, pool: Pool, s: S)
    : (seq<TrialResult>, Pool, S)
    requires |done| <= sc.trials
    decreases sc.trials - |done|
  {
    if |done| == sc.trials then (done, pool, s)
    else
      var (r, pool1, s1) := TrialRun(w, setup, sc.turns, |done| + 1, pool, s);
      if StopsEarly(sc, required, earlyStop, done + [r]) then (done + [r], pool1, s1)
      else TrialLoop(w, setup, sc, required, earlyStop, done + [r], pool1, s1)
  }

  /** The sequential path of a scenario. */
  method RunTrials<S>(
    w: World<S>, setup: Setup, sc: Scenario, required: int, earlyStop: bool, receiver: Push.PushReceiver?, s0: S)
    returns (trials: seq<TrialResult>, s: S)
    modifies receiver
    ensures (trials, PoolOf(receiver), s)
         == TrialLoop(w, setup, sc, required, earlyStop, [], old(PoolOf(receiver)), s0)
  {
    trials, s := [], s0;
    ghost var expected := TrialLoop(w, setup, sc, required, earlyStop, [], PoolOf(receiver), s);
    var index := 1;
    while index <= sc.trials
      invariant |trials| == index - 1 <= sc.trials
      invariant expected == TrialLoop(w, setup, sc, required, earlyStop, trials, PoolOf(receiver), s)
    {
      var trial;
      trial, s := RunTrial(w, setup, sc.turns, index, receiver, s);
      trials := trials + [trial];
      if StopsEarly(sc, required, earlyStop, trials) { return; }
      index := index + 1;
    }
  }

  // ---------------------------------------------------------------------------------------------
  // Early stop
  // ---------------------------------------------------------------------------------------------

  lemma {:induction false} PassedConcat(u: seq<bool>, v: seq<bool>)
    ensures Passed(u + v) == Passed(u) + Passed(v)
    decreases |v|
  {
    if v == [] {
      assert u + v == u;
    } else {
      PassedConcat(u, v[..|v| - 1]);
      assert (u + v)[..|u + v| - 1] == u + v[..|v| - 1];
    }
  }

  lemma {:induction false} AllPassing(n: nat)
    ensures Passed(seq(n, _ => true)) == n
  {
    if n > 0 {
      AllPassing(n - 1);
      assert seq(n, _ => true)[..n - 1] == seq(n - 1, _ => true);
    }
  }

  /** No continuation to n trials can reach the required number of successes. */
  ghost predicate Hopeless(verdicts: seq<bool>, n: nat, required: int)
    requires |verdicts| <= n
  {
    forall rest: seq<bool> :: |rest| == n - |verdicts| ==> Passed(verdicts + rest) < required
  }

  /** The counting test of the loop decides exactly this. */
  lemma HopelessByCount(verdicts: seq<bool>, n: nat, required: int)
    requires |verdicts| <= n
    ensures Failed(verdicts) > n - required <==> Hopeless(verdicts, n, required)
  {
    if Failed(verdicts) > n - required {
      forall rest: seq<bool> | |rest| == n - |verdicts| ensures Passed(verdicts + rest) < required {
        PassedConcat(verdicts, rest);
      }
    } else {
      var best := seq(n - |verdicts|, _ => true);
      AllPassing(n - |verdicts|);
      PassedConcat(verdicts, best);
      assert Passed(verdicts + best) >= required;
    }
  }

  lemma {:induction false} LoopExtends<S>(
    w: World<S>, setup: Setup, sc: Scenario, required: int, earlyStop: bool,
    done: seq<TrialResult>, pool: Pool, s: S)
    requires |done| <= sc.trials
    ensures var r := TrialLoop(w, setup, sc, required, earlyStop, done, pool, s).0;
      done <= r && |r| <= sc.trials && (!earlyStop ==> |r| == sc.trials)
    decreases sc.trials - |done|
  {
    if |done| < sc.trials {
      var (r, pool1, s1) := TrialRun(w, setup, sc.turns, |done| + 1, pool, s);
      if !StopsEarly(sc, required, earlyStop, done + [r]) {
        LoopExtends(w, setup, sc, required, earlyStop, done + [r], pool1, s1);
      }
    }
  }

  lemma LoopStep<S>(
    w: World<S>, setup: Setup, sc: Scenario, required: int, earlyStop: bool,
    done: seq<TrialResult>, pool: Pool, s: S, r: TrialResult, pool1: Pool, s1: S)
    requires |done| < sc.trials && (r, pool1, s1) == TrialRun(w, setup, sc.turns, |done| + 1, pool, s)
    ensures TrialLoop(w, setup, sc, required, earlyStop, done, pool, s) ==
      if StopsEarly(sc, required, earlyStop, done + [r]) then (done + [r], pool1, s1)
      else TrialLoop(w, setup, sc, required, earlyStop, done + [r], pool1, s1)
  {
  }

  /** Up to its end the early-stopped run is the full one. */
  lemma {:induction false} EarlyIsPrefix<S>(
    w: World<S>, setup: Setup, sc: Scenario, required: int, done: seq<TrialResult>, pool: Pool, s: S,
    early: seq<TrialResult>, full: seq<TrialResult>)
    requires |done| <= sc.trials && sc.latency.None?
    requires early == TrialLoop(w, setup, sc, required, true, done, pool, s).0
    requires full == TrialLoop(w, setup, sc, required, false, done, pool, s).0
    ensures done <= early <= full && |full| == sc.trials
    ensures |early| < sc.trials ==> Failed(Verdicts(early)) > sc.trials - required
    decreases sc.trials - |done|
  {
    if |done| < sc.trials {
      var (r, pool1, s1) := TrialRun(w, setup, sc.turns, |done| + 1, pool, s);
      var done1 := done + [r];
      LoopStep(w, setup, sc, required, true, done, pool, s, r, pool1, s1);
      LoopStep(w, setup, sc, required, false, done, pool, s, r, pool1, s1);
      if StopsEarly(sc, required, true, done1) {
        LoopExtends(w, setup, sc, required, false, done1, pool1, s1);
      } else {
        EarlyIsPrefix(w, setup, sc, required, done1, pool1, s1, early, full);
      }
    }
  }

  /** Where it went on, the test for stopping was negative. */
  lemma {:induction false} EarlyWentOn<S>(
    w: World<S>, setup: Setup, sc: Scenario, required: int, done: seq<TrialResult>, pool: Pool, s: S,
    early: seq<TrialResult>, k: nat)
    requires |done| < k < |early| && |done| <= sc.trials && sc.latency.None?
    requires early == TrialLoop(w, setup, sc, required, true, done, pool, s).0
    ensures Failed(Verdicts(early[..k])) <= sc.trials - required
    decreases sc.trials - |done|
  {
    if |done| < sc.trials {
      var (r, pool1, s1) := TrialRun(w, setup, sc.turns, |done| + 1, pool, s);
      var done1 := done + [r];
      LoopStep(w, setup, sc, required, true, done, pool, s, r, pool1, s1);
      LoopExtends(w, setup, sc, required, true, done1, pool1, s1);
      if !StopsEarly(sc, required, true, done1) {
        if k == |done1| {
          assert early[..k] == done1;
        } else {
          EarlyWentOn(w, setup, sc, required, done1, pool1, s1, early, k);
        }
      }
    }
  }

  /** The trials of a full run that a run with early stop has, from the k-th on. */
  function Cut(sc: Scenario, required: int, earlyStop: bool, trials: seq<TrialResult>, k: nat): seq<TrialResult>
    requires k <= |trials|
    decreases |trials| - k
  {
    if k == |trials| then trials
    else if StopsEarly(sc, required, earlyStop, trials[..k + 1]) then trials[..k + 1]
    else Cut(sc, required, earlyStop, trials, k + 1)
  }

  lemma {:induction false} LoopIsCut<S>(
    w: World<S>, setup: Setup, sc: Scenario, required: int, earlyStop: bool,
    done: seq<TrialResult>, pool: Pool, s: S, full: seq<TrialResult>)
    requires |done| <= sc.trials && full == TrialLoop(w, setup, sc, required, false, done, pool, s).0
    ensures |done| <= |full|
    ensures TrialLoop(w, setup, sc, required, earlyStop, done, pool, s).0
         == Cut(sc, required, earlyStop, full, |done|)
    decreases sc.trials - |done|
  {
    if |done| < sc.trials {
      var (r, pool1, s1) := TrialRun(w, setup, sc.turns, |done| + 1, pool, s);
      var done1 := done + [r];
      LoopStep(w, setup, sc, required, earlyStop, done, pool, s, r, pool1, s1);
      LoopStep(w, setup, sc, required, false, done, pool, s, r, pool1, s1);
      LoopExtends(w, setup, sc, required, false, done1, pool1, s1);
      assert full[..|done| + 1] == done1;
      if !StopsEarly(sc, required, earlyStop, done1) {
        LoopIsCut(w, setup, sc, required, earlyStop, done1, pool1, s1, full);
      }
    }
  }

  /** The verdict on the trials of an early-stopped run is the one on all of them. */
  lemma {:induction false} CutKeepsVerdict(
    sc: Scenario, required: int, earlyStop: bool, trials: seq<TrialResult>, k: nat)
    requires sc.latency.None? && k <= |trials| == sc.trials
    ensures var cut := Cut(sc, required, earlyStop, trials, k);
      cut <= trials && Summarize(sc, required, cut).passed == Summarize(sc, required, trials).passed
    decreases |trials| - k
  {
    if k < |trials| {
      if StopsEarly(sc, required, earlyStop, trials[..k + 1]) {
        assert Verdicts(trials[..k + 1]) <= Verdicts(trials);
        SameVerdict(Verdicts(trials[..k + 1]), Verdicts(trials), sc.trials, required);
      } else {
        CutKeepsVerdict(sc, required, earlyStop, trials, k + 1);
      }
    }
  }

  lemma SameVerdict(early: seq<bool>, full: seq<bool>, n: nat, required: int)
    requires early <= full && |full| == n && (|early| < n ==> Failed(early) > n - required)
    ensures Passed(early) >= required <==> Passed(full) >= required
  {
    var rest := full[|early|..];
    assert full == early + rest;
    PassedConcat(early, rest);
    if |early| == n { assert early == full; }
  }

  /** Before the end of an early-stopped run some continuation could still pass. */
  lemma NotHopelessBefore<S>(
    w: World<S>, setup: Setup, sc: Scenario, required: int, pool: Pool, s: S, early: seq<TrialResult>, k: nat)
    requires sc.latency.None? && required <= sc.trials && k < |early| <= sc.trials
    requires early == TrialLoop(w, setup, sc, required, true, [], pool, s).0
    ensures !Hopeless(Verdicts(early[..k]), sc.trials, required)
  {
    if k > 0 { EarlyWentOn(w, setup, sc, required, [], pool, s, early, k); }
    HopelessByCount(Verdicts(early[..k]), sc.trials, required);
  }

  /**
   Stopping early gives the verdict of the full run, and stops exactly at the first trial after which no
   continuation could pass.
   */
  lemma EarlyStop<S>(w: World<S>, setup: Setup, sc: Scenario, required: int, pool: Pool, s: S)
    requires sc.latency.None? && required <= sc.trials
    ensures var early := TrialLoop(w, setup, sc, required, true, [], pool, s).0;
      var full := TrialLoop(w, setup, sc, required, false, [], pool, s).0;
      && early <= full && |full| == sc.trials
      && Summarize(sc, required, early).passed == Summarize(sc, required, full).passed
      && (|early| < sc.trials ==> Hopeless(Verdicts(early), sc.trials, required))
      && forall k :: 0 <= k < |early| ==> !Hopeless(Verdicts(full[..k]), sc.trials, required)
  {
    var early := TrialLoop(w, setup, sc, required, true, [], pool, s).0;
    var full := TrialLoop(w, setup, sc, required, false, [], pool, s).0;
    EarlyIsPrefix(w, setup, sc, required, [], pool, s, early, full);
    assert Verdicts(early) <= Verdicts(full);
    SameVerdict(Verdicts(early), Verdicts(full), sc.trials, required);
    HopelessByCount(Verdicts(early), sc.trials, required);
    forall k | 0 <= k < |early| ensures !Hopeless(Verdicts(full[..k]), sc.trials, required) {
      NotHopelessBefore(w, setup, sc, required, pool, s, early, k);
      assert early[..k] == full[..k];
    }
  }

  /** With a latency block every trial runs. */
  lemma LatencyRunsAll<S>(
    w: World<S>, setup: Setup, sc: Scenario, required: int, earlyStop: bool, pool: Pool, s: S)
    requires sc.latency.Some?
    ensures TrialLoop(w, setup, sc, required, earlyStop, [], pool, s)
         == TrialLoop(w, setup, sc, required, false, [], pool, s)
  {
    LatencyRunsAllFrom(w, setup, sc, required, earlyStop, [], pool, s);
  }

  lemma {:induction false} LatencyRunsAllFrom<S>(
    w: World<S>, setup: Setup, sc: Scenario, required: int, earlyStop: bool,
    done: seq<TrialResult>, pool: Pool, s: S)
    requires sc.latency.Some? && |done| <= sc.trials
    ensures TrialLoop(w, setup, sc, required, earlyStop, done, pool, s)
         == TrialLoop(w, setup, sc, required, false, done, pool, s)
    decreases sc.trials - |done|
  {
    if |done| < sc.trials {
      var (r, pool1, s1) := TrialRun(w, setup, sc.turns, |done| + 1, pool, s);
      LatencyRunsAllFrom(w, setup, sc, required, earlyStop, done + [r], pool1, s1);
    }
  }

  // ---------------------------------------------------------------------------------------------
  // The suite
  // ---------------------------------------------------------------------------------------------

  /** A scenario and the number of its trials that must pass. */
  datatype Plan = Plan(scenario: Scenario, required: int)

  /** What loading a contract guarantees of its scenarios. */
  predicate Accepted(plan: Plan, sqrt: real -> real) {
    var sc := plan.scenario;
    && sc.trials >= 1 && ValidRate(sc.passRate) && WellShaped(sc.turns)
    && RequiredTrials(sc.passRate, sc.trials, sqrt) == Some(plan.required)
  }

  /** An accepted scenario with all trials run meets its pass rate exactly when enough trials passed. */
  lemma EnoughPassedMeetsRate(plan: Plan, sqrt: real -> real, trials: seq<TrialResult>)
    requires IsSquareRoot(sqrt) && Accepted(plan, sqrt)
    requires |trials| == plan.scenario.trials && plan.scenario.latency.None?
    ensures 1 <= plan.required <= plan.scenario.trials
    ensures Summarize(plan.scenario, plan.required, trials).passed
       <==> MeetsRate(plan.scenario.passRate, Passed(Verdicts(trials)), |trials|, sqrt)
  {
    AcceptedIsTotal(plan.scenario.passRate, plan.scenario.trials, sqrt);
    RequiredIsThreshold(plan.scenario.passRate, Passed(Verdicts(trials)), plan.scenario.trials, sqrt);
  }

  function ScenarioRun<S>(w: World<S>, setup: Setup, plan: Plan, earlyStop: bool, pool: Pool, s: S)
    : (ScenarioResult, Pool, S)
  {
    var (trials, pool1, s1) := TrialLoop(w, setup, plan.scenario, plan.required, earlyStop, [], pool, s);
    (Summarize(plan.scenario, plan.required, trials), pool1, s1)
  }

  function SuiteLoop<S>(
    w: World<S>, setup: Setup, plans: seq<Plan>, earlyStop: bool, done: seq<ScenarioResult>, pool: Pool, s: S)
    : (seq<ScenarioResult>, Pool, S)
    requires |done| <= |plans|
    decreases |plans| - |done|
  {
    if |done| == |plans| then (done, pool, s)
    else
      var (r, pool1, s1) := ScenarioRun(w, setup, plans[|done|], earlyStop, pool, s);
      SuiteLoop(w, setup, plans, earlyStop, done + [r], pool1, s1)
  }

  lemma SuiteStep<S>(
    w: World<S>, setup: Setup, plans: seq<Plan>, earlyStop: bool, done: seq<ScenarioResult>, pool: Pool, s: S,
    r: ScenarioResult, pool1: Pool, s1: S)
    requires |done| < |plans| && (r, pool1, s1) == ScenarioRun(w, setup, plans[|done|], earlyStop, pool, s)
    ensures SuiteLoop(w, setup, plans, earlyStop, done, pool, s)
         == SuiteLoop(w, setup, plans, earlyStop, done + [r], pool1, s1)
  {
  }

  predicate AllScenariosPassed(scenarios: seq<ScenarioResult>) {
    forall i :: 0 <= i < |scenarios| ==> scenarios[i].passed
  }

  /** The whole run: nothing but the card check where that fails. */
  function SuiteRun<S>(
    w: World<S>, setup: Setup, card: Option<CardResult>, plans: seq<Plan>, earlyStop: bool, pool: Pool, s: S)
    : (SuiteResult, Pool, S)
  {
    if card.Some? && !card.value.passed then (SuiteResult(false, w.elapsed(s, s), card, []), pool, s)
    else
      var (scenarios, pool1, s1) := SuiteLoop(w, setup, plans, earlyStop, [], pool, s);
      (SuiteResult(AllScenariosPassed(scenarios), w.elapsed(s, s1), card, scenarios), pool1, s1)
  }

  method RunScenario<S>(
    w: World<S>, setup: Setup, plan: Plan, earlyStop: bool, receiver: Push.PushReceiver?, s0: S)
    returns (r: ScenarioResult, s: S)
    modifies receiver
    ensures (r, PoolOf(receiver), s) == ScenarioRun(w, setup, plan, earlyStop, old(PoolOf(receiver)), s0)
  {
    var sc := plan.scenario;
    var trials;
    trials, s := RunTrials(w, setup, sc, plan.required, earlyStop, receiver, s0);
    var passedTrials := Passed(Verdicts(trials));
    var latency := None;
    if sc.latency.Some? {
      var evaluated := EvaluateLatency(sc.latency.value, trials);
      latency := Some(evaluated);
    }
    var passed := passedTrials >= plan.required && (latency.None? || latency.value.passed);
    return ScenarioResult(sc.name, passed, passedTrials, plan.required, trials, latency), s;
  }

  method RunSuite<S>(
    w: World<S>, setup: Setup, cardFailures: Option<seq<string>>, plans: seq<Plan>, earlyStop: bool,
    receiver: Push.PushReceiver?, s0: S)
    returns (r: SuiteResult, s: S)
    modifies receiver
    ensures (r, PoolOf(receiver), s)
         == SuiteRun(w, setup, CardOf(cardFailures), plans, earlyStop, old(PoolOf(receiver)), s0)
  {
    var card := CardOf(cardFailures);
    var scenarios := [];
    s := s0;
    if card.None? || card.value.passed {
      ghost var expected := SuiteLoop(w, setup, plans, earlyStop, [], PoolOf(receiver), s);
      while |scenarios| < |plans|
        invariant |scenarios| <= |plans|
        invariant expected == SuiteLoop(w, setup, plans, earlyStop, scenarios, PoolOf(receiver), s)
      {
        var result;
        result, s := RunScenario(w, setup, plans[|scenarios|], earlyStop, receiver, s);
        scenarios := scenarios + [result];
      }
    }
    var passed := (card.None? || card.value.passed) && AllScenariosPassed(scenarios);
    return SuiteResult(passed, w.elapsed(s0, s), card, scenarios), s;
  }

  function CardOf(failures: Option<seq<string>>): Option<CardResult> {
    if failures.Some? then Some(CardResult(failures.value == [], failures.value)) else None
  }

  // ---------------------------------------------------------------------------------------------
  // The receiver
  // ---------------------------------------------------------------------------------------------

  lemma {:induction false} TrialsLeaveReceiver<S>(
    w: World<S>, setup: Setup, sc: Scenario, required: int, earlyStop: bool,
    done: seq<TrialResult>, pool: Pool, s: S)
    requires WellShaped(sc.turns) && |done| <= sc.trials && forall s' :: w.route(s') !in pool.paths
    ensures TrialLoop(w, setup, sc, required, earlyStop, done, pool, s).1 == pool
    decreases sc.trials - |done|
  {
    if |done| < sc.trials {
      Lifetimes.LeavesReceiver(w, setup, sc.turns, |done| + 1, pool, s);
      var (r, pool1, s1) := TrialRun(w, setup, sc.turns, |done| + 1, pool, s);
      if !StopsEarly(sc, required, earlyStop, done + [r]) {
        TrialsLeaveReceiver(w, setup, sc, required, earlyStop, done + [r], pool1, s1);
      }
    }
  }

  predicate AllShaped(plans: seq<Plan>) {
    forall i :: 0 <= i < |plans| ==> WellShaped(plans[i].scenario.turns)
  }

  /** Every scenario of a sequential run finds the receiver as the first one did. */
  lemma {:induction false} SuiteLeavesReceiver<S>(
    w: World<S>, setup: Setup, plans: seq<Plan>, earlyStop: bool, done: seq<ScenarioResult>, pool: Pool, s: S)
    requires AllShaped(plans) && |done| <= |plans| && forall s' :: w.route(s') !in pool.paths
    ensures SuiteLoop(w, setup, plans, earlyStop, done, pool, s).1 == pool
    decreases |plans| - |done|
  {
    if |done| < |plans| {
      var plan := plans[|done|];
      TrialsLeaveReceiver(w, setup, plan.scenario, plan.required, earlyStop, [], pool, s);
      var (r, pool1, s1) := ScenarioRun(w, setup, plan, earlyStop, pool, s);
      SuiteLeavesReceiver(w, setup, plans, earlyStop, done + [r], pool1, s1);
    }
  }
}

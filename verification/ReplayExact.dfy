/**
 The replay of a recording, possibly under a revised contract: it goes as it should, every trial being answered by
 what was recorded for it, if and only if the recording is in order for the calls that are replayed.
 */
module ReplayExact {
  import opened Wrappers
  import opened Sequences
  import opened Protocol
  import opened Runner
  import opened Scenarios
  import opened Traces
  import opened Replay
  import opened ReplayOrder
  import opened Revisions
  import opened ReplayScripts

  // ---------------------------------------------------------------------------------------------
  // One scenario
  // ---------------------------------------------------------------------------------------------

  /** The trials of the replay go as they should, so far. */
  predicate AllWell(
    block: seq<seq<Reply>>, j: nat, should: (seq<nat>, seq<TrialResult>), calls: seq<seq<Reply>>,
    trials: seq<TrialResult>)
    requires j <= |block|
  {
    AllRepeat(block[j..], should.0, calls) && SameTrials(should.1, trials)
  }

  lemma AllWellNext(
    block: seq<seq<Reply>>, j: nat, count: nat, should: (seq<nat>, seq<TrialResult>), v: seq<Reply>,
    calls: seq<seq<Reply>>, trials: seq<TrialResult>)
    requires j < |block| && AllWell(block, j + 1, should, calls, trials) && Repeats(block[j], count, v)
    ensures AllWell(block, j, ([count] + should.0, should.1), [v] + calls, trials)
  {
    var tracks, counts, all := block[j..], [count] + should.0, [v] + calls;
    forall i | 0 <= i < |tracks| ensures Repeats(tracks[i], counts[i], all[i]) {
      if i > 0 { assert Repeats(block[j + 1..][i - 1], should.0[i - 1], calls[i - 1]); }
    }
  }

  /** In front of a scenario: the tape, and the tracks from the j-th of this scenario on. */
  predicate AtBlock(
    tape: seq<TurnOutcome>, n: nat, block: seq<seq<Reply>>, j: nat, rest: seq<seq<Reply>>, m: nat, counts: seq<nat>)
    requires j <= |block|
  {
    AtTrack(tape, n, block[j..] + rest, m, counts) && InOrder(block[j..] + rest, counts)
  }

  lemma NextTrack(
    tape: seq<TurnOutcome>, n: nat, block: seq<seq<Reply>>, j: nat, rest: seq<seq<Reply>>, m: nat, counts: seq<nat>)
    requires j < |block| && AtBlock(tape, n, block, j, rest, m, counts)
    ensures counts != [] && counts[0] <= |block[j]| && Agrees(Tape(tape), m, block[j][..counts[0]])
    ensures AtBlock(tape, n + |Returned(block[j])|, block, j + 1, rest, Moved(Tape(tape), m, counts[0]), counts[1..])
  {
    var tracks := block[j..] + rest;
    assert tracks[0] == block[j] && tracks[1..] == block[j + 1..] + rest;
    TrackAnswered(tape, n, tracks, m, counts);
  }

  /** One of the two runs makes these numbers of calls. */
  predicate Known(should: seq<nat>, calls: seq<seq<Reply>>, counts: seq<nat>, after: seq<nat>) {
    counts == should + after || counts == Counts(calls) + after
  }

  lemma KnownFirst(
    c: nat, should: seq<nat>, v: seq<Reply>, calls: seq<seq<Reply>>, counts: seq<nat>, after: seq<nat>)
    requires Known([c] + should, [v] + calls, counts, after)
    ensures counts != [] && (c == counts[0] || |v| == counts[0]) && Known(should, calls, counts[1..], after)
  {
    CountsNext([v] + calls);
    assert ([v] + calls)[1..] == calls;
    if counts == ([c] + should) + after {
      assert counts[1..] == should + after;
    } else {
      assert counts == ([|v|] + Counts(calls)) + after;
      assert counts[1..] == Counts(calls) + after;
    }
  }

  lemma OwnStep(
    block: seq<seq<Reply>>, machine: World<nat>, setup: Setup, plan: Plan, earlyStop: bool, j: nat,
    done: seq<TrialResult>, c: nat, next: (seq<nat>, seq<TrialResult>))
    requires j < |block|
    requires
      if Goes(plan, earlyStop, done, j) then
        var own := OwnTrial(block[j], machine, setup, plan.scenario.turns, j);
        c == own.1 && next == OwnTrials(block, machine, setup, plan, earlyStop, j + 1, done + [own.0])
      else c == 0 && next == OwnTrials(block, machine, setup, plan, earlyStop, j + 1, done)
    ensures OwnTrials(block, machine, setup, plan, earlyStop, j, done) == ([c] + next.0, next.1)
  {
  }

  lemma RanStep<S>(
    w: World<S>, setup: Setup, plan: Plan, earlyStop: bool, width: nat, j: nat, done: seq<TrialResult>, pool: Pool,
    y: Taped<S>, v: seq<Reply>, next: Ran<S>)
    requires j < width
    requires
      if Goes(plan, earlyStop, done, j) then
        var (trial, pool1, y1) := TrialRun(Recording(w), setup, plan.scenario.turns, j + 1, pool, y);
        v == Behind(y.trace, y1.trace)
        && next == TrialByTrial(w, setup, plan, earlyStop, width, j + 1, done + [trial], pool1, y1)
      else v == [] && next == TrialByTrial(w, setup, plan, earlyStop, width, j + 1, done, pool, y)
    ensures TrialByTrial(w, setup, plan, earlyStop, width, j, done, pool, y) == next.(calls := [v] + next.calls)
  {
  }

  lemma TracksFrom(block: seq<seq<Reply>>, j: nat)
    requires j < |block|
    ensures |Returned(Flat(block[j..]))| == |Returned(block[j])| + |Returned(Flat(block[j + 1..]))|
  {
    assert block[j..] == [block[j]] + block[j + 1..];
    FlatFirst(block[j], block[j + 1..]);
    ReturnedConcat(block[j], Flat(block[j + 1..]));
  }

  lemma GoesAlike(plan: Plan, earlyStop: bool, done: seq<TrialResult>, done': seq<TrialResult>, j: nat)
    requires SameTrials(done, done')
    ensures Goes(plan, earlyStop, done, j) == Goes(plan, earlyStop, done', j)
  {
    SameStop(plan.scenario, plan.required, earlyStop, done, done');
  }

  lemma KnownAll(should: seq<nat>, calls: seq<seq<Reply>>, counts: seq<nat>, after: seq<nat>)
    requires should == [] && calls == [] && Known(should, calls, counts, after)
    ensures counts == after && counts == should + after
  {
  }

  /** A scenario of the replay, if either run of it makes the calls for which the recording is in order. */
  lemma {:induction false} ScenarioGoesWell(
    tape: seq<TurnOutcome>, machine: World<nat>, setup: Setup, plan: Plan, earlyStop: bool, block: seq<seq<Reply>>,
    j: nat, done: seq<TrialResult>, done': seq<TrialResult>, pool: Pool, z: Taped<nat>, n: nat,
    rest: seq<seq<Reply>>, counts: seq<nat>, after: seq<nat>,
    should: (seq<nat>, seq<TrialResult>), r: Ran<nat>, end: nat)
    requires NoPush(plan.scenario.turns) && SameTrials(done, done') && j <= |block|
    requires AtBlock(tape, n, block, j, rest, z.inner, counts) && end == n + |Returned(Flat(block[j..]))|
    requires should == OwnTrials(block, machine, setup, plan, earlyStop, j, done)
    requires r == TrialByTrial(TapeWorld(tape, machine), setup, plan, earlyStop, |block|, j, done', pool, z)
    requires Known(should.0, r.calls, counts, after)
    ensures counts == should.0 + after && AllWell(block, j, should, r.calls, r.trials)
    ensures AtBlock(tape, end, block, |block|, rest, r.y.inner, after)
    decreases |block| - j, 1
  {
    if j == |block| {
      KnownAll(should.0, r.calls, counts, after);
    } else {
      GoesAlike(plan, earlyStop, done, done', j);
      TracksFrom(block, j);
      var w, turns := TapeWorld(tape, machine), plan.scenario.turns;
      var c, v, next, r1 := 0, [], OwnTrials(block, machine, setup, plan, earlyStop, j + 1, done),
        TrialByTrial(w, setup, plan, earlyStop, |block|, j + 1, done', pool, z);
      if Goes(plan, earlyStop, done, j) {
        var own := OwnTrial(block[j], machine, setup, turns, j);
        var (trial, pool1, z1) := TrialRun(Recording(w), setup, turns, j + 1, pool, z);
        c, v := own.1, Behind(z.trace, z1.trace);
        next := OwnTrials(block, machine, setup, plan, earlyStop, j + 1, done + [own.0]);
        r1 := TrialByTrial(w, setup, plan, earlyStop, |block|, j + 1, done' + [trial], pool1, z1);
        OwnStep(block, machine, setup, plan, earlyStop, j, done, c, next);
        RanStep(w, setup, plan, earlyStop, |block|, j, done', pool, z, v, r1);
        TrialWell(
          tape, machine, setup, plan, earlyStop, block, j, done, done', pool, z, n, rest, counts, after,
          own, trial, pool1, z1, next, r1, end);
      } else {
        OwnStep(block, machine, setup, plan, earlyStop, j, done, c, next);
        RanStep(w, setup, plan, earlyStop, |block|, j, done', pool, z, v, r1);
        TrialLeftOut(
          tape, machine, setup, plan, earlyStop, block, j, done, done', pool, z, n, rest, counts, after, next, r1,
          end);
      }
      AllWellNext(block, j, c, next, v, r1.calls, r1.trials);
    }
  }

  lemma SameTrialsNext(a: seq<TrialResult>, b: seq<TrialResult>, r: TrialResult, r': TrialResult)
    requires SameTrials(a, b) && SameTrial(r, r')
    ensures SameTrials(a + [r], b + [r'])
  {
  }

  /** One trial that is run, in front of the next. */
  lemma TrialStep(
    tape: seq<TurnOutcome>, machine: World<nat>, setup: Setup, turns: seq<Turn>, block: seq<seq<Reply>>,
    j: nat, pool: Pool, z: Taped<nat>, n: nat, rest: seq<seq<Reply>>, counts: seq<nat>, after: seq<nat>,
    own: (TrialResult, nat), trial: TrialResult, z1: Taped<nat>, should: seq<nat>, calls: seq<seq<Reply>>)
    requires NoPush(turns) && j < |block|
    requires AtBlock(tape, n, block, j, rest, z.inner, counts)
    requires own == OwnTrial(block[j], machine, setup, turns, j)
    requires var r := TrialRun(Recording(TapeWorld(tape, machine)), setup, turns, j + 1, pool, z);
      trial == r.0 && z1 == r.2
    requires Known([own.1] + should, [Behind(z.trace, z1.trace)] + calls, counts, after)
    ensures counts != [] && counts[0] == own.1 && Repeats(block[j], own.1, Behind(z.trace, z1.trace))
    ensures SameTrial(own.0, trial) && Known(should, calls, counts[1..], after)
    ensures AtBlock(tape, n + |Returned(block[j])|, block, j + 1, rest, z1.inner, counts[1..])
  {
    KnownFirst(own.1, should, Behind(z.trace, z1.trace), calls, counts, after);
    NextTrack(tape, n, block, j, rest, z.inner, counts);
    TrialGoesWell(Tape(tape), machine, setup, turns, j, block[j], counts[0], pool, z, trial, z1);
  }

  /** A trial that is run, and the rest of the scenario. */
  lemma {:induction false} TrialWell(
    tape: seq<TurnOutcome>, machine: World<nat>, setup: Setup, plan: Plan, earlyStop: bool, block: seq<seq<Reply>>,
    j: nat, done: seq<TrialResult>, done': seq<TrialResult>, pool: Pool, z: Taped<nat>, n: nat,
    rest: seq<seq<Reply>>, counts: seq<nat>, after: seq<nat>,
    own: (TrialResult, nat), trial: TrialResult, pool1: Pool, z1: Taped<nat>,
    next: (seq<nat>, seq<TrialResult>), r1: Ran<nat>, end: nat)
    requires NoPush(plan.scenario.turns) && SameTrials(done, done') && j < |block|
    requires AtBlock(tape, n, block, j, rest, z.inner, counts)
    requires end == n + |Returned(block[j])| + |Returned(Flat(block[j + 1..]))|
    requires own == OwnTrial(block[j], machine, setup, plan.scenario.turns, j)
    requires (trial, pool1, z1)
      == TrialRun(Recording(TapeWorld(tape, machine)), setup, plan.scenario.turns, j + 1, pool, z)
    requires next == OwnTrials(block, machine, setup, plan, earlyStop, j + 1, done + [own.0])
    requires r1 == TrialByTrial(
      TapeWorld(tape, machine), setup, plan, earlyStop, |block|, j + 1, done' + [trial], pool1, z1)
    requires Known([own.1] + next.0, [Behind(z.trace, z1.trace)] + r1.calls, counts, after)
    ensures counts == ([own.1] + next.0) + after && Repeats(block[j], own.1, Behind(z.trace, z1.trace))
    ensures AllWell(block, j + 1, next, r1.calls, r1.trials)
    ensures AtBlock(tape, end, block, |block|, rest, r1.y.inner, after)
    decreases |block| - j, 0
  {
    TrialStep(
      tape, machine, setup, plan.scenario.turns, block, j, pool, z, n, rest, counts, after, own, trial, z1,
      next.0, r1.calls);
    SameTrialsNext(done, done', own.0, trial);
    ScenarioGoesWell(
      tape, machine, setup, plan, earlyStop, block, j + 1, done + [own.0], done' + [trial], pool1, z1,
      n + |Returned(block[j])|, rest, counts[1..], after, next, r1, end);
    assert counts == [own.1] + counts[1..];
    Associative([own.1], next.0, after);
  }

  /** A trial that is not run, and the rest of the scenario. */
  lemma {:induction false} TrialLeftOut(
    tape: seq<TurnOutcome>, machine: World<nat>, setup: Setup, plan: Plan, earlyStop: bool, block: seq<seq<Reply>>,
    j: nat, done: seq<TrialResult>, done': seq<TrialResult>, pool: Pool, z: Taped<nat>, n: nat,
    rest: seq<seq<Reply>>, counts: seq<nat>, after: seq<nat>, next: (seq<nat>, seq<TrialResult>), r1: Ran<nat>,
    end: nat)
    requires NoPush(plan.scenario.turns) && SameTrials(done, done') && j < |block|
    requires AtBlock(tape, n, block, j, rest, z.inner, counts)
    requires end == n + |Returned(block[j])| + |Returned(Flat(block[j + 1..]))|
    requires next == OwnTrials(block, machine, setup, plan, earlyStop, j + 1, done)
    requires r1 == TrialByTrial(TapeWorld(tape, machine), setup, plan, earlyStop, |block|, j + 1, done', pool, z)
    requires Known([0] + next.0, [[]] + r1.calls, counts, after)
    ensures counts == ([0] + next.0) + after && Repeats(block[j], 0, [])
    ensures AllWell(block, j + 1, next, r1.calls, r1.trials)
    ensures AtBlock(tape, end, block, |block|, rest, r1.y.inner, after)
    decreases |block| - j, 0
  {
    KnownFirst(0, next.0, [], r1.calls, counts, after);
    NextTrack(tape, n, block, j, rest, z.inner, counts);
    ScenarioGoesWell(
      tape, machine, setup, plan, earlyStop, block, j + 1, done, done', pool, z,
      n + |Returned(block[j])|, rest, counts[1..], after, next, r1, end);
    assert counts == [0] + counts[1..];
    Associative([0], next.0, after);
  }

  // ---------------------------------------------------------------------------------------------
  // All scenarios
  // ---------------------------------------------------------------------------------------------

  predicate NonePush(edits: seq<Edit>) {
    forall i :: 0 <= i < |edits| && edits[i].now.Some? ==> NoPush(edits[i].now.value.scenario.turns)
  }

  predicate SameScenarios(a: seq<ScenarioResult>, b: seq<ScenarioResult>) {
    |a| == |b| && forall i :: 0 <= i < |a| ==> SameScenario(a[i], b[i])
  }

  function Zeros(width: nat): seq<nat> { seq(width, _ => 0) }

  lemma CountsConcat(x: seq<seq<Reply>>, y: seq<seq<Reply>>)
    ensures Counts(x + y) == Counts(x) + Counts(y)
  {
  }

  lemma AllRepeatConcat(
    u: seq<seq<Reply>>, c: seq<nat>, v: seq<seq<Reply>>, u': seq<seq<Reply>>, c': seq<nat>, v': seq<seq<Reply>>)
    requires AllRepeat(u, c, v) && AllRepeat(u', c', v')
    ensures AllRepeat(u + u', c + c', v + v')
  {
    forall i | 0 <= i < |u + u'| ensures Repeats((u + u')[i], (c + c')[i], (v + v')[i]) {
      if i < |u| {
        assert Repeats(u[i], c[i], v[i]);
      } else {
        assert Repeats(u'[i - |u|], c'[i - |u|], v'[i - |u|]);
      }
    }
  }

  /** A scenario that is left out of the replay. */
  lemma {:induction false} ScenarioLeftOut(
    tape: seq<TurnOutcome>, block: seq<seq<Reply>>, j: nat, n: nat, rest: seq<seq<Reply>>, m: nat,
    counts: seq<nat>, after: seq<nat>)
    requires j <= |block| && counts == Zeros(|block| - j) + after && AtBlock(tape, n, block, j, rest, m, counts)
    ensures AtBlock(tape, n + |Returned(Flat(block[j..]))|, block, |block|, rest, m, after)
    decreases |block| - j
  {
    if j == |block| {
      assert counts == after;
    } else {
      NextTrack(tape, n, block, j, rest, m, counts);
      TracksFrom(block, j);
      assert counts[0] == 0 && counts[1..] == Zeros(|block| - (j + 1)) + after;
      ScenarioLeftOut(tape, block, j + 1, n + |Returned(block[j])|, rest, m, counts[1..], after);
    }
  }

  lemma SilentRepeats(block: seq<seq<Reply>>)
    ensures AllRepeat(block, Zeros(|block|), Silent(|block|))
  {
    forall i | 0 <= i < |block| ensures Repeats(block[i], Zeros(|block|)[i], Silent(|block|)[i]) {
      assert block[i][..0] == [];
    }
  }

  lemma SameResult(plan: Plan, a: seq<TrialResult>, b: seq<TrialResult>)
    requires SameTrials(a, b)
    ensures SameScenario(Summarize(plan.scenario, plan.required, a), Summarize(plan.scenario, plan.required, b))
  {
    SameStop(plan.scenario, plan.required, false, a, b);
  }

  /** In front of a scenario, with one of the two runs known for it and for those behind it. */
  predicate AtScenario(
    tape: seq<TurnOutcome>, n: nat, tracks: seq<seq<Reply>>, m: nat, counts: seq<nat>, should: seq<nat>,
    calls: seq<seq<Reply>>)
  {
    AtTrack(tape, n, tracks, m, counts) && InOrder(tracks, counts) && (counts == should || counts == Counts(calls))
  }

  /** What is known of all scenarios, for the first and for the others. */
  lemma KnownParts(should: seq<nat>, calls: seq<seq<Reply>>, rest: seq<nat>, others: seq<seq<Reply>>, counts: seq<nat>)
    returns (after: seq<nat>)
    requires counts == should + rest || counts == Counts(calls + others)
    ensures Known(should, calls, counts, after) && (after == rest || after == Counts(others))
  {
    CountsConcat(calls, others);
    after := if counts == should + rest then rest else Counts(others);
  }

  /** The first scenario of those that remain. */
  lemma FirstGoesWell(
    tape: seq<TurnOutcome>, machine: World<nat>, setup: Setup, plan: Plan, earlyStop: bool, block: seq<seq<Reply>>,
    pool: Pool, z: Taped<nat>, n: nat, others: seq<seq<Reply>>, counts: seq<nat>, shouldRest: seq<nat>,
    callsRest: seq<seq<Reply>>, should: (seq<nat>, seq<TrialResult>), r: Ran<nat>)
    returns (after: seq<nat>)
    requires NoPush(plan.scenario.turns)
    requires should == OwnTrials(block, machine, setup, plan, earlyStop, 0, [])
    requires r == TrialByTrial(TapeWorld(tape, machine), setup, plan, earlyStop, |block|, 0, [], pool, z)
    requires AtScenario(tape, n, block + others, z.inner, counts, should.0 + shouldRest, r.calls + callsRest)
    ensures counts == should.0 + after && AllRepeat(block, should.0, r.calls) && SameTrials(should.1, r.trials)
    ensures AtScenario(tape, n + |Returned(Flat(block))|, others, r.y.inner, after, shouldRest, callsRest)
  {
    after := KnownParts(should.0, r.calls, shouldRest, callsRest, counts);
    assert block[0..] == block && block[|block|..] + others == others;
    ScenarioGoesWell(
      tape, machine, setup, plan, earlyStop, block, 0, [], [], pool, z, n, others, counts, after, should, r,
      n + |Returned(Flat(block))|);
  }

  lemma FirstLeftOut(
    tape: seq<TurnOutcome>, block: seq<seq<Reply>>, n: nat, others: seq<seq<Reply>>, m: nat, counts: seq<nat>,
    shouldRest: seq<nat>, callsRest: seq<seq<Reply>>)
    returns (after: seq<nat>)
    requires AtScenario(
      tape, n, block + others, m, counts, Zeros(|block|) + shouldRest, Silent(|block|) + callsRest)
    ensures counts == Zeros(|block|) + after && AllRepeat(block, Zeros(|block|), Silent(|block|))
    ensures AtScenario(tape, n + |Returned(Flat(block))|, others, m, after, shouldRest, callsRest)
  {
    after := KnownParts(Zeros(|block|), Silent(|block|), shouldRest, callsRest, counts);
    assert Counts(Silent(|block|)) == Zeros(|block|);
    assert block[0..] == block && block[|block|..] + others == others;
    ScenarioLeftOut(tape, block, 0, n, others, m, counts, after);
    SilentRepeats(block);
  }

  lemma OwnFirst(
    blocks: seq<seq<seq<Reply>>>, machine: World<nat>, setup: Setup, edits: seq<Edit>, earlyStop: bool,
    next: (seq<seq<nat>>, seq<ScenarioResult>))
    requires edits != [] && Covers(blocks, edits)
    requires next == OwnScenarios(blocks[1..], machine, setup, edits[1..], earlyStop)
    ensures var should := OwnScenarios(blocks, machine, setup, edits, earlyStop);
      if edits[0].now.None? then should == ([Zeros(|blocks[0]|)] + next.0, next.1)
      else
        var plan := edits[0].now.value;
        var own := OwnTrials(blocks[0], machine, setup, plan, earlyStop, 0, []);
        should == ([own.0] + next.0, [Summarize(plan.scenario, plan.required, own.1)] + next.1)
  {
  }

  lemma RanFirst<S>(w: World<S>, setup: Setup, edits: seq<Edit>, earlyStop: bool, pool: Pool, y: Taped<S>)
    requires edits != []
    ensures var r, width := ScenarioByScenario(w, setup, edits, false, earlyStop, pool, y), Width(edits[0]);
      if edits[0].now.None? then
        var next := ScenarioByScenario(w, setup, edits[1..], false, earlyStop, pool, y);
        r.blocks == [Silent(width)] + next.blocks && r.results == next.results
      else
        var plan := edits[0].now.value;
        var first := TrialByTrial(w, setup, plan, earlyStop, width, 0, [], pool, y);
        var next := ScenarioByScenario(w, setup, edits[1..], false, earlyStop, first.pool, first.y);
        && r.blocks == [first.calls] + next.blocks
        && r.results == [Summarize(plan.scenario, plan.required, first.trials)] + next.results
  {
  }

  /** The replay goes as it should: the same calls, answered as recorded, and the same results. */
  predicate SuiteWell(
    tracks: seq<seq<Reply>>, counts: seq<nat>, should: (seq<nat>, seq<ScenarioResult>), calls: seq<seq<Reply>>,
    results: seq<ScenarioResult>)
  {
    counts == should.0 && AllRepeat(tracks, counts, calls) && SameScenarios(should.1, results)
  }

  lemma SuiteWellNext(
    block: seq<seq<Reply>>, c: seq<nat>, v: seq<seq<Reply>>, a: ScenarioResult, b: ScenarioResult,
    tracks: seq<seq<Reply>>, counts: seq<nat>, should: (seq<nat>, seq<ScenarioResult>), calls: seq<seq<Reply>>,
    results: seq<ScenarioResult>)
    requires AllRepeat(block, c, v) && SameScenario(a, b) && SuiteWell(tracks, counts, should, calls, results)
    ensures SuiteWell(block + tracks, c + counts, (c + should.0, [a] + should.1), v + calls, [b] + results)
  {
    AllRepeatConcat(block, c, v, tracks, counts, calls);
  }

  /**
   If the recording is in order for the calls the replay makes, or for those it should make, then it goes as it
   should.
   */
  lemma {:induction false} SuiteGoesWell(
    tape: seq<TurnOutcome>, machine: World<nat>, setup: Setup, edits: seq<Edit>, earlyStop: bool,
    blocks: seq<seq<seq<Reply>>>, pool: Pool, z: Taped<nat>, n: nat, counts: seq<nat>,
    should: (seq<seq<nat>>, seq<ScenarioResult>), r: RanAll<nat>)
    requires NonePush(edits) && Covers(blocks, edits)
    requires should == OwnScenarios(blocks, machine, setup, edits, earlyStop)
    requires r == ScenarioByScenario(TapeWorld(tape, machine), setup, edits, false, earlyStop, pool, z)
    requires AtScenario(tape, n, Flat(blocks), z.inner, counts, Flat(should.0), Flat(r.blocks))
    ensures SuiteWell(Flat(blocks), counts, (Flat(should.0), should.1), Flat(r.blocks), r.results)
    decreases |edits|, 1
  {
    if edits != [] {
      var w, block, rest, plan := TapeWorld(tape, machine), blocks[0], blocks[1..], edits[0].now;
      var next := OwnScenarios(rest, machine, setup, edits[1..], earlyStop);
      OwnFirst(blocks, machine, setup, edits, earlyStop, next);
      RanFirst(w, setup, edits, earlyStop, pool, z);
      if plan.None? {
        var r1 := ScenarioByScenario(w, setup, edits[1..], false, earlyStop, pool, z);
        FlatFirst(Zeros(|block|), next.0);
        FlatFirst(Silent(|block|), r1.blocks);
        LeftOutAndRest(tape, machine, setup, edits[1..], earlyStop, block, rest, pool, z, n, counts, next, r1);
      } else {
        var first := TrialByTrial(w, setup, plan.value, earlyStop, |block|, 0, [], pool, z);
        var own := OwnTrials(block, machine, setup, plan.value, earlyStop, 0, []);
        var r1 := ScenarioByScenario(w, setup, edits[1..], false, earlyStop, first.pool, first.y);
        FlatFirst(own.0, next.0);
        FlatFirst(first.calls, r1.blocks);
        ReplayedAndRest(
          tape, machine, setup, plan.value, edits[1..], earlyStop, block, rest, pool, z, n, counts, own, first, next,
          r1);
      }
    }
  }

  lemma {:induction false} LeftOutAndRest(
    tape: seq<TurnOutcome>, machine: World<nat>, setup: Setup, edits: seq<Edit>, earlyStop: bool,
    block: seq<seq<Reply>>, blocks: seq<seq<seq<Reply>>>, pool: Pool, z: Taped<nat>, n: nat, counts: seq<nat>,
    next: (seq<seq<nat>>, seq<ScenarioResult>), r: RanAll<nat>)
    requires NonePush(edits) && Covers(blocks, edits)
    requires next == OwnScenarios(blocks, machine, setup, edits, earlyStop)
    requires r == ScenarioByScenario(TapeWorld(tape, machine), setup, edits, false, earlyStop, pool, z)
    requires AtScenario(tape, n, block + Flat(blocks), z.inner, counts, Zeros(|block|) + Flat(next.0),
                        Silent(|block|) + Flat(r.blocks))
    ensures SuiteWell(block + Flat(blocks), counts, (Zeros(|block|) + Flat(next.0), next.1),
                      Silent(|block|) + Flat(r.blocks), r.results)
    decreases |edits|, 2
  {
    var after := FirstLeftOut(tape, block, n, Flat(blocks), z.inner, counts, Flat(next.0), Flat(r.blocks));
    SuiteGoesWell(
      tape, machine, setup, edits, earlyStop, blocks, pool, z, n + |Returned(Flat(block))|, after, next, r);
    AllRepeatConcat(block, Zeros(|block|), Silent(|block|), Flat(blocks), Flat(next.0), Flat(r.blocks));
  }

  lemma {:induction false} ReplayedAndRest(
    tape: seq<TurnOutcome>, machine: World<nat>, setup: Setup, plan: Plan, edits: seq<Edit>, earlyStop: bool,
    block: seq<seq<Reply>>, blocks: seq<seq<seq<Reply>>>, pool: Pool, z: Taped<nat>, n: nat, counts: seq<nat>,
    own: (seq<nat>, seq<TrialResult>), first: Ran<nat>, next: (seq<seq<nat>>, seq<ScenarioResult>), r: RanAll<nat>)
    requires NonePush(edits) && NoPush(plan.scenario.turns) && Covers(blocks, edits)
    requires own == OwnTrials(block, machine, setup, plan, earlyStop, 0, [])
    requires first == TrialByTrial(TapeWorld(tape, machine), setup, plan, earlyStop, |block|, 0, [], pool, z)
    requires next == OwnScenarios(blocks, machine, setup, edits, earlyStop)
    requires r == ScenarioByScenario(TapeWorld(tape, machine), setup, edits, false, earlyStop, first.pool, first.y)
    requires AtScenario(tape, n, block + Flat(blocks), z.inner, counts, own.0 + Flat(next.0),
                        first.calls + Flat(r.blocks))
    ensures SuiteWell(block + Flat(blocks), counts,
                      (own.0 + Flat(next.0), [Summarize(plan.scenario, plan.required, own.1)] + next.1),
                      first.calls + Flat(r.blocks),
                      [Summarize(plan.scenario, plan.required, first.trials)] + r.results)
    decreases |edits|, 2
  {
    var after := FirstGoesWell(
      tape, machine, setup, plan, earlyStop, block, pool, z, n, Flat(blocks), counts, Flat(next.0), Flat(r.blocks),
      own, first);
    SuiteGoesWell(
      tape, machine, setup, edits, earlyStop, blocks, first.pool, first.y, n + |Returned(Flat(block))|, after,
      next, r);
    SameResult(plan, own.1, first.trials);
    SuiteWellNext(
      block, own.0, first.calls, Summarize(plan.scenario, plan.required, own.1),
      Summarize(plan.scenario, plan.required, first.trials), Flat(blocks), after, (Flat(next.0), next.1),
      Flat(r.blocks), r.results);
  }
}

/** Recordings that are not in order, with verdicts that change in the replay. */
module ReplayWitnesses {
  import opened Wrappers
  import opened Protocol
  import opened Runner
  import opened Scenarios
  import opened Traces
  import opened Replay

  /** A turn that just sends something, and its verdict on a reply. */
  predicate Plain(turn: Turn, reply: Reply) {
    turn.action.None? && !turn.push && turn.input.files.Ok? && (reply.Ok? ==> turn.check(reply.value).Ok?)
  }

  predicate Accepts(turn: Turn, reply: Reply) {
    reply.Ok? && turn.check(reply.value) == Ok([])
  }

  lemma PlainTrial<S>(w: World<S>, setup: Setup, turn: Turn, index: nat, pool: Pool, s: S, request: Request)
    requires setup.invariants.None?
    requires request == Send(turn.input, w.uuid(s), None, turn.returnImmediately, None)
    requires Plain(turn, w.call(s, request).1)
    ensures var (r, pool1, s1) := TrialRun(w, setup, [turn], index, pool, s);
      r.passed == Accepts(turn, w.call(s, request).1) && s1 == w.call(s, request).0 && pool1 == pool
  {
    var turns, t := [turn], Start(w.uuid(s));
    var (s1, reply) := w.call(s, request);
    var t1 := t.(phase := Awaiting(Pending(request, None)));
    assert Begin(setup, turns, t, pool, w.route(s)) == (t1, pool);
    var (t2, pool2) := Advance(setup, turns, t1, pool, reply);
    assert OneTurn(w, setup, turns, t, pool, s) == (t2, pool2, s1) && pool2 == pool;
    if t2.phase.Ready? {
      assert Accepts(turn, reply) && t2.next == |turns| && AllPassed(t2.results);
      assert TurnLoop(w, setup, turns, t2, pool2, s1) == (End(t2, pool2, None).0, pool, s1);
    } else if reply.Ok? {
      assert t2.results[0].failures == turn.check(reply.value).value && !t2.results[0].passed;
    }
  }

  /** A scenario of one turn under an agent whose next reply does not depend on the request. */
  lemma NextTrial<S>(
    w: World<S>, setup: Setup, sc: Scenario, required: int, earlyStop: bool, done: seq<TrialResult>, pool: Pool,
    s: S, reply: Reply, s1: S) returns (r: TrialResult)
    requires |done| < sc.trials && |sc.turns| == 1 && setup.invariants.None? && Plain(sc.turns[0], reply)
    requires forall q :: w.call(s, q) == (s1, reply)
    ensures r.passed == Accepts(sc.turns[0], reply)
    ensures TrialLoop(w, setup, sc, required, earlyStop, done, pool, s) ==
      if StopsEarly(sc, required, earlyStop, done + [r]) then (done + [r], pool, s1)
      else TrialLoop(w, setup, sc, required, earlyStop, done + [r], pool, s1)
  {
    var turn := sc.turns[0];
    assert sc.turns == [turn];
    PlainTrial(w, setup, turn, |done| + 1, pool, s, Send(turn.input, w.uuid(s), None, turn.returnImmediately, None));
    r := TrialRun(w, setup, sc.turns, |done| + 1, pool, s).0;
    LoopStep(w, setup, sc, required, earlyStop, done, pool, s, r, pool, s1);
  }

  lemma TwoTrials<S>(
    w: World<S>, setup: Setup, sc: Scenario, required: int, pool: Pool, s: S, a: Reply, b: Reply, s1: S, s2: S)
    requires sc.trials == 2 && |sc.turns| == 1 && setup.invariants.None?
    requires Plain(sc.turns[0], a) && Plain(sc.turns[0], b)
    requires forall r :: w.call(s, r) == (s1, a)
    requires forall r :: w.call(s1, r) == (s2, b)
    ensures var (trials, pool1, end) := TrialLoop(w, setup, sc, required, false, [], pool, s);
      Verdicts(trials) == [Accepts(sc.turns[0], a), Accepts(sc.turns[0], b)] && end == s2 && pool1 == pool
  {
    var r := NextTrial(w, setup, sc, required, false, [], pool, s, a, s1);
    var r' := NextTrial(w, setup, sc, required, false, [] + [r], pool, s1, b, s2);
    assert Verdicts([] + [r] + [r']) == [r.passed, r'.passed];
  }

  lemma OneTrial<S>(
    w: World<S>, setup: Setup, sc: Scenario, earlyStop: bool, pool: Pool, s: S, a: Reply, s1: S)
    requires sc.trials == 1 && |sc.turns| == 1 && setup.invariants.None? && sc.latency.None? && Plain(sc.turns[0], a)
    requires forall r :: w.call(s, r) == (s1, a)
    ensures var (trials, pool1, end) := TrialLoop(w, setup, sc, 1, earlyStop, [], pool, s);
      Summarize(sc, 1, trials).passed == Accepts(sc.turns[0], a) && end == s1 && pool1 == pool
  {
    var r := NextTrial(w, setup, sc, 1, earlyStop, [], pool, s, a, s1);
    assert Verdicts([] + [r]) == [r.passed];
    assert [r.passed][..0] == [];
  }

  /** A scenario that needs both of two trials stops after the first one fails. */
  lemma StopsAfterFirst<S>(w: World<S>, setup: Setup, sc: Scenario, pool: Pool, s: S, a: Reply, s1: S)
    requires sc.trials == 2 && |sc.turns| == 1 && setup.invariants.None? && sc.latency.None? && Plain(sc.turns[0], a)
    requires forall r :: w.call(s, r) == (s1, a)
    requires !Accepts(sc.turns[0], a)
    ensures var (_, pool1, end) := TrialLoop(w, setup, sc, 2, true, [], pool, s); end == s1 && pool1 == pool
  {
    var r := NextTrial(w, setup, sc, 2, true, [], pool, s, a, s1);
    assert Verdicts([] + [r]) == [r.passed];
    assert [r.passed][..0] == [];
    assert StopsEarly(sc, 2, true, [] + [r]);
  }

  /**
   Where an agent raises in the first of two trials and responds in the second, the replay has it the other
   way round: the tape answers the first trial and is exhausted in the second.
   */
  lemma RaiseFirstDiverges<S>(
    w: World<S>, machine: World<nat>, setup: Setup, sc: Scenario, required: int, o: TurnOutcome, pool: Pool,
    s: S, s1: S, s2: S, message: string)
    requires sc.trials == 2 && |sc.turns| == 1 && setup.invariants.None?
    requires Plain(sc.turns[0], Ok(o)) && Accepts(sc.turns[0], Ok(o))
    requires forall r :: w.call(s, r) == (s1, Err(message))
    requires forall r :: w.call(s1, r) == (s2, Ok(o))
    ensures var (live, _, y) := TrialLoop(Recording(w), setup, sc, required, false, [], pool, Taped(s, []));
      var replay := TrialLoop(TapeWorld(Returned(y.trace), machine), setup, sc, required, false, [], pool, 0).0;
      && Returned(y.trace) == [o]
      && Verdicts(live) == [false, true] && Verdicts(replay) == [true, false]
  {
    var raised, returned: Reply := Err(message), Ok(o);
    TwoTrials(Recording(w), setup, sc, required, pool, Taped(s, []), raised, returned,
              Taped(s1, [] + [raised]), Taped(s2, [] + [raised] + [returned]));
    ReturnedNext([], raised);
    ReturnedNext([] + [raised], returned);
    TwoTrials(TapeWorld([o], machine), setup, sc, required, pool, 0, returned, Played([o], 1).1, 1, 1);
  }

  /**
   Nothing raises here. The first scenario needs both of its trials and fails the first. A replay with early
   stop leaves the outcome of the second trial on the tape, and judges the second scenario by it.
   */
  lemma EarlyReplayDiverges<S>(
    w: World<S>, machine: World<nat>, setup: Setup, a: Scenario, b: Scenario, pool: Pool,
    s: S, s1: S, s2: S, s3: S, o1: TurnOutcome, o2: TurnOutcome, o3: TurnOutcome)
    requires setup.invariants.None? && a.latency.None? && b.latency.None?
    requires a.trials == 2 && |a.turns| == 1 && b.trials == 1 && |b.turns| == 1
    requires Plain(a.turns[0], Ok(o1)) && Plain(a.turns[0], Ok(o2)) && !Accepts(a.turns[0], Ok(o1))
    requires Plain(b.turns[0], Ok(o2)) && !Accepts(b.turns[0], Ok(o2))
    requires Plain(b.turns[0], Ok(o3)) && Accepts(b.turns[0], Ok(o3))
    requires forall r :: w.call(s, r) == (s1, Ok(o1))
    requires forall r :: w.call(s1, r) == (s2, Ok(o2))
    requires forall r :: w.call(s2, r) == (s3, Ok(o3))
    ensures var plans := [Plan(a, 2), Plan(b, 1)];
      var (live, _, y) := SuiteLoop(Recording(w), setup, plans, false, [], pool, Taped(s, []));
      var replay := SuiteLoop(TapeWorld(Returned(y.trace), machine), setup, plans, true, [], pool, 0).0;
      && Returned(y.trace) == [o1, o2, o3] && |live| == |replay| == 2
      && live[1].passed && !replay[1].passed
  {
    var plans := [Plan(a, 2), Plan(b, 1)];
    var r1, r2, r3: Reply := Ok(o1), Ok(o2), Ok(o3);
    var y0, y1 := Taped(s, []), Taped(s1, [] + [r1]);
    var y2 := Taped(s2, [] + [r1] + [r2]);
    var y3 := Taped(s3, [] + [r1] + [r2] + [r3]);
    ReturnedNext([], r1);
    ReturnedNext([] + [r1], r2);
    ReturnedNext([] + [r1] + [r2], r3);
    assert Returned(y3.trace) == [o1, o2, o3];
    TwoTrials(Recording(w), setup, a, 2, pool, y0, r1, r2, y1, y2);
    OneTrial(Recording(w), setup, b, false, pool, y2, r3, y3);
    TwoScenarios(Recording(w), setup, plans, false, pool, y0, y2, y3);
    var tape := TapeWorld([o1, o2, o3], machine);
    StopsAfterFirst(tape, setup, a, pool, 0, r1, 1);
    OneTrial(tape, setup, b, true, pool, 1, r2, 2);
    TwoScenarios(tape, setup, plans, true, pool, 0, 1, 2);
  }

  lemma TwoScenarios<S>(
    w: World<S>, setup: Setup, plans: seq<Plan>, earlyStop: bool, pool: Pool, s: S, s1: S, s2: S)
    requires |plans| == 2
    requires var run := ScenarioRun(w, setup, plans[0], earlyStop, pool, s); run.1 == pool && run.2 == s1
    requires var run := ScenarioRun(w, setup, plans[1], earlyStop, pool, s1); run.1 == pool && run.2 == s2
    ensures var (results, _, end) := SuiteLoop(w, setup, plans, earlyStop, [], pool, s);
      && end == s2
      && results == [ScenarioRun(w, setup, plans[0], earlyStop, pool, s).0,
                     ScenarioRun(w, setup, plans[1], earlyStop, pool, s1).0]
  {
    var r := ScenarioRun(w, setup, plans[0], earlyStop, pool, s).0;
    var r' := ScenarioRun(w, setup, plans[1], earlyStop, pool, s1).0;
    SuiteStep(w, setup, plans, earlyStop, [], pool, s, r, pool, s1);
    SuiteStep(w, setup, plans, earlyStop, [] + [r], pool, s1, r', pool, s2);
    assert [] + [r] + [r'] == [r, r'];
  }

  // ---------------------------------------------------------------------------------------------
  // Replays of something else than what was recorded
  // ---------------------------------------------------------------------------------------------

  /**
   Nothing raises and nothing stops early. Two scenarios of one trial are recorded and pass; a replay of the second
   alone judges it on the outcome of the first.
   */
  lemma SelectionDiverges<S>(
    w: World<S>, machine: World<nat>, setup: Setup, a: Scenario, b: Scenario, pool: Pool,
    s: S, s1: S, s2: S, o1: TurnOutcome, o2: TurnOutcome)
    requires setup.invariants.None? && a.latency.None? && b.latency.None?
    requires a.trials == 1 && |a.turns| == 1 && b.trials == 1 && |b.turns| == 1
    requires Plain(a.turns[0], Ok(o1)) && Accepts(a.turns[0], Ok(o1))
    requires Plain(b.turns[0], Ok(o2)) && Accepts(b.turns[0], Ok(o2))
    requires Plain(b.turns[0], Ok(o1)) && !Accepts(b.turns[0], Ok(o1))
    requires forall r :: w.call(s, r) == (s1, Ok(o1))
    requires forall r :: w.call(s1, r) == (s2, Ok(o2))
    ensures var (live, _, y) :=
        SuiteLoop(Recording(w), setup, [Plan(a, 1), Plan(b, 1)], false, [], pool, Taped(s, []));
      var replay := SuiteLoop(TapeWorld(Returned(y.trace), machine), setup, [Plan(b, 1)], false, [], pool, 0).0;
      && Returned(y.trace) == [o1, o2] && |live| == 2 && |replay| == 1
      && live[0].passed && live[1].passed && !replay[0].passed
  {
    var plans := [Plan(a, 1), Plan(b, 1)];
    var r1, r2: Reply := Ok(o1), Ok(o2);
    var y0, y1, y2 := Taped(s, []), Taped(s1, [] + [r1]), Taped(s2, [] + [r1] + [r2]);
    ReturnedNext([], r1);
    ReturnedNext([] + [r1], r2);
    assert Returned(y2.trace) == [o1, o2];
    OneTrial(Recording(w), setup, a, false, pool, y0, r1, y1);
    OneTrial(Recording(w), setup, b, false, pool, y1, r2, y2);
    TwoScenarios(Recording(w), setup, plans, false, pool, y0, y1, y2);
    var tape := TapeWorld([o1, o2], machine);
    OneTrial(tape, setup, b, false, pool, 0, r1, 1);
    OneScenario(tape, setup, Plan(b, 1), pool, 0);
  }

  lemma OneScenario<S>(w: World<S>, setup: Setup, plan: Plan, pool: Pool, s: S)
    ensures SuiteLoop(w, setup, [plan], false, [], pool, s).0 == [ScenarioRun(w, setup, plan, false, pool, s).0]
  {
    var (r, pool1, s1) := ScenarioRun(w, setup, plan, false, pool, s);
    SuiteStep(w, setup, [plan], false, [], pool, s, r, pool1, s1);
  }

  /** A turn that just sends something and is answered. */
  lemma PlainTurn<S>(
    w: World<S>, setup: Setup, turns: seq<Turn>, t: Trial, pool: Pool, s: S, o: TurnOutcome, s1: S)
    requires t.phase.Ready? && t.next < |turns| && t.held.None? && setup.invariants.None?
    requires Plain(turns[t.next], Ok(o)) && forall r :: w.call(s, r) == (s1, Ok(o))
    ensures var (t1, pool1, end) := OneTurn(w, setup, turns, t, pool, s);
      && end == s1 && pool1 == pool && t1.held.None?
      && (if Accepts(turns[t.next], Ok(o)) then
            t1.phase.Ready? && t1.next == t.next + 1 && (AllPassed(t.results) ==> AllPassed(t1.results))
          else t1.phase == Ended(None) && !AllPassed(t1.results))
  {
    var turn := turns[t.next];
    var (t1, pool1) := Begin(setup, turns, t, pool, w.route(s));
    assert t1.phase.Awaiting? && t1.phase.pending.registered.None? && pool1 == pool;
    var (t2, pool2) := Advance(setup, turns, t1, pool, Ok(o));
    assert OneTurn(w, setup, turns, t, pool, s) == (t2, pool2, s1);
    var n := |t.results|;
    assert t2.results[n].failures == turn.check(o).value && t2.results[n].passed == (turn.check(o).value == []);
  }

  /** A trial that fails its first turn makes no further call. */
  lemma FirstTurnFails<S>(
    w: World<S>, setup: Setup, turns: seq<Turn>, pool: Pool, s: S, o: TurnOutcome, s1: S)
    requires turns != [] && setup.invariants.None?
    requires Plain(turns[0], Ok(o)) && !Accepts(turns[0], Ok(o)) && forall r :: w.call(s, r) == (s1, Ok(o))
    ensures var (r, pool1, end) := TrialRun(w, setup, turns, 1, pool, s); !r.passed && pool1 == pool && end == s1
  {
    PlainTurn(w, setup, turns, Start(w.uuid(s)), pool, s, o, s1);
  }

  lemma TwoTurnsPass<S>(
    w: World<S>, setup: Setup, turns: seq<Turn>, pool: Pool, s: S, o1: TurnOutcome, s1: S, o2: TurnOutcome, s2: S)
    requires |turns| == 2 && setup.invariants.None?
    requires Plain(turns[0], Ok(o1)) && Accepts(turns[0], Ok(o1)) && forall r :: w.call(s, r) == (s1, Ok(o1))
    requires Plain(turns[1], Ok(o2)) && Accepts(turns[1], Ok(o2)) && forall r :: w.call(s1, r) == (s2, Ok(o2))
    ensures var (r, pool1, end) := TrialRun(w, setup, turns, 1, pool, s); r.passed && pool1 == pool && end == s2
  {
    var t := Start(w.uuid(s));
    PlainTurn(w, setup, turns, t, pool, s, o1, s1);
    var t1 := OneTurn(w, setup, turns, t, pool, s).0;
    PlainTurn(w, setup, turns, t1, pool, s1, o2, s2);
    TurnLoopStep(w, setup, turns, t, pool, s, t1, pool, s1);
    var t2 := OneTurn(w, setup, turns, t1, pool, s1).0;
    TurnLoopStep(w, setup, turns, t1, pool, s1, t2, pool, s2);
  }

  lemma SingleTrial<S>(w: World<S>, setup: Setup, sc: Scenario, pool: Pool, s: S)
    requires sc.trials == 1 && sc.latency.None?
    ensures var (trials, pool1, end) := TrialLoop(w, setup, sc, 1, false, [], pool, s);
      var (r, pool2, s1) := TrialRun(w, setup, sc.turns, 1, pool, s);
      Summarize(sc, 1, trials).passed == r.passed && pool1 == pool2 && end == s1
  {
    var (r, pool1, s1) := TrialRun(w, setup, sc.turns, 1, pool, s);
    LoopStep(w, setup, sc, 1, false, [], pool, s, r, pool1, s1);
    assert Verdicts([] + [r]) == [r.passed];
    assert [r.passed][..0] == [];
  }

  /**
   Nothing raises, and the whole contract is replayed, with one expectation changed: the first of two turns of a
   scenario now fails on its recorded response, so the response of its second turn stays on the tape, and the
   scenario behind it, which nobody changed, is judged on that.
   */
  lemma RevisionDiverges<S>(
    w: World<S>, machine: World<nat>, setup: Setup, a: Scenario, a': Scenario, b: Scenario, pool: Pool,
    s: S, s1: S, s2: S, s3: S, o1: TurnOutcome, o2: TurnOutcome, o3: TurnOutcome)
    requires setup.invariants.None? && a.latency.None? && a'.latency.None? && b.latency.None?
    requires a.trials == 1 && |a.turns| == 2 && a'.trials == 1 && b.trials == 1 && |b.turns| == 1
    requires Plain(a.turns[0], Ok(o1)) && Accepts(a.turns[0], Ok(o1))
    requires Plain(a.turns[1], Ok(o2)) && Accepts(a.turns[1], Ok(o2))
    requires |a'.turns| == 2 && a'.turns[1] == a.turns[1]
    requires Plain(a'.turns[0], Ok(o1)) && !Accepts(a'.turns[0], Ok(o1))
    requires Plain(b.turns[0], Ok(o3)) && Accepts(b.turns[0], Ok(o3))
    requires Plain(b.turns[0], Ok(o2)) && !Accepts(b.turns[0], Ok(o2))
    requires forall r :: w.call(s, r) == (s1, Ok(o1))
    requires forall r :: w.call(s1, r) == (s2, Ok(o2))
    requires forall r :: w.call(s2, r) == (s3, Ok(o3))
    ensures var (live, _, y) :=
        SuiteLoop(Recording(w), setup, [Plan(a, 1), Plan(b, 1)], false, [], pool, Taped(s, []));
      var replay :=
        SuiteLoop(TapeWorld(Returned(y.trace), machine), setup, [Plan(a', 1), Plan(b, 1)], false, [], pool, 0).0;
      && Returned(y.trace) == [o1, o2, o3] && |live| == |replay| == 2
      && live[0].passed && live[1].passed && !replay[1].passed
  {
    var r1, r2, r3: Reply := Ok(o1), Ok(o2), Ok(o3);
    var y0, y1 := Taped(s, []), Taped(s1, [] + [r1]);
    var y2 := Taped(s2, [] + [r1] + [r2]);
    var y3 := Taped(s3, [] + [r1] + [r2] + [r3]);
    ReturnedNext([], r1);
    ReturnedNext([] + [r1], r2);
    ReturnedNext([] + [r1] + [r2], r3);
    assert Returned(y3.trace) == [o1, o2, o3];
    TwoTurnsPass(Recording(w), setup, a.turns, pool, y0, o1, y1, o2, y2);
    SingleTrial(Recording(w), setup, a, pool, y0);
    OneTrial(Recording(w), setup, b, false, pool, y2, r3, y3);
    TwoScenarios(Recording(w), setup, [Plan(a, 1), Plan(b, 1)], false, pool, y0, y2, y3);
    RevisedReplay(machine, setup, a', b, pool, o1, o2, o3);
  }

  lemma RevisedReplay(
    machine: World<nat>, setup: Setup, a': Scenario, b: Scenario, pool: Pool, o1: TurnOutcome, o2: TurnOutcome,
    o3: TurnOutcome)
    requires setup.invariants.None? && a'.latency.None? && b.latency.None?
    requires a'.trials == 1 && a'.turns != [] && b.trials == 1 && |b.turns| == 1
    requires Plain(a'.turns[0], Ok(o1)) && !Accepts(a'.turns[0], Ok(o1))
    requires Plain(b.turns[0], Ok(o2)) && !Accepts(b.turns[0], Ok(o2))
    ensures var replay :=
        SuiteLoop(TapeWorld([o1, o2, o3], machine), setup, [Plan(a', 1), Plan(b, 1)], false, [], pool, 0).0;
      |replay| == 2 && !replay[1].passed
  {
    var tape := TapeWorld([o1, o2, o3], machine);
    FirstTurnFails(tape, setup, a'.turns, pool, 0, o1, 1);
    SingleTrial(tape, setup, a', pool, 0);
    OneTrial(tape, setup, b, false, pool, 1, Ok(o2), 2);
    TwoScenarios(tape, setup, [Plan(a', 1), Plan(b, 1)], false, pool, 0, 1, 2);
  }
}

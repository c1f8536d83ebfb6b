/**
 Replaying a trial: where a script answers its calls as an agent answered those of another run, both runs make
 the same calls and have the same result. And the tape on disk.
 */
module Replay {
  import opened Wrappers
  import opened Protocol
  import opened Runner
  import opened Scenarios
  import opened Traces
  import Cassette

  // ---------------------------------------------------------------------------------------------
  // What every call keeps, a run keeps
  // ---------------------------------------------------------------------------------------------

  ghost predicate Kept<S(!new)>(w: World<S>, inv: S -> bool) {
    forall s: S, r: Request :: inv(s) ==> inv(w.call(s, r).0)
  }

  lemma {:induction false} TurnsKeep<S(!new)>(
    w: World<S>, inv: S -> bool, setup: Setup, turns: seq<Turn>, t: Trial, pool: Pool, s: S)
    requires Kept(w, inv) && inv(s) && t.phase.Ready? && t.next <= |turns|
    ensures inv(TurnLoop(w, setup, turns, t, pool, s).2)
    decreases |turns| - t.next
  {
    if t.next < |turns| {
      var (t1, pool1, s1) := OneTurn(w, setup, turns, t, pool, s);
      OneTurnKeeps(w, inv, setup, turns, t, pool, s);
      if t1.phase.Ready? { TurnsKeep(w, inv, setup, turns, t1, pool1, s1); }
    }
  }

  lemma OneTurnKeeps<S(!new)>(
    w: World<S>, inv: S -> bool, setup: Setup, turns: seq<Turn>, t: Trial, pool: Pool, s: S)
    requires Kept(w, inv) && inv(s) && t.phase.Ready? && t.next < |turns|
    ensures inv(OneTurn(w, setup, turns, t, pool, s).2)
  {
    var (t1, pool1) := Begin(setup, turns, t, pool, w.route(s));
    if t1.phase.Awaiting? {
      assert OneTurn(w, setup, turns, t, pool, s).2 == w.call(s, t1.phase.pending.request).0;
    }
  }

  lemma {:induction false} TrialsKeep<S(!new)>(
    w: World<S>, inv: S -> bool, setup: Setup, sc: Scenario, required: int, earlyStop: bool,
    done: seq<TrialResult>, pool: Pool, s: S)
    requires Kept(w, inv) && inv(s) && |done| <= sc.trials
    ensures inv(TrialLoop(w, setup, sc, required, earlyStop, done, pool, s).2)
    decreases sc.trials - |done|
  {
    if |done| < sc.trials {
      var (r, pool1, s1) := TrialRun(w, setup, sc.turns, |done| + 1, pool, s);
      TurnsKeep(w, inv, setup, sc.turns, Start(w.uuid(s)), pool, s);
      if !StopsEarly(sc, required, earlyStop, done + [r]) {
        TrialsKeep(w, inv, setup, sc, required, earlyStop, done + [r], pool1, s1);
      }
    }
  }

  lemma {:induction false} ScenariosKeep<S(!new)>(
    w: World<S>, inv: S -> bool, setup: Setup, plans: seq<Plan>, earlyStop: bool,
    done: seq<ScenarioResult>, pool: Pool, s: S)
    requires Kept(w, inv) && inv(s) && |done| <= |plans|
    ensures inv(SuiteLoop(w, setup, plans, earlyStop, done, pool, s).2)
    decreases |plans| - |done|
  {
    if |done| < |plans| {
      var plan := plans[|done|];
      var (r, pool1, s1) := ScenarioRun(w, setup, plan, earlyStop, pool, s);
      TrialsKeep(w, inv, setup, plan.scenario, plan.required, earlyStop, [], pool, s);
      ScenariosKeep(w, inv, setup, plans, earlyStop, done + [r], pool1, s1);
    }
  }

  /** A trace only grows. */
  function Extends<S>(prefix: seq<Reply>): Taped<S> -> bool {
    (y: Taped<S>) => prefix <= y.trace
  }

  lemma TracesGrow<S(!new)>(w: World<S>, prefix: seq<Reply>)
    ensures Kept(Recording(w), Extends<S>(prefix))
  {
  }

  // ---------------------------------------------------------------------------------------------
  // One call
  // ---------------------------------------------------------------------------------------------

  /** The calls of a stretch of one run, and where a script starts to answer those of another. */
  datatype Stretch = Stretch(calls: seq<Reply>, before: seq<Reply>, script: Script, start: nat, read: seq<Reply>)

  predicate ValidStretch(f: Stretch) { Agrees(f.script, f.start, f.calls) }

  /** Both runs at the same point of the stretch. */
  predicate InStep<S>(f: Stretch, y: Taped<S>, z: Taped<nat>) {
    && f.before <= y.trace <= f.before + f.calls && f.read <= z.trace
    && SameTraces(Behind(f.before, y.trace), Behind(f.read, z.trace))
    && z.inner == Moved(f.script, f.start, |y.trace| - |f.before|)
  }

  /** The first run stays within the stretch. */
  predicate Within<S>(f: Stretch, y: Taped<S>) {
    y.trace <= f.before + f.calls
  }

  lemma SameNext(u: seq<Reply>, v: seq<Reply>, before: seq<Reply>, read: seq<Reply>, a: Reply, b: Reply)
    requires before <= u && read <= v && SameTraces(Behind(before, u), Behind(read, v)) && SameReply(a, b)
    ensures SameTraces(Behind(before, u + [a]), Behind(read, v + [b]))
  {
    assert Behind(before, u + [a]) == Behind(before, u) + [a];
    assert Behind(read, v + [b]) == Behind(read, v) + [b];
  }

  lemma CallInStep<S>(
    w: World<S>, machine: World<nat>, f: Stretch, y: Taped<S>, z: Taped<nat>, q: Request, r: Request)
    requires ValidStretch(f) && InStep(f, y, z) && Within(f, Recording(w).call(y, q).0)
    ensures var (y1, a) := Recording(w).call(y, q);
      var (z1, b) := Recording(ScriptWorld(f.script, machine)).call(z, r);
      SameReply(a, b) && InStep(f, y1, z1)
  {
    var (y1, a) := Recording(w).call(y, q);
    var (z1, b) := Recording(ScriptWorld(f.script, machine)).call(z, r);
    var k := |y.trace| - |f.before|;
    assert (f.before + f.calls)[|y.trace|] == f.calls[k] && y1.trace[|y.trace|] == a;
    SameNext(y.trace, z.trace, f.before, f.read, a, b);
  }

  // ---------------------------------------------------------------------------------------------
  // One turn
  // ---------------------------------------------------------------------------------------------

  /** Contracts with push notifications cannot be replayed. */
  predicate NoPush(turns: seq<Turn>) {
    forall i :: 0 <= i < |turns| ==> !turns[i].push && turns[i].action != Some(AwaitPush)
  }

  /** Equal but for the context, which is drawn afresh, and for the texts of errors. */
  predicate SameTrialState(t: Trial, u: Trial) {
    && t.next == u.next && t.taskId == u.taskId && t.results == u.results
    && t.held.None? && u.held.None?
    && (match t.phase
        case Ready => u.phase.Ready?
        case Awaiting(p) =>
          && u.phase.Awaiting? && p.registered.None? && u.phase.pending.registered.None?
          && !p.request.Wait? && !u.phase.pending.request.Wait?
        case Ended(e) => u.phase.Ended? && (e.Some? <==> u.phase.error.Some?))
  }

  lemma BeginMatches(
    setup: Setup, turns: seq<Turn>, t: Trial, u: Trial, p: Pool, q: Pool, route: string, route': string)
    requires NoPush(turns) && SameTrialState(t, u) && t.phase.Ready? && t.next < |turns|
    ensures SameTrialState(Begin(setup, turns, t, p, route).0, Begin(setup, turns, u, q, route').0)
    ensures !Begin(setup, turns, t, p, route).0.phase.Ready?
  {
    var turn := turns[t.next];
    if turn.action.Some? {
      assert !turn.action.value.AwaitPush?;
    }
  }

  lemma ConcludeMatches(
    setup: Setup, turns: seq<Turn>, t: Trial, u: Trial, p: Pool, q: Pool, outcome: TurnOutcome)
    requires t.next < |turns| && t.next == u.next && t.taskId == u.taskId && t.results == u.results
    ensures SameTrialState(
      Conclude(setup, turns, t, p, Answer(outcome, None)).0, Conclude(setup, turns, u, q, Answer(outcome, None)).0)
  {
  }

  lemma AdvanceMatches(
    setup: Setup, turns: seq<Turn>, t: Trial, u: Trial, p: Pool, q: Pool, a: Reply, b: Reply)
    requires SameTrialState(t, u) && t.phase.Awaiting? && t.next < |turns| && SameReply(a, b)
    ensures SameTrialState(Advance(setup, turns, t, p, a).0, Advance(setup, turns, u, q, b).0)
  {
    if a.Ok? { ConcludeMatches(setup, turns, t, u, p, q, a.value); }
  }

  lemma OneTurnMatches<S>(
    w: World<S>, machine: World<nat>, f: Stretch, setup: Setup, turns: seq<Turn>,
    t: Trial, u: Trial, p: Pool, q: Pool, y: Taped<S>, z: Taped<nat>)
    requires ValidStretch(f) && InStep(f, y, z)
    requires NoPush(turns) && SameTrialState(t, u) && t.phase.Ready? && t.next < |turns|
    requires Within(f, OneTurn(Recording(w), setup, turns, t, p, y).2)
    ensures var (t1, _, y1) := OneTurn(Recording(w), setup, turns, t, p, y);
      var (u1, _, z1) := OneTurn(Recording(ScriptWorld(f.script, machine)), setup, turns, u, q, z);
      SameTrialState(t1, u1) && InStep(f, y1, z1)
  {
    var live, tape := Recording(w), Recording(ScriptWorld(f.script, machine));
    BeginMatches(setup, turns, t, u, p, q, live.route(y), tape.route(z));
    var (t1, p1) := Begin(setup, turns, t, p, live.route(y));
    var (u1, q1) := Begin(setup, turns, u, q, tape.route(z));
    if t1.phase.Awaiting? {
      var request, request' := t1.phase.pending.request, u1.phase.pending.request;
      CallInStep(w, machine, f, y, z, request, request');
      AdvanceMatches(setup, turns, t1, u1, p1, q1, live.call(y, request).1, tape.call(z, request').1);
    }
  }

  // ---------------------------------------------------------------------------------------------
  // One trial
  // ---------------------------------------------------------------------------------------------

  lemma {:induction false} TurnsMatch<S(!new)>(
    w: World<S>, machine: World<nat>, f: Stretch, setup: Setup, turns: seq<Turn>,
    t: Trial, u: Trial, p: Pool, q: Pool, y: Taped<S>, z: Taped<nat>)
    requires ValidStretch(f) && InStep(f, y, z)
    requires NoPush(turns) && SameTrialState(t, u) && t.phase.Ready? && t.next <= |turns|
    requires Within(f, TurnLoop(Recording(w), setup, turns, t, p, y).2)
    ensures var (t1, _, y1) := TurnLoop(Recording(w), setup, turns, t, p, y);
      var (u1, _, z1) := TurnLoop(Recording(ScriptWorld(f.script, machine)), setup, turns, u, q, z);
      SameTrialState(t1, u1) && InStep(f, y1, z1)
    decreases |turns| - t.next
  {
    var live, tape := Recording(w), Recording(ScriptWorld(f.script, machine));
    if t.next < |turns| {
      var (t1, p1, y1) := OneTurn(live, setup, turns, t, p, y);
      if t1.phase.Ready? {
        TracesGrow(w, y1.trace);
        TurnsKeep(live, Extends(y1.trace), setup, turns, t1, p1, y1);
      }
      OneTurnMatches(w, machine, f, setup, turns, t, u, p, q, y, z);
      var (u1, q1, z1) := OneTurn(tape, setup, turns, u, q, z);
      if t1.phase.Ready? { TurnsMatch(w, machine, f, setup, turns, t1, u1, p1, q1, y1, z1); }
    }
  }

  /** The same verdict, turn by turn. */
  predicate SameTrial(a: TrialResult, b: TrialResult) {
    a.index == b.index && a.passed == b.passed && a.turns == b.turns && (a.error.Some? <==> b.error.Some?)
  }

  predicate SameTrials(a: seq<TrialResult>, b: seq<TrialResult>) {
    |a| == |b| && forall i :: 0 <= i < |a| ==> SameTrial(a[i], b[i])
  }

  predicate SameScenario(a: ScenarioResult, b: ScenarioResult) {
    && a.name == b.name && a.passedTrials == b.passedTrials && a.required == b.required
    && SameTrials(a.trials, b.trials)
    && (a.latency.Some? <==> b.latency.Some?) && (a.latency.None? ==> a.passed == b.passed)
  }

  lemma ResultMatches(t: Trial, u: Trial, index: nat, d: int, d': int)
    requires SameTrialState(t, u) && t.phase.Ended?
    ensures SameTrial(ResultOf(t, index, d), ResultOf(u, index, d'))
  {
  }

  lemma TrialMatches<S(!new)>(
    w: World<S>, machine: World<nat>, f: Stretch, setup: Setup, turns: seq<Turn>, index: nat,
    p: Pool, q: Pool, y: Taped<S>, z: Taped<nat>)
    requires ValidStretch(f) && InStep(f, y, z) && NoPush(turns)
    requires Within(f, TrialRun(Recording(w), setup, turns, index, p, y).2)
    ensures var (a, _, y1) := TrialRun(Recording(w), setup, turns, index, p, y);
      var (b, _, z1) := TrialRun(Recording(ScriptWorld(f.script, machine)), setup, turns, index, q, z);
      SameTrial(a, b) && InStep(f, y1, z1)
  {
    var live, tape := Recording(w), Recording(ScriptWorld(f.script, machine));
    var t, u := Start(live.uuid(y)), Start(tape.uuid(z));
    var (t1, p1, y1) := TurnLoop(live, setup, turns, t, p, y);
    var (u1, q1, z1) := TurnLoop(tape, setup, turns, u, q, z);
    TurnLoopEnds(live, setup, turns, t, p, y);
    TurnLoopEnds(tape, setup, turns, u, q, z);
    assert TrialRun(live, setup, turns, index, p, y) == (ResultOf(t1, index, live.elapsed(y, y1)), p1, y1);
    TurnsMatch(w, machine, f, setup, turns, t, u, p, q, y, z);
    ResultMatches(t1, u1, index, live.elapsed(y, y1), tape.elapsed(z, z1));
  }

  lemma SameStop(
    sc: Scenario, required: int, earlyStop: bool, a: seq<TrialResult>, b: seq<TrialResult>)
    requires SameTrials(a, b)
    ensures Verdicts(a) == Verdicts(b)
    ensures StopsEarly(sc, required, earlyStop, a) == StopsEarly(sc, required, earlyStop, b)
  {
  }

  /** The calls of a run between two points, and a script at the start of them. */
  function StretchOf<S>(y: Taped<S>, y1: Taped<S>, script: Script, z: Taped<nat>): Stretch {
    Stretch(Behind(y.trace, y1.trace), y.trace, script, z.inner, z.trace)
  }

  lemma StretchStarts<S>(y: Taped<S>, y1: Taped<S>, script: Script, z: Taped<nat>)
    requires y.trace <= y1.trace
    ensures InStep(StretchOf(y, y1, script, z), y, z) && Within(StretchOf(y, y1, script, z), y1)
  {
    assert y.trace + Behind(y.trace, y1.trace) == y1.trace;
  }

  lemma StretchEnds<S>(y: Taped<S>, y1: Taped<S>, script: Script, z: Taped<nat>, z1: Taped<nat>)
    requires y.trace <= y1.trace && InStep(StretchOf(y, y1, script, z), y1, z1)
    ensures z.trace <= z1.trace && SameTraces(Behind(y.trace, y1.trace), Behind(z.trace, z1.trace))
    ensures z1.inner == Moved(script, z.inner, |y1.trace| - |y.trace|)
  {
  }

  /**
   A trial against a script that answers its calls as another run of the trial was answered: the same calls, and
   the same result.
   */
  lemma TrialFollows<S(!new)>(
    w: World<S>, script: Script, machine: World<nat>, setup: Setup, turns: seq<Turn>, index: nat,
    p: Pool, q: Pool, y: Taped<S>, z: Taped<nat>)
    requires NoPush(turns)
    requires Agrees(script, z.inner, Behind(y.trace, TrialRun(Recording(w), setup, turns, index, p, y).2.trace))
    ensures var (a, _, y1) := TrialRun(Recording(w), setup, turns, index, p, y);
      var (b, _, z1) := TrialRun(Recording(ScriptWorld(script, machine)), setup, turns, index, q, z);
      && y.trace <= y1.trace && z.trace <= z1.trace
      && SameTrial(a, b) && SameTraces(Behind(y.trace, y1.trace), Behind(z.trace, z1.trace))
      && z1.inner == Moved(script, z.inner, |y1.trace| - |y.trace|)
  {
    var y1 := TrialRun(Recording(w), setup, turns, index, p, y).2;
    var z1 := TrialRun(Recording(ScriptWorld(script, machine)), setup, turns, index, q, z).2;
    var f := StretchOf(y, y1, script, z);
    TrialGrows(w, setup, turns, index, p, y);
    StretchStarts(y, y1, script, z);
    assert f.script == script;
    TrialMatches(w, machine, f, setup, turns, index, p, q, y, z);
    StretchEnds(y, y1, script, z, z1);
  }

  lemma TrialGrows<S(!new)>(w: World<S>, setup: Setup, turns: seq<Turn>, index: nat, pool: Pool, y: Taped<S>)
    ensures y.trace <= TrialRun(Recording(w), setup, turns, index, pool, y).2.trace
  {
    TracesGrow(w, y.trace);
    TurnsKeep(Recording(w), Extends(y.trace), setup, turns, Start(Recording(w).uuid(y)), pool, y);
  }

  // ---------------------------------------------------------------------------------------------
  // The tape on disk
  // ---------------------------------------------------------------------------------------------

  /** The tape that is written is the tape that is read: every returned outcome survives its dump. */
  lemma TapeRoundTrip(trace: seq<Reply>)
    requires forall i :: 0 <= i < |trace| && trace[i].Ok? ==> Cassette.AllStorable(trace[i].value.files)
    ensures var tape := Returned(trace);
      Cassette.LoadAll(Cassette.Load, Cassette.Dumps(tape)) == Some(tape)
  {
    var tape := Returned(trace);
    var items := Cassette.Dumps(tape);
    ReturnedStorable(trace);
    forall i | 0 <= i < |items| ensures Cassette.Load(items[i]) == Some(tape[i]) {
      Cassette.RoundTrip(tape[i]);
    }
    Cassette.LoadAllRoundTrip(Cassette.Load, items, tape);
  }

  lemma {:induction false} ReturnedStorable(trace: seq<Reply>)
    requires forall i :: 0 <= i < |trace| && trace[i].Ok? ==> Cassette.AllStorable(trace[i].value.files)
    ensures forall i :: 0 <= i < |Returned(trace)| ==> Cassette.AllStorable(Returned(trace)[i].files)
  {
    if trace != [] { ReturnedStorable(trace[..|trace| - 1]); }
  }
}

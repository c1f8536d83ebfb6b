/**
 Record and replay of whole contracts: the exact condition under which every call of a replay is answered with
 what was recorded for it, and what the replay then reports.
 */
module ReplayTheorem {
  import opened Wrappers
  import opened Sequences
  import opened Protocol
  import opened Runner
  import opened Scenarios
  import opened Traces
  import opened Replay
  import opened ReplayOrder
  import opened Revisions
  import opened ReplayExact

  /** One version of a contract, but for its scenarios: its operations and invariants, and its card check. */
  datatype Version = Version(setup: Setup, card: Option<CardResult>)

  /** What was recorded, and what is replayed of it. */
  datatype Revision = Revision(recorded: Version, replayed: Version, edits: seq<Edit>)

  predicate CardPassed(card: Option<CardResult>) { card.None? || card.value.passed }

  /** The scenarios that run at all; none does behind a failed card check. */
  function Running(rev: Revision): (edits: seq<Edit>)
    ensures |edits| == |rev.edits|
  {
    seq(|rev.edits|, i requires 0 <= i < |rev.edits| =>
      Edit(if CardPassed(rev.recorded.card) then rev.edits[i].was else None,
           if CardPassed(rev.replayed.card) then rev.edits[i].now else None))
  }

  /** A recording: every trial runs, and everything returned or raised is in the trace. */
  function Recorded<S>(w: World<S>, rev: Revision, pool: Pool, s: S): (SuiteResult, Pool, Taped<S>) {
    SuiteRun(Recording(w), rev.recorded.setup, rev.recorded.card, Present(rev.edits, true), false, pool, Taped(s, []))
  }

  /** The replayed contract, run against a tape. */
  function Replayed(tape: seq<TurnOutcome>, machine: World<nat>, rev: Revision, earlyStop: bool, pool: Pool)
    : (SuiteResult, Pool, Taped<nat>)
  {
    SuiteRun(Recording(TapeWorld(tape, machine)), rev.replayed.setup, rev.replayed.card, Present(rev.edits, false),
             earlyStop, pool, Taped(0, []))
  }

  /** The recorded calls, by scenario and trial. */
  function Blocks<S>(w: World<S>, rev: Revision, pool: Pool, s: S): (blocks: seq<seq<seq<Reply>>>)
    ensures Covers(blocks, Running(rev))
  {
    ScenarioByScenario(w, rev.recorded.setup, Running(rev), true, false, pool, Taped(s, [])).blocks
  }

  /** The calls of a replay, in the same places. */
  function ReplayCalls(tape: seq<TurnOutcome>, machine: World<nat>, rev: Revision, earlyStop: bool, pool: Pool)
    : seq<seq<Reply>>
  {
    Flat(ScenarioByScenario(
      TapeWorld(tape, machine), rev.replayed.setup, Running(rev), false, earlyStop, pool, Taped(0, [])).blocks)
  }

  /** The replay as it should be: numbers of calls, and results. */
  function Should(blocks: seq<seq<seq<Reply>>>, machine: World<nat>, rev: Revision, earlyStop: bool)
    : (seq<nat>, seq<ScenarioResult>)
    requires Covers(blocks, Running(rev))
  {
    var r := OwnScenarios(blocks, machine, rev.replayed.setup, Running(rev), earlyStop);
    (Flat(r.0), r.1)
  }

  // ---------------------------------------------------------------------------------------------
  // Recorded and replayed traces
  // ---------------------------------------------------------------------------------------------

  lemma {:induction false} PresentMapped(edits: seq<Edit>, shown: seq<Edit>, recorded: bool, passed: bool)
    requires |edits| == |shown|
    requires forall i :: 0 <= i < |edits| ==>
      Side(shown[i], recorded) == if passed then Side(edits[i], recorded) else None
    ensures Present(shown, recorded) == if passed then Present(edits, recorded) else []
  {
    if edits != [] {
      assert forall i :: 0 <= i < |edits| - 1 ==> edits[1..][i] == edits[i + 1] && shown[1..][i] == shown[i + 1];
      PresentMapped(edits[1..], shown[1..], recorded, passed);
    }
  }

  lemma RunningPresent(rev: Revision)
    ensures Present(Running(rev), true) == if CardPassed(rev.recorded.card) then Present(rev.edits, true) else []
    ensures Present(Running(rev), false) == if CardPassed(rev.replayed.card) then Present(rev.edits, false) else []
  {
    PresentMapped(rev.edits, Running(rev), true, CardPassed(rev.recorded.card));
    PresentMapped(rev.edits, Running(rev), false, CardPassed(rev.replayed.card));
  }

  /** A run of a contract behind its card check, scenario by scenario. */
  lemma SuiteByScenario<S>(
    w: World<S>, setup: Setup, card: Option<CardResult>, plans: seq<Plan>, edits: seq<Edit>, recorded: bool,
    earlyStop: bool, pool: Pool, y: Taped<S>)
    requires Present(edits, recorded) == if CardPassed(card) then plans else []
    ensures var (result, _, y1) := SuiteRun(Recording(w), setup, card, plans, earlyStop, pool, y);
      var r := ScenarioByScenario(w, setup, edits, recorded, earlyStop, pool, y);
      && result.scenarios == r.results && y1 == r.y && result.card == card
      && result.passed == (CardPassed(card) && AllScenariosPassed(r.results))
  {
    var ran := if CardPassed(card) then plans else [];
    assert ran[0..] == ran;
    ResultsAreSuite(w, setup, edits, recorded, earlyStop, pool, y, ran, []);
    var r := ScenarioByScenario(w, setup, edits, recorded, earlyStop, pool, y);
    assert [] + r.results == r.results;
  }

  lemma RecordedTrace<S(!new)>(w: World<S>, rev: Revision, pool: Pool, s: S)
    ensures Recorded(w, rev, pool, s).2.trace == Flat(Flat(Blocks(w, rev, pool, s)))
  {
    var setup, edits := rev.recorded.setup, Running(rev);
    RunningPresent(rev);
    SuiteByScenario(
      w, setup, rev.recorded.card, Present(rev.edits, true), edits, true, false, pool, Taped(s, []));
    BlocksAreTrace(w, setup, edits, true, false, pool, Taped(s, []));
    assert [] + Flat(Flat(Blocks(w, rev, pool, s))) == Flat(Flat(Blocks(w, rev, pool, s)));
  }

  lemma ReplayedTrace(tape: seq<TurnOutcome>, machine: World<nat>, rev: Revision, earlyStop: bool, pool: Pool)
    ensures Replayed(tape, machine, rev, earlyStop, pool).2.trace
         == Flat(ReplayCalls(tape, machine, rev, earlyStop, pool))
  {
    var w, setup, edits, calls :=
      TapeWorld(tape, machine), rev.replayed.setup, Running(rev), ReplayCalls(tape, machine, rev, earlyStop, pool);
    RunningPresent(rev);
    SuiteByScenario(
      w, setup, rev.replayed.card, Present(rev.edits, false), edits, false, earlyStop, pool, Taped(0, []));
    BlocksAreTrace(w, setup, edits, false, earlyStop, pool, Taped(0, []));
    assert [] + Flat(calls) == Flat(calls);
  }

  // ---------------------------------------------------------------------------------------------
  // Reading the tape
  // ---------------------------------------------------------------------------------------------

  /** What reading a tape has returned so far. */
  predicate ReadSoFar(tape: seq<TurnOutcome>, z: Taped<nat>) {
    z.inner == |Returned(z.trace)| <= |tape| && RaisedAtEnd(0, z.trace, |tape|)
  }

  lemma ReadNext(tape: seq<TurnOutcome>, machine: World<nat>, z: Taped<nat>, r: Request)
    requires ReadSoFar(tape, z)
    ensures ReadSoFar(tape, Recording(TapeWorld(tape, machine)).call(z, r).0)
  {
    var (z1, b) := Recording(TapeWorld(tape, machine)).call(z, r);
    ReturnedNext(z.trace, b);
    forall k | 0 <= k < |z1.trace| ensures AtEndIfRaised(0, z1.trace, |tape|, k) {
      assert z1.trace[..k] == z.trace[..k];
      if k == |z.trace| {
        assert z.trace[..k] == z.trace;
      } else {
        assert AtEndIfRaised(0, z.trace, |tape|, k);
      }
    }
  }

  lemma ReplayReads(tape: seq<TurnOutcome>, machine: World<nat>, rev: Revision, earlyStop: bool, pool: Pool)
    ensures ReadSoFar(tape, Replayed(tape, machine, rev, earlyStop, pool).2)
  {
    var w := Recording(TapeWorld(tape, machine));
    forall z: Taped<nat>, r: Request | ReadSoFar(tape, z) ensures ReadSoFar(tape, w.call(z, r).0) {
      ReadNext(tape, machine, z, r);
    }
    if CardPassed(rev.replayed.card) {
      ScenariosKeep(
        w, z => ReadSoFar(tape, z), rev.replayed.setup, Present(rev.edits, false), earlyStop, [], pool, Taped(0, []));
    }
  }

  lemma RaisedSplits(before: nat, u: seq<Reply>, v: seq<Reply>, size: nat)
    requires RaisedAtEnd(before, u + v, size)
    ensures RaisedAtEnd(before, u, size) && RaisedAtEnd(before + |Returned(u)|, v, size)
  {
    var all, after := u + v, before + |Returned(u)|;
    forall k | 0 <= k < |u| ensures AtEndIfRaised(before, u, size, k) {
      assert AtEndIfRaised(before, all, size, k) && all[..k] == u[..k];
    }
    forall k | 0 <= k < |v| ensures AtEndIfRaised(after, v, size, k) {
      assert AtEndIfRaised(before, all, size, |u| + k) && all[..|u| + k] == u + v[..k];
      ReturnedConcat(u, v[..k]);
    }
  }

  lemma {:induction false} RaisedExhausted(m: nat, calls: seq<seq<Reply>>, size: nat)
    requires RaisedAtEnd(m, Flat(calls), size)
    ensures Exhausted(m, calls, size)
    decreases |calls|
  {
    if calls != [] {
      RaisedSplits(m, calls[0], Flat(calls[1..]), size);
      RaisedExhausted(m + |Returned(calls[0])|, calls[1..], size);
    }
  }

  // ---------------------------------------------------------------------------------------------
  // Main results
  // ---------------------------------------------------------------------------------------------

  /** If the recording is in order for the calls of the replay, or for those it should make, all goes well. */
  lemma ReplayGoesWell<S(!new)>(
    w: World<S>, machine: World<nat>, rev: Revision, earlyStop: bool, p: Pool, q: Pool, s: S,
    blocks: seq<seq<seq<Reply>>>, tape: seq<TurnOutcome>, calls: seq<seq<Reply>>,
    should: (seq<nat>, seq<ScenarioResult>), counts: seq<nat>)
    requires NonePush(rev.edits) && blocks == Blocks(w, rev, p, s) && tape == Returned(Flat(Flat(blocks)))
    requires calls == ReplayCalls(tape, machine, rev, earlyStop, q) && should == Should(blocks, machine, rev, earlyStop)
    requires counts == should.0 || counts == Counts(calls)
    requires |counts| == |Flat(blocks)| && InOrder(Flat(blocks), counts)
    ensures SuiteWell(
      Flat(blocks), counts, should, calls, Replayed(tape, machine, rev, earlyStop, q).0.scenarios)
  {
    var setup, edits, z := rev.replayed.setup, Running(rev), Taped(0, []);
    var r := ScenarioByScenario(TapeWorld(tape, machine), setup, edits, false, earlyStop, q, z);
    RunningPresent(rev);
    SuiteByScenario(TapeWorld(tape, machine), setup, rev.replayed.card, Present(rev.edits, false), edits, false,
                    earlyStop, q, z);
    assert tape[0..] == tape;
    SuiteGoesWell(
      tape, machine, setup, edits, earlyStop, blocks, q, z, 0, counts,
      OwnScenarios(blocks, machine, setup, edits, earlyStop), r);
  }

  /**
   Every call of the replay was recorded, and is answered with what was recorded for it, if and only if the
   recording is in order for the calls the replay should make.
   */
  lemma ReplayExactly<S(!new)>(
    w: World<S>, machine: World<nat>, rev: Revision, earlyStop: bool, p: Pool, q: Pool, s: S)
    requires NonePush(rev.edits)
    ensures var blocks, tape := Blocks(w, rev, p, s), Returned(Recorded(w, rev, p, s).2.trace);
      var should := Should(blocks, machine, rev, earlyStop);
      && |Flat(blocks)| == |should.0|
      && (Answered(0, Flat(blocks), 0, ReplayCalls(tape, machine, rev, earlyStop, q))
          <==> InOrder(Flat(blocks), should.0))
  {
    var blocks, all := Blocks(w, rev, p, s), Recorded(w, rev, p, s).2.trace;
    var tape := Returned(all);
    var calls, should := ReplayCalls(tape, machine, rev, earlyStop, q), Should(blocks, machine, rev, earlyStop);
    RecordedTrace(w, rev, p, s);
    SameWidths(blocks, OwnScenarios(blocks, machine, rev.replayed.setup, Running(rev), earlyStop).0);
    if InOrder(Flat(blocks), should.0) {
      ReplayGoesWell(w, machine, rev, earlyStop, p, q, s, blocks, tape, calls, should, should.0);
      InOrderAnswered(0, Flat(blocks), should.0, 0, calls);
    }
    ReplayedTrace(tape, machine, rev, earlyStop, q);
    ReplayReads(tape, machine, rev, earlyStop, q);
    RaisedExhausted(0, calls, |tape|);
    if Answered(0, Flat(blocks), 0, calls) {
      AnsweredInOrder(0, Flat(blocks), 0, calls, |tape|);
      ReplayGoesWell(w, machine, rev, earlyStop, p, q, s, blocks, tape, calls, should, Counts(calls));
    }
  }

  lemma {:induction false} SameWidths<T, U>(a: seq<seq<T>>, b: seq<seq<U>>)
    requires |a| == |b| && forall i :: 0 <= i < |a| ==> |a[i]| == |b[i]|
    ensures |Flat(a)| == |Flat(b)|
  {
    if a != [] { SameWidths(a[1..], b[1..]); }
  }

  /**
   And then the replay reports what it should: every trial as against its own recorded calls, and every scenario
   but for its durations. If it makes all recorded calls it reads the tape to its end.
   */
  lemma ReplayReproduces<S(!new)>(
    w: World<S>, machine: World<nat>, rev: Revision, earlyStop: bool, p: Pool, q: Pool, s: S)
    requires NonePush(rev.edits)
    requires var blocks := Blocks(w, rev, p, s);
      var should := Should(blocks, machine, rev, earlyStop);
      |Flat(blocks)| == |should.0| && InOrder(Flat(blocks), should.0)
    ensures var blocks, tape := Blocks(w, rev, p, s), Returned(Recorded(w, rev, p, s).2.trace);
      var should := Should(blocks, machine, rev, earlyStop);
      var (replay, _, z) := Replayed(tape, machine, rev, earlyStop, q);
      && replay.card == rev.replayed.card && SameScenarios(should.1, replay.scenarios)
      && replay.passed == (CardPassed(replay.card) && AllScenariosPassed(replay.scenarios))
      && (should.0 == Counts(Flat(blocks)) ==> z.inner == |tape|)
  {
    var blocks, all := Blocks(w, rev, p, s), Recorded(w, rev, p, s).2.trace;
    var tape, should := Returned(all), Should(blocks, machine, rev, earlyStop);
    var calls := ReplayCalls(tape, machine, rev, earlyStop, q);
    RecordedTrace(w, rev, p, s);
    ReplayGoesWell(w, machine, rev, earlyStop, p, q, s, blocks, tape, calls, should, should.0);
    ReplayVerdict(tape, machine, rev, earlyStop, q);
    if should.0 == Counts(Flat(blocks)) { ReadToEnd(tape, machine, rev, earlyStop, q, Flat(blocks)); }
  }

  lemma ReplayVerdict(tape: seq<TurnOutcome>, machine: World<nat>, rev: Revision, earlyStop: bool, pool: Pool)
    ensures var replay := Replayed(tape, machine, rev, earlyStop, pool).0;
      && replay.card == rev.replayed.card
      && replay.passed == (CardPassed(replay.card) && AllScenariosPassed(replay.scenarios))
  {
  }

  lemma ReadToEnd(
    tape: seq<TurnOutcome>, machine: World<nat>, rev: Revision, earlyStop: bool, pool: Pool, tracks: seq<seq<Reply>>)
    requires tape == Returned(Flat(tracks))
    requires AllRepeat(tracks, Counts(tracks), ReplayCalls(tape, machine, rev, earlyStop, pool))
    ensures Replayed(tape, machine, rev, earlyStop, pool).2.inner == |tape|
  {
    ReplayedTrace(tape, machine, rev, earlyStop, pool);
    ReplayReads(tape, machine, rev, earlyStop, pool);
    RepeatedReturned(tracks, ReplayCalls(tape, machine, rev, earlyStop, pool));
  }

  lemma {:induction false} RepeatedReturned(tracks: seq<seq<Reply>>, calls: seq<seq<Reply>>)
    requires AllRepeat(tracks, Counts(tracks), calls)
    ensures |Returned(Flat(tracks))| == |Returned(Flat(calls))|
    decreases |tracks|
  {
    if tracks != [] {
      assert Repeats(tracks[0], Counts(tracks)[0], calls[0]) && tracks[0][..|tracks[0]|] == tracks[0];
      SameReturned(tracks[0], calls[0]);
      CountsNext(tracks);
      AllRepeatRest(tracks, Counts(tracks), calls);
      assert Counts(tracks)[1..] == Counts(tracks[1..]);
      RepeatedReturned(tracks[1..], calls[1..]);
      ReturnedConcat(tracks[0], Flat(tracks[1..]));
      ReturnedConcat(calls[0], Flat(calls[1..]));
    }
  }
}

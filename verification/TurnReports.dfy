/**
 What is reported about the turns of a trial: every result is the report on the response that was returned for
 its turn, and whatever holds of every single report holds throughout. A response that violates a global
 invariant is reported without its text, data and files; its states, timings and failures are still reported.
 */
module TurnReports {
  import opened Wrappers
  import opened Protocol
  import opened Runner
  import Invariants
  import opened Traces
  import Evidence
  import Scheduler

  /** A property of every report on a turn. */
  ghost predicate Guaranteed(setup: Setup, p: TurnResult -> bool) {
    forall turn: Turn, index: nat, outcome: TurnOutcome ::
      Report(setup, turn, index, outcome).Ok? ==> p(Report(setup, turn, index, outcome).value)
  }

  predicate All(p: TurnResult -> bool, results: seq<TurnResult>) {
    forall i :: 0 <= i < |results| ==> p(results[i])
  }

  lemma ConcludeReports(
    p: TurnResult -> bool, setup: Setup, turns: seq<Turn>, t: Trial, pool: Pool, answer: Answer)
    requires Guaranteed(setup, p) && t.next < |turns| && All(p, t.results)
    ensures All(p, Conclude(setup, turns, t, pool, answer).0.results)
  {
    var report := Report(setup, turns[t.next], t.next + 1, answer.outcome);
    if report.Ok? { assert p(report.value); }
  }

  lemma AdvanceReports(p: TurnResult -> bool, setup: Setup, turns: seq<Turn>, t: Trial, pool: Pool, reply: Reply)
    requires Guaranteed(setup, p) && t.phase.Awaiting? && t.next < |turns| && All(p, t.results)
    ensures All(p, Advance(setup, turns, t, pool, reply).0.results)
  {
    var (finish, pool1) := FinishTurn(t.phase.pending, t.held, pool, reply);
    if finish.Ok? { ConcludeReports(p, setup, turns, t, pool1, finish.value); }
  }

  lemma OneTurnReports<S>(
    p: TurnResult -> bool, w: World<S>, setup: Setup, turns: seq<Turn>, t: Trial, pool: Pool, s: S)
    requires Guaranteed(setup, p) && t.phase.Ready? && t.next < |turns| && All(p, t.results)
    ensures All(p, OneTurn(w, setup, turns, t, pool, s).0.results)
  {
    var (t1, pool1) := Begin(setup, turns, t, pool, w.route(s));
    if t1.phase.Awaiting? {
      AdvanceReports(p, setup, turns, t1, pool1, w.call(s, t1.phase.pending.request).1);
    }
  }

  lemma {:induction false} TurnsReport<S>(
    p: TurnResult -> bool, w: World<S>, setup: Setup, turns: seq<Turn>, t: Trial, pool: Pool, s: S)
    requires Guaranteed(setup, p) && t.phase.Ready? && t.next <= |turns| && All(p, t.results)
    ensures All(p, TurnLoop(w, setup, turns, t, pool, s).0.results)
    decreases |turns| - t.next
  {
    if t.next < |turns| {
      var (t1, pool1, s1) := OneTurn(w, setup, turns, t, pool, s);
      OneTurnReports(p, w, setup, turns, t, pool, s);
      if t1.phase.Ready? { TurnsReport(p, w, setup, turns, t1, pool1, s1); }
    }
  }

  /** In a trial on its own. */
  lemma TrialReports<S>(
    p: TurnResult -> bool, w: World<S>, setup: Setup, turns: seq<Turn>, index: nat, pool: Pool, s: S)
    requires Guaranteed(setup, p)
    ensures All(p, TrialRun(w, setup, turns, index, pool, s).0.turns)
  {
    TurnsReport(p, w, setup, turns, Start(w.uuid(s)), pool, s);
  }

  /** In a trial among others. */
  lemma {:induction false} AloneReports(
    p: TurnResult -> bool, setup: Setup, turns: seq<Turn>, status: ReceiverStatus, log: seq<Scheduler.Given>)
    requires Guaranteed(setup, p)
    ensures var t := Scheduler.Alone(setup, turns, status, log); t.Some? ==> All(p, t.value.results)
  {
    if log != [] {
      var init, last := log[..|log| - 1], log[|log| - 1];
      AloneReports(p, setup, turns, status, init);
      var t := Scheduler.Alone(setup, turns, status, init);
      if last.Got? && t.Some? && t.value.phase.Awaiting? && t.value.next < |turns| {
        AdvanceReports(p, setup, turns, t.value, Pool(status, {}), last.reply);
      }
    }
  }

  // ---------------------------------------------------------------------------------------------
  // Results and responses
  // ---------------------------------------------------------------------------------------------

  /** The i-th result is the report on the i-th outcome. */
  predicate ReportsOf(setup: Setup, turns: seq<Turn>, results: seq<TurnResult>, outcomes: seq<TurnOutcome>) {
    |results| <= |turns| && |results| <= |outcomes| &&
    forall i :: 0 <= i < |results| ==> Report(setup, turns[i], i + 1, outcomes[i]) == Ok(results[i])
  }

  /** Between two turns there is one result for every response. */
  predicate Reported(setup: Setup, turns: seq<Turn>, t: Trial, outcomes: seq<TurnOutcome>) {
    && ReportsOf(setup, turns, t.results, outcomes)
    && (t.phase.Ready? ==> t.next == |t.results| == |outcomes|)
  }

  lemma ConcludeReported(
    setup: Setup, turns: seq<Turn>, t: Trial, pool: Pool, answer: Answer, outcomes: seq<TurnOutcome>)
    requires t.next < |turns| && t.next == |t.results| == |outcomes| && ReportsOf(setup, turns, t.results, outcomes)
    ensures Reported(setup, turns, Conclude(setup, turns, t, pool, answer).0, outcomes + [answer.outcome])
  {
    var report := Report(setup, turns[t.next], t.next + 1, answer.outcome);
    assert Conclude(setup, turns, t, pool, answer).0.results
        == if report.Ok? then t.results + [report.value] else t.results;
  }

  lemma AdvanceReported(
    setup: Setup, turns: seq<Turn>, t: Trial, pool: Pool, reply: Reply, outcomes: seq<TurnOutcome>)
    requires t.phase.Awaiting? && t.next < |turns| && t.next == |t.results| == |outcomes|
    requires ReportsOf(setup, turns, t.results, outcomes)
    ensures Reported(setup, turns, Advance(setup, turns, t, pool, reply).0,
                     if reply.Ok? then outcomes + [reply.value] else outcomes)
  {
    var (finish, pool1) := FinishTurn(t.phase.pending, t.held, pool, reply);
    if finish.Ok? {
      assert reply == Ok(finish.value.outcome);
      ConcludeReported(setup, turns, t, pool1, finish.value, outcomes);
    }
  }

  lemma ReturnedBehind(before: seq<Reply>, trace: seq<Reply>, reply: Reply)
    requires before <= trace
    ensures var earlier := Returned(Behind(before, trace));
      Returned(Behind(before, trace + [reply])) == if reply.Ok? then earlier + [reply.value] else earlier
  {
    ReturnedNext(Behind(before, trace), reply);
    assert Behind(before, trace + [reply]) == Behind(before, trace) + [reply];
  }

  lemma OneTurnReported<S>(
    w: World<S>, setup: Setup, turns: seq<Turn>, t: Trial, pool: Pool, y: Taped<S>, before: seq<Reply>)
    requires t.phase.Ready? && t.next < |turns| && before <= y.trace
    requires Reported(setup, turns, t, Returned(Behind(before, y.trace)))
    ensures var (t1, _, y1) := OneTurn(Recording(w), setup, turns, t, pool, y);
      before <= y1.trace && Reported(setup, turns, t1, Returned(Behind(before, y1.trace)))
  {
    var (t1, pool1) := Begin(setup, turns, t, pool, Recording(w).route(y));
    if t1.phase.Awaiting? {
      var (y1, reply) := Recording(w).call(y, t1.phase.pending.request);
      AdvanceReported(setup, turns, t1, pool1, reply, Returned(Behind(before, y.trace)));
      ReturnedBehind(before, y.trace, reply);
    }
  }

  lemma {:induction false} TurnsReported<S>(
    w: World<S>, setup: Setup, turns: seq<Turn>, t: Trial, pool: Pool, y: Taped<S>, before: seq<Reply>)
    requires t.phase.Ready? && t.next <= |turns| && before <= y.trace
    requires Reported(setup, turns, t, Returned(Behind(before, y.trace)))
    ensures var (t1, _, y1) := TurnLoop(Recording(w), setup, turns, t, pool, y);
      before <= y1.trace && ReportsOf(setup, turns, t1.results, Returned(Behind(before, y1.trace)))
    decreases |turns| - t.next
  {
    if t.next < |turns| {
      var (t1, pool1, y1) := OneTurn(Recording(w), setup, turns, t, pool, y);
      OneTurnReported(w, setup, turns, t, pool, y, before);
      if t1.phase.Ready? { TurnsReported(w, setup, turns, t1, pool1, y1, before); }
    }
  }

  /** The results of a trial are the reports on what its operations returned, turn by turn. */
  lemma ResultsAreReports<S>(w: World<S>, setup: Setup, turns: seq<Turn>, index: nat, pool: Pool, y: Taped<S>)
    ensures var (r, _, y1) := TrialRun(Recording(w), setup, turns, index, pool, y);
      ReportsOf(setup, turns, r.turns, Returned(Behind(y.trace, y1.trace)))
  {
    assert Behind(y.trace, y.trace) == [];
    TurnsReported(w, setup, turns, Start(Recording(w).uuid(y)), pool, y, y.trace);
  }

  /**
   Of every response of a trial the result shows its states, timings and failures, and unless it is hidden its
   data: each value an AP2 expectation points at is hidden, and every path apart from those reads as received.
   */
  lemma ResponsesAreShown<S>(w: World<S>, setup: Setup, turns: seq<Turn>, index: nat, pool: Pool, y: Taped<S>)
    ensures var (r, _, y1) := TrialRun(Recording(w), setup, turns, index, pool, y);
      var outcomes := Returned(Behind(y.trace, y1.trace));
      && |r.turns| <= |turns| && |r.turns| <= |outcomes|
      && forall i :: 0 <= i < |r.turns| ==> Shows(setup, turns[i], i + 1, outcomes[i], r.turns[i])
  {
    var (r, _, y1) := TrialRun(Recording(w), setup, turns, index, pool, y);
    var outcomes := Returned(Behind(y.trace, y1.trace));
    ResultsAreReports(w, setup, turns, index, pool, y);
    forall i | 0 <= i < |r.turns| ensures Shows(setup, turns[i], i + 1, outcomes[i], r.turns[i]) {
      ReportShows(setup, turns[i], i + 1, outcomes[i]);
    }
  }

  // ---------------------------------------------------------------------------------------------
  // Invariants
  // ---------------------------------------------------------------------------------------------

  /** What a report shows of a response: all of it, or a marker in place of text, data and files. */
  predicate Discreet(rules: Invariants.Rules, outcome: TurnOutcome, r: TurnResult) {
    && (r.redacted <==> !Invariants.Holds(rules, outcome.text))
    && (if r.redacted then r.text == REDACTED_RESPONSE && r.data == [] && r.files == [] && !r.passed
        else r.text == outcome.text && r.files == outcome.files)
    && (Invariants.Holds(rules, r.text)
        <==> Invariants.Holds(rules, outcome.text) || Invariants.Holds(rules, REDACTED_RESPONSE))
  }

  lemma ReportsDiscreet(rules: Invariants.Rules, setup: Setup, turn: Turn, index: nat, outcome: TurnOutcome)
    requires setup.invariants == Some(rules) && Report(setup, turn, index, outcome).Ok?
    ensures Discreet(rules, outcome, Report(setup, turn, index, outcome).value)
  {
    Invariants.NoFailuresExactly(rules, outcome.text);
  }

  /**
   Every reported text keeps the invariants exactly if the text of its response does or the marker does; and of
   a response that violates them neither text nor data nor files are reported.
   */
  lemma ForbiddenShownExactly<S>(
    rules: Invariants.Rules, w: World<S>, setup: Setup, turns: seq<Turn>, index: nat, pool: Pool, y: Taped<S>)
    requires setup.invariants == Some(rules)
    ensures var (r, _, y1) := TrialRun(Recording(w), setup, turns, index, pool, y);
      var outcomes := Returned(Behind(y.trace, y1.trace));
      |r.turns| <= |outcomes| && forall i :: 0 <= i < |r.turns| ==> Discreet(rules, outcomes[i], r.turns[i])
  {
    var (r, _, y1) := TrialRun(Recording(w), setup, turns, index, pool, y);
    var outcomes := Returned(Behind(y.trace, y1.trace));
    ResultsAreReports(w, setup, turns, index, pool, y);
    forall i | 0 <= i < |r.turns| ensures Discreet(rules, outcomes[i], r.turns[i]) {
      ReportsDiscreet(rules, setup, turns[i], i + 1, outcomes[i]);
    }
  }

  lemma MarkerHasWord(fold: Evidence.Folding)
    ensures Evidence.Occurs(fold, "global", REDACTED_RESPONSE)
  {
    var word := "global";
    assert REDACTED_RESPONSE[11..] == word + " invariant]";
    Evidence.OccursInItself(fold, word);
    Evidence.StartsExtended(fold, word, word, " invariant]");
    Evidence.OccursLater(fold, word, REDACTED_RESPONSE, 11);
  }

  /** The marker itself can show a forbidden text. */
  lemma MarkerCanViolate(rules: Invariants.Rules, setup: Setup, turn: Turn, index: nat, outcome: TurnOutcome)
    requires setup.invariants == Some(rules) && "global" in rules.notContains
    requires outcome.text == "global" && Report(setup, turn, index, outcome).Ok?
    ensures !Invariants.Holds(rules, Report(setup, turn, index, outcome).value.text)
  {
    var fold := Invariants.FoldOf(rules);
    var i :| 0 <= i < |rules.notContains| && rules.notContains[i] == "global";
    MarkerHasWord(fold);
    Evidence.OccursInItself(fold, outcome.text);
    assert Evidence.Occurs(fold, rules.notContains[i], outcome.text);
    ReportsDiscreet(rules, setup, turn, index, outcome);
  }
}

/** Trials against scripts: what a script answers is what a trial calls, for a tape and for recorded calls alike. */
module ReplayScripts {
  import opened Runner
  import opened Traces
  import opened Replay
  import opened ReplayOrder
  import opened Revisions

  // ---------------------------------------------------------------------------------------------
  // Runs against scripts
  // ---------------------------------------------------------------------------------------------

  /** What a run against a script has done since it stood at this point. */
  predicate Scripted(script: Script, from: Taped<nat>, z: Taped<nat>) {
    && from.trace <= z.trace && Agrees(script, from.inner, Behind(from.trace, z.trace))
    && z.inner == Moved(script, from.inner, |z.trace| - |from.trace|)
  }

  lemma AgreesNext(script: Script, position: nat, calls: seq<Reply>, reply: Reply)
    requires Agrees(script, position, calls) && reply == Next(script, Moved(script, position, |calls|)).1
    ensures Agrees(script, position, calls + [reply])
  {
    var more := calls + [reply];
    forall k | 0 <= k < |more| ensures SameReply(more[k], Next(script, Moved(script, position, k)).1) {
      if k < |calls| { assert SameReply(calls[k], Next(script, Moved(script, position, k)).1); }
    }
  }

  lemma ScriptedCall(script: Script, machine: World<nat>, from: Taped<nat>, z: Taped<nat>, r: Request)
    requires Scripted(script, from, z)
    ensures Scripted(script, from, Recording(ScriptWorld(script, machine)).call(z, r).0)
  {
    var (z1, b) := Recording(ScriptWorld(script, machine)).call(z, r);
    assert Behind(from.trace, z1.trace) == Behind(from.trace, z.trace) + [b];
    AgreesNext(script, from.inner, Behind(from.trace, z.trace), b);
  }

  lemma ScriptedKept(script: Script, machine: World<nat>, from: Taped<nat>)
    ensures Kept(Recording(ScriptWorld(script, machine)), z => Scripted(script, from, z))
  {
    forall z: Taped<nat>, r: Request | Scripted(script, from, z)
      ensures Scripted(script, from, Recording(ScriptWorld(script, machine)).call(z, r).0)
    {
      ScriptedCall(script, machine, from, z, r);
    }
  }

  /** The calls of a trial are the answers of its script. */
  lemma TrialScripted(
    script: Script, machine: World<nat>, setup: Setup, turns: seq<Turn>, index: nat, pool: Pool, z: Taped<nat>)
    ensures Scripted(script, z, TrialRun(Recording(ScriptWorld(script, machine)), setup, turns, index, pool, z).2)
  {
    var w := Recording(ScriptWorld(script, machine));
    ScriptedKept(script, machine, z);
    assert Behind(z.trace, z.trace) == [];
    TurnsKeep(w, z' => Scripted(script, z, z'), setup, turns, Start(w.uuid(z)), pool, z);
  }

  lemma {:induction false} OwnMoves(own: seq<Reply>, k: nat)
    ensures Moved(Own(own), 0, k) == k
  {
    if k > 0 { OwnMoves(own, k - 1); }
  }

  lemma OwnAgrees(own: seq<Reply>, calls: seq<Reply>, count: nat)
    requires count <= |own| && count == |calls|
    ensures Agrees(Own(own), 0, calls) <==> SameTraces(own[..count], calls)
  {
    forall k | 0 <= k < count
      ensures SameReply(calls[k], Next(Own(own), Moved(Own(own), 0, k)).1) <==> SameReply(own[..count][k], calls[k])
    {
      OwnMoves(own, k);
    }
  }

  lemma AgreesSame(script: Script, position: nat, u: seq<Reply>, v: seq<Reply>)
    requires SameTraces(u, v)
    ensures Agrees(script, position, u) <==> Agrees(script, position, v)
  {
    forall k | 0 <= k < |u| ensures
      SameReply(u[k], Next(script, Moved(script, position, k)).1)
      <==> SameReply(v[k], Next(script, Moved(script, position, k)).1)
    {
      assert SameReply(u[k], v[k]);
    }
  }

  lemma AgreeingSame(script: Script, position: nat, u: seq<Reply>, v: seq<Reply>)
    requires |u| == |v| && Agrees(script, position, u) && Agrees(script, position, v)
    ensures SameTraces(u, v)
  {
    forall k | 0 <= k < |u| ensures SameReply(u[k], v[k]) {
      assert SameReply(u[k], Next(script, Moved(script, position, k)).1);
      assert SameReply(v[k], Next(script, Moved(script, position, k)).1);
    }
  }

  // ---------------------------------------------------------------------------------------------
  // One trial
  // ---------------------------------------------------------------------------------------------

  /** A trial of the replay goes as it should: as many calls, with the recorded answers and the same result. */
  predicate GoesWell(own: seq<Reply>, count: nat, should: (TrialResult, nat), calls: seq<Reply>, trial: TrialResult) {
    should.1 == count && Repeats(own, count, calls) && SameTrial(should.0, trial)
  }

  lemma OwnTrialGoesWell(
    tape: Script, machine: World<nat>, setup: Setup, turns: seq<Turn>, j: nat, own: seq<Reply>, count: nat,
    pool: Pool, z: Taped<nat>, trial: TrialResult, z1: Taped<nat>)
    requires NoPush(turns) && count <= |own| && Agrees(tape, z.inner, own[..count])
    requires var r := TrialRun(Recording(ScriptWorld(tape, machine)), setup, turns, j + 1, pool, z);
      trial == r.0 && z1 == r.2
    requires OwnTrial(own, machine, setup, turns, j).1 == count
    ensures GoesWell(own, count, OwnTrial(own, machine, setup, turns, j), Behind(z.trace, z1.trace), trial)
  {
    var start, none := Taped(0, []), Pool(Missing, {});
    var y := TrialRun(Recording(ScriptWorld(Own(own), machine)), setup, turns, j + 1, none, start).2;
    TrialScripted(Own(own), machine, setup, turns, j + 1, none, start);
    assert Behind(start.trace, y.trace) == y.trace;
    OwnAgrees(own, y.trace, count);
    AgreesSame(tape, z.inner, own[..count], y.trace);
    TrialFollows(ScriptWorld(Own(own), machine), tape, machine, setup, turns, j + 1, none, pool, start, z);
    SameTracesThrough(own[..count], y.trace, Behind(z.trace, z1.trace));
  }

  lemma SameTracesThrough(u: seq<Reply>, v: seq<Reply>, x: seq<Reply>)
    requires SameTraces(u, v) && SameTraces(v, x)
    ensures SameTraces(u, x)
  {
    forall k | 0 <= k < |u| ensures SameReply(u[k], x[k]) { assert SameReply(u[k], v[k]) && SameReply(v[k], x[k]); }
  }

  lemma TapedTrialGoesWell(
    tape: Script, machine: World<nat>, setup: Setup, turns: seq<Turn>, j: nat, own: seq<Reply>, count: nat,
    pool: Pool, z: Taped<nat>, trial: TrialResult, z1: Taped<nat>)
    requires NoPush(turns) && count <= |own| && Agrees(tape, z.inner, own[..count])
    requires var r := TrialRun(Recording(ScriptWorld(tape, machine)), setup, turns, j + 1, pool, z);
      trial == r.0 && z1 == r.2
    requires |Behind(z.trace, z1.trace)| == count
    ensures GoesWell(own, count, OwnTrial(own, machine, setup, turns, j), Behind(z.trace, z1.trace), trial)
  {
    var start, none, v := Taped(0, []), Pool(Missing, {}), Behind(z.trace, z1.trace);
    TrialScripted(tape, machine, setup, turns, j + 1, pool, z);
    AgreeingSame(tape, z.inner, own[..count], v);
    OwnAgrees(own, v, count);
    TrialFollows(ScriptWorld(tape, machine), Own(own), machine, setup, turns, j + 1, pool, none, z, start);
    var y := TrialRun(Recording(ScriptWorld(Own(own), machine)), setup, turns, j + 1, none, start).2;
    assert Behind(start.trace, y.trace) == y.trace;
  }

  /**
   Where the tape answers the first calls of a track as recorded, and one of the two runs makes just these, then
   so does the other.
   */
  lemma TrialGoesWell(
    tape: Script, machine: World<nat>, setup: Setup, turns: seq<Turn>, j: nat, own: seq<Reply>, count: nat,
    pool: Pool, z: Taped<nat>, trial: TrialResult, z1: Taped<nat>)
    requires NoPush(turns) && count <= |own| && Agrees(tape, z.inner, own[..count])
    requires var r := TrialRun(Recording(ScriptWorld(tape, machine)), setup, turns, j + 1, pool, z);
      trial == r.0 && z1 == r.2
    requires OwnTrial(own, machine, setup, turns, j).1 == count || |Behind(z.trace, z1.trace)| == count
    ensures GoesWell(own, count, OwnTrial(own, machine, setup, turns, j), Behind(z.trace, z1.trace), trial)
    ensures z.trace <= z1.trace && z1.inner == Moved(tape, z.inner, count)
  {
    TrialScripted(tape, machine, setup, turns, j + 1, pool, z);
    if OwnTrial(own, machine, setup, turns, j).1 == count {
      OwnTrialGoesWell(tape, machine, setup, turns, j, own, count, pool, z, trial, z1);
    } else {
      TapedTrialGoesWell(tape, machine, setup, turns, j, own, count, pool, z, trial, z1);
    }
  }
}

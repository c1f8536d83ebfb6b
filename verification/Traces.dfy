/** Runs with a trace of everything that operations returned or raised, and runs against a tape of outcomes. */
module Traces {
  import opened Wrappers
  import opened Decimal
  import opened Protocol
  import opened Runner

  /** A state with everything that was returned or raised so far. */
  datatype Taped<S> = Taped(inner: S, trace: seq<Reply>)

  function Recording<S>(w: World<S>): World<Taped<S>> {
    World(
      (y: Taped<S>, request: Request) =>
        var (s, reply) := w.call(y.inner, request); (Taped(s, y.trace + [reply]), reply),
      (y: Taped<S>) => w.uuid(y.inner),
      (y: Taped<S>) => w.route(y.inner),
      (y: Taped<S>, z: Taped<S>) => w.elapsed(y.inner, z.inner))
  }

  /** The next outcome of a tape, whatever is asked. */
  function Played(turns: seq<TurnOutcome>, position: nat): (nat, Reply) {
    if position >= |turns| then
      (position, Err("cassette holds " + Numeral(|turns|) + " recorded turns, and the contract asked for more"))
    else (position + 1, Ok(turns[position]))
  }

  /** What answers calls whatever they ask: a tape, or the very calls of a recorded trial. */
  datatype Script = Tape(turns: seq<TurnOutcome>) | Own(calls: seq<Reply>)

  function Next(script: Script, position: nat): (nat, Reply) {
    match script
    case Tape(turns) => Played(turns, position)
    case Own(calls) =>
      if position < |calls| then (position + 1, calls[position])
      else (position + 1, Err("nothing was recorded for this call"))
  }

  /** A script in place of an agent; identifiers and time are those of the replaying machine. */
  function ScriptWorld(script: Script, machine: World<nat>): World<nat> {
    World((n: nat, request: Request) => Next(script, n), machine.uuid, machine.route, machine.elapsed)
  }

  function TapeWorld(tape: seq<TurnOutcome>, machine: World<nat>): World<nat> { ScriptWorld(Tape(tape), machine) }

  /** The position after k calls. */
  function Moved(script: Script, position: nat, k: nat): nat {
    if k == 0 then position else Next(script, Moved(script, position, k - 1)).0
  }

  /** The script answers the calls from a position on like these. */
  predicate Agrees(script: Script, position: nat, calls: seq<Reply>) {
    forall k :: 0 <= k < |calls| ==> SameReply(calls[k], Next(script, Moved(script, position, k)).1)
  }

  /** The outcomes that were returned. */
  function Returned(trace: seq<Reply>): seq<TurnOutcome> {
    if trace == [] then []
    else
      var before, last := Returned(trace[..|trace| - 1]), trace[|trace| - 1];
      if last.Ok? then before + [last.value] else before
  }

  lemma {:induction false} ReturnedConcat(u: seq<Reply>, v: seq<Reply>)
    ensures Returned(u + v) == Returned(u) + Returned(v)
    decreases |v|
  {
    if v == [] {
      assert u + v == u;
    } else {
      ReturnedConcat(u, v[..|v| - 1]);
      assert (u + v)[..|u + v| - 1] == u + v[..|v| - 1];
    }
  }

  lemma ReturnedNext(trace: seq<Reply>, reply: Reply)
    ensures Returned(trace + [reply]) == if reply.Ok? then Returned(trace) + [reply.value] else Returned(trace)
  {
    assert (trace + [reply])[..|trace|] == trace;
  }

  /** Nothing was returned after something was raised. */
  predicate RaisesLast(trace: seq<Reply>) {
    forall i, j :: 0 <= i < j < |trace| && trace[i].Err? ==> trace[j].Err?
  }

  lemma {:induction false} NothingReturned(v: seq<Reply>)
    ensures Returned(v) == [] <==> forall i :: 0 <= i < |v| ==> v[i].Err?
  {
    if v != [] { NothingReturned(v[..|v| - 1]); }
  }

  predicate SameReply(a: Reply, b: Reply) {
    a.Ok? == b.Ok? && (a.Ok? ==> a.value == b.value)
  }

  predicate SameTraces(u: seq<Reply>, v: seq<Reply>) {
    |u| == |v| && forall i :: 0 <= i < |u| ==> SameReply(u[i], v[i])
  }

  lemma {:induction false} SameReturned(u: seq<Reply>, v: seq<Reply>)
    requires SameTraces(u, v)
    ensures Returned(u) == Returned(v)
  {
    if u != [] {
      assert SameReply(u[|u| - 1], v[|v| - 1]);
      SameReturned(u[..|u| - 1], v[..|v| - 1]);
    }
  }

  /** What a longer trace has behind a shorter one. */
  function Behind(earlier: seq<Reply>, later: seq<Reply>): seq<Reply> {
    if |earlier| <= |later| then later[|earlier|..] else []
  }
}

/**
 State trajectories of a response and the checks on them. A trajectory records each change of state
 once; a check asks for an exact sequence or for some states to occur in order.
 */
module Trajectory {
  import opened Wrappers
  import opened Chars

  // ---------------------------------------------------------------------------------------------
  // Collapsing repeated states
  // ---------------------------------------------------------------------------------------------

  /** The sequence with adjacent repeats merged. */
  function Collapse<T(==)>(s: seq<T>): (c: seq<T>)
    ensures |c| <= |s|
    ensures s != [] ==> c != [] && c[0] == s[0]
  {
    if |s| <= 1 then s
    else if s[0] == s[1] then Collapse(s[1..])
    else [s[0]] + Collapse(s[1..])
  }

  lemma CollapseFirst<T>(x: T, s: seq<T>)
    ensures Collapse([x] + s) == if s != [] && s[0] == x then Collapse(s) else [x] + Collapse(s)
  {
    assert ([x] + s)[1..] == s;
  }

  lemma {:induction false} CollapseLast<T>(s: seq<T>)
    requires s != []
    ensures Collapse(s)[|Collapse(s)| - 1] == s[|s| - 1]
  {
    if |s| > 1 { CollapseLast(s[1..]); }
  }

  /** Recording one more state: it is appended only when it differs from the last one. */
  lemma {:induction false} CollapseAppend<T>(s: seq<T>, x: T)
    ensures Collapse(s + [x]) ==
              if s != [] && s[|s| - 1] == x then Collapse(s) else Collapse(s) + [x]
  {
    if s == [] {
      assert s + [x] == [x];
    } else {
      var first, rest := s[0], s[1..];
      CollapseAppend(rest, x);
      assert s == [first] + rest && s + [x] == [first] + (rest + [x]);
      CollapseFirst(first, rest);
      CollapseFirst(first, rest + [x]);
    }
  }

  predicate NoAdjacentRepeats<T(==)>(s: seq<T>) {
    |s| <= 1 || (s[0] != s[1] && NoAdjacentRepeats(s[1..]))
  }

  /** Merging repeats is the identity exactly where there are none, and shortens everything else. */
  lemma {:induction false} CollapseFixedPoints<T>(s: seq<T>)
    ensures NoAdjacentRepeats(Collapse(s))
    ensures NoAdjacentRepeats(s) ==> Collapse(s) == s
    ensures !NoAdjacentRepeats(s) ==> |Collapse(s)| < |s|
  {
    if |s| > 1 {
      CollapseFixedPoints(s[1..]);
      var rest := Collapse(s[1..]);
      assert ([s[0]] + rest)[1..] == rest;
    }
  }

  // ---------------------------------------------------------------------------------------------
  // States in order
  // ---------------------------------------------------------------------------------------------

  /** Strictly increasing positions at which the expected states occur. */
  predicate IsEmbedding<T(==)>(at: seq<nat>, expected: seq<T>, actual: seq<T>) {
    && |at| == |expected|
    && (forall i :: 0 <= i < |at| ==> at[i] < |actual| && actual[at[i]] == expected[i])
    && (forall i, j :: 0 <= i < j < |at| ==> at[i] < at[j])
  }

  /** Matching each expected state at its first occurrence after the previous match. */
  function InOrder<T(==)>(expected: seq<T>, actual: seq<T>): bool {
    if expected == [] then true
    else if actual == [] then false
    else if expected[0] == actual[0] then InOrder(expected[1..], actual[1..])
    else InOrder(expected, actual[1..])
  }

  /** Greedy matching succeeds whenever any embedding exists. */
  lemma {:induction false} EmbeddingFound<T>(at: seq<nat>, expected: seq<T>, actual: seq<T>)
    requires IsEmbedding(at, expected, actual)
    ensures InOrder(expected, actual)
    decreases |actual|
  {
    if expected != [] {
      assert at[0] < |actual|;
      assert forall i :: 0 < i < |at| ==> at[0] < at[i];
      if expected[0] == actual[0] {
        // Whatever the embedding does with its first state, the others come after position 0.
        EmbeddingFound(Earlier(at[1..]), expected[1..], actual[1..]);
      } else {
        EmbeddingFound(Earlier(at), expected, actual[1..]);
      }
    }
  }

  function Earlier(at: seq<nat>): (r: seq<nat>)
    ensures |r| == |at|
    ensures forall i :: 0 <= i < |at| && at[i] > 0 ==> r[i] == at[i] - 1
  {
    seq(|at|, i requires 0 <= i < |at| => if at[i] == 0 then 0 else at[i] - 1)
  }

  /** The positions greedy matching finds. */
  function Matched<T(==)>(expected: seq<T>, actual: seq<T>): (at: seq<nat>)
    requires InOrder(expected, actual)
    ensures IsEmbedding(at, expected, actual)
  {
    if expected == [] then []
    else if expected[0] == actual[0] then [0] + Later(Matched(expected[1..], actual[1..]))
    else Later(Matched(expected, actual[1..]))
  }

  function Later(at: seq<nat>): (r: seq<nat>)
    ensures |r| == |at| && forall i :: 0 <= i < |at| ==> r[i] == at[i] + 1
  {
    seq(|at|, i requires 0 <= i < |at| => at[i] + 1)
  }

  /** Greedy matching succeeds exactly when an embedding exists. */
  lemma InOrderIffEmbedding<T>(expected: seq<T>, actual: seq<T>)
    ensures InOrder(expected, actual) <==> exists at :: IsEmbedding(at, expected, actual)
  {
    if InOrder(expected, actual) {
      assert IsEmbedding(Matched(expected, actual), expected, actual);
    }
    if at :| IsEmbedding(at, expected, actual) {
      EmbeddingFound(at, expected, actual);
    }
  }

  lemma {:induction false} InOrderNeedsLength<T>(expected: seq<T>, actual: seq<T>)
    ensures InOrder(expected, actual) ==> |expected| <= |actual|
    decreases |actual|
  {
    if expected != [] && actual != [] {
      if expected[0] == actual[0] {
        InOrderNeedsLength(expected[1..], actual[1..]);
      } else {
        InOrderNeedsLength(expected, actual[1..]);
      }
    }
  }

  lemma {:induction false} InOrderReflexive<T>(s: seq<T>)
    ensures InOrder(s, s)
  {
    if s != [] { InOrderReflexive(s[1..]); }
  }

  // ---------------------------------------------------------------------------------------------
  // Evaluating an expectation
  // ---------------------------------------------------------------------------------------------

  function NormalizeChar(c: char): char {
    if c == '-' || c == ' ' then '_' else LowerChar(c)
  }

  /** Stripped, in lower case, with dashes and blanks as underscores. */
  function Normalize(state: string): string {
    var s := Strip(state);
    seq(|s|, i requires 0 <= i < |s| => NormalizeChar(s[i]))
  }

  /** Characters that no check tells apart: a letter in either case, and dashes, blanks and underscores. */
  predicate SameStateChar(c: char, d: char) {
    SameLetter(c, d) || (c in "-_ " && d in "-_ ")
  }

  lemma SameStateCharExactly(c: char, d: char)
    ensures NormalizeChar(c) == NormalizeChar(d) <==> SameStateChar(c, d)
  {
    LowerCharExactly(c, d);
  }

  lemma NormalizedTrimmed(s: string)
    requires Trimmed(s)
    ensures |Normalize(s)| == |s| && forall i :: 0 <= i < |s| ==> Normalize(s)[i] == NormalizeChar(s[i])
  {
    StripExactly("", s, "");
    assert "" + s + "" == s;
  }

  /** Without blanks around them, two names are the same exactly if their characters are, one by one. */
  lemma SameNameExactly(s: string, t: string)
    requires Trimmed(s) && Trimmed(t)
    ensures Normalize(s) == Normalize(t)
       <==> |s| == |t| && forall i :: 0 <= i < |s| ==> SameStateChar(s[i], t[i])
  {
    NormalizedTrimmed(s);
    NormalizedTrimmed(t);
    forall i | 0 <= i < |s| && i < |t|
      ensures Normalize(s)[i] == Normalize(t)[i] <==> SameStateChar(s[i], t[i])
    {
      SameStateCharExactly(s[i], t[i]);
    }
  }

  /** Blanks around a name make no difference. */
  lemma OuterBlanksIgnored(before: string, s: string, after: string)
    requires AllBlank(before) && AllBlank(after)
    ensures Normalize(before + s + after) == Normalize(s)
  {
    var b, a := AroundStripped(s);
    assert before + s + after == (before + b) + Strip(s) + (a + after);
    StripExactly(before + b, Strip(s), a + after);
  }

  function NormalizeAll(states: seq<string>): (ns: seq<string>)
    ensures |ns| == |states|
  {
    seq(|states|, i requires 0 <= i < |states| => Normalize(states[i]))
  }

  /** An exact sequence, or states that must occur in order; an exact sequence is checked alone. */
  datatype StateExpectation = StateExpectation(equals: Option<seq<string>>, containsInOrder: Option<seq<string>>)

  function ExpectedStates(e: StateExpectation): seq<string> {
    NormalizeAll(if e.containsInOrder.Some? then e.containsInOrder.value else [])
  }

  /** The scan for one state: it consumes the sequence up to the first occurrence. */
  method Advance(actual: seq<string>, from: nat, state: string) returns (position: nat)
    requires from <= |actual|
    ensures from <= position <= |actual| && state !in actual[from..position]
    ensures position < |actual| ==> actual[position] == state
  {
    position := from;
    while position < |actual| && actual[position] != state
      invariant from <= position <= |actual| && state !in actual[from..position]
    {
      position := position + 1;
    }
  }

  /** Skipping occurrences of other states does not change what can still be matched. */
  lemma {:induction false} SkipOthers(expected: seq<string>, actual: seq<string>, n: nat)
    requires expected != [] && n <= |actual| && expected[0] !in actual[..n]
    ensures InOrder(expected, actual) == InOrder(expected, actual[n..])
  {
    if n > 0 {
      assert actual[0] == actual[..n][0];
      assert actual[1..][..n - 1] == actual[..n][1..];
      SkipOthers(expected, actual[1..], n - 1);
      assert actual[1..][n - 1..] == actual[n..];
    }
  }

  /** One iterator serves all expected states, so each scan resumes after the previous match. */
  method ContainsInOrder(expected: seq<string>, actual: seq<string>) returns (ok: bool)
    ensures ok == InOrder(expected, actual)
  {
    var position, k := 0, 0;
    while k < |expected|
      invariant 0 <= k <= |expected| && 0 <= position <= |actual|
      invariant InOrder(expected, actual) == InOrder(expected[k..], actual[position..])
    {
      var found := Advance(actual, position, expected[k]);
      assert actual[position..][..found - position] == actual[position..found];
      SkipOthers(expected[k..], actual[position..], found - position);
      assert actual[position..][found - position..] == actual[found..];
      if found == |actual| { return false; }
      assert actual[found..][1..] == actual[found + 1..] && expected[k..][1..] == expected[k + 1..];
      position, k := found + 1, k + 1;
    }
    return true;
  }

  /** The check on a trajectory, on normalised names. */
  method EvaluateStates(e: StateExpectation, states: seq<string>) returns (ok: bool)
    ensures e.equals.Some? ==> (ok <==> NormalizeAll(states) == NormalizeAll(e.equals.value))
    ensures e.equals.None? ==>
      (ok <==> exists at :: IsEmbedding(at, ExpectedStates(e), NormalizeAll(states)))
  {
    var actual := NormalizeAll(states);
    if e.equals.Some? { return actual == NormalizeAll(e.equals.value); }
    InOrderIffEmbedding(ExpectedStates(e), actual);
    ok := ContainsInOrder(ExpectedStates(e), actual);
  }

  // ---------------------------------------------------------------------------------------------
  // Recorded trajectories against raw state sequences
  // ---------------------------------------------------------------------------------------------

  /** Skipping a repeated state loses nothing for expectations without adjacent repeats. */
  lemma InOrderSkipsRepeat<T>(expected: seq<T>, a: T, rest: seq<T>)
    requires NoAdjacentRepeats(expected)
    ensures InOrder(expected, [a, a] + rest) == InOrder(expected, [a] + rest)
  {
    assert ([a, a] + rest)[1..] == [a] + rest && ([a] + rest)[1..] == rest;
    if expected != [] && expected[0] == a && |expected| > 1 {
      assert expected[1..][0] == expected[1];
    }
  }

  lemma {:induction false} CollapseKeepsOrder(expected: seq<string>, raw: seq<string>)
    requires NoAdjacentRepeats(expected)
    ensures InOrder(expected, NormalizeAll(Collapse(raw))) == InOrder(expected, NormalizeAll(raw))
    decreases |raw|
  {
    if |raw| > 1 {
      var n := NormalizeAll(raw);
      assert n[1..] == NormalizeAll(raw[1..]);
      if raw[0] == raw[1] {
        InOrderSkipsRepeat(expected, n[0], n[2..]);
        assert n == [n[0], n[0]] + n[2..] && n[1..] == [n[0]] + n[2..];
        CollapseKeepsOrder(expected, raw[1..]);
      } else {
        var c := NormalizeAll(Collapse(raw));
        assert c[1..] == NormalizeAll(Collapse(raw[1..]));
        CollapseKeepsOrder(expected, raw[1..]);
        if expected != [] {
          assert NoAdjacentRepeats(expected[1..]);
          CollapseKeepsOrder(expected[1..], raw[1..]);
        }
      }
    }
  }

  /** States that a response can report: some names, in the form in which they are compared. */
  predicate Reportable(names: set<string>, states: seq<string>) {
    forall i :: 0 <= i < |states| ==> states[i] in names
  }

  /** Whether the recorded trajectory answers as the raw sequence does, for every sequence of such states. */
  ghost predicate AnswersAlike(expected: seq<string>, names: set<string>) {
    forall raw :: Reportable(names, raw) ==>
      InOrder(expected, NormalizeAll(Collapse(raw))) == InOrder(expected, NormalizeAll(raw))
  }

  lemma {:induction false} CollapseKeepsMembers(s: seq<string>)
    ensures forall i :: 0 <= i < |Collapse(s)| ==> Collapse(s)[i] in s
  {
    if |s| > 1 {
      CollapseKeepsMembers(s[1..]);
      assert forall x :: x in s[1..] ==> x in s;
    }
  }

  /** What is found in order is there. */
  lemma {:induction false} InOrderNeedsMembers<T>(expected: seq<T>, actual: seq<T>, i: nat)
    requires i < |expected| && expected[i] !in actual
    ensures !InOrder(expected, actual)
    decreases |actual|
  {
    if actual != [] {
      assert forall x :: x in actual[1..] ==> x in actual;
      if expected[0] == actual[0] {
        assert i > 0 && expected[1..][i - 1] == expected[i];
        InOrderNeedsMembers(expected[1..], actual[1..], i - 1);
      } else {
        InOrderNeedsMembers(expected, actual[1..], i);
      }
    }
  }

  lemma Unreported(names: set<string>, expected: seq<string>, i: nat, actual: seq<string>)
    requires forall n :: n in names ==> Normalize(n) == n
    requires i < |expected| && expected[i] !in names && Reportable(names, actual)
    ensures !InOrder(expected, NormalizeAll(actual))
  {
    var all := NormalizeAll(actual);
    forall k | 0 <= k < |all| ensures all[k] in names { assert all[k] == Normalize(actual[k]); }
    InOrderNeedsMembers(expected, all, i);
  }

  /**
   Checking the recorded trajectory is as good as checking every reported state exactly when the expected states
   contain no adjacent repeat, or one that is never reported; [working, working] can never be found.
   */
  lemma RecordedAnswersAlike(states: seq<string>, names: set<string>)
    requires forall n :: n in names ==> Normalize(n) == n
    ensures AnswersAlike(NormalizeAll(states), names)
       <==> NoAdjacentRepeats(NormalizeAll(states)) || !Reportable(names, NormalizeAll(states))
  {
    var expected := NormalizeAll(states);
    if NoAdjacentRepeats(expected) {
      forall raw | Reportable(names, raw)
        ensures InOrder(expected, NormalizeAll(Collapse(raw))) == InOrder(expected, NormalizeAll(raw))
      {
        CollapseKeepsOrder(expected, raw);
      }
    } else if !Reportable(names, expected) {
      var i :| 0 <= i < |expected| && expected[i] !in names;
      forall raw | Reportable(names, raw)
        ensures InOrder(expected, NormalizeAll(Collapse(raw))) == InOrder(expected, NormalizeAll(raw))
      {
        CollapseKeepsMembers(raw);
        Unreported(names, expected, i, raw);
        Unreported(names, expected, i, Collapse(raw));
      }
    } else {
      assert NormalizeAll(expected) == expected;
      InOrderReflexive(expected);
      CollapseFixedPoints(expected);
      InOrderNeedsLength(expected, NormalizeAll(Collapse(expected)));
      assert !AnswersAlike(expected, names);
    }
  }
}

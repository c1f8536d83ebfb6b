/** Global invariants: texts and secrets that must not occur in any response. */
module Invariants {
  import opened Decimal
  import opened Chars
  import opened Evidence

  datatype Secret = Secret(name: string, value: string)

  /** Forbidden texts, and forbidden values taken from named environment variables. */
  datatype Rules = Rules(caseSensitive: bool, notContains: seq<string>, secrets: seq<Secret>)

  function FoldOf(r: Rules): Folding {
    if r.caseSensitive then c => c else LowerChar
  }

  /** Violations of the first n forbidden texts, by number. */
  function TextFailures(r: Rules, text: string, n: nat): seq<string>
    requires n <= |r.notContains|
  {
    if n == 0 then []
    else
      var before := TextFailures(r, text, n - 1);
      if Occurs(FoldOf(r), r.notContains[n - 1], text)
      then before + ["response text violates global not_contains invariant " + Numeral(n)] else before
  }

  /** Occurrences of the first n secrets, by name. */
  function SecretFailures(r: Rules, text: string, n: nat): seq<string>
    requires n <= |r.secrets|
  {
    if n == 0 then []
    else
      var before, secret := SecretFailures(r, text, n - 1), r.secrets[n - 1];
      if Occurs(FoldOf(r), secret.value, text)
      then before + ["response text contains value from environment variable '" + secret.name + "'"] else before
  }

  function Failures(r: Rules, text: string): seq<string> {
    TextFailures(r, text, |r.notContains|) + SecretFailures(r, text, |r.secrets|)
  }

  method Evaluate(r: Rules, text: string) returns (failures: seq<string>)
    ensures failures == Failures(r, text)
  {
    failures := [];
    for n := 0 to |r.notContains|
      invariant failures == TextFailures(r, text, n)
    {
      if Occurs(FoldOf(r), r.notContains[n], text) {
        failures := failures + ["response text violates global not_contains invariant " + Numeral(n + 1)];
      }
    }
    ghost var first := failures;
    for n := 0 to |r.secrets|
      invariant failures == first + SecretFailures(r, text, n)
    {
      if Occurs(FoldOf(r), r.secrets[n].value, text) {
        failures := failures
          + ["response text contains value from environment variable '" + r.secrets[n].name + "'"];
      }
    }
  }

  /** No forbidden text and no secret occurs. */
  predicate Holds(r: Rules, text: string) {
    && (forall i :: 0 <= i < |r.notContains| ==> !Occurs(FoldOf(r), r.notContains[i], text))
    && (forall i :: 0 <= i < |r.secrets| ==> !Occurs(FoldOf(r), r.secrets[i].value, text))
  }

  lemma {:induction false} NoTextFailures(r: Rules, text: string, n: nat)
    requires n <= |r.notContains|
    ensures TextFailures(r, text, n) == []
       <==> forall i :: 0 <= i < n ==> !Occurs(FoldOf(r), r.notContains[i], text)
  {
    if n > 0 { NoTextFailures(r, text, n - 1); }
  }

  lemma {:induction false} NoSecretFailures(r: Rules, text: string, n: nat)
    requires n <= |r.secrets|
    ensures SecretFailures(r, text, n) == []
       <==> forall i :: 0 <= i < n ==> !Occurs(FoldOf(r), r.secrets[i].value, text)
  {
    if n > 0 { NoSecretFailures(r, text, n - 1); }
  }

  lemma NoFailuresExactly(r: Rules, text: string)
    ensures Failures(r, text) == [] <==> Holds(r, text)
  {
    NoTextFailures(r, text, |r.notContains|);
    NoSecretFailures(r, text, |r.secrets|);
  }

  // ---------------------------------------------------------------------------------------------
  // What is forbidden
  // ---------------------------------------------------------------------------------------------

  /** The text shows the words from position `i` on, letter for letter or in any letter case. */
  predicate ShownAt(caseSensitive: bool, words: string, text: string, i: nat) {
    && i + |words| <= |text|
    && if caseSensitive then text[i..i + |words|] == words else SameIgnoringCase(text[i..i + |words|], words)
  }

  ghost predicate Shown(caseSensitive: bool, words: string, text: string) {
    exists i: nat :: ShownAt(caseSensitive, words, text, i)
  }

  lemma {:induction false} StartsExactly(r: Rules, words: string, text: string)
    ensures Starts(FoldOf(r), words, text) <==> ShownAt(r.caseSensitive, words, text, 0)
  {
    if words != "" && text != "" {
      StartsExactly(r, words[1..], text[1..]);
      LowerCharExactly(words[0], text[0]);
      if |words| <= |text| {
        assert text[1..][..|words| - 1] == text[..|words|][1..];
        HeadAndTail(r.caseSensitive, text[..|words|], words);
      }
    }
  }

  predicate Alike(caseSensitive: bool, s: string, t: string) {
    if caseSensitive then s == t else SameIgnoringCase(s, t)
  }

  lemma HeadAndTail(caseSensitive: bool, s: string, t: string)
    requires s != "" && |s| == |t|
    ensures Alike(caseSensitive, s, t)
       <==> Alike(caseSensitive, s[..1], t[..1]) && Alike(caseSensitive, s[1..], t[1..])
  {
    assert s == s[..1] + s[1..] && t == t[..1] + t[1..];
    if SameIgnoringCase(s[..1], t[..1]) && SameIgnoringCase(s[1..], t[1..]) {
      forall i | 0 <= i < |s| ensures SameLetter(s[i], t[i]) {
        if i > 0 { assert s[i] == s[1..][i - 1] && t[i] == t[1..][i - 1]; }
      }
    }
  }

  lemma ShownLater(caseSensitive: bool, words: string, text: string, i: nat)
    requires text != ""
    ensures ShownAt(caseSensitive, words, text[1..], i) <==> ShownAt(caseSensitive, words, text, i + 1)
  {
    if i + 1 + |words| <= |text| {
      assert text[1..][i..i + |words|] == text[i + 1..i + 1 + |words|];
    }
  }

  /** Searching a text finds what is shown somewhere in it. */
  lemma {:induction false} OccursExactly(r: Rules, words: string, text: string)
    ensures Occurs(FoldOf(r), words, text) <==> Shown(r.caseSensitive, words, text)
  {
    StartsExactly(r, words, text);
    if text != "" {
      OccursExactly(r, words, text[1..]);
      if i: nat :| ShownAt(r.caseSensitive, words, text[1..], i) {
        ShownLater(r.caseSensitive, words, text, i);
      }
      if i: nat :| ShownAt(r.caseSensitive, words, text, i) {
        if i > 0 { ShownLater(r.caseSensitive, words, text, i - 1); }
      }
    }
  }

  /**
   The rules hold of a text that shows none of the forbidden texts and secrets; without case sensitivity not in
   any letter case, and with it not in their own.
   */
  lemma HoldsExactly(r: Rules, text: string)
    ensures Holds(r, text) <==>
      && (forall i :: 0 <= i < |r.notContains| ==> !Shown(r.caseSensitive, r.notContains[i], text))
      && (forall i :: 0 <= i < |r.secrets| ==> !Shown(r.caseSensitive, r.secrets[i].value, text))
  {
    forall i | 0 <= i < |r.notContains|
      ensures Occurs(FoldOf(r), r.notContains[i], text) <==> Shown(r.caseSensitive, r.notContains[i], text)
    {
      OccursExactly(r, r.notContains[i], text);
    }
    forall i | 0 <= i < |r.secrets|
      ensures Occurs(FoldOf(r), r.secrets[i].value, text) <==> Shown(r.caseSensitive, r.secrets[i].value, text)
    {
      OccursExactly(r, r.secrets[i].value, text);
    }
  }
}

/** Character-level text operations: blanks, stripping and lower case (for ASCII letters). */
module Chars {

  predicate IsBlank(c: char) {
    c in " \t\n\r\U{0b}\U{0c}\U{1c}\U{1d}\U{1e}\U{1f}"
  }

  /** The text without blanks at either end. */
  function Strip(s: string): (t: string)
    ensures t != "" ==> !IsBlank(t[0]) && !IsBlank(t[|t| - 1])
  {
    if s != "" && IsBlank(s[0]) then Strip(s[1..])
    else if s != "" && IsBlank(s[|s| - 1]) then Strip(s[..|s| - 1])
    else s
  }

  function LowerChar(c: char): char {
    if 'A' <= c <= 'Z' then (c as int + 32) as char else c
  }

  function Lower(s: string): string {
    seq(|s|, i requires 0 <= i < |s| => LowerChar(s[i]))
  }

  /** The same letter in either case, or the same character. */
  predicate SameLetter(c: char, d: char) {
    c == d || ('A' <= c <= 'Z' && d as int == c as int + 32) || ('A' <= d <= 'Z' && c as int == d as int + 32)
  }

  predicate SameIgnoringCase(s: string, t: string) {
    |s| == |t| && forall i :: 0 <= i < |s| ==> SameLetter(s[i], t[i])
  }

  lemma LowerCharExactly(c: char, d: char)
    ensures LowerChar(c) == LowerChar(d) <==> SameLetter(c, d)
  {
  }

  /** Texts agree in lower case exactly if they agree but for the case of letters. */
  lemma LowerExactly(s: string, t: string)
    ensures Lower(s) == Lower(t) <==> SameIgnoringCase(s, t)
  {
    if Lower(s) == Lower(t) {
      assert |s| == |Lower(s)| == |t|;
      forall i | 0 <= i < |s| ensures SameLetter(s[i], t[i]) {
        assert Lower(s)[i] == Lower(t)[i];
        LowerCharExactly(s[i], t[i]);
      }
    }
    if SameIgnoringCase(s, t) {
      forall i | 0 <= i < |s| ensures LowerChar(s[i]) == LowerChar(t[i]) { LowerCharExactly(s[i], t[i]); }
    }
  }

  predicate AllBlank(s: string) {
    forall i :: 0 <= i < |s| ==> IsBlank(s[i])
  }

  /** Neither end is a blank. */
  predicate Trimmed(s: string) {
    s != "" ==> !IsBlank(s[0]) && !IsBlank(s[|s| - 1])
  }

  /** Blanks in front are stripped. */
  lemma {:induction false} StripFront(before: string, s: string)
    requires AllBlank(before)
    ensures Strip(before + s) == Strip(s)
  {
    if before == "" {
      assert before + s == s;
    } else {
      assert (before + s)[1..] == before[1..] + s;
      StripFront(before[1..], s);
    }
  }

  lemma {:induction false} StripBack(s: string, after: string)
    requires Trimmed(s) && AllBlank(after)
    ensures Strip(s + after) == s
    decreases |after|
  {
    if s == "" {
      assert s + after == after + s;
      StripFront(after, s);
    } else if after == "" {
      assert s + after == s;
    } else {
      assert (s + after)[..|s + after| - 1] == s + after[..|after| - 1];
      StripBack(s, after[..|after| - 1]);
    }
  }

  /** Stripping removes the blanks around a text and nothing else. */
  lemma StripExactly(before: string, s: string, after: string)
    requires AllBlank(before) && Trimmed(s) && AllBlank(after)
    ensures Strip(before + s + after) == s
  {
    assert before + s + after == before + (s + after);
    StripFront(before, s + after);
    StripBack(s, after);
  }

  lemma BlankInFront(c: char, rest: string, before: string, core: string, after: string)
    requires IsBlank(c) && AllBlank(before) && rest == before + core + after
    ensures AllBlank([c] + before) && [c] + rest == [c] + before + core + after
  {
  }

  lemma BlankBehind(c: char, rest: string, before: string, core: string, after: string)
    requires IsBlank(c) && AllBlank(after) && rest == before + core + after
    ensures AllBlank(after + [c]) && rest + [c] == before + core + (after + [c])
  {
  }

  /** Every text is a trimmed one with blanks around it. */
  lemma {:induction false} AroundStripped(s: string) returns (before: string, after: string)
    ensures AllBlank(before) && AllBlank(after) && s == before + Strip(s) + after
  {
    before, after := "", "";
    if s != "" && IsBlank(s[0]) {
      before, after := AroundStripped(s[1..]);
      BlankInFront(s[0], s[1..], before, Strip(s), after);
      before := [s[0]] + before;
      assert s == [s[0]] + s[1..];
    } else if s != "" && IsBlank(s[|s| - 1]) {
      before, after := AroundStripped(s[..|s| - 1]);
      BlankBehind(s[|s| - 1], s[..|s| - 1], before, Strip(s), after);
      after := after + [s[|s| - 1]];
      assert s == s[..|s| - 1] + [s[|s| - 1]];
    }
  }
}

/**
 When one secret is always removed by its own pass, whatever characters it has: exactly if it cannot start
 inside a marker, and a marker cannot complete it behind text that the pass leaves alone.
 */
module SingleSecret {
  import opened Evidence
  import Sequences

  // ---------------------------------------------------------------------------------------------
  // Characters at positions
  // ---------------------------------------------------------------------------------------------

  lemma {:induction false} StartsPointwise(fold: Folding, s: string, text: string)
    ensures Starts(fold, s, text) <==> |s| <= |text| && forall i :: 0 <= i < |s| ==> fold(text[i]) == fold(s[i])
  {
    if s != "" && text != "" {
      StartsPointwise(fold, s[1..], text[1..]);
      if |s| <= |text| && forall i :: 0 <= i < |s| ==> fold(text[i]) == fold(s[i]) {
        forall i | 0 <= i < |s| - 1 ensures fold(text[1..][i]) == fold(s[1..][i]) {
          assert text[1..][i] == text[i + 1] && s[1..][i] == s[i + 1];
        }
      }
      if Starts(fold, s, text) {
        forall i | 0 <= i < |s| ensures fold(text[i]) == fold(s[i]) {
          if i > 0 { assert text[i] == text[1..][i - 1] && s[i] == s[1..][i - 1]; }
        }
      }
    }
  }

  lemma {:induction false} OccursPointwise(fold: Folding, s: string, text: string)
    ensures Occurs(fold, s, text) <==> exists n :: 0 <= n <= |text| && Starts(fold, s, text[n..])
  {
    assert text[0..] == text;
    if text != "" {
      OccursPointwise(fold, s, text[1..]);
      if Occurs(fold, s, text[1..]) {
        var n :| 0 <= n <= |text[1..]| && Starts(fold, s, text[1..][n..]);
        assert text[1..][n..] == text[n + 1..];
      }
      if exists n :: 0 < n <= |text| && Starts(fold, s, text[n..]) {
        var n :| 0 < n <= |text| && Starts(fold, s, text[n..]);
        assert text[1..][n - 1..] == text[n..];
      }
    }
  }

  /** Laid over each other from the left, the two texts agree wherever they overlap. */
  lemma {:induction false} ClashPointwise(fold: Folding, x: string, y: string)
    ensures !Clash(fold, x, y) <==> forall i :: 0 <= i < |x| && i < |y| ==> fold(x[i]) == fold(y[i])
  {
    if x != "" && y != "" {
      ClashPointwise(fold, x[1..], y[1..]);
      if fold(x[0]) == fold(y[0]) {
        if !Clash(fold, x[1..], y[1..]) {
          forall i | 0 <= i < |x| && i < |y| ensures fold(x[i]) == fold(y[i]) {
            if i > 0 { assert x[i] == x[1..][i - 1] && y[i] == y[1..][i - 1]; }
          }
        }
        if forall i :: 0 <= i < |x| && i < |y| ==> fold(x[i]) == fold(y[i]) {
          forall i | 0 <= i < |x[1..]| && i < |y[1..]| ensures fold(x[1..][i]) == fold(y[1..][i]) {
            assert x[1..][i] == x[i + 1] && y[1..][i] == y[i + 1];
          }
        }
      }
    }
  }

  lemma {:induction false} TailsPointwise(fold: Folding, s: string, m: string)
    ensures ClashesWithTails(fold, s, m) <==> forall a :: 0 <= a < |m| ==> Clash(fold, s, m[a..])
  {
    if m != "" {
      TailsPointwise(fold, s, m[1..]);
      assert m[0..] == m;
      if ClashesWithTails(fold, s, m) {
        forall a | 0 <= a < |m| ensures Clash(fold, s, m[a..]) {
          if a > 0 { assert m[a..] == m[1..][a - 1..]; }
        }
      }
      if forall a :: 0 <= a < |m| ==> Clash(fold, s, m[a..]) {
        forall a | 0 <= a < |m[1..]| ensures Clash(fold, s, m[1..][a..]) {
          assert m[1..][a..] == m[a + 1..];
        }
      }
    }
  }

  // ---------------------------------------------------------------------------------------------
  // The first match
  // ---------------------------------------------------------------------------------------------

  /** Where the secret first starts in the text, or the length of the text. */
  function FirstMatch(fold: Folding, s: string, text: string): (n: nat)
    requires s != ""
    ensures n <= |text|
    ensures n < |text| ==> Starts(fold, s, text[n..])
    ensures forall j :: 0 <= j < n ==> !Starts(fold, s, text[j..])
  {
    if text == "" then 0
    else if Starts(fold, s, text) then assert text[0..] == text; 0
    else
      var n := FirstMatch(fold, s, text[1..]);
      assert text[0..] == text;
      assert forall j :: 0 < j <= |text| ==> text[j..] == text[1..][j - 1..];
      1 + n
  }

  /** A text whose first match is at n, and what the pass makes of it. */
  predicate SplitAt(fold: Folding, s: string, text: string, n: nat, out: string)
    requires s != "" && n <= |text|
  {
    if n == |text| then out == text
    else n + |s| <= |text| && out == text[..n] + (REDACTION + Substitute(fold, s, text[n + |s|..]))
  }

  lemma SplitHere(fold: Folding, s: string, text: string)
    requires s != "" && text != "" && Starts(fold, s, text)
    ensures SplitAt(fold, s, text, 0, Substitute(fold, s, text))
  {
    StartsLength(fold, s, text);
    assert text[..0] == "" && text[0 + |s|..] == text[|s|..];
  }

  lemma SplitNext(fold: Folding, s: string, c: char, rest: string, n: nat, out: string)
    requires s != "" && n <= |rest| && SplitAt(fold, s, rest, n, out)
    ensures SplitAt(fold, s, [c] + rest, n + 1, [c] + out)
  {
    var text := [c] + rest;
    if n < |rest| {
      var more := REDACTION + Substitute(fold, s, rest[n + |s|..]);
      assert text[n + 1 + |s|..] == rest[n + |s|..];
      assert text[..n + 1] == [c] + rest[..n];
      Sequences.Associative([c], rest[..n], more);
    }
  }

  lemma {:induction false} SubstituteFromMatch(fold: Folding, s: string, text: string)
    requires s != ""
    ensures SplitAt(fold, s, text, FirstMatch(fold, s, text), Substitute(fold, s, text))
  {
    if text != "" {
      if Starts(fold, s, text) {
        SplitHere(fold, s, text);
      } else {
        var rest := text[1..];
        SubstituteFromMatch(fold, s, rest);
        SplitNext(fold, s, text[0], rest, FirstMatch(fold, s, rest), Substitute(fold, s, rest));
        assert text == [text[0]] + rest;
      }
    }
  }

  lemma {:induction false} ShortUntouched(fold: Folding, s: string, text: string)
    requires |text| < |s|
    ensures Substitute(fold, s, text) == text
  {
    if text != "" { ShortUntouched(fold, s, text[1..]); }
  }

  // ---------------------------------------------------------------------------------------------
  // The condition
  // ---------------------------------------------------------------------------------------------

  /**
   The marker agrees with the secret from its k-th character on, and the pass leaves the k characters before an
   occurrence alone, so the marker put there completes the secret.
   */
  predicate CompletedBehind(fold: Folding, s: string, k: nat)
    requires k < |s|
  {
    !Clash(fold, s[k..], REDACTION) && forall j :: 0 <= j < k ==> !Starts(fold, s, (s[..k] + s)[j..])
  }

  /** The secret cannot start inside a marker, and no marker completes it. */
  predicate Removable(fold: Folding, s: string) {
    ClashesWithTails(fold, s, REDACTION) && forall k :: 0 < k < |s| ==> !CompletedBehind(fold, s, k)
  }

  ghost predicate AlwaysRemoved(fold: Folding, s: string)
    requires s != ""
  {
    forall text :: !Occurs(fold, s, Substitute(fold, s, text))
  }

  // ---------------------------------------------------------------------------------------------
  // Sufficient
  // ---------------------------------------------------------------------------------------------

  /** What starts in k characters like those of s, followed by s, starts in the text there. */
  lemma SameStart(fold: Folding, s: string, text: string, k: nat, j: nat)
    requires j < k < |s| && k <= |text| && Starts(fold, s, text[k..])
    requires forall i :: 0 <= i < k ==> fold(text[i]) == fold(s[i])
    ensures Starts(fold, s, (s[..k] + s)[j..]) ==> Starts(fold, s, text[j..])
  {
    var twice := s[..k] + s;
    StartsPointwise(fold, s, text[k..]);
    StartsPointwise(fold, s, twice[j..]);
    StartsPointwise(fold, s, text[j..]);
    if Starts(fold, s, twice[j..]) {
      forall i | 0 <= i < |s| ensures fold(text[j..][i]) == fold(s[i]) {
        assert twice[j..][i] == twice[j + i];
        if j + i >= k { assert text[j..][i] == text[k..][j + i - k]; }
      }
    }
  }

  lemma StartsInFront(fold: Folding, s: string, text: string, n: nat)
    requires s != "" && n == FirstMatch(fold, s, text) && (n == |text| || n >= |s|)
    ensures Starts(fold, s, Substitute(fold, s, text)) ==> Starts(fold, s, text)
  {
    var out := Substitute(fold, s, text);
    SubstituteFromMatch(fold, s, text);
    StartsPointwise(fold, s, out);
    StartsPointwise(fold, s, text);
    assert n <= |text| && forall i :: 0 <= i < n ==> out[i] == text[i];
  }

  /** If the secret starts in the result of its pass but not in the text, a marker completed it. */
  lemma StartIsCompleted(fold: Folding, s: string, text: string, n: nat)
    requires s != "" && n == FirstMatch(fold, s, text) && !Starts(fold, s, text)
    requires Starts(fold, s, Substitute(fold, s, text))
    ensures 0 < n < |s| && CompletedBehind(fold, s, n)
  {
    var out := Substitute(fold, s, text);
    SubstituteFromMatch(fold, s, text);
    StartsPointwise(fold, s, out);
    StartsPointwise(fold, s, text);
    assert text[0..] == text;
    if n == |text| || n >= |s| { StartsInFront(fold, s, text, n); }
    assert forall i :: 0 <= i < n ==> text[i] == out[i];
    forall j | 0 <= j < n ensures !Starts(fold, s, (s[..n] + s)[j..]) { SameStart(fold, s, text, n, j); }
    ClashPointwise(fold, s[n..], REDACTION);
    forall i | 0 <= i < |s[n..]| && i < |REDACTION| ensures fold(s[n..][i]) == fold(REDACTION[i]) {
      assert out[n + i] == REDACTION[i] && s[n..][i] == s[n + i];
    }
  }

  lemma {:induction false} RemovableIsRemoved(fold: Folding, s: string, text: string)
    requires s != "" && Removable(fold, s)
    ensures !Occurs(fold, s, Substitute(fold, s, text))
    decreases |text|
  {
    if Starts(fold, s, text) {
      StartsLength(fold, s, text);
      RemovableIsRemoved(fold, s, text[|s|..]);
      OccursBehind(fold, s, REDACTION, Substitute(fold, s, text[|s|..]));
    } else if text != "" {
      var rest := Substitute(fold, s, text[1..]);
      RemovableIsRemoved(fold, s, text[1..]);
      assert ([text[0]] + rest)[1..] == rest;
      if Starts(fold, s, Substitute(fold, s, text)) {
        StartIsCompleted(fold, s, text, FirstMatch(fold, s, text));
      }
    }
  }

  // ---------------------------------------------------------------------------------------------
  // Necessary
  // ---------------------------------------------------------------------------------------------

  /** The rest of s behind its first n characters. */
  function Beyond(s: string, n: nat): string {
    if n < |s| then s[n..] else ""
  }

  /**
   A secret that agrees with a tail of the marker occurs again after its own removal, if the text goes on like
   the secret behind that tail.
   */
  lemma TailSurvives(fold: Folding, s: string, a: nat)
    requires s != "" && a < |REDACTION| && !Clash(fold, s, REDACTION[a..])
    ensures Occurs(fold, s, Substitute(fold, s, s + Beyond(s, |REDACTION| - a)))
  {
    var tail := Beyond(s, |REDACTION| - a);
    var text, out := s + tail, REDACTION + tail;
    StartsPointwise(fold, s, text);
    ShortUntouched(fold, s, tail);
    assert text[|s|..] == tail;
    assert Substitute(fold, s, text) == out;
    ClashPointwise(fold, s, REDACTION[a..]);
    StartsPointwise(fold, s, out[a..]);
    forall i | 0 <= i < |s| ensures fold(out[a..][i]) == fold(s[i]) {
      if a + i < |REDACTION| {
        assert out[a..][i] == REDACTION[a..][i];
      } else {
        assert out[a..][i] == tail[a + i - |REDACTION|];
      }
    }
    OccursPointwise(fold, s, out);
  }

  lemma StartsBeforeMore(fold: Folding, s: string, text: string, more: string, n: nat)
    requires n + |s| <= |text|
    ensures Starts(fold, s, (text + more)[n..]) <==> Starts(fold, s, text[n..])
  {
    StartsPointwise(fold, s, (text + more)[n..]);
    StartsPointwise(fold, s, text[n..]);
    assert forall i :: 0 <= i < |s| ==> (text + more)[n..][i] == text[n..][i];
  }

  /** The text before an occurrence that a marker completes. */
  lemma FirstMatchIs(fold: Folding, s: string, k: nat, more: string)
    requires k < |s| && CompletedBehind(fold, s, k)
    ensures FirstMatch(fold, s, (s[..k] + s) + more) == k
  {
    var twice := s[..k] + s;
    var text := twice + more;
    var n := FirstMatch(fold, s, text);
    StartsPointwise(fold, s, text[k..]);
    assert forall i :: 0 <= i < |s| ==> text[k..][i] == s[i];
    if n < k { StartsBeforeMore(fold, s, twice, more, n); }
  }

  lemma Slices(a: string, b: string, c: string)
    ensures ((a + b) + c)[..|a|] == a && ((a + b) + c)[|a| + |b|..] == c
  {
  }

  lemma CompletedSurvives(fold: Folding, s: string, k: nat)
    requires k < |s| && CompletedBehind(fold, s, k)
    ensures Occurs(fold, s, Substitute(fold, s, (s[..k] + s) + Beyond(s, k + |REDACTION|)))
  {
    var more := Beyond(s, k + |REDACTION|);
    var text := (s[..k] + s) + more;
    FirstMatchIs(fold, s, k, more);
    SubstituteFromMatch(fold, s, text);
    Slices(s[..k], s, more);
    ShortUntouched(fold, s, more);
    CompletedStarts(fold, s, k, more, s[..k] + (REDACTION + Substitute(fold, s, more)));
  }

  lemma CompletedStarts(fold: Folding, s: string, k: nat, more: string, out: string)
    requires k < |s| && !Clash(fold, s[k..], REDACTION)
    requires more == Beyond(s, k + |REDACTION|) && out == s[..k] + (REDACTION + more)
    ensures Occurs(fold, s, out)
  {
    ClashPointwise(fold, s[k..], REDACTION);
    StartsPointwise(fold, s, out);
    forall i | 0 <= i < |s| ensures i < |out| && fold(out[i]) == fold(s[i]) {
      if k <= i < k + |REDACTION| {
        assert out[i] == REDACTION[i - k] && s[k..][i - k] == s[i];
      }
    }
    assert out[0..] == out;
    OccursPointwise(fold, s, out);
  }

  lemma {:induction false} TailClashes(fold: Folding, s: string, k: nat)
    requires k < |s| && TailsClash(fold, s, REDACTION)
    ensures Clash(fold, s[k..], REDACTION)
  {
    if k == 0 {
      assert s[0..] == s;
    } else {
      TailClashes(fold, s[1..], k - 1);
      assert s[1..][k - 1..] == s[k..];
    }
  }

  lemma SeamlessIsRemovable(fold: Folding, s: string)
    requires Seamless(fold, s)
    ensures Removable(fold, s)
  {
    forall k | 0 < k < |s| ensures !CompletedBehind(fold, s, k) { TailClashes(fold, s, k); }
  }

  // ---------------------------------------------------------------------------------------------
  // Main result
  // ---------------------------------------------------------------------------------------------

  /** A secret never occurs after its own pass, in any text, if and only if it is removable. */
  lemma RemovedExactly(fold: Folding, s: string)
    requires s != ""
    ensures AlwaysRemoved(fold, s) <==> Removable(fold, s)
  {
    if Removable(fold, s) {
      forall text ensures !Occurs(fold, s, Substitute(fold, s, text)) { RemovableIsRemoved(fold, s, text); }
    }
    if AlwaysRemoved(fold, s) {
      TailsPointwise(fold, s, REDACTION);
      forall a | 0 <= a < |REDACTION| ensures Clash(fold, s, REDACTION[a..]) {
        if !Clash(fold, s, REDACTION[a..]) { TailSurvives(fold, s, a); }
      }
      forall k | 0 < k < |s| ensures !CompletedBehind(fold, s, k) {
        if CompletedBehind(fold, s, k) { CompletedSurvives(fold, s, k); }
      }
    }
  }
}

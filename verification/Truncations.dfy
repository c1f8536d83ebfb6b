/**
 What a truncated text shows of a secret that was removed before it was cut: the mark of the truncation is put
 behind the cut afterwards, and may hold the secret or complete it.
 */
module Truncations {
  import opened Evidence
  import opened SingleSecret
  import opened SecretLists

  // ---------------------------------------------------------------------------------------------
  // Occurrences over a seam
  // ---------------------------------------------------------------------------------------------

  /** The first k characters of s end p, and the others start t. */
  predicate SpansAt(fold: Folding, s: string, p: string, t: string, k: nat) {
    0 < k < |s| && k <= |p| && Starts(fold, s[..k], p[|p| - k..]) && Starts(fold, s[k..], t)
  }

  lemma StartsOver(fold: Folding, s: string, p: string, t: string, k: nat)
    requires 0 < k < |s| && k <= |p|
    ensures Starts(fold, s, (p + t)[|p| - k..]) <==> SpansAt(fold, s, p, t, k)
  {
    var n := |p| - k;
    var here := (p + t)[n..];
    StartsPointwise(fold, s, here);
    StartsPointwise(fold, s[..k], p[n..]);
    StartsPointwise(fold, s[k..], t);
    assert forall i :: 0 <= i < k ==> here[i] == p[n..][i] && s[..k][i] == s[i];
    if Starts(fold, s, here) {
      forall i | 0 <= i < |s| - k ensures fold(t[i]) == fold(s[k..][i]) {
        assert here[k + i] == t[i] && s[k..][i] == s[k + i];
      }
    }
    if SpansAt(fold, s, p, t, k) {
      forall i | 0 <= i < |s| ensures fold(here[i]) == fold(s[i]) {
        if i >= k { assert here[i] == t[i - k] && s[k..][i - k] == s[i]; }
      }
    }
  }

  lemma OccursAt(fold: Folding, s: string, text: string, n: nat)
    requires n <= |text| && Starts(fold, s, text[n..])
    ensures Occurs(fold, s, text)
  {
    OccursPointwise(fold, s, text);
  }

  lemma StartsInFirst(fold: Folding, s: string, p: string, t: string, n: nat)
    requires n + |s| <= |p| && Starts(fold, s, (p + t)[n..])
    ensures Occurs(fold, s, p)
  {
    StartsBeforeMore(fold, s, p, t, n);
    OccursAt(fold, s, p, n);
  }

  /** An occurrence in two texts put together lies in one of them or over the seam. */
  lemma OccursOver(fold: Folding, s: string, p: string, t: string)
    requires s != ""
    ensures Occurs(fold, s, p + t)
       <==> Occurs(fold, s, p) || Occurs(fold, s, t) || exists k :: SpansAt(fold, s, p, t, k)
  {
    if Occurs(fold, s, p + t) {
      OccursPointwise(fold, s, p + t);
      var n :| 0 <= n <= |p + t| && Starts(fold, s, (p + t)[n..]);
      if n + |s| <= |p| {
        StartsInFirst(fold, s, p, t, n);
      } else if n >= |p| {
        assert (p + t)[n..] == t[n - |p|..];
        OccursAt(fold, s, t, n - |p|);
      } else {
        StartsOver(fold, s, p, t, |p| - n);
      }
    }
    if Occurs(fold, s, p) { OccursExtended(fold, s, p, t); }
    if Occurs(fold, s, t) { OccursAfter(fold, s, p, t); }
    if k :| SpansAt(fold, s, p, t, k) {
      StartsOver(fold, s, p, t, k);
      OccursAt(fold, s, p + t, |p| - k);
    }
  }

  /**
   A truncated text shows a seamless secret exactly if the mark holds it, or the end of what was kept and the start
   of the mark make it up.
   */
  lemma TruncatedShows(fold: Folding, secrets: seq<string>, text: string, k: nat, limit: nat)
    requires NoneEmpty(secrets) && k < |secrets| && Seamless(fold, secrets[k])
    requires |RedactText(fold, secrets, text)| > limit
    ensures var s, kept := secrets[k], BoundedPrefix(RedactText(fold, secrets, text), limit);
      Occurs(fold, s, TruncateText(RedactText(fold, secrets, text), limit))
      <==> Occurs(fold, s, TAIL) || exists n :: SpansAt(fold, s, kept, TAIL, n)
  {
    TruncationKeepsFree(fold, secrets, text, k, limit);
    OccursOver(fold, secrets[k], BoundedPrefix(RedactText(fold, secrets, text), limit), TAIL);
  }

  // ---------------------------------------------------------------------------------------------
  // In no text
  // ---------------------------------------------------------------------------------------------

  ghost predicate ShownIn(fold: Folding, s: string, secrets: seq<string>, text: string, limit: nat)
    requires Ordered(secrets)
  {
    |RedactText(fold, secrets, text)| > limit
    && Occurs(fold, s, TruncateText(RedactText(fold, secrets, text), limit))
  }

  /** No text that is truncated at the limit shows the secret, whatever the other secrets are. */
  ghost predicate NeverShown(fold: Folding, s: string, limit: nat) {
    forall secrets, text :: Ordered(secrets) && s in secrets ==> !ShownIn(fold, s, secrets, text, limit)
  }

  /** The mark neither holds the secret nor completes one of its first characters, as far as they fit. */
  predicate MarkSafe(fold: Folding, s: string, limit: nat) {
    !Occurs(fold, s, TAIL) && forall k :: 0 < k < |s| && k <= limit ==> !Starts(fold, s[k..], TAIL)
  }

  /** What is longer than the limit ends in a marker. */
  lemma LongKept(value: string, limit: nat)
    ensures var p := BoundedPrefix(value, limit);
      |p| > limit ==> |p| >= |REDACTION| && p[|p| - |REDACTION|..] == REDACTION
  {
  }

  lemma StartsEqual(fold: Folding, x: string, y: string, k: nat)
    requires |y| == k <= |x|
    ensures Starts(fold, x[..k], y) <==> !Clash(fold, x, y)
  {
    StartsPointwise(fold, x[..k], y);
    ClashPointwise(fold, x, y);
    assert forall i :: 0 <= i < k ==> x[..k][i] == x[i];
  }

  lemma StartsBehind(fold: Folding, s: string, text: string, a: nat)
    requires Starts(fold, s, text) && a <= |s| == |text|
    ensures Starts(fold, s[a..], text[a..])
  {
    StartsPointwise(fold, s, text);
    StartsPointwise(fold, s[a..], text[a..]);
    assert forall i :: 0 <= i < |s| - a ==> s[a..][i] == s[a + i] && text[a..][i] == text[a + i];
  }

  /** Behind a marker no start of a seamless secret ends. */
  lemma NotOverMarker(fold: Folding, s: string, p: string, k: nat)
    requires Seamless(fold, s) && |p| >= |REDACTION| && p[|p| - |REDACTION|..] == REDACTION
    requires 0 < k < |s| && k <= |p|
    ensures !Starts(fold, s[..k], p[|p| - k..])
  {
    var size, end := |REDACTION|, p[|p| - k..];
    if k <= size {
      assert end == REDACTION[size - k..];
      TailsPointwise(fold, s, REDACTION);
      StartsEqual(fold, s, REDACTION[size - k..], k);
    } else {
      var a := k - size;
      assert end[a..] == REDACTION && s[a..][..size] == s[..k][a..];
      if Starts(fold, s[..k], end) { StartsBehind(fold, s[..k], end, a); }
      StartsEqual(fold, s[a..], REDACTION, size);
      TailClashes(fold, s, a);
    }
  }

  lemma NoSpan(fold: Folding, s: string, value: string, limit: nat, n: nat)
    requires Seamless(fold, s) && MarkSafe(fold, s, limit)
    ensures !SpansAt(fold, s, BoundedPrefix(value, limit), TAIL, n)
  {
    var p := BoundedPrefix(value, limit);
    LongKept(value, limit);
    if 0 < n < |s| && limit < n <= |p| { NotOverMarker(fold, s, p, n); }
  }

  lemma SafeNotShown(fold: Folding, s: string, secrets: seq<string>, text: string, limit: nat)
    requires Seamless(fold, s) && MarkSafe(fold, s, limit) && Ordered(secrets) && s in secrets
    ensures !ShownIn(fold, s, secrets, text, limit)
  {
    var value := RedactText(fold, secrets, text);
    if |value| > limit {
      var k :| 0 <= k < |secrets| && secrets[k] == s;
      TruncatedShows(fold, secrets, text, k, limit);
      forall n: nat ensures !SpansAt(fold, s, BoundedPrefix(value, limit), TAIL, n) {
        NoSpan(fold, s, value, limit, n);
      }
    }
  }

  lemma SafeNeverShown(fold: Folding, s: string, limit: nat)
    requires Seamless(fold, s) && MarkSafe(fold, s, limit)
    ensures NeverShown(fold, s, limit)
  {
    forall secrets, text | Ordered(secrets) && s in secrets ensures !ShownIn(fold, s, secrets, text, limit) {
      SafeNotShown(fold, s, secrets, text, limit);
    }
  }

  // ---------------------------------------------------------------------------------------------
  // In some text
  // ---------------------------------------------------------------------------------------------

  function Filler(c: char, n: nat): string { seq(n, _ => c) }

  lemma {:induction false} FillerFree(fold: Folding, s: string, c: char, n: nat, more: string)
    requires s != "" && Avoids(fold, s, c) && !Occurs(fold, s, more)
    ensures !Occurs(fold, s, Filler(c, n) + more)
    decreases n
  {
    if n == 0 {
      assert Filler(c, 0) + more == more;
    } else {
      var rest := Filler(c, n - 1) + more;
      assert Filler(c, n) + more == [c] + rest && ([c] + rest)[1..] == rest;
      FillerFree(fold, s, c, n - 1, more);
    }
  }

  /** A text that is cut right behind the first k characters of the secret. */
  function CutText(s: string, c: char, k: nat, limit: nat): string
    requires k <= |s| && k <= limit
  {
    Filler(c, limit - k) + (s[..k] + [c])
  }

  lemma CutTextFree(fold: Folding, s: string, c: char, k: nat, limit: nat)
    requires k < |s| && k <= limit && Avoids(fold, s, c)
    ensures RedactText(fold, [s], CutText(s, c, k, limit)) == CutText(s, c, k, limit)
  {
    TooLong(fold, s, s[..k]);
    TooLong(fold, s, "");
    assert s[..k] + [c] == s[..k] + ([c] + "");
    OccursOnASide(fold, s, s[..k], c, "");
    FillerFree(fold, s, c, limit - k, s[..k] + [c]);
    Untouched(fold, s, CutText(s, c, k, limit));
    OnePass(fold, s, CutText(s, c, k, limit));
  }

  lemma MarkerWithin(fold: Folding, s: string, c: char, k: nat, limit: nat, m: nat)
    requires k < |s| && k <= limit && Avoids(fold, REDACTION, c) && MarkerAt(CutText(s, c, k, limit), m)
    ensures limit - k <= m && m + |REDACTION| <= limit
    ensures s[m - (limit - k)..][..|REDACTION|] == REDACTION
  {
    var text, size := CutText(s, c, k, limit), |REDACTION|;
    assert text[m] == text[m..m + size][0] && text[m + size - 1] == text[m..m + size][size - 1];
    assert text[limit - k..limit] == s[..k];
  }

  lemma NoMarkerInCut(fold: Folding, s: string, c: char, k: nat, limit: nat, m: nat)
    requires k < |s| && k <= limit && Avoids(fold, REDACTION, c) && TailsClash(fold, s, REDACTION)
    ensures !MarkerAt(CutText(s, c, k, limit), m)
  {
    if MarkerAt(CutText(s, c, k, limit), m) {
      var a := m - (limit - k);
      MarkerWithin(fold, s, c, k, limit, m);
      OccursInItself(fold, REDACTION);
      StartsEqual(fold, s[a..], REDACTION, |REDACTION|);
      TailClashes(fold, s, a);
    }
  }

  lemma CutTextKept(fold: Folding, s: string, c: char, k: nat, limit: nat)
    requires k < |s| && k <= limit && Avoids(fold, REDACTION, c) && TailsClash(fold, s, REDACTION)
    ensures BoundedPrefix(CutText(s, c, k, limit), limit) == Filler(c, limit - k) + s[..k]
  {
    var text := CutText(s, c, k, limit);
    assert text == (Filler(c, limit - k) + s[..k]) + [c];
    var m := LastBracket(text[..limit]);
    if m >= 0 { NoMarkerInCut(fold, s, c, k, limit, m); }
  }

  lemma SpanShown(fold: Folding, s: string, before: string, k: nat)
    requires 0 < k < |s| && Starts(fold, s[k..], TAIL)
    ensures Occurs(fold, s, (before + s[..k]) + TAIL)
  {
    var p := before + s[..k];
    assert p[|p| - k..] == s[..k];
    OccursInItself(fold, s[..k]);
    assert SpansAt(fold, s, p, TAIL, k);
    OccursOver(fold, s, p, TAIL);
  }

  /** What the mark completes is shown. */
  lemma CompletedByMark(fold: Folding, s: string, c: char, k: nat, limit: nat)
    requires 0 < k < |s| && k <= limit && Starts(fold, s[k..], TAIL)
    requires Avoids(fold, s, c) && Avoids(fold, REDACTION, c) && TailsClash(fold, s, REDACTION)
    ensures Ordered([s]) && ShownIn(fold, s, [s], CutText(s, c, k, limit), limit)
  {
    CutTextFree(fold, s, c, k, limit);
    CutTextKept(fold, s, c, k, limit);
    SpanShown(fold, s, Filler(c, limit - k), k);
  }

  /** And so is what it holds. */
  lemma HeldByMark(fold: Folding, s: string, c: char, limit: nat)
    requires s != "" && Avoids(fold, s, c) && Occurs(fold, s, TAIL)
    ensures Ordered([s]) && ShownIn(fold, s, [s], CutText(s, c, 0, limit), limit)
  {
    CutTextFree(fold, s, c, 0, limit);
    OccursAfter(fold, s, BoundedPrefix(CutText(s, c, 0, limit), limit), TAIL);
  }

  /**
   A seamless secret that avoids a character which the marker avoids as well is never shown by a text truncated at
   the limit if and only if the mark neither holds it nor completes it.
   */
  lemma NeverShownExactly(fold: Folding, s: string, c: char, limit: nat)
    requires s != "" && Seamless(fold, s) && Avoids(fold, s, c) && Avoids(fold, REDACTION, c)
    ensures NeverShown(fold, s, limit) <==> MarkSafe(fold, s, limit)
  {
    if MarkSafe(fold, s, limit) {
      SafeNeverShown(fold, s, limit);
    } else if Occurs(fold, s, TAIL) {
      HeldByMark(fold, s, c, limit);
      assert s in [s];
    } else {
      var k :| 0 < k < |s| && k <= limit && Starts(fold, s[k..], TAIL);
      CompletedByMark(fold, s, c, k, limit);
      assert s in [s];
    }
  }

  /** A secret without brackets: a text cut behind "a" shows "a" and the ellipsis. */
  lemma EllipsisSecretShown(fold: Folding, limit: nat)
    requires limit > 0 && BracketFree(fold, ['a', ELLIPSIS]) && Avoids(fold, REDACTED_WORD, ELLIPSIS)
    requires Avoids(fold, ['a', ELLIPSIS], 'q') && Avoids(fold, REDACTION, 'q')
    ensures Seamless(fold, ['a', ELLIPSIS]) && !NeverShown(fold, ['a', ELLIPSIS], limit)
  {
    var s := ['a', ELLIPSIS];
    EllipsisNotInWord(fold, s, REDACTED_WORD);
    OrdinarySecretsSeamless(fold, s);
    assert s[1..] == [ELLIPSIS] && [ELLIPSIS][1..] == "";
    assert Starts(fold, s[1..], TAIL);
    NeverShownExactly(fold, s, 'q', limit);
  }

  lemma {:induction false} EllipsisNotInWord(fold: Folding, s: string, word: string)
    requires s == ['a', ELLIPSIS] && Avoids(fold, word, ELLIPSIS)
    ensures !Occurs(fold, s, word)
  {
    StartsPointwise(fold, s, word);
    assert s[1] == ELLIPSIS;
    if word != "" { EllipsisNotInWord(fold, s, word[1..]); }
  }
}

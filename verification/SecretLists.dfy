/**
 When a secret is always removed, whatever the other secrets are: the passes run one after the other, so a marker
 that one of them puts in place can complete another secret. Exactly the seamless secrets are safe.
 */
module SecretLists {
  import opened Evidence
  import opened SingleSecret

  /** The secrets of a redactor: distinct, not empty, and the longest first. */
  predicate Ordered(secrets: seq<string>) {
    && NoneEmpty(secrets)
    && forall i, j :: 0 <= i < j < |secrets| ==> |secrets[i]| >= |secrets[j]| && secrets[i] != secrets[j]
  }

  ghost predicate RemovedFrom(fold: Folding, s: string, secrets: seq<string>)
    requires Ordered(secrets)
  {
    forall text :: !Occurs(fold, s, RedactText(fold, secrets, text))
  }

  /** Redaction removes the secret from every text, together with any other secrets. */
  ghost predicate RemovedAmongAny(fold: Folding, s: string) {
    forall secrets :: Ordered(secrets) && s in secrets ==> RemovedFrom(fold, s, secrets)
  }

  lemma SeamlessRemoved(fold: Folding, s: string)
    requires Seamless(fold, s)
    ensures RemovedAmongAny(fold, s)
  {
    forall secrets | Ordered(secrets) && s in secrets ensures RemovedFrom(fold, s, secrets) {
      var k :| 0 <= k < |secrets| && secrets[k] == s;
      forall text ensures !Occurs(fold, s, RedactText(fold, secrets, text)) {
        NoSecretRemains(fold, secrets, text, k);
      }
    }
  }

  lemma {:induction false} FittingTail(fold: Folding, s: string, m: string) returns (k: nat)
    requires !TailsClash(fold, s, m)
    ensures k < |s| && !Clash(fold, s[k..], m)
  {
    if !Clash(fold, s, m) {
      k := 0;
      assert s[0..] == s;
    } else {
      var j := FittingTail(fold, s[1..], m);
      k := j + 1;
      assert s[1..][j..] == s[k..];
    }
  }

  lemma {:induction false} TooLong(fold: Folding, s: string, text: string)
    requires |text| < |s|
    ensures !Occurs(fold, s, text)
  {
    if Starts(fold, s, text) { StartsLength(fold, s, text); }
    if text != "" { TooLong(fold, s, text[1..]); }
  }

  lemma {:induction false} CharacterPass(fold: Folding, c: char, before: string, more: string)
    requires Avoids(fold, before, c)
    ensures Substitute(fold, [c], before + ([c] + more)) == before + (REDACTION + Substitute(fold, [c], more))
  {
    var text := before + ([c] + more);
    if before == "" {
      assert text == [c] + more && text[1..] == more && [c][1..] == "";
      assert Starts(fold, [c], text) && text[|[c]|..] == more;
    } else {
      assert text[0] == before[0] && text[1..] == before[1..] + ([c] + more);
      CharacterPass(fold, c, before[1..], more);
    }
  }

  lemma {:induction false} AvoidedUntouched(fold: Folding, c: char, text: string)
    requires Avoids(fold, text, c)
    ensures Substitute(fold, [c], text) == text
  {
    if text != "" { AvoidedUntouched(fold, c, text[1..]); }
  }

  lemma TwoPasses(fold: Folding, s: string, c: char, text: string)
    requires s != ""
    ensures RedactText(fold, [s, [c]], text) == Substitute(fold, [c], Substitute(fold, s, text))
  {
    var secrets := [s, [c]];
    assert secrets[..1] == [s] && [s][..0] == [];
    assert RedactText(fold, [s], text) == Substitute(fold, s, text);
  }

  lemma NothingThere(fold: Folding, s: string, before: string, c: char, more: string)
    requires s != "" && |before| < |s| && |more| < |s| && Avoids(fold, s, c)
    ensures Substitute(fold, s, before + ([c] + more)) == before + ([c] + more)
  {
    OccursOnASide(fold, s, before, c, more);
    TooLong(fold, s, before);
    TooLong(fold, s, more);
    Untouched(fold, s, before + ([c] + more));
  }

  lemma SecondPass(fold: Folding, c: char, before: string, more: string)
    requires Avoids(fold, before, c) && Avoids(fold, more, c)
    ensures Substitute(fold, [c], before + ([c] + more)) == before + (REDACTION + more)
  {
    CharacterPass(fold, c, before, more);
    AvoidedUntouched(fold, c, more);
  }

  lemma PartsAvoid(fold: Folding, s: string, k: nat, c: char)
    requires k <= |s| && Avoids(fold, s, c)
    ensures Avoids(fold, s[..k], c) && Avoids(fold, Beyond(s, k + |REDACTION|), c)
  {
  }

  lemma OrderedPair(fold: Folding, s: string, c: char)
    requires s != "" && Avoids(fold, s, c)
    ensures Ordered([s, [c]])
  {
    assert fold(s[0]) != fold([c][0]);
  }

  /**
   A marker can complete a secret behind text that looks like its start, where a second secret of one character
   stood.
   */
  lemma AnotherMarkerCompletes(fold: Folding, s: string, k: nat, c: char)
    requires 0 < k < |s| && !Clash(fold, s[k..], REDACTION) && Avoids(fold, s, c)
    ensures var text := s[..k] + ([c] + Beyond(s, k + |REDACTION|));
      Ordered([s, [c]]) && Occurs(fold, s, RedactText(fold, [s, [c]], text))
  {
    var more := Beyond(s, k + |REDACTION|);
    OrderedPair(fold, s, c);
    NothingThere(fold, s, s[..k], c, more);
    TwoPasses(fold, s, c, s[..k] + ([c] + more));
    PartsAvoid(fold, s, k, c);
    SecondPass(fold, c, s[..k], more);
    CompletedStarts(fold, s, k, more, s[..k] + (REDACTION + more));
  }

  lemma OnePass(fold: Folding, s: string, text: string)
    requires s != ""
    ensures RedactText(fold, [s], text) == Substitute(fold, s, text)
  {
    assert [s][..0] == [];
  }

  /** A secret that agrees with a tail of the marker, or with the marker at its own end, is not always removed. */
  lemma SeamSurvives(fold: Folding, s: string, c: char)
    requires s != "" && Avoids(fold, s, c) && !Seamless(fold, s)
    ensures !RemovedAmongAny(fold, s)
  {
    TailsPointwise(fold, s, REDACTION);
    if !ClashesWithTails(fold, s, REDACTION) {
      var a :| 0 <= a < |REDACTION| && !Clash(fold, s, REDACTION[a..]);
      TailSurvives(fold, s, a);
      OnePass(fold, s, s + Beyond(s, |REDACTION| - a));
      assert s in [s] && Ordered([s]) && !RemovedFrom(fold, s, [s]);
    } else {
      var k := FittingTail(fold, s, REDACTION);
      assert s[0..] == s && k > 0;
      AnotherMarkerCompletes(fold, s, k, c);
      assert s in [s, [c]] && !RemovedFrom(fold, s, [s, [c]]);
    }
  }

  /**
   A secret that avoids at least one character is removed from every text, whatever the other secrets are, if and
   only if it is seamless.
   */
  lemma RemovedAmongAnyExactly(fold: Folding, s: string, c: char)
    requires s != "" && Avoids(fold, s, c)
    ensures RemovedAmongAny(fold, s) <==> Seamless(fold, s)
  {
    if Seamless(fold, s) { SeamlessRemoved(fold, s); } else { SeamSurvives(fold, s, c); }
  }

  lemma {:induction false} BracketsClash(fold: Folding, m: string)
    requires Avoids(fold, m, '[') && |m| > 0
    ensures ClashesWithTails(fold, "[[", m)
  {
    assert Clash(fold, "[[", m);
    if |m| > 1 {
      BracketsClash(fold, m[1..]);
    } else {
      assert m[1..] == "";
    }
  }

  /** "[[" is always removed by its own pass, but not where "b" is removed as well. */
  lemma RemovableNotAmongAny(fold: Folding)
    requires Avoids(fold, REDACTED_WORD + "]b", '[')
    ensures Removable(fold, "[[") && !RemovedAmongAny(fold, "[[")
  {
    var s, m := "[[", REDACTED_WORD + "]";
    assert forall i :: 0 <= i < |m| ==> m[i] == (REDACTED_WORD + "]b")[i];
    assert (REDACTED_WORD + "]b")[9] == 'b';
    BracketsClash(fold, m);
    assert REDACTION[1..] == m && s[1..] == "[" && REDACTION[0] == '[' && REDACTION[1] == m[0];
    assert Clash(fold, s[1..], REDACTION[1..]);
    assert (s[..1] + s)[0..] == "[[[" && "[[["[1..] == "[[";
    OccursInItself(fold, s);
    StartsExtended(fold, s, s, "[");
    assert s + "[" == "[[[";
    assert !CompletedBehind(fold, s, 1);
    AnotherMarkerCompletes(fold, s, 1, 'b');
    assert s in [s, ['b']];
    assert !RemovedFrom(fold, s, [s, ['b']]);
  }
}

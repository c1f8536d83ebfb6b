/**
 Secrets in evidence files: literal, case-insensitive replacement of every secret by a marker, applied
 one secret after the other to all texts of a record, and the truncation of long texts afterwards.

 Case is ignored through a folding of characters, `fold`, which may be any function.
 */
module Evidence {
  import opened Json

  const REDACTED_WORD := "REDACTED"
  const REDACTION := "[" + REDACTED_WORD + "]"

  type Folding = char -> char

  // ---------------------------------------------------------------------------------------------
  // Occurrences and replacement
  // ---------------------------------------------------------------------------------------------

  /** The text starts with s, up to case. */
  predicate Starts(fold: Folding, s: string, text: string) {
    s == "" || (text != "" && fold(text[0]) == fold(s[0]) && Starts(fold, s[1..], text[1..]))
  }

  predicate Occurs(fold: Folding, s: string, text: string) {
    Starts(fold, s, text) || (text != "" && Occurs(fold, s, text[1..]))
  }

  /** All matches replaced by the marker, from left to right and without overlap. */
  function Substitute(fold: Folding, secret: string, text: string): string
    requires secret != ""
    decreases |text|
  {
    if |secret| <= |text| && Starts(fold, secret, text) then
      REDACTION + Substitute(fold, secret, text[|secret|..])
    else if text == "" then ""
    else [text[0]] + Substitute(fold, secret, text[1..])
  }

  predicate NoneEmpty(secrets: seq<string>) {
    forall i :: 0 <= i < |secrets| ==> secrets[i] != ""
  }

  /** The passes over one text, one secret after the other. */
  function RedactText(fold: Folding, secrets: seq<string>, text: string): string
    requires NoneEmpty(secrets)
  {
    if secrets == [] then text
    else Substitute(fold, secrets[|secrets| - 1], RedactText(fold, secrets[..|secrets| - 1], text))
  }

  /** The text is overwritten pass by pass. */
  method Redact(fold: Folding, secrets: seq<string>, text: string) returns (value: string)
    requires NoneEmpty(secrets)
    ensures value == RedactText(fold, secrets, text)
  {
    value := text;
    for i := 0 to |secrets|
      invariant value == RedactText(fold, secrets[..i], text)
    {
      assert secrets[..i + 1][..i] == secrets[..i];
      value := Substitute(fold, secrets[i], value);
    }
    assert secrets[..|secrets|] == secrets;
  }

  lemma {:induction false} StartsLength(fold: Folding, s: string, text: string)
    requires Starts(fold, s, text)
    ensures |s| <= |text|
  {
    if s != "" { StartsLength(fold, s[1..], text[1..]); }
  }

  lemma {:induction false} OccursLater(fold: Folding, s: string, text: string, n: nat)
    requires n <= |text| && Occurs(fold, s, text[n..])
    ensures Occurs(fold, s, text)
  {
    if n > 0 {
      assert text[1..][n - 1..] == text[n..];
      OccursLater(fold, s, text[1..], n - 1);
    } else {
      assert text[0..] == text;
    }
  }

  // ---------------------------------------------------------------------------------------------
  // Secrets that cannot combine with the marker
  // ---------------------------------------------------------------------------------------------

  /** Laid over each other from the left, the two texts differ somewhere they overlap. */
  predicate Clash(fold: Folding, x: string, y: string) {
    x != "" && y != "" && (fold(x[0]) != fold(y[0]) || Clash(fold, x[1..], y[1..]))
  }

  /** The secret clashes with every tail of m: it cannot start inside. */
  predicate ClashesWithTails(fold: Folding, s: string, m: string) {
    m == "" || (Clash(fold, s, m) && ClashesWithTails(fold, s, m[1..]))
  }

  /** Every tail of the secret clashes with m: the secret cannot reach into it. */
  predicate TailsClash(fold: Folding, s: string, m: string) {
    s == "" || (Clash(fold, s, m) && TailsClash(fold, s[1..], m))
  }

  /** However a seamless secret is laid over the marker, some character in the overlap differs. */
  predicate Seamless(fold: Folding, s: string) {
    ClashesWithTails(fold, s, REDACTION) && TailsClash(fold, s, REDACTION)
  }

  lemma {:induction false} ClashBlocks(fold: Folding, x: string, y: string, rest: string)
    requires Clash(fold, x, y)
    ensures !Starts(fold, x, y + rest)
  {
    if fold(x[0]) == fold(y[0]) {
      assert (y + rest)[1..] == y[1..] + rest;
      ClashBlocks(fold, x[1..], y[1..], rest);
    }
  }

  /** An occurrence in a text that begins with m lies behind it. */
  lemma {:induction false} OccursBehind(fold: Folding, s: string, m: string, rest: string)
    requires ClashesWithTails(fold, s, m)
    ensures Occurs(fold, s, m + rest) ==> Occurs(fold, s, rest)
  {
    if m == "" {
      assert m + rest == rest;
    } else {
      ClashBlocks(fold, s, m, rest);
      assert (m + rest)[1..] == m[1..] + rest;
      OccursBehind(fold, s, m[1..], rest);
    }
  }

  /** What starts a substituted text started the text before. */
  lemma {:induction false} StartsBefore(fold: Folding, secret: string, x: string, text: string)
    requires secret != "" && TailsClash(fold, x, REDACTION)
    ensures Starts(fold, x, Substitute(fold, secret, text)) ==> Starts(fold, x, text)
    decreases |text|
  {
    if x != "" && text != "" {
      if Starts(fold, secret, text) && |secret| <= |text| {
        ClashBlocks(fold, x, REDACTION, Substitute(fold, secret, text[|secret|..]));
      } else {
        var rest := Substitute(fold, secret, text[1..]);
        assert ([text[0]] + rest)[1..] == rest;
        StartsBefore(fold, secret, x[1..], text[1..]);
      }
    }
  }

  /** A pass creates no new occurrence of a seamless secret, and leaves none of its own. */
  lemma {:induction false} PassKeeps(fold: Folding, secret: string, s: string, text: string)
    requires secret != "" && s != "" && Seamless(fold, s)
    ensures Occurs(fold, s, Substitute(fold, secret, text)) ==> Occurs(fold, s, text) && s != secret
    decreases |text|
  {
    if Starts(fold, secret, text) {
      StartsLength(fold, secret, text);
      var tail := text[|secret|..];
      OccursBehind(fold, s, REDACTION, Substitute(fold, secret, tail));
      PassKeeps(fold, secret, s, tail);
      if Occurs(fold, s, tail) { OccursLater(fold, s, text, |secret|); }
    } else if text != "" {
      var rest := Substitute(fold, secret, text[1..]);
      assert ([text[0]] + rest)[1..] == rest;
      StartsBefore(fold, secret, s, text);
      PassKeeps(fold, secret, s, text[1..]);
    }
  }

  /** If no secret can combine with the marker, none occurs in a redacted text, whatever the order. */
  lemma {:induction false} NoSecretRemains(fold: Folding, secrets: seq<string>, text: string, k: nat)
    requires NoneEmpty(secrets) && k < |secrets| && Seamless(fold, secrets[k])
    ensures !Occurs(fold, secrets[k], RedactText(fold, secrets, text))
  {
    var init, last := secrets[..|secrets| - 1], secrets[|secrets| - 1];
    PassKeeps(fold, last, secrets[k], RedactText(fold, init, text));
    if k < |init| { NoSecretRemains(fold, init, text, k); }
  }

  // ---------------------------------------------------------------------------------------------
  // Secrets without brackets
  // ---------------------------------------------------------------------------------------------

  predicate BracketFree(fold: Folding, s: string) {
    forall i :: 0 <= i < |s| ==> fold(s[i]) != fold('[') && fold(s[i]) != fold(']')
  }

  lemma {:induction false} ClosingBracketClashes(fold: Folding, s: string, m: string)
    requires s != "" && BracketFree(fold, s) && !Starts(fold, s, m)
    ensures Clash(fold, s, m + "]")
  {
    if m != "" && fold(m[0]) == fold(s[0]) {
      assert (m + "]")[1..] == m[1..] + "]";
      ClosingBracketClashes(fold, s[1..], m[1..]);
    }
  }

  lemma {:induction false} ClashesInsideWord(fold: Folding, s: string, word: string)
    requires s != "" && BracketFree(fold, s) && !Occurs(fold, s, word)
    ensures ClashesWithTails(fold, s, word + "]")
  {
    ClosingBracketClashes(fold, s, word);
    if word != "" {
      assert (word + "]")[1..] == word[1..] + "]";
      ClashesInsideWord(fold, s, word[1..]);
    } else {
      assert (word + "]")[1..] == "";
    }
  }

  lemma {:induction false} OpeningBracketClashes(fold: Folding, s: string)
    requires BracketFree(fold, s)
    ensures TailsClash(fold, s, REDACTION)
  {
    if s != "" { OpeningBracketClashes(fold, s[1..]); }
  }

  /** A secret without brackets that is not part of the word REDACTED is seamless. */
  lemma OrdinarySecretsSeamless(fold: Folding, s: string)
    requires s != "" && BracketFree(fold, s) && !Occurs(fold, s, REDACTED_WORD)
    ensures Seamless(fold, s)
  {
    OpeningBracketClashes(fold, s);
    ClashesInsideWord(fold, s, REDACTED_WORD);
    assert REDACTION[1..] == REDACTED_WORD + "]";
  }

  predicate MarkerAt(text: string, n: nat) {
    n + |REDACTION| <= |text| && text[n..n + |REDACTION|] == REDACTION
  }

  /** A text that no pass changes holds no secret; one that some pass changes holds the marker. */
  lemma {:induction false} MarkerOrUntouched(fold: Folding, secrets: seq<string>, text: string)
    requires NoneEmpty(secrets)
    ensures var out := RedactText(fold, secrets, text);
      (exists n: nat :: MarkerAt(out, n))
      || (out == text && forall k :: 0 <= k < |secrets| ==> !Occurs(fold, secrets[k], text))
  {
    if secrets != [] {
      var init, last := secrets[..|secrets| - 1], secrets[|secrets| - 1];
      MarkerOrUntouched(fold, init, text);
      var before := RedactText(fold, init, text);
      if Occurs(fold, last, before) {
        var n := MarkerPlaced(fold, last, before);
      } else {
        Untouched(fold, last, before);
      }
    }
  }

  lemma {:induction false} Untouched(fold: Folding, secret: string, text: string)
    requires secret != "" && !Occurs(fold, secret, text)
    ensures Substitute(fold, secret, text) == text
  {
    if text != "" { Untouched(fold, secret, text[1..]); }
  }

  lemma {:induction false} MarkerPlaced(fold: Folding, secret: string, text: string) returns (n: nat)
    requires secret != "" && Occurs(fold, secret, text)
    ensures MarkerAt(Substitute(fold, secret, text), n)
    decreases |text|
  {
    if Starts(fold, secret, text) {
      StartsLength(fold, secret, text);
      n := 0;
    } else {
      var m := MarkerPlaced(fold, secret, text[1..]);
      n := m + 1;
      var rest := Substitute(fold, secret, text[1..]);
      assert ([text[0]] + rest)[n..n + |REDACTION|] == rest[m..m + |REDACTION|];
    }
  }

  /** Redaction removes every secret from every text. */
  ghost predicate AlwaysRemoves(fold: Folding, secrets: seq<string>)
    requires NoneEmpty(secrets)
  {
    forall text, k :: 0 <= k < |secrets| ==> !Occurs(fold, secrets[k], RedactText(fold, secrets, text))
  }

  lemma {:induction false} StartsExtended(fold: Folding, s: string, text: string, more: string)
    requires Starts(fold, s, text)
    ensures Starts(fold, s, text + more)
  {
    if s != "" {
      assert (text + more)[1..] == text[1..] + more;
      StartsExtended(fold, s[1..], text[1..], more);
    }
  }

  lemma {:induction false} OccursExtended(fold: Folding, s: string, text: string, more: string)
    requires Occurs(fold, s, text)
    ensures Occurs(fold, s, text + more)
  {
    if Starts(fold, s, text) {
      StartsExtended(fold, s, text, more);
    } else {
      assert (text + more)[1..] == text[1..] + more;
      OccursExtended(fold, s, text[1..], more);
    }
  }

  lemma {:induction false} OccursInItself(fold: Folding, s: string)
    ensures Starts(fold, s, s)
  {
    if s != "" { OccursInItself(fold, s[1..]); }
  }

  lemma OccursInMarker(fold: Folding, s: string, out: string, n: nat)
    requires Occurs(fold, s, REDACTED_WORD) && MarkerAt(out, n)
    ensures Occurs(fold, s, out)
  {
    var more := "]" + out[n + |REDACTION|..];
    assert REDACTION == "[" + REDACTED_WORD + "]";
    assert out[n..] == out[n..n + |REDACTION|] + out[n + |REDACTION|..];
    assert out[n..] == "[" + (REDACTED_WORD + more);
    OccursExtended(fold, s, REDACTED_WORD, more);
    assert out[n..][1..] == REDACTED_WORD + more;
    OccursLater(fold, s, out, n + 1);
  }

  /** A secret inside the word REDACTED survives in the very marker that replaces it. */
  lemma WordPartSurvives(fold: Folding, secrets: seq<string>, k: nat)
    requires NoneEmpty(secrets) && k < |secrets| && Occurs(fold, secrets[k], REDACTED_WORD)
    ensures Occurs(fold, secrets[k], RedactText(fold, secrets, secrets[k]))
  {
    var s := secrets[k];
    var out := RedactText(fold, secrets, s);
    MarkerOrUntouched(fold, secrets, s);
    OccursInItself(fold, s);
    var n: nat :| MarkerAt(out, n);
    OccursInMarker(fold, s, out, n);
  }

  /**
   For secrets without brackets, redaction removes them all from every text exactly when none of them is
   a part of the word REDACTED.
   */
  lemma RemovalExactly(fold: Folding, secrets: seq<string>)
    requires NoneEmpty(secrets) && forall k :: 0 <= k < |secrets| ==> BracketFree(fold, secrets[k])
    ensures AlwaysRemoves(fold, secrets)
       <==> forall k :: 0 <= k < |secrets| ==> !Occurs(fold, secrets[k], REDACTED_WORD)
  {
    if forall k :: 0 <= k < |secrets| ==> !Occurs(fold, secrets[k], REDACTED_WORD) {
      forall text, k | 0 <= k < |secrets|
        ensures !Occurs(fold, secrets[k], RedactText(fold, secrets, text))
      {
        OrdinarySecretsSeamless(fold, secrets[k]);
        NoSecretRemains(fold, secrets, text, k);
      }
    } else {
      var k :| 0 <= k < |secrets| && Occurs(fold, secrets[k], REDACTED_WORD);
      WordPartSurvives(fold, secrets, k);
    }
  }

  /** With a bracket it may fail for a harmless-looking secret: "]a" is left in "]aa". */
  lemma BracketSecretSurvives()
    ensures Occurs(c => c, "]a", RedactText(c => c, ["]a"], "]aa"))
  {
    var fold: Folding := c => c;
    var secrets := ["]a"];
    assert secrets[..0] == [] && RedactText(fold, secrets, "]aa") == Substitute(fold, "]a", "]aa");
    assert "]aa"[2..] == "a" && "]aa"[1..] == "aa" && "]a"[1..] == "a";
    assert Starts(fold, "a", "aa") && Starts(fold, "]a", "]aa");
    assert "a"[1..] == "";
    assert !Starts(fold, "]a", "a");
    assert Substitute(fold, "]a", "a") == "a";
    var out := REDACTION + "a";
    assert out[9..] == "]a";
    OccursInItself(fold, "]a");
    OccursLater(fold, "]a", out, 9);
  }

  // ---------------------------------------------------------------------------------------------
  // Records
  // ---------------------------------------------------------------------------------------------

  /** No text of the value, object keys included, holds the secret. */
  predicate Free(fold: Folding, secret: string, v: Json)
    decreases v, 0
  {
    match v
    case Text(text) => !Occurs(fold, secret, text)
    case Array(items) => AllFree(fold, secret, items)
    case Object(members) => MembersFree(fold, secret, members)
    case _ => true
  }

  predicate AllFree(fold: Folding, secret: string, items: seq<Json>)
    decreases items, 1
  {
    items == []
    || (Free(fold, secret, items[|items| - 1]) && AllFree(fold, secret, items[..|items| - 1]))
  }

  predicate MembersFree(fold: Folding, secret: string, members: seq<Member>)
    decreases members, 1
  {
    members == []
    || (var last := members[|members| - 1];
        && !Occurs(fold, secret, last.key) && Free(fold, secret, last.value)
        && MembersFree(fold, secret, members[..|members| - 1]))
  }

  /** Storing a member under a key: an earlier member of that key is overwritten in its place. */
  function Store(members: seq<Member>, m: Member): seq<Member> {
    var i := FindKey(members, m.key);
    if i < |members| then members[i := m] else members + [m]
  }

  function RedactJson(fold: Folding, secrets: seq<string>, v: Json): Json
    requires NoneEmpty(secrets)
    decreases v, 0
  {
    match v
    case Text(text) => Text(RedactText(fold, secrets, text))
    case Array(items) => Array(RedactItems(fold, secrets, items))
    case Object(members) => Object(RedactMembers(fold, secrets, members))
    case _ => v
  }

  function RedactItems(fold: Folding, secrets: seq<string>, items: seq<Json>): seq<Json>
    requires NoneEmpty(secrets)
    decreases items, 1
  {
    if items == [] then []
    else RedactItems(fold, secrets, items[..|items| - 1]) + [RedactJson(fold, secrets, items[|items| - 1])]
  }

  function RedactMembers(fold: Folding, secrets: seq<string>, members: seq<Member>): seq<Member>
    requires NoneEmpty(secrets)
    decreases members, 1
  {
    if members == [] then []
    else
      var last := members[|members| - 1];
      Store(RedactMembers(fold, secrets, members[..|members| - 1]),
            Member(RedactText(fold, secrets, last.key), RedactJson(fold, secrets, last.value)))
  }

  /** What holds of texts holds of whole records, keys and nested values alike. */
  lemma {:induction false} RecordsAreFree(fold: Folding, secrets: seq<string>, v: Json, k: nat)
    requires NoneEmpty(secrets) && k < |secrets| && Seamless(fold, secrets[k])
    ensures Free(fold, secrets[k], RedactJson(fold, secrets, v))
    decreases v, 0
  {
    match v {
      case Text(text) => NoSecretRemains(fold, secrets, text, k);
      case Array(items) =>
        ItemsAreFree(fold, secrets, items, k);
        assert RedactJson(fold, secrets, v) == Array(RedactItems(fold, secrets, items));
      case Object(members) =>
        MembersAreFree(fold, secrets, members, k);
        assert RedactJson(fold, secrets, v) == Object(RedactMembers(fold, secrets, members));
      case _ =>
    }
  }

  lemma {:induction false} ItemsAreFree(fold: Folding, secrets: seq<string>, items: seq<Json>, k: nat)
    requires NoneEmpty(secrets) && k < |secrets| && Seamless(fold, secrets[k])
    ensures AllFree(fold, secrets[k], RedactItems(fold, secrets, items))
    decreases items, 1
  {
    if items != [] {
      ItemsAreFree(fold, secrets, items[..|items| - 1], k);
      RecordsAreFree(fold, secrets, items[|items| - 1], k);
      var init := RedactItems(fold, secrets, items[..|items| - 1]);
      assert RedactItems(fold, secrets, items)[..|init|] == init;
    }
  }

  lemma {:induction false} StoreKeepsFree(fold: Folding, secret: string, members: seq<Member>, i: nat, m: Member)
    requires MembersFree(fold, secret, members) && i <= |members|
    requires !Occurs(fold, secret, m.key) && Free(fold, secret, m.value)
    ensures MembersFree(fold, secret, if i < |members| then members[i := m] else members + [m])
  {
    if i == |members| {
      assert (members + [m])[..i] == members;
    } else {
      var n := |members| - 1;
      if i < n {
        StoreKeepsFree(fold, secret, members[..n], i, m);
        assert members[i := m][..n] == members[..n][i := m];
      } else {
        assert members[i := m][..n] == members[..n];
      }
    }
  }

  lemma StoredStaysFree(fold: Folding, secret: string, members: seq<Member>, m: Member)
    requires MembersFree(fold, secret, members) && !Occurs(fold, secret, m.key) && Free(fold, secret, m.value)
    ensures MembersFree(fold, secret, Store(members, m))
  {
    StoreKeepsFree(fold, secret, members, FindKey(members, m.key), m);
  }

  lemma {:induction false} MembersAreFree(fold: Folding, secrets: seq<string>, members: seq<Member>, k: nat)
    requires NoneEmpty(secrets) && k < |secrets| && Seamless(fold, secrets[k])
    ensures MembersFree(fold, secrets[k], RedactMembers(fold, secrets, members))
    decreases members, 1
  {
    if members != [] {
      var last := members[|members| - 1];
      MembersAreFree(fold, secrets, members[..|members| - 1], k);
      NoSecretRemains(fold, secrets, last.key, k);
      RecordsAreFree(fold, secrets, last.value, k);
      var init := RedactMembers(fold, secrets, members[..|members| - 1]);
      var m := Member(RedactText(fold, secrets, last.key), RedactJson(fold, secrets, last.value));
      StoredStaysFree(fold, secrets[k], init, m);
      assert RedactMembers(fold, secrets, members) == Store(init, m);
    }
  }

  // ---------------------------------------------------------------------------------------------
  // Truncation
  // ---------------------------------------------------------------------------------------------

  /** The position of the last opening bracket, or -1. */
  function LastBracket(s: string): (i: int)
    ensures -1 <= i < |s|
    ensures i >= 0 ==> s[i] == '['
    ensures forall j :: i < j < |s| ==> s[j] != '['
  {
    if s == "" then -1 else if s[|s| - 1] == '[' then |s| - 1 else LastBracket(s[..|s| - 1])
  }

  function BoundedPrefix(value: string, limit: nat): string {
    var prefix := if limit <= |value| then value[..limit] else value;
    var marker := LastBracket(prefix);
    if marker >= 0 && MarkerAt(value, marker) then value[..marker] + REDACTION else prefix
  }

  /** A marker holds no bracket that could start another one. */
  lemma NoInnerBracket(value: string, n: nat, m: nat)
    requires MarkerAt(value, n)
    ensures value[n] == '['
    ensures n < m < n + |REDACTION| ==> value[m] != '['
  {
    assert REDACTION == "[REDACTED]";
    assert value[n] == value[n..n + |REDACTION|][0];
    assert n < m < n + |REDACTION| ==> value[m] == value[n..n + |REDACTION|][m - n];
  }

  lemma MarkerCut(value: string, m: nat)
    requires MarkerAt(value, m)
    ensures value[..m] + REDACTION == value[..m + |REDACTION|]
  {
  }

  lemma BoundedPrefixIsPrefix(value: string, limit: nat)
    ensures BoundedPrefix(value, limit) <= value && |BoundedPrefix(value, limit)| <= limit + 9
  {
    var prefix := if limit <= |value| then value[..limit] else value;
    var m := LastBracket(prefix);
    if m >= 0 && MarkerAt(value, m) { MarkerCut(value, m); }
  }

  lemma NoMarkerCut(value: string, limit: nat, n: nat)
    requires MarkerAt(value, n)
    ensures |BoundedPrefix(value, limit)| <= n || n + |REDACTION| <= |BoundedPrefix(value, limit)|
  {
    var prefix := if limit <= |value| then value[..limit] else value;
    var m := LastBracket(prefix);
    NoInnerBracket(value, n, if m >= 0 then m else 0);
    if n < |prefix| { assert prefix[n] == '['; }
    if m >= 0 && MarkerAt(value, m) { NoInnerBracket(value, m, n); }
  }

  /** The result is a prefix of the text, at most nine characters too long, and cuts no marker in two. */
  lemma BoundedPrefixSound(value: string, limit: nat)
    ensures var r := BoundedPrefix(value, limit);
      && r <= value && |r| <= limit + 9
      && forall n: nat :: MarkerAt(value, n) ==> |r| <= n || n + |REDACTION| <= |r|
  {
    BoundedPrefixIsPrefix(value, limit);
    forall n: nat | MarkerAt(value, n)
      ensures |BoundedPrefix(value, limit)| <= n || n + |REDACTION| <= |BoundedPrefix(value, limit)|
    {
      NoMarkerCut(value, limit, n);
    }
  }

  /** Cutting a text never brings a secret back. */
  lemma PrefixKeepsFree(fold: Folding, s: string, text: string, n: nat)
    requires n <= |text|
    ensures Occurs(fold, s, text[..n]) ==> Occurs(fold, s, text)
  {
    assert text == text[..n] + text[n..];
    if Occurs(fold, s, text[..n]) { OccursExtended(fold, s, text[..n], text[n..]); }
  }

  lemma TruncationKeepsFree(fold: Folding, secrets: seq<string>, text: string, k: nat, limit: nat)
    requires NoneEmpty(secrets) && k < |secrets| && Seamless(fold, secrets[k])
    ensures !Occurs(fold, secrets[k], BoundedPrefix(RedactText(fold, secrets, text), limit))
  {
    var out := RedactText(fold, secrets, text);
    NoSecretRemains(fold, secrets, text, k);
    BoundedPrefixSound(out, limit);
    var r := BoundedPrefix(out, limit);
    assert r == out[..|r|];
    PrefixKeepsFree(fold, secrets[k], out, |r|);
  }

  /**
   A long text is cut below the limit exactly when its last bracket before the limit starts a marker that
   ends before it: then everything behind that marker is dropped, however much it is.
   */
  lemma ShorterThanLimit(value: string, limit: nat)
    requires limit <= |value|
    ensures var m := LastBracket(value[..limit]);
      (|BoundedPrefix(value, limit)| < limit) ==
      (m >= 0 && MarkerAt(value, m) && m + |REDACTION| < limit)
  {
  }

  // ---------------------------------------------------------------------------------------------
  // The mark of a truncated text
  // ---------------------------------------------------------------------------------------------

  const ELLIPSIS := '\U{2026}'
  const TRUNCATED_WORD := "truncated"
  const TAIL: string := [ELLIPSIS] + ("[" + (TRUNCATED_WORD + "]"))

  function TruncateText(value: string, limit: nat): string {
    if |value| <= limit then value
    else BoundedPrefix(value, limit) + TAIL
  }

  /** No character of s is the same as c, up to case. */
  predicate Avoids(fold: Folding, s: string, c: char) {
    forall i :: 0 <= i < |s| ==> fold(s[i]) != fold(c)
  }

  lemma {:induction false} StartsWithin(fold: Folding, s: string, p: string, c: char, rest: string)
    requires Avoids(fold, s, c)
    ensures Starts(fold, s, p + ([c] + rest)) ==> Starts(fold, s, p)
    decreases |s|
  {
    if s != "" && p != "" {
      assert (p + ([c] + rest))[1..] == p[1..] + ([c] + rest);
      StartsWithin(fold, s[1..], p[1..], c, rest);
    }
  }

  /** A character that s avoids separates its occurrences. */
  lemma {:induction false} OccursOnASide(fold: Folding, s: string, p: string, c: char, rest: string)
    requires Avoids(fold, s, c)
    ensures Occurs(fold, s, p + ([c] + rest)) ==> Occurs(fold, s, p) || Occurs(fold, s, rest)
    decreases |p|
  {
    StartsWithin(fold, s, p, c, rest);
    if p == "" {
      assert ([c] + rest)[1..] == rest && p + ([c] + rest) == [c] + rest;
    } else {
      assert (p + ([c] + rest))[1..] == p[1..] + ([c] + rest);
      OccursOnASide(fold, s, p[1..], c, rest);
    }
  }

  lemma {:induction false} OccursAfter(fold: Folding, s: string, before: string, text: string)
    requires Occurs(fold, s, text)
    ensures Occurs(fold, s, before + text)
    decreases |before|
  {
    if before == "" {
      assert before + text == text;
    } else {
      OccursAfter(fold, s, before[1..], text);
      assert (before + text)[1..] == before[1..] + text;
    }
  }
}

/**
 Redaction of AP2 tokens: every value an expectation points at is replaced by a marker before a
 response is reported.
 */
module Redaction {
  import opened Sequences
  import opened Wrappers
  import opened Chars
  import opened Json
  import opened Parts
  import opened Pointer

  const REDACTED_AP2_MANDATE := "[REDACTED: AP2 mandate]"
  const REDACTED_AP2_RECEIPT := "[REDACTED: AP2 receipt]"

  /** Where an expectation looks: filters on the data part. */
  datatype Location = Location(source: Option<Source>, artifactName: Option<string>, mediaType: Option<string>)

  datatype Expectation =
    | Mandate(checkout: bool, path: Option<string>, location: Location)
    | Receipt(pointer: string, location: Location)

  /** The pointer of an expectation; a mandate without one uses the path implied by its type. */
  function PathOf(e: Expectation): string {
    match e
    case Mandate(checkout, path, _) =>
      if path.Some? then path.value
      else if checkout then "/ap2.mandates.CheckoutMandateSdJwt"
      else "/ap2.mandates.PaymentMandateSdJwt"
    case Receipt(pointer, _) => pointer
  }

  function MarkerOf(e: Expectation): (m: Json)
    ensures IsMarker(m)
  {
    Text(if e.Mandate? then REDACTED_AP2_MANDATE else REDACTED_AP2_RECEIPT)
  }

  predicate IsMarker(v: Json) {
    v == Text(REDACTED_AP2_MANDATE) || v == Text(REDACTED_AP2_RECEIPT)
  }

  predicate MatchesLocation(e: Expectation, part: DataPart) {
    var l := e.location;
    && (l.source.None? || part.source == l.source.value)
    && (l.artifactName.None? || part.artifactName == l.artifactName)
    && (l.mediaType.None?
        || (part.mediaType.Some? && Lower(part.mediaType.value) == Lower(l.mediaType.value)))
  }

  // ---------------------------------------------------------------------------------------------
  // Replacement at a path
  // ---------------------------------------------------------------------------------------------

  /** Whether the path resolved, and the value with the replacement in place; copies along the path. */
  function ReplaceTokens(value: Json, tokens: seq<string>, replacement: Json): (bool, Json) {
    if tokens == [] then (true, replacement)
    else
      var i := Child(value, tokens[0]);
      if i.None? then (false, value)
      else
        var (changed, nested) := ReplaceTokens(At(value, i.value), tokens[1..], replacement);
        if changed then (true, Set(value, i.value, nested)) else (false, value)
  }

  function Replaced(value: Json, tokens: seq<string>, replacement: Json): Json {
    ReplaceTokens(value, tokens, replacement).1
  }

  /** A replacement takes place exactly where the path resolves, and can be read back there. */
  lemma {:induction false} ReplaceThenGet(v: Json, p: seq<string>, r: Json)
    ensures ReplaceTokens(v, p, r).0 <==> Get(v, p).Some?
    ensures Get(v, p).Some? ==> Get(Replaced(v, p, r), p) == Some(r)
    ensures Get(v, p).None? ==> Replaced(v, p, r) == v
  {
    if p != [] && Child(v, p[0]).Some? {
      var i := Child(v, p[0]).value;
      ReplaceThenGet(At(v, i), p[1..], r);
      ChildOfSet(v, i, Replaced(At(v, i), p[1..], r), p[0]);
    }
  }

  /** Paths of which neither starts with the other. */
  predicate Apart(p: seq<string>, q: seq<string>) {
    !(p <= q) && !(q <= p)
  }

  /** One level of a replacement: the selected child is replaced, or there is none. */
  lemma ReplaceSteps(v: Json, p: seq<string>, r: Json)
    requires p != []
    ensures Child(v, p[0]).None? ==> Replaced(v, p, r) == v
    ensures Child(v, p[0]).Some? ==>
      var i := Child(v, p[0]).value;
      Replaced(v, p, r) == Set(v, i, Replaced(At(v, i), p[1..], r))
  {
    if Child(v, p[0]).Some? {
      var i := Child(v, p[0]).value;
      ReplaceThenGet(At(v, i), p[1..], r);
      assert Set(v, i, At(v, i)) == v;
    }
  }

  /** A path into a value one child of which was exchanged. */
  lemma GetFromSet(v: Json, i: nat, c: Json, q: seq<string>)
    requires i < Width(v) && q != []
    ensures Get(Set(v, i, c), q) == if Child(v, q[0]) == Some(i) then Get(c, q[1..]) else Get(v, q)
  {
    ChildOfSet(v, i, c, q[0]);
  }

  /** A replacement is invisible from every path apart from its own. */
  lemma {:induction false} ReplaceElsewhere(v: Json, p: seq<string>, r: Json, q: seq<string>)
    requires Apart(p, q)
    ensures Get(Replaced(v, p, r), q) == Get(v, q)
  {
    ReplaceSteps(v, p, r);
    if Child(v, p[0]).Some? {
      var i := Child(v, p[0]).value;
      GetFromSet(v, i, Replaced(At(v, i), p[1..], r), q);
      if p[0] == q[0] {
        assert p == [p[0]] + p[1..] && q == [q[0]] + q[1..];
        ReplaceElsewhere(At(v, i), p[1..], r, q[1..]);
      } else if Child(v, q[0]).Some? {
        ChildrenDiffer(v, p[0], q[0]);
      }
    }
  }

  /** Nothing lies below a marker. */
  lemma {:induction false} ReplaceAbove(v: Json, p: seq<string>, r: Json, q: seq<string>)
    requires p < q && r.Text?
    ensures Get(Replaced(v, p, r), q).None?
  {
    if p == [] {
      assert Child(r, q[0]).None?;
    } else if Child(v, p[0]).Some? {
      var i := Child(v, p[0]).value;
      ChildOfSet(v, i, Replaced(At(v, i), p[1..], r), q[0]);
      ReplaceAbove(At(v, i), p[1..], r, q[1..]);
    }
  }

  /** A replacement below keeps a path resolvable or not, whichever it was. */
  lemma {:induction false} ReplaceBelow(v: Json, p: seq<string>, r: Json, q: seq<string>)
    requires q <= p
    ensures Get(Replaced(v, p, r), q).Some? <==> Get(v, q).Some?
  {
    if q != [] && Child(v, p[0]).Some? {
      var i := Child(v, p[0]).value;
      ChildOfSet(v, i, Replaced(At(v, i), p[1..], r), q[0]);
      ReplaceBelow(At(v, i), p[1..], r, q[1..]);
    }
  }

  /** A replacement below one child leaves a path that starts without a child where it was. */
  lemma ReplaceMissing(v: Json, p: seq<string>, r: Json, q: seq<string>, s: Json)
    requires p != [] && q != [] && p[0] != q[0] && Child(v, q[0]).None?
    ensures Replaced(Replaced(v, p, r), q, s) == Replaced(v, p, r) && Replaced(v, q, s) == v
  {
    ReplaceSteps(v, p, r);
    ReplaceSteps(v, q, s);
    if Child(v, p[0]).Some? {
      var i := Child(v, p[0]).value;
      ChildOfSet(v, i, Replaced(At(v, i), p[1..], r), q[0]);
    }
    ReplaceSteps(Replaced(v, p, r), q, s);
  }

  /** A replacement in one child, seen from the path of another. */
  lemma ReplaceOther(v: Json, i: nat, c: Json, q: seq<string>, s: Json)
    requires i < Width(v) && q != [] && Child(v, q[0]).Some? && i != Child(v, q[0]).value
    ensures var j := Child(v, q[0]).value;
      Replaced(Set(v, i, c), q, s) == Set(Set(v, i, c), j, Replaced(At(v, j), q[1..], s))
  {
    ChildOfSet(v, i, c, q[0]);
    ReplaceSteps(Set(v, i, c), q, s);
  }

  lemma ReplaceCommutesAcross(v: Json, p: seq<string>, r: Json, q: seq<string>, s: Json)
    requires p != [] && q != [] && p[0] != q[0]
    ensures Replaced(Replaced(v, p, r), q, s) == Replaced(Replaced(v, q, s), p, r)
  {
    if Child(v, q[0]).None? {
      ReplaceMissing(v, p, r, q, s);
    } else if Child(v, p[0]).None? {
      ReplaceMissing(v, q, s, p, r);
    } else {
      var i, j := Child(v, p[0]).value, Child(v, q[0]).value;
      var c, d := Replaced(At(v, i), p[1..], r), Replaced(At(v, j), q[1..], s);
      ReplaceSteps(v, p, r);
      ReplaceSteps(v, q, s);
      ChildrenDiffer(v, p[0], q[0]);
      ReplaceOther(v, i, c, q, s);
      ReplaceOther(v, j, d, p, r);
      assert Set(Set(v, i, c), j, d) == Set(Set(v, j, d), i, c);
    }
  }

  /** Replacements at different paths commute, nested ones included. */
  lemma {:induction false} ReplaceCommutes(v: Json, p: seq<string>, r: Json, q: seq<string>, s: Json)
    requires p != q && r.Text? && s.Text?
    ensures Replaced(Replaced(v, p, r), q, s) == Replaced(Replaced(v, q, s), p, r)
    decreases |p|
  {
    if p == [] {
      assert Child(r, q[0]).None?;
    } else if q == [] {
      assert Child(s, p[0]).None?;
    } else if p[0] != q[0] {
      ReplaceCommutesAcross(v, p, r, q, s);
    } else {
      ReplaceSteps(v, p, r);
      ReplaceSteps(v, q, s);
      if Child(v, p[0]).Some? {
        var i := Child(v, p[0]).value;
        var c, d := Replaced(At(v, i), p[1..], r), Replaced(At(v, i), q[1..], s);
        assert p == [p[0]] + p[1..] && q == [q[0]] + q[1..];
        ReplaceCommutes(At(v, i), p[1..], r, q[1..], s);
        ChildOfSet(v, i, c, q[0]);
        ChildOfSet(v, i, d, p[0]);
        ReplaceSteps(Set(v, i, c), q, s);
        ReplaceSteps(Set(v, i, d), p, r);
        var e := Replaced(c, q[1..], s);
        assert Set(Set(v, i, c), i, e) == Set(Set(v, i, d), i, e);
      }
    }
  }

  // ---------------------------------------------------------------------------------------------
  // Redacting a response
  // ---------------------------------------------------------------------------------------------

  function TokensOf(e: Expectation): seq<string> { Parse(PathOf(e)) }

  /** The effect of one expectation on the value of a part. */
  function RedactOne(e: Expectation, part: DataPart, value: Json): Json {
    if MatchesLocation(e, part) then Replaced(value, TokensOf(e), MarkerOf(e)) else value
  }

  /** All expectations applied to the value of a part, in order. */
  function RedactAll(es: seq<Expectation>, part: DataPart, value: Json): Json {
    if es == [] then value else RedactAll(es[1..], part, RedactOne(es[0], part, value))
  }

  function RedactPart(es: seq<Expectation>, part: DataPart): DataPart {
    part.(value := RedactAll(es, part, part.value))
  }

  lemma {:induction false} RedactLast(es: seq<Expectation>, part: DataPart, value: Json)
    requires es != []
    ensures RedactAll(es, part, value)
         == RedactOne(es[|es| - 1], part, RedactAll(es[..|es| - 1], part, value))
  {
    if |es| > 1 {
      RedactLast(es[1..], part, RedactOne(es[0], part, value));
      assert es[1..][..|es| - 2] == es[..|es| - 1][1..];
    }
  }

  lemma RedactNext(es: seq<Expectation>, k: nat, part: DataPart, value: Json)
    requires k < |es|
    ensures RedactAll(es[..k + 1], part, value) == RedactOne(es[k], part, RedactAll(es[..k], part, value))
  {
    RedactLast(es[..k + 1], part, value);
    assert es[..k + 1][..k] == es[..k];
  }

  /** What a reader may still find at a redacted path. */
  predicate Hidden(v: Json, p: seq<string>) {
    Get(v, p).None? || IsMarker(Get(v, p).value)
  }

  /** A later redaction never uncovers an earlier one. */
  lemma StaysHidden(v: Json, p: seq<string>, q: seq<string>, marker: Json)
    requires Hidden(v, q) && IsMarker(marker)
    ensures Hidden(Replaced(v, p, marker), q)
  {
    ReplaceThenGet(v, p, marker);
    if p == q {
    } else if p <= q {
      ReplaceThenGet(v, p, marker);
      if Get(v, p).Some? { ReplaceAbove(v, p, marker, q); }
    } else if q <= p {
      if Get(v, q).Some? {
        BelowMarker(v, q, p);
      } else {
        ReplaceBelow(v, p, marker, q);
      }
    } else {
      ReplaceElsewhere(v, p, marker, q);
    }
  }

  lemma {:induction false} BelowMarker(v: Json, q: seq<string>, p: seq<string>)
    requires q < p && Get(v, q).Some? && Get(v, q).value.Text?
    ensures Get(v, p).None?
  {
    if q == [] {
      assert Child(v, p[0]).None?;
    } else {
      BelowMarker(At(v, Child(v, q[0]).value), q[1..], p[1..]);
    }
  }

  /** After redaction every matching expectation's path leads to a marker or nowhere. */
  lemma {:induction false} RedactionHides(es: seq<Expectation>, part: DataPart, value: Json, k: nat)
    requires k < |es| && MatchesLocation(es[k], part)
    ensures Hidden(RedactAll(es, part, value), TokensOf(es[k]))
  {
    RedactLast(es, part, value);
    var init, last := es[..|es| - 1], es[|es| - 1];
    var before := RedactAll(init, part, value);
    if k == |es| - 1 {
      ReplaceThenGet(before, TokensOf(last), MarkerOf(last));
    } else {
      RedactionHides(init, part, value, k);
      if MatchesLocation(last, part) { StaysHidden(before, TokensOf(last), TokensOf(es[k]), MarkerOf(last)); }
    }
  }

  /** A path apart from every redacted path reads as it did. */
  lemma {:induction false} RedactionPreserves(es: seq<Expectation>, part: DataPart, value: Json, q: seq<string>)
    requires forall e :: e in es && MatchesLocation(e, part) ==> Apart(TokensOf(e), q)
    ensures Get(RedactAll(es, part, value), q) == Get(value, q)
  {
    if es != [] {
      if MatchesLocation(es[0], part) { ReplaceElsewhere(value, TokensOf(es[0]), MarkerOf(es[0]), q); }
      RedactionPreserves(es[1..], part, RedactOne(es[0], part, value), q);
    }
  }

  /** A path apart from those of all expectations that apply to the part. */
  ghost predicate Untouched(es: seq<Expectation>, part: DataPart, q: seq<string>) {
    forall e :: e in es && MatchesLocation(e, part) ==> Apart(TokensOf(e), q)
  }

  /** What is shown of a part: every value an expectation points at is hidden, and all else is as it was. */
  ghost predicate RedactedFrom(es: seq<Expectation>, part: DataPart, shown: DataPart) {
    && shown == part.(value := shown.value)
    && (forall e :: e in es && MatchesLocation(e, part) ==> Hidden(shown.value, TokensOf(e)))
    && (forall q :: Untouched(es, part, q) ==> Get(shown.value, q) == Get(part.value, q))
  }

  lemma PartRedacted(es: seq<Expectation>, part: DataPart)
    ensures RedactedFrom(es, part, RedactPart(es, part))
  {
    var shown := RedactAll(es, part, part.value);
    forall e | e in es && MatchesLocation(e, part) ensures Hidden(shown, TokensOf(e)) {
      var k :| 0 <= k < |es| && es[k] == e;
      RedactionHides(es, part, part.value, k);
    }
    forall q | Untouched(es, part, q) ensures Get(shown, q) == Get(part.value, q) {
      RedactionPreserves(es, part, part.value, q);
    }
  }

  /** All matching expectations on one part, in order; without an effect the part itself is kept. */
  method RedactValue(es: seq<Expectation>, part: DataPart) returns (redacted: DataPart)
    ensures redacted == RedactPart(es, part)
  {
    var value, changed := part.value, false;
    for k := 0 to |es|
      invariant value == RedactAll(es[..k], part, part.value)
      invariant !changed ==> value == part.value
    {
      RedactNext(es, k, part, part.value);
      if MatchesLocation(es[k], part) {
        ReplaceThenGet(value, TokensOf(es[k]), MarkerOf(es[k]));
        var (replaced, value') := ReplaceTokens(value, TokensOf(es[k]), MarkerOf(es[k]));
        value, changed := value', changed || replaced;
      }
    }
    assert es[..|es|] == es;
    return if changed then part.(value := value) else part;
  }

  /** Part by part; everything but the redacted values is kept. */
  method RedactAp2(es: seq<Expectation>, parts: seq<DataPart>) returns (redacted: seq<DataPart>)
    ensures |redacted| == |parts|
    ensures forall i :: 0 <= i < |parts| ==> redacted[i] == RedactPart(es, parts[i])
    ensures forall i :: 0 <= i < |parts| ==> RedactedFrom(es, parts[i], redacted[i])
  {
    redacted := [];
    for n := 0 to |parts|
      invariant |redacted| == n
      invariant forall i :: 0 <= i < n ==> redacted[i] == RedactPart(es, parts[i])
      invariant forall i :: 0 <= i < n ==> RedactedFrom(es, parts[i], redacted[i])
    {
      PartRedacted(es, parts[n]);
      var part := RedactValue(es, parts[n]);
      redacted := redacted + [part];
    }
  }

  // ---------------------------------------------------------------------------------------------
  // Where expectations look and what they show
  // ---------------------------------------------------------------------------------------------

  lemma MemberOfRoot(path: string, name: string)
    requires path != "" && path[0] == '/' && name == path[1..] && Plain(name)
    ensures Parse(path) == [name]
  {
    PlainToken(name);
    assert path == "/" + name;
  }

  lemma PlainCheckoutName()
    ensures Plain("ap2.mandates.CheckoutMandateSdJwt")
  {
  }

  lemma PlainPaymentName()
    ensures Plain("ap2.mandates.PaymentMandateSdJwt")
  {
  }

  /** A mandate without a path is expected in the member that its type implies. */
  lemma ImpliedPaths(checkout: bool, location: Location, name: string)
    requires name == if checkout then "ap2.mandates.CheckoutMandateSdJwt" else "ap2.mandates.PaymentMandateSdJwt"
    ensures TokensOf(Mandate(checkout, None, location)) == [name]
  {
    if checkout { PlainCheckoutName(); } else { PlainPaymentName(); }
    MemberOfRoot(PathOf(Mandate(checkout, None, location)), name);
  }

  /** A path of its own leads where its printed tokens lead. */
  lemma OwnPaths(checkout: bool, tokens: seq<string>, location: Location)
    ensures TokensOf(Mandate(checkout, Some(Print(tokens)), location)) == tokens
    ensures TokensOf(Receipt(Print(tokens), location)) == tokens
  {
    ParsePrint(tokens);
  }

  /** An absent filter admits every part; a media type is compared without regard to the case of letters. */
  lemma AppliesExactly(e: Expectation, part: DataPart)
    ensures MatchesLocation(e, part) <==>
      && (e.location.source.Some? ==> e.location.source.value == part.source)
      && (e.location.artifactName.Some? ==> e.location.artifactName == part.artifactName)
      && (e.location.mediaType.Some? ==>
            part.mediaType.Some? && SameIgnoringCase(part.mediaType.value, e.location.mediaType.value))
  {
    if part.mediaType.Some? && e.location.mediaType.Some? {
      LowerExactly(part.mediaType.value, e.location.mediaType.value);
    }
  }

  /** The paths of all other expectations that apply to the part are apart from that of the k-th. */
  predicate AloneAtPath(es: seq<Expectation>, part: DataPart, k: nat) {
    k < |es| && forall j :: 0 <= j < |es| && j != k && MatchesLocation(es[j], part) ==>
      Apart(TokensOf(es[j]), TokensOf(es[k]))
  }

  /** Where a value was, the marker of the kind of its token is shown. */
  lemma {:induction false} MarkerShown(es: seq<Expectation>, part: DataPart, k: nat)
    requires AloneAtPath(es, part, k) && MatchesLocation(es[k], part)
    ensures var p := TokensOf(es[k]);
      Get(RedactPart(es, part).value, p) ==
        if Get(part.value, p).None? then None
        else Some(Text(if es[k].Mandate? then "[REDACTED: AP2 mandate]" else "[REDACTED: AP2 receipt]"))
  {
    var init, last, p := es[..|es| - 1], es[|es| - 1], TokensOf(es[k]);
    RedactLast(es, part, part.value);
    var before := RedactAll(init, part, part.value);
    if k == |es| - 1 {
      RedactionPreserves(init, part, part.value, p);
      ReplaceThenGet(before, p, MarkerOf(last));
    } else {
      MarkerShown(init, part, k);
      if MatchesLocation(last, part) { ReplaceElsewhere(before, TokensOf(last), MarkerOf(last), p); }
    }
  }

  // ---------------------------------------------------------------------------------------------
  // The order of expectations
  // ---------------------------------------------------------------------------------------------

  /** No two expectations that apply to the part decode to the same path. */
  predicate PathsDiffer(es: seq<Expectation>, part: DataPart) {
    forall i, j :: 0 <= i < j < |es| && MatchesLocation(es[i], part) && MatchesLocation(es[j], part) ==>
      TokensOf(es[i]) != TokensOf(es[j])
  }

  lemma RedactOneCommutes(e: Expectation, f: Expectation, part: DataPart, value: Json)
    requires MatchesLocation(e, part) && MatchesLocation(f, part) ==> TokensOf(e) != TokensOf(f)
    ensures RedactOne(e, part, RedactOne(f, part, value)) == RedactOne(f, part, RedactOne(e, part, value))
  {
    if MatchesLocation(e, part) && MatchesLocation(f, part) {
      ReplaceCommutes(value, TokensOf(f), MarkerOf(f), TokensOf(e), MarkerOf(e));
    }
  }

  /** Any expectation may be applied first. */
  lemma {:induction false} AnyFirst(es: seq<Expectation>, part: DataPart, value: Json, k: nat)
    requires k < |es| && PathsDiffer(es, part)
    ensures RedactAll(es, part, value) == RedactAll(Without(es, k), part, RedactOne(es[k], part, value))
  {
    if k == 0 {
      assert Without(es, 0) == es[1..];
    } else {
      AnyFirst(es[1..], part, RedactOne(es[0], part, value), k - 1);
      RedactOneCommutes(es[k], es[0], part, value);
      assert Without(es, k)[1..] == Without(es[1..], k - 1);
    }
  }

  lemma WithoutDiffers(es: seq<Expectation>, k: nat, part: DataPart)
    requires k < |es| && PathsDiffer(es, part)
    ensures PathsDiffer(Without(es, k), part)
  {
    var rest := Without(es, k);
    forall i, j | 0 <= i < j < |rest| && MatchesLocation(rest[i], part) && MatchesLocation(rest[j], part)
      ensures TokensOf(rest[i]) != TokensOf(rest[j])
    {
      assert rest[i] == es[if i < k then i else i + 1] && rest[j] == es[if j < k then j else j + 1];
    }
  }

  lemma SomewhereIn(e: Expectation, fs: seq<Expectation>) returns (k: nat)
    requires e in multiset(fs)
    ensures k < |fs| && fs[k] == e
  {
    k :| k < |fs| && fs[k] == e;
  }

  /** With pairwise different paths, the order in which expectations are listed does not matter. */
  lemma {:induction false} OrderIrrelevant(es: seq<Expectation>, fs: seq<Expectation>, part: DataPart, value: Json)
    requires multiset(es) == multiset(fs) && PathsDiffer(es, part) && PathsDiffer(fs, part)
    ensures RedactAll(es, part, value) == RedactAll(fs, part, value)
    decreases |es|
  {
    if es == [] {
      assert |multiset(fs)| == 0;
    } else {
      assert es[0] in multiset(es);
      var k := SomewhereIn(es[0], fs);
      AnyFirst(es, part, value, 0);
      AnyFirst(fs, part, value, k);
      MultisetWithout(es, 0);
      MultisetWithout(fs, k);
      WithoutDiffers(es, 0, part);
      WithoutDiffers(fs, k, part);
      OrderIrrelevant(Without(es, 0), Without(fs, k), part, RedactOne(es[0], part, value));
    }
  }

  /** When two expectations share a path the last one decides which marker is shown. */
  lemma SamePathLastWins(e: Expectation, f: Expectation, part: DataPart, value: Json)
    requires MatchesLocation(e, part) && MatchesLocation(f, part) && TokensOf(e) == TokensOf(f)
    ensures Get(value, TokensOf(f)).Some? ==> Get(RedactAll([e, f], part, value), TokensOf(f)) == Some(MarkerOf(f))
  {
    ReplaceThenGet(value, TokensOf(e), MarkerOf(e));
    ReplaceThenGet(Replaced(value, TokensOf(e), MarkerOf(e)), TokensOf(f), MarkerOf(f));
    assert [e, f][1..] == [f];
    assert RedactAll([f], part, RedactOne(e, part, value)) == RedactOne(f, part, RedactOne(e, part, value));
  }
}

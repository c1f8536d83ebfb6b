/**
 Scenario names generated from the skills of an Agent Card: each is made unique by a numeric suffix
 and kept within the length a contract allows.
 */
module Names {
  import opened Wrappers
  import opened Chars
  import opened Decimal

  const MAX_NAME: nat := 200
  const MAX_GENERATED_SCENARIOS: nat := 20
  const MAX_GENERATED_MESSAGE_CHARS: nat := 100_000

  /** base[:end] with a negative end counting from the right, as slices do. */
  function SliceTo(base: string, end: int): string {
    if end >= |base| then base
    else if end >= 0 then base[..end]
    else if |base| + end >= 0 then base[..|base| + end]
    else ""
  }

  function Marker(suffix: nat): string { " " + Numeral(suffix) }

  /** The name tried with a suffix: the base cut short to make room, then the marker. */
  function Candidate(base: string, suffix: nat): string {
    SliceTo(base, MAX_NAME - |Marker(suffix)|) + Marker(suffix)
  }

  /** A candidate is the base, cut as far as two hundred characters require, with a blank and the number behind it. */
  lemma CandidateExactly(base: string, suffix: nat, marker: string)
    requires marker == " " + Numeral(suffix) && |marker| <= 200
    ensures Candidate(base, suffix)
         == (if |base| + |marker| <= 200 then base else base[..200 - |marker|]) + marker
  {
    assert |base| + |marker| <= 200 ==> base[..|base|] == base;
  }

  /** All candidates for suffixes 2, 3, ... below `end` are taken. */
  ghost predicate AllTaken(base: string, end: nat, used: set<string>) {
    forall k: nat :: 2 <= k < end ==> Candidate(base, k) in used
  }

  function LastBlank(s: string): int {
    if s == "" then -1 else if s[|s| - 1] == ' ' then |s| - 1 else LastBlank(s[..|s| - 1])
  }

  lemma {:induction false} LastBlankBeforeDigits(a: string, digits: string)
    requires forall i :: 0 <= i < |digits| ==> IsDigit(digits[i])
    ensures LastBlank(a + " " + digits) == |a|
  {
    var s := a + " " + digits;
    if digits != "" {
      assert s[..|s| - 1] == a + " " + digits[..|digits| - 1];
      LastBlankBeforeDigits(a, digits[..|digits| - 1]);
    }
  }

  /** A marked name determines its suffix: the digits after its last blank. */
  lemma MarkerSeparates(a: string, i: nat, b: string, j: nat)
    requires a + Marker(i) == b + Marker(j)
    ensures i == j
  {
    var s := a + Marker(i);
    assert s == a + " " + Numeral(i) && s == b + " " + Numeral(j);
    LastBlankBeforeDigits(a, Numeral(i));
    LastBlankBeforeDigits(b, Numeral(j));
    assert Numeral(i) == s[|a| + 1..] == Numeral(j);
    ValueOfNumeral(i);
    ValueOfNumeral(j);
  }

  /** Distinct suffixes give distinct candidates, even after the base has been cut. */
  lemma CandidatesDistinct(base: string, i: nat, j: nat)
    requires Candidate(base, i) == Candidate(base, j)
    ensures i == j
  {
    MarkerSeparates(SliceTo(base, MAX_NAME - |Marker(i)|), i, SliceTo(base, MAX_NAME - |Marker(j)|), j);
  }

  /** So many distinct candidates cannot all be taken: the pigeonhole that ends the search. */
  lemma {:induction false} TakenBound(base: string, end: nat, used: set<string>)
    requires 2 <= end && AllTaken(base, end, used)
    ensures end - 2 <= |used|
  {
    if end > 2 {
      var last := Candidate(base, end - 1);
      forall k: nat | 2 <= k < end - 1 ensures Candidate(base, k) in used - {last} {
        if Candidate(base, k) == last { CandidatesDistinct(base, k, end - 1); }
      }
      TakenBound(base, end - 1, used - {last});
    }
  }

  /**
   An unused name for every finite set of used ones: the base itself or its first free candidate. The
   length holds while the largest suffix that can be needed still fits.
   */
  method UniqueName(base: string, used: set<string>) returns (name: string, used': set<string>, suffix: nat)
    ensures name !in used && used' == used + {name}
    ensures base !in used ==> name == base
    ensures base in used ==> 2 < suffix <= |used| + 3 && name == Candidate(base, suffix - 1)
                             && AllTaken(base, suffix - 1, used)
    ensures |base| <= MAX_NAME && |Marker(|used| + 2)| <= MAX_NAME ==> |name| <= MAX_NAME
    ensures base != "" ==> name != ""
  {
    name := base;
    suffix := 2;
    while name in used
      invariant 2 <= suffix <= |used| + 3
      invariant suffix == 2 ==> name == base
      invariant suffix > 2 ==> base in used && name == Candidate(base, suffix - 1)
      invariant suffix > 2 ==> AllTaken(base, suffix - 1, used)
      decreases |used| + 3 - suffix
    {
      TakenBound(base, suffix, used);
      var marker := " " + Numeral(suffix);
      name := SliceTo(base, MAX_NAME - |marker|) + marker;
      suffix := suffix + 1;
    }
    NumeralLengthMonotone(suffix - 1, |used| + 2);
    used' := used + {name};
  }

  // ---------------------------------------------------------------------------------------------
  // Scenarios of a card
  // ---------------------------------------------------------------------------------------------

  datatype Skill = Skill(name: string, id: string, examples: seq<string>)

  datatype Generated = Generated(name: string, message: string)

  /** The first example of a skill, when there is one to use as a message. */
  function Message(skill: Skill): (m: Option<string>)
    ensures m.Some? ==> 1 <= |m.value| <= MAX_GENERATED_MESSAGE_CHARS
  {
    if skill.examples == [] then None
    else
      var example := Strip(skill.examples[0]);
      if example == "" || |example| > MAX_GENERATED_MESSAGE_CHARS then None else Some(example)
  }

  /** The text without blanks around it. */
  ghost predicate StrippedTo(raw: string, core: string) {
    Trimmed(core) && exists before: string, after: string ::
      AllBlank(before) && AllBlank(after) && raw == before + core + after
  }

  lemma StrippedExactly(raw: string, core: string)
    ensures StrippedTo(raw, core) <==> Strip(raw) == core
  {
    var before, after := AroundStripped(raw);
    if StrippedTo(raw, core) {
      var b: string, a: string :| AllBlank(b) && AllBlank(a) && raw == b + core + a;
      StripExactly(b, core, a);
    }
  }

  /** A skill is used for its first example alone, without blanks around it, if that is neither empty nor too long. */
  lemma MessageExactly(skill: Skill, message: string)
    ensures Message(skill) == Some(message) <==>
      && skill.examples != [] && StrippedTo(skill.examples[0], message)
      && 1 <= |message| <= 100_000
  {
    if skill.examples != [] { StrippedExactly(skill.examples[0], message); }
  }

  /** The messages of all usable skills, in card order. */
  function AllMessages(skills: seq<Skill>): seq<string> {
    if skills == [] then []
    else
      var m := Message(skills[|skills| - 1]);
      AllMessages(skills[..|skills| - 1]) + if m.Some? then [m.value] else []
  }

  lemma MessagesStep(skills: seq<Skill>, i: nat)
    requires i < |skills|
    ensures var m := Message(skills[i]);
            AllMessages(skills[..i + 1]) == AllMessages(skills[..i]) + if m.Some? then [m.value] else []
  {
    assert skills[..i + 1][..i] == skills[..i];
  }

  lemma {:induction false} MessagesOfPrefix(skills: seq<Skill>, i: nat)
    requires i <= |skills|
    ensures AllMessages(skills[..i]) <= AllMessages(skills)
  {
    if i < |skills| {
      MessagesOfPrefix(skills[..|skills| - 1], i);
      assert skills[..|skills| - 1][..i] == skills[..i];
    } else {
      assert skills[..i] == skills;
    }
  }

  function BaseName(skill: Skill): (base: string)
    ensures 1 <= |base| <= MAX_NAME
  {
    var raw := if skill.name != "" then skill.name else if skill.id != "" then skill.id else "scenario";
    var cut := SliceTo(Strip(raw), MAX_NAME);
    if cut == "" then "scenario" else cut
  }

  /** A scenario is named after the skill's name, or its id if it has no name, cut to the length of a name. */
  lemma BaseNameExactly(skill: Skill, raw: string, core: string)
    requires raw == if skill.name != "" then skill.name else if skill.id != "" then skill.id else "scenario"
    requires StrippedTo(raw, core)
    ensures BaseName(skill) == if core == "" then "scenario" else if |core| <= 200 then core else core[..200]
  {
    StrippedExactly(raw, core);
  }

  /** The base name, or the base name with a number. */
  ghost predicate NamedAfter(name: string, base: string) {
    name == base || exists n: nat :: 2 <= n && name == Candidate(base, n)
  }

  ghost predicate Drawn(item: Generated, skill: Skill) {
    Message(skill) == Some(item.message) && NamedAfter(item.name, BaseName(skill))
  }

  /** Each scenario has the message of its skill and is named after it; the skills are in card order. */
  ghost predicate DrawnFrom(scenarios: seq<Generated>, skills: seq<Skill>, at: seq<nat>, end: nat) {
    && |at| == |scenarios| && end <= |skills|
    && (forall k :: 0 <= k < |at| ==> at[k] < end && Drawn(scenarios[k], skills[at[k]]))
    && (forall j, k :: 0 <= j < k < |at| ==> at[j] < at[k])
  }

  ghost predicate FromSkills(scenarios: seq<Generated>, skills: seq<Skill>, end: nat) {
    exists at: seq<nat> :: DrawnFrom(scenarios, skills, at, end)
  }

  lemma NoneDrawn(skills: seq<Skill>)
    ensures FromSkills([], skills, 0)
  {
    assert DrawnFrom([], skills, [], 0);
  }

  lemma NotDrawn(scenarios: seq<Generated>, skills: seq<Skill>, i: nat, j: nat)
    requires FromSkills(scenarios, skills, i) && i <= j <= |skills|
    ensures FromSkills(scenarios, skills, j)
  {
    var at: seq<nat> :| DrawnFrom(scenarios, skills, at, i);
    assert DrawnFrom(scenarios, skills, at, j);
  }

  lemma DrawnNext(scenarios: seq<Generated>, skills: seq<Skill>, i: nat, item: Generated)
    requires FromSkills(scenarios, skills, i) && i < |skills| && Drawn(item, skills[i])
    ensures FromSkills(scenarios + [item], skills, i + 1)
  {
    var at: seq<nat> :| DrawnFrom(scenarios, skills, at, i);
    forall k | 0 <= k < |at| + 1
      ensures (at + [i])[k] < i + 1 && Drawn((scenarios + [item])[k], skills[(at + [i])[k]])
    {
      if k < |at| { assert Drawn(scenarios[k], skills[at[k]]); }
    }
    assert DrawnFrom(scenarios + [item], skills, at + [i], i + 1);
  }

  function Messages(s: seq<Generated>): seq<string> {
    if s == [] then [] else Messages(s[..|s| - 1]) + [s[|s| - 1].message]
  }

  function NameSet(s: seq<Generated>): set<string> {
    if s == [] then {} else NameSet(s[..|s| - 1]) + {s[|s| - 1].name}
  }

  predicate WithinBounds(item: Generated) {
    1 <= |item.name| <= MAX_NAME && 1 <= |item.message| <= MAX_GENERATED_MESSAGE_CHARS
  }

  /** What the validation of a contract asks of its scenarios: bounds, and no name seen before. */
  predicate Acceptable(s: seq<Generated>) {
    s == [] || (var init, last := s[..|s| - 1], s[|s| - 1];
                Acceptable(init) && WithinBounds(last) && last.name !in NameSet(init))
  }

  lemma {:induction false} NamesOfMembers(s: seq<Generated>)
    ensures forall i :: 0 <= i < |s| ==> s[i].name in NameSet(s)
  {
    if s != [] { NamesOfMembers(s[..|s| - 1]); }
  }

  /** The scan for duplicates accepts exactly the lists whose names differ pairwise and fit. */
  lemma {:induction false} AcceptableMeansUnique(s: seq<Generated>)
    ensures Acceptable(s) <==>
      && (forall i :: 0 <= i < |s| ==> WithinBounds(s[i]))
      && (forall i, j :: 0 <= i < j < |s| ==> s[i].name != s[j].name)
  {
    if s != [] {
      var init := s[..|s| - 1];
      AcceptableMeansUnique(init);
      NamesOfMembers(init);
      NameOwner(init, s[|s| - 1].name);
      assert forall i :: 0 <= i < |init| ==> init[i] == s[i];
    }
  }

  lemma {:induction false} NameOwner(s: seq<Generated>, name: string)
    ensures name in NameSet(s) ==> exists i :: 0 <= i < |s| && s[i].name == name
  {
    if s != [] {
      NameOwner(s[..|s| - 1], name);
      assert s[|s| - 1].name == name || name !in NameSet(s) || name in NameSet(s[..|s| - 1]);
    }
  }

  lemma Append(s: seq<Generated>, item: Generated)
    ensures NameSet(s + [item]) == NameSet(s) + {item.name}
    ensures Messages(s + [item]) == Messages(s) + [item.message]
    ensures Acceptable(s + [item]) <==> Acceptable(s) && WithinBounds(item) && item.name !in NameSet(s)
  {
    assert (s + [item])[..|s|] == s;
  }

  lemma SmallMarker(n: nat)
    requires n < 100
    ensures |Marker(n)| <= MAX_NAME
  {
    NumeralLengthMonotone(n, 99);
  }

  /** What has been generated from the first i skills. */
  ghost predicate Listed(scenarios: seq<Generated>, used: set<string>, skills: seq<Skill>, i: nat) {
    && i <= |skills|
    && Acceptable(scenarios) && used == NameSet(scenarios) && |used| <= |scenarios|
    && Messages(scenarios) == AllMessages(skills[..i])
    && FromSkills(scenarios, skills, i)
  }

  /** Unless no skill could be used, the scenarios are drawn from the skills. */
  ghost predicate Sourced(scenarios: seq<Generated>, skills: seq<Skill>) {
    AllMessages(skills) == [] || FromSkills(scenarios, skills, |skills|)
  }

  lemma NothingListed(skills: seq<Skill>)
    ensures Listed([], {}, skills, 0)
  {
    NoneDrawn(skills);
    assert skills[..0] == [];
  }

  lemma ListedSame(scenarios: seq<Generated>, used: set<string>, skills: seq<Skill>, i: nat)
    requires Listed(scenarios, used, skills, i) && i < |skills| && Message(skills[i]).None?
    ensures Listed(scenarios, used, skills, i + 1)
  {
    MessagesStep(skills, i);
    NotDrawn(scenarios, skills, i, i + 1);
  }

  lemma ListedNext(scenarios: seq<Generated>, used: set<string>, skills: seq<Skill>, i: nat, item: Generated)
    requires Listed(scenarios, used, skills, i) && i < |skills| && Message(skills[i]) == Some(item.message)
    requires NamedAfter(item.name, BaseName(skills[i])) && item.name !in used && WithinBounds(item)
    ensures Listed(scenarios + [item], used + {item.name}, skills, i + 1)
  {
    MessagesStep(skills, i);
    DrawnNext(scenarios, skills, i, item);
    Append(scenarios, item);
  }

  lemma ListedInFull(scenarios: seq<Generated>, used: set<string>, skills: seq<Skill>, i: nat)
    requires Listed(scenarios, used, skills, i)
    ensures Messages(scenarios) <= AllMessages(skills) && FromSkills(scenarios, skills, |skills|)
    ensures i == |skills| ==> Messages(scenarios) == AllMessages(skills)
  {
    MessagesOfPrefix(skills, i);
    NotDrawn(scenarios, skills, i, |skills|);
    assert i == |skills| ==> skills[..i] == skills;
  }

  lemma SmokeIsAcceptable(smoke: Generated)
    requires WithinBounds(smoke)
    ensures Acceptable([smoke])
  {
    assert [] + [smoke] == [smoke];
    Append([], smoke);
  }

  /** Every generated list is acceptable, and holds the first usable examples in card order. */
  method ScenariosFromCard(skills: seq<Skill>) returns (scenarios: seq<Generated>)
    ensures Acceptable(scenarios) && 1 <= |scenarios| <= MAX_GENERATED_SCENARIOS
    ensures AllMessages(skills) == [] ==> scenarios == [Generated("smoke", "Hello")]
    ensures AllMessages(skills) != [] ==> Messages(scenarios) <= AllMessages(skills)
    ensures |scenarios| < MAX_GENERATED_SCENARIOS && AllMessages(skills) != [] ==>
              Messages(scenarios) == AllMessages(skills)
    ensures Sourced(scenarios, skills)
  {
    scenarios := [];
    var used: set<string> := {};
    var i := 0;
    NothingListed(skills);
    while i < |skills| && |scenarios| < MAX_GENERATED_SCENARIOS
      invariant 0 <= i <= |skills| && |scenarios| <= MAX_GENERATED_SCENARIOS
      invariant Listed(scenarios, used, skills, i)
    {
      var skill, message := skills[i], Message(skills[i]);
      if message.Some? {
        SmallMarker(|used| + 2);
        var name, used', _ := UniqueName(BaseName(skill), used);
        ListedNext(scenarios, used, skills, i, Generated(name, message.value));
        scenarios, used := scenarios + [Generated(name, message.value)], used';
      } else {
        ListedSame(scenarios, used, skills, i);
      }
      i := i + 1;
    }
    ListedInFull(scenarios, used, skills, i);
    if scenarios == [] {
      SmokeIsAcceptable(Generated("smoke", "Hello"));
      scenarios := [Generated("smoke", "Hello")];
    }
  }
}

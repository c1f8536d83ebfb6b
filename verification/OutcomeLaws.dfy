/** What the outcome of a response lists: the text line by line, and all structured data and files in order. */
module OutcomeLaws {
  import opened Sequences
  import opened Wrappers
  import opened Json
  import opened JsonText
  import opened Parts
  import opened Protocol
  import opened CollectorLaws

  function TextFlags(d: Dict): (flags: seq<bool>)
    ensures |flags| == |d|
  {
    seq(|d|, i requires 0 <= i < |d| => d[i].content.text != "")
  }

  function Texts(d: Dict, which: seq<nat>): (texts: seq<string>)
    requires forall k :: 0 <= k < |which| ==> which[k] < |d|
    ensures |texts| == |which|
  {
    seq(|which|, k requires 0 <= k < |which| => d[which[k]].content.text)
  }

  /** The text is made of the lines, each at its position and one line break between neighbours. */
  ghost predicate Lines(text: string, lines: seq<string>, at: seq<nat>) {
    && |at| == |lines|
    && (if lines == [] then text == "" else at[0] == 0 && at[|at| - 1] + |lines[|at| - 1]| == |text|)
    && (forall k :: 0 <= k < |at| ==> LineAt(text, lines[k], at[k]))
    && (forall k :: 0 < k < |at| ==> BreakBefore(text, at[k], at[k - 1] + |lines[k - 1]|))
  }

  ghost predicate LineAt(text: string, line: string, at: nat) {
    at + |line| <= |text| && text[at..at + |line|] == line
  }

  ghost predicate BreakBefore(text: string, at: nat, end: nat) {
    end < |text| && text[end] == '\n' && at == end + 1
  }

  /** The non-empty texts in order, joined by line breaks. */
  ghost predicate TextJoined(text: string, d: Dict) {
    exists which: seq<nat>, at: seq<nat> :: TextAt(text, d, which, at)
  }

  ghost predicate TextAt(text: string, d: Dict, which: seq<nat>, at: seq<nat>) {
    Enumerates(which, TextFlags(d)) && Lines(text, Texts(d, which), at)
  }

  lemma FirstLine(line: string)
    ensures Lines(line, [line], [0])
  {
  }

  lemma NextLine(text: string, lines: seq<string>, at: seq<nat>, line: string)
    requires Lines(text, lines, at) && lines != []
    ensures Lines(text + "\n" + line, lines + [line], at + [|text| + 1])
  {
    var longer, more, places := text + "\n" + line, lines + [line], at + [|text| + 1];
    forall k | 0 <= k < |places| ensures LineAt(longer, more[k], places[k]) {
      if k < |at| {
        assert LineAt(text, lines[k], at[k]);
        assert longer[at[k]..at[k] + |lines[k]|] == text[at[k]..at[k] + |lines[k]|];
      }
    }
    forall k | 0 < k < |places| ensures BreakBefore(longer, places[k], places[k - 1] + |more[k - 1]|) {
      if k < |at| { assert BreakBefore(text, at[k], at[k - 1] + |lines[k - 1]|); }
    }
  }

  lemma TextsOfLonger(d: Dict, e: Entry, which: seq<nat>)
    requires forall k :: 0 <= k < |which| ==> which[k] < |d|
    ensures Texts(d + [e], which) == Texts(d, which)
    ensures Texts(d + [e], which + [|d|]) == Texts(d, which) + [e.content.text]
    ensures TextFlags(d + [e]) == TextFlags(d) + [e.content.text != ""]
  {
  }

  lemma NoLines(text: string, lines: seq<string>, at: seq<nat>)
    requires Lines(text, lines, at) && forall k :: 0 <= k < |lines| ==> lines[k] != ""
    ensures text == "" <==> lines == []
  {
    if lines != [] { assert LineAt(text, lines[0], at[0]); }
  }

  lemma SameText(text: string, d: Dict, e: Entry, which: seq<nat>, at: seq<nat>)
    requires TextAt(text, d, which, at) && e.content.text == ""
    ensures TextAt(text, d + [e], which, at)
  {
    TextsOfLonger(d, e, which);
    EnumeratesMore(which, TextFlags(d), false);
  }

  lemma LongerText(text: string, d: Dict, e: Entry, which: seq<nat>, at: seq<nat>, longer: string, ends: seq<nat>)
    requires TextAt(text, d, which, at) && e.content.text != ""
    requires Lines(longer, Texts(d, which) + [e.content.text], ends)
    ensures TextAt(longer, d + [e], which + [|d|], ends)
  {
    TextsOfLonger(d, e, which);
    EnumeratesMore(which, TextFlags(d), true);
  }

  lemma TextAtMore(text: string, d: Dict, e: Entry, which: seq<nat>, at: seq<nat>)
    requires TextAt(text, d, which, at)
    ensures var line := e.content.text;
      TextJoined(if line == "" then text else if text == "" then line else text + "\n" + line, d + [e])
  {
    var line, lines := e.content.text, Texts(d, which);
    NoLines(text, lines, at);
    if line == "" {
      SameText(text, d, e, which, at);
    } else if text == "" {
      FirstLine(line);
      assert lines + [line] == [line];
      LongerText(text, d, e, which, at, line, [0]);
    } else {
      NextLine(text, lines, at, line);
      LongerText(text, d, e, which, at, text + "\n" + line, at + [|text| + 1]);
    }
  }

  lemma {:induction false} TextIsJoined(d: Dict)
    ensures TextJoined(JoinTexts(d), d)
  {
    if d == [] {
      assert TextAt("", d, [], []);
    } else {
      var init, e := d[..|d| - 1], d[|d| - 1];
      TextIsJoined(init);
      var which: seq<nat>, at: seq<nat> :| TextAt(JoinTexts(init), init, which, at);
      TextAtMore(JoinTexts(init), init, e, which, at);
      assert init + [e] == d;
    }
  }

  function DataLists(d: Dict): seq<seq<DataPart>> {
    seq(|d|, i requires 0 <= i < |d| => d[i].content.data)
  }

  function FileLists(d: Dict): seq<seq<FilePart>> {
    seq(|d|, i requires 0 <= i < |d| => d[i].content.files)
  }

  lemma FlatMore<T>(parts: seq<seq<T>>, last: seq<T>)
    ensures Flat(parts + [last]) == Flat(parts) + last
  {
    FlatConcat(parts, [last]);
    assert [last][1..] == [] && last + [] == last;
  }

  lemma {:induction false} PartsAreFlat(d: Dict)
    ensures AllData(d) == Flat(DataLists(d)) && AllFiles(d) == Flat(FileLists(d))
  {
    if d != [] {
      var init, e := d[..|d| - 1], d[|d| - 1];
      PartsAreFlat(init);
      assert DataLists(d) == DataLists(init) + [e.content.data];
      assert FileLists(d) == FileLists(init) + [e.content.files];
      FlatMore(DataLists(init), e.content.data);
      FlatMore(FileLists(init), e.content.files);
    }
  }

  lemma ListsOfBoth(x: Dict, y: Dict)
    ensures AllData(x + y) == Flat(DataLists(x)) + Flat(DataLists(y))
    ensures AllFiles(x + y) == Flat(FileLists(x)) + Flat(FileLists(y))
  {
    PartsAreFlat(x + y);
    assert DataLists(x + y) == DataLists(x) + DataLists(y);
    assert FileLists(x + y) == FileLists(x) + FileLists(y);
    FlatConcat(DataLists(x), DataLists(y));
    FlatConcat(FileLists(x), FileLists(y));
  }

  /** Messages before artifacts: the non-empty texts line by line, and all data and files in order. */
  ghost predicate OutcomeLists(r: TurnOutcome, messages: Dict, artifacts: Dict) {
    && TextJoined(r.text, messages + artifacts)
    && r.data == Flat(DataLists(messages)) + Flat(DataLists(artifacts))
    && r.files == Flat(FileLists(messages)) + Flat(FileLists(artifacts))
  }

  lemma ListsAll(r: TurnOutcome, messages: Dict, artifacts: Dict)
    requires r.text == JoinTexts(messages + artifacts)
    requires r.data == AllData(messages + artifacts) && r.files == AllFiles(messages + artifacts)
    ensures OutcomeLists(r, messages, artifacts)
  {
    TextIsJoined(messages + artifacts);
    ListsOfBoth(messages, artifacts);
  }

  /**
   An outcome lists all that is held. There is none without an event, and where an end is asked for none in a
   state that is not one.
   */
  lemma OutcomeOfContents(c: Collected, duration: int, first: Option<int>, requireTerminal: bool)
    ensures var r := Finish(c, duration, first, requireTerminal);
      && (r.Ok? <==> c.events > 0 && (requireTerminal ==> c.state == "message" || Interrupted(c.state)))
      && (r.Ok? ==> OutcomeLists(r.value, c.messages, c.artifacts))
      && (r.Ok? ==> r.value.state == c.state && r.value.taskId == c.taskId && r.value.contextId == Some(c.contextId))
  {
    var r := Finish(c, duration, first, requireTerminal);
    if r.Ok? { ListsAll(r.value, c.messages, c.artifacts); }
  }

  // ---------------------------------------------------------------------------------------------
  // Sizes
  // ---------------------------------------------------------------------------------------------

  function AllTexts(d: Dict): seq<string> {
    seq(|d|, i requires 0 <= i < |d| => d[i].content.text)
  }

  lemma {:induction false} TextSizeExactly(d: Dict)
    ensures TextSize(d) == |Flat(AllTexts(d))|
  {
    if d != [] {
      TextSizeExactly(d[..|d| - 1]);
      assert AllTexts(d) == AllTexts(d[..|d| - 1]) + [d[|d| - 1].content.text];
      FlatMore(AllTexts(d[..|d| - 1]), d[|d| - 1].content.text);
    }
  }

  function OrEmpty(s: Option<string>): string {
    if s.Some? then s.value else ""
  }

  /** What counts of a structured part: the compact text of its value, its media type, and its artifact. */
  function PartText(p: DataPart): string {
    Compact(p.value) + (OrEmpty(p.mediaType) + (OrEmpty(p.artifactId) + OrEmpty(p.artifactName)))
  }

  function PartTexts(parts: seq<DataPart>): (texts: seq<string>)
    ensures |texts| == |parts|
  {
    seq(|parts|, i requires 0 <= i < |parts| => PartText(parts[i]))
  }

  lemma PartSize(p: DataPart)
    ensures |Utf8(PartText(p))| ==
      JsonBytes(p.value) + OptionalBytes(p.mediaType) + OptionalBytes(p.artifactId) + OptionalBytes(p.artifactName)
  {
    SizeIsTextLength(p.value);
    Utf8Length(OrEmpty(p.mediaType));
    Utf8Length(OrEmpty(p.artifactId));
    Utf8Length(OrEmpty(p.artifactName));
    Utf8Concat(OrEmpty(p.artifactId), OrEmpty(p.artifactName));
    Utf8Concat(OrEmpty(p.mediaType), OrEmpty(p.artifactId) + OrEmpty(p.artifactName));
    Utf8Concat(Compact(p.value), OrEmpty(p.mediaType) + (OrEmpty(p.artifactId) + OrEmpty(p.artifactName)));
  }

  lemma OneMoreText(texts: seq<string>, last: string)
    ensures |Utf8(Flat(texts + [last]))| == |Utf8(Flat(texts))| + |Utf8(last)|
  {
    FlatMore(texts, last);
    Utf8Concat(Flat(texts), last);
  }

  lemma {:induction false} DataSizeExactly(parts: seq<DataPart>)
    ensures DataBytes(parts) == |Utf8(Flat(PartTexts(parts)))|
  {
    if parts != [] {
      var init, p := parts[..|parts| - 1], parts[|parts| - 1];
      DataSizeExactly(init);
      PartSize(p);
      assert PartTexts(parts) == PartTexts(init) + [PartText(p)];
      OneMoreText(PartTexts(init), PartText(p));
    }
  }

  /** Within the limits: characters of text, octets of files and of structured data, and numbers of parts. */
  predicate WithinLimits(d: Dict) {
    && |Flat(AllTexts(d))| <= 1_000_000
    && FileBytes(Flat(FileLists(d))) <= 20_000_000
    && |Flat(DataLists(d))| <= 1_000 && |Utf8(Flat(PartTexts(Flat(DataLists(d)))))| <= 1_000_000
    && |Flat(FileLists(d))| <= 1_000
  }

  lemma SizesExactly(d: Dict)
    requires Conserves(d)
    ensures SizeError(d).None? <==> WithinLimits(d)
  {
    TextSizeExactly(d);
    PartsAreFlat(d);
    RawTotalIsFileBytes(d);
    DataSizeExactly(AllData(d));
  }
}

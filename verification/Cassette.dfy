/**
 Cassettes: the outcomes of a run recorded as JSON objects in order, and played back one by one.
 */
module Cassette {
  import opened Wrappers
  import opened Decimal
  import opened Json
  import opened Parts
  import opened Protocol
  import opened Runner
  import opened Traces
  import CollectorLaws

  // ---------------------------------------------------------------------------------------------
  // Writing
  // ---------------------------------------------------------------------------------------------

  function OptionalText(s: Option<string>): Json {
    if s.Some? then Text(s.value) else Null
  }

  function Integer(n: int): Json {
    Number(if n < 0 then "-" + Numeral(-n) else Numeral(n))
  }

  function OptionalInteger(n: Option<int>): Json {
    if n.Some? then Integer(n.value) else Null
  }

  function DumpSource(source: Source): Json {
    Text(if source.FromMessage? then "message" else "artifact")
  }

  /** The object with these keys and values. */
  function Record(keys: seq<string>, values: seq<Json>): (members: seq<Member>)
    requires |keys| == |values|
    ensures |members| == |keys| && forall i :: 0 <= i < |keys| ==> members[i] == Member(keys[i], values[i])
  {
    seq(|keys|, i requires 0 <= i < |keys| => Member(keys[i], values[i]))
  }

  const DATA_KEYS: seq<string> := ["source", "value", "media_type", "artifact_id", "artifact_name"]

  const FILE_KEYS: seq<string> :=
    ["source", "kind", "filename", "media_type", "size_bytes", "artifact_id", "artifact_name"]

  const OUTCOME_KEYS: seq<string> :=
    ["state", "text", "task_id", "context_id", "duration_ms", "first_event_ms", "states", "data", "files"]

  function DumpData(p: DataPart): Json {
    Object(Record(DATA_KEYS, DataValues(p)))
  }

  function DataValues(p: DataPart): seq<Json> {
    [DumpSource(p.source), p.value, OptionalText(p.mediaType), OptionalText(p.artifactId), OptionalText(p.artifactName)]
  }

  /** The ordinary dump of a file part, which leaves out its digest. */
  function DumpFileFields(p: FilePart): seq<Member> {
    Record(FILE_KEYS, FileValues(p))
  }

  function FileValues(p: FilePart): seq<Json> {
    [DumpSource(p.source), Text(if p.raw then "raw" else "url"), OptionalText(p.filename), OptionalText(p.mediaType),
     OptionalInteger(p.sizeBytes), OptionalText(p.artifactId), OptionalText(p.artifactName)]
  }

  function DumpFile(p: FilePart): Json {
    Object(DumpFileFields(p) + [Member("sha256", OptionalText(p.sha256))])
  }

  function DumpTexts(texts: seq<string>): (items: seq<Json>)
    ensures |items| == |texts| && forall i :: 0 <= i < |items| ==> items[i] == Text(texts[i])
  {
    seq(|texts|, i requires 0 <= i < |texts| => Text(texts[i]))
  }

  function DumpAllData(ps: seq<DataPart>): (items: seq<Json>)
    ensures |items| == |ps| && forall i :: 0 <= i < |items| ==> items[i] == DumpData(ps[i])
  {
    seq(|ps|, i requires 0 <= i < |ps| => DumpData(ps[i]))
  }

  function DumpAllFiles(ps: seq<FilePart>): (items: seq<Json>)
    ensures |items| == |ps| && forall i :: 0 <= i < |items| ==> items[i] == DumpFile(ps[i])
  {
    seq(|ps|, i requires 0 <= i < |ps| => DumpFile(ps[i]))
  }

  function Dump(o: TurnOutcome): Json {
    Object(Record(OUTCOME_KEYS, OutcomeValues(o)))
  }

  function OutcomeValues(o: TurnOutcome): seq<Json> {
    [Text(o.state), Text(o.text), OptionalText(o.taskId), OptionalText(o.contextId), Integer(o.durationMs),
     OptionalInteger(o.firstEventMs), Array(DumpTexts(o.states)), Array(DumpAllData(o.data)),
     Array(DumpAllFiles(o.files))]
  }

  // ---------------------------------------------------------------------------------------------
  // Reading
  // ---------------------------------------------------------------------------------------------

  /** A member of an object, or `otherwise` where it is missing. */
  function Field(members: seq<Member>, key: string, otherwise: Json): Json {
    var i := FindKey(members, key);
    if i < |members| then members[i].value else otherwise
  }

  function LoadText(v: Json): Option<Option<string>> {
    match v
    case Null => Some(None)
    case Text(text) => Some(Some(text))
    case _ => None
  }

  function LoadInteger(v: Json): Option<Option<int>> {
    match v
    case Null => Some(None)
    case Number(s) =>
      var none: Option<Option<int>> := None;
      if AllDigits(s) then var n: int := Value(s); Some(Some(n))
      else if s != "" && s[0] == '-' && AllDigits(s[1..]) then var n: int := 0 - Value(s[1..]); Some(Some(n))
      else none
    case _ => None
  }

  function LoadSource(v: Json): Option<Source> {
    if v == Text("message") then Some(FromMessage)
    else if v == Text("artifact") then Some(FromArtifact)
    else None
  }

  predicate IsDigest(s: string) {
    |s| == 64 && forall i :: 0 <= i < |s| ==> '0' <= s[i] <= '9' || 'a' <= s[i] <= 'f'
  }

  /** The limits every file part keeps. */
  predicate Storable(p: FilePart) {
    && Fits(p.filename, 1_000) && Fits(p.mediaType, 200)
    && Fits(p.artifactId, 1_000) && Fits(p.artifactName, 200)
    && (p.sha256.Some? ==> IsDigest(p.sha256.value))
  }

  function LoadData(v: Json): Option<DataPart> {
    if !v.Object? then None
    else
      var source := LoadSource(Field(v.members, "source", Null));
      var mediaType := LoadText(Field(v.members, "media_type", Null));
      var id := LoadText(Field(v.members, "artifact_id", Null));
      var name := LoadText(Field(v.members, "artifact_name", Null));
      if source.None? || mediaType.None? || id.None? || name.None? || FindKey(v.members, "value") == |v.members|
      then None
      else Some(DataPart(source.value, Field(v.members, "value", Null), mediaType.value, id.value, name.value))
  }

  function LoadFile(v: Json): Option<FilePart> {
    if !v.Object? then None
    else
      FileFrom(Field(v.members, "source", Null), Field(v.members, "kind", Null),
               Field(v.members, "filename", Null), Field(v.members, "media_type", Null),
               Field(v.members, "size_bytes", Null), Field(v.members, "sha256", Null),
               Field(v.members, "artifact_id", Null), Field(v.members, "artifact_name", Null))
  }

  /** A file part from the values of its fields, if each is valid. */
  function FileFrom(
    source: Json, kind: Json, filename: Json, mediaType: Json, size: Json, digest: Json, id: Json, name: Json)
    : Option<FilePart>
  {
    var bytes := LoadSize(size);
    if LoadSource(source).None? || (kind != Text("raw") && kind != Text("url")) || LoadText(filename).None?
      || LoadText(mediaType).None? || bytes.None? || LoadText(digest).None? || LoadText(id).None?
      || LoadText(name).None?
    then None
    else
      var p := FilePart(
        LoadSource(source).value, kind == Text("raw"), LoadText(filename).value, LoadText(mediaType).value,
        bytes.value, LoadText(digest).value, LoadText(id).value, LoadText(name).value);
      if Storable(p) then Some(p) else None
  }

  function LoadSize(v: Json): Option<Option<nat>> {
    match LoadInteger(v)
    case None => None
    case Some(None) => Some(None)
    case Some(Some(n)) => if n < 0 then None else Some(Some(n))
  }

  /** Every item loaded, unless one fails. */
  function LoadAll<T>(load: Json -> Option<T>, items: seq<Json>): Option<seq<T>> {
    if items == [] then Some([])
    else
      var init, last := LoadAll(load, items[..|items| - 1]), load(items[|items| - 1]);
      if init.None? || last.None? then None else Some(init.value + [last.value])
  }

  function LoadString(v: Json): Option<string> {
    if v.Text? then Some(v.text) else None
  }

  function Load(v: Json): Option<TurnOutcome> {
    if !v.Object? then None
    else
      OutcomeFrom(Field(v.members, "state", Null), Field(v.members, "text", Null),
                  Field(v.members, "task_id", Null), Field(v.members, "context_id", Null),
                  Field(v.members, "duration_ms", Null), Field(v.members, "first_event_ms", Null),
                  Field(v.members, "states", Array([])), Field(v.members, "data", Array([])),
                  Field(v.members, "files", Array([])))
  }

  function OutcomeFrom(
    state: Json, text: Json, task: Json, context: Json, duration: Json, first: Json, states: Json, data: Json,
    files: Json)
    : Option<TurnOutcome>
  {
    var duration', first' := LoadInteger(duration), LoadInteger(first);
    if !state.Text? || !text.Text? || LoadText(task).None? || LoadText(context).None? || duration'.None?
      || duration'.value.None? || first'.None? || !states.Array? || !data.Array? || !files.Array?
    then None
    else
      var allStates, allData, allFiles :=
        LoadAll(LoadString, states.items), LoadAll(LoadData, data.items), LoadAll(LoadFile, files.items);
      if allStates.None? || allData.None? || allFiles.None? then None
      else
        Some(TurnOutcome(
          state.text, text.text, LoadText(task).value, LoadText(context).value, duration'.value.value,
          allData.value, first'.value, allStates.value, allFiles.value))
  }

  // ---------------------------------------------------------------------------------------------
  // Round trip
  // ---------------------------------------------------------------------------------------------

  lemma NegativeNumeral(s: string, numeral: string)
    requires AllDigits(numeral) && s == "-" + numeral
    ensures s[0] == '-' && s[1..] == numeral && !AllDigits(s)
  {
    assert !IsDigit(s[0]);
  }

  lemma IntegerRoundTrip(n: int)
    ensures LoadInteger(Integer(n)) == Some(Some(n))
  {
    if n < 0 {
      ValueOfNumeral(-n);
      NegativeNumeral("-" + Numeral(-n), Numeral(-n));
    } else {
      ValueOfNumeral(n);
    }
  }

  predicate AllDistinct(keys: seq<string>) {
    forall i, j :: 0 <= i < j < |keys| ==> keys[i] != keys[j]
  }

  lemma KeysDistinct()
    ensures AllDistinct(DATA_KEYS) && AllDistinct(FILE_KEYS + ["sha256"]) && AllDistinct(OUTCOME_KEYS)
  {
  }

  lemma FieldAt(members: seq<Member>, keys: seq<string>, i: nat, otherwise: Json)
    requires AllDistinct(keys) && |members| == |keys| && i < |keys|
    requires forall j :: 0 <= j < |keys| ==> members[j].key == keys[j]
    ensures Field(members, keys[i], otherwise) == members[i].value
  {
    assert members[i].key == keys[i];
    assert FindKey(members, keys[i]) == i;
  }

  lemma DataRoundTrip(p: DataPart)
    ensures LoadData(DumpData(p)) == Some(p)
  {
    var ms, keys := DumpData(p).members, DATA_KEYS;
    KeysDistinct();
    FieldAt(ms, keys, 0, Null);
    FieldAt(ms, keys, 1, Null);
    FieldAt(ms, keys, 2, Null);
    FieldAt(ms, keys, 3, Null);
    FieldAt(ms, keys, 4, Null);
  }

  lemma FileFields(p: FilePart)
    ensures var ms := DumpFile(p).members;
      && Field(ms, "source", Null) == DumpSource(p.source)
      && Field(ms, "kind", Null) == Text(if p.raw then "raw" else "url")
      && Field(ms, "filename", Null) == OptionalText(p.filename)
      && Field(ms, "media_type", Null) == OptionalText(p.mediaType)
      && Field(ms, "size_bytes", Null) == OptionalInteger(p.sizeBytes)
      && Field(ms, "artifact_id", Null) == OptionalText(p.artifactId)
      && Field(ms, "artifact_name", Null) == OptionalText(p.artifactName)
      && Field(ms, "sha256", Null) == OptionalText(p.sha256)
  {
    var ms, keys := DumpFile(p).members, FILE_KEYS + ["sha256"];
    KeysDistinct();
    FieldAt(ms, keys, 0, Null);
    FieldAt(ms, keys, 1, Null);
    FieldAt(ms, keys, 2, Null);
    FieldAt(ms, keys, 3, Null);
    FieldAt(ms, keys, 4, Null);
    FieldAt(ms, keys, 5, Null);
    FieldAt(ms, keys, 6, Null);
    FieldAt(ms, keys, 7, Null);
  }

  lemma FileFromDump(p: FilePart)
    requires Storable(p)
    ensures FileFrom(
      DumpSource(p.source), Text(if p.raw then "raw" else "url"), OptionalText(p.filename), OptionalText(p.mediaType),
      OptionalInteger(p.sizeBytes), OptionalText(p.sha256), OptionalText(p.artifactId), OptionalText(p.artifactName))
      == Some(p)
  {
    if p.sizeBytes.Some? { IntegerRoundTrip(p.sizeBytes.value); }
  }

  lemma FileRoundTrip(p: FilePart)
    requires Storable(p)
    ensures LoadFile(DumpFile(p)) == Some(p)
  {
    FileFields(p);
    FileFromDump(p);
  }

  /** The ordinary dump alone would lose the digest. */
  lemma DumpAloneLosesDigest(p: FilePart)
    ensures Field(DumpFileFields(p), "sha256", Null) == Null
  {
    var ms := DumpFileFields(p);
    assert forall i :: 0 <= i < |ms| ==> ms[i].key == FILE_KEYS[i] && FILE_KEYS[i] != "sha256";
  }

  lemma {:induction false} LoadAllRoundTrip<T>(load: Json -> Option<T>, items: seq<Json>, values: seq<T>)
    requires |items| == |values| && forall i :: 0 <= i < |items| ==> load(items[i]) == Some(values[i])
    ensures LoadAll(load, items) == Some(values)
  {
    if items != [] {
      LoadAllRoundTrip(load, items[..|items| - 1], values[..|values| - 1]);
      assert values == values[..|values| - 1] + [values[|values| - 1]];
    }
  }

  predicate AllStorable(files: seq<FilePart>) {
    forall i :: 0 <= i < |files| ==> Storable(files[i])
  }

  lemma OutcomeFields(o: TurnOutcome)
    ensures var ms := Dump(o).members;
      && Field(ms, "state", Null) == Text(o.state)
      && Field(ms, "text", Null) == Text(o.text)
      && Field(ms, "task_id", Null) == OptionalText(o.taskId)
      && Field(ms, "context_id", Null) == OptionalText(o.contextId)
      && Field(ms, "duration_ms", Null) == Integer(o.durationMs)
      && Field(ms, "first_event_ms", Null) == OptionalInteger(o.firstEventMs)
      && Field(ms, "states", Array([])) == Array(DumpTexts(o.states))
      && Field(ms, "data", Array([])) == Array(DumpAllData(o.data))
      && Field(ms, "files", Array([])) == Array(DumpAllFiles(o.files))
  {
    var ms, keys := Dump(o).members, OUTCOME_KEYS;
    KeysDistinct();
    FieldAt(ms, keys, 0, Null);
    FieldAt(ms, keys, 1, Null);
    FieldAt(ms, keys, 2, Null);
    FieldAt(ms, keys, 3, Null);
    FieldAt(ms, keys, 4, Null);
    FieldAt(ms, keys, 5, Null);
    FieldAt(ms, keys, 6, Array([]));
    FieldAt(ms, keys, 7, Array([]));
    FieldAt(ms, keys, 8, Array([]));
  }

  lemma PartsRoundTrip(o: TurnOutcome)
    requires AllStorable(o.files)
    ensures LoadAll(LoadString, DumpTexts(o.states)) == Some(o.states)
    ensures LoadAll(LoadData, DumpAllData(o.data)) == Some(o.data)
    ensures LoadAll(LoadFile, DumpAllFiles(o.files)) == Some(o.files)
  {
    LoadAllRoundTrip(LoadString, DumpTexts(o.states), o.states);
    forall i | 0 <= i < |o.data| ensures LoadData(DumpAllData(o.data)[i]) == Some(o.data[i]) {
      DataRoundTrip(o.data[i]);
    }
    LoadAllRoundTrip(LoadData, DumpAllData(o.data), o.data);
    forall i | 0 <= i < |o.files| ensures LoadFile(DumpAllFiles(o.files)[i]) == Some(o.files[i]) {
      FileRoundTrip(o.files[i]);
    }
    LoadAllRoundTrip(LoadFile, DumpAllFiles(o.files), o.files);
  }

  lemma OptionsRoundTrip(s: Option<string>, n: Option<int>)
    ensures LoadText(OptionalText(s)) == Some(s)
    ensures LoadInteger(OptionalInteger(n)) == Some(n)
  {
    if n.Some? { IntegerRoundTrip(n.value); }
  }

  /** An outcome from values that were each written from its fields. */
  lemma OutcomeFromValues(o: TurnOutcome, task: Json, context: Json, duration: Json, first: Json, lists: seq<seq<Json>>)
    requires |lists| == 3
    requires LoadText(task) == Some(o.taskId) && LoadText(context) == Some(o.contextId)
    requires LoadInteger(duration) == Some(Some(o.durationMs)) && LoadInteger(first) == Some(o.firstEventMs)
    requires LoadAll(LoadString, lists[0]) == Some(o.states)
    requires LoadAll(LoadData, lists[1]) == Some(o.data)
    requires LoadAll(LoadFile, lists[2]) == Some(o.files)
    ensures OutcomeFrom(Text(o.state), Text(o.text), task, context, duration, first,
                        Array(lists[0]), Array(lists[1]), Array(lists[2])) == Some(o)
  {
  }

  /** What is written reads back as the same outcome, digests included. */
  lemma RoundTrip(o: TurnOutcome)
    requires AllStorable(o.files)
    ensures Load(Dump(o)) == Some(o)
  {
    OutcomeFields(o);
    OptionsRoundTrip(o.taskId, o.firstEventMs);
    OptionsRoundTrip(o.contextId, Some(o.durationMs));
    PartsRoundTrip(o);
    OutcomeFromValues(
      o, OptionalText(o.taskId), OptionalText(o.contextId), Integer(o.durationMs), OptionalInteger(o.firstEventMs),
      [DumpTexts(o.states), DumpAllData(o.data), DumpAllFiles(o.files)]);
  }

  // ---------------------------------------------------------------------------------------------
  // Everything the collector accepts can be stored
  // ---------------------------------------------------------------------------------------------

  predicate DigestsValid(parts: seq<Part>) {
    forall i :: 0 <= i < |parts| && parts[i].Raw? ==> IsDigest(parts[i].sha256)
  }

  predicate OpDigests(op: Op) {
    match op
    case Speak(m) => DigestsValid(m.parts)
    case Publish(a, _) => DigestsValid(a.parts)
    case _ => true
  }

  predicate AllOpDigests(ops: seq<Op>) {
    forall i :: 0 <= i < |ops| ==> OpDigests(ops[i])
  }

  predicate ContentsStorable(d: Dict) {
    forall i :: 0 <= i < |d| ==> AllStorable(d[i].content.files)
  }

  lemma {:induction false} CheckedFilesStorable(
    parts: seq<Part>, source: Source, id: Option<string>, name: Option<string>)
    requires FileError(parts, id, name).None? && DigestsValid(parts)
    ensures AllStorable(FilesOf(parts, source, id, name))
  {
    if parts != [] { CheckedFilesStorable(parts[1..], source, id, name); }
  }

  lemma ArtifactStorable(c: Collected, a: Artifact, append: bool)
    requires ContentsStorable(c.artifacts) && DigestsValid(a.parts)
    ensures ContentsStorable(AddArtifact(c, a, append).0.artifacts)
  {
    var key := ArtifactKey(c.artifacts, a);
    var previous := Lookup(c.artifacts, key);
    var name := ArtifactName(previous, a);
    if FileError(a.parts, OrNone(a.id), name).None? {
      CheckedFilesStorable(a.parts, FromArtifact, OrNone(a.id), name);
      assert AllStorable(ArtifactContent(previous, a, append).files);
    }
  }

  lemma MessageStorable(c: Collected, m: Message)
    requires ContentsStorable(c.messages) && DigestsValid(m.parts)
    ensures ContentsStorable(AddMessage(c, m).0.messages) && AddMessage(c, m).0.artifacts == c.artifacts
  {
    if FileError(m.parts, None, None).None? {
      CheckedFilesStorable(m.parts, FromMessage, None, None);
      assert AllStorable(MessageContent(m).files);
    }
  }

  lemma {:induction false} EffectsStorable(c: Collected, ops: seq<Op>)
    requires c.messages == [] && c.artifacts == [] && AllOpDigests(ops)
    ensures var r := ApplyAll(c, ops).0; ContentsStorable(r.messages) && ContentsStorable(r.artifacts)
  {
    if ops != [] {
      EffectsStorable(c, ops[..|ops| - 1]);
      var r, last := ApplyAll(c, ops[..|ops| - 1]).0, ops[|ops| - 1];
      assert OpDigests(last);
      match last {
        case Speak(m) => MessageStorable(r, m);
        case Publish(a, append) => ArtifactStorable(r, a, append);
        case _ =>
      }
    }
  }

  lemma {:induction false} AllFilesStorable(d: Dict)
    requires ContentsStorable(d)
    ensures AllStorable(AllFiles(d))
  {
    if d != [] { AllFilesStorable(d[..|d| - 1]); }
  }

  /** An outcome collected from events with proper digests survives being recorded. */
  lemma CollectedRoundTrip(
    context: string, expected: Option<Identity>, es: seq<Event>, duration: int, first: Option<int>, terminal: bool)
    requires AllOpDigests(CollectorLaws.ExpandAll(es))
    requires AddEvents(Fresh(context, expected), es).1.None?
    ensures var r := Finish(AddEvents(Fresh(context, expected), es).0, duration, first, terminal);
      r.Ok? ==> Load(Dump(r.value)) == Some(r.value)
  {
    var c := AddEvents(Fresh(context, expected), es).0;
    CollectorLaws.AcceptedEffects(context, expected, es);
    EffectsStorable(Fresh(context, expected), CollectorLaws.ExpandAll(es));
    AllFilesStorable(c.messages + c.artifacts);
    var r := Finish(c, duration, first, terminal);
    if r.Ok? { RoundTrip(r.value); }
  }

  // ---------------------------------------------------------------------------------------------
  // Recorder and tape
  // ---------------------------------------------------------------------------------------------

  function Dumps(outcomes: seq<TurnOutcome>): seq<Json> {
    seq(|outcomes|, i requires 0 <= i < |outcomes| => Dump(outcomes[i]))
  }

  /** The outcomes that operations returned, dumped in order; `trace` also has what they raised. */
  class Recorder {
    var turns: seq<Json>
    ghost var trace: seq<Reply>

    ghost predicate Valid()
      reads this
    {
      turns == Dumps(Returned(trace))
    }

    constructor ()
      ensures Valid() && turns == [] && trace == []
    {
      turns, trace := [], [];
    }

    /**
     An operation that is recorded when it returns; one that raises leaves no trace on the tape. This is a call
     of the recording world.
     */
    method Call<S>(w: World<S>, s0: S, request: Request) returns (s: S, reply: Reply)
      requires Valid()
      modifies this
      ensures Valid()
      ensures (s, reply) == w.call(s0, request)
      ensures turns == if reply.Ok? then old(turns) + [Dump(reply.value)] else old(turns)
      ensures (Taped(s, trace), reply) == Recording(w).call(Taped(s0, old(trace)), request)
    {
      s, reply := Runner.Call(w, s0, request);
      ReturnedNext(trace, reply);
      trace := trace + [reply];
      if reply.Ok? { turns := turns + [Dump(reply.value)]; }
    }
  }

  class Tape {
    const turns: seq<TurnOutcome>
    var position: nat

    constructor (turns: seq<TurnOutcome>)
      ensures this.turns == turns && position == 0
    {
      this.turns, position := turns, 0;
    }

    method NextTurn() returns (reply: Reply)
      modifies this
      ensures (position, reply) == Played(turns, old(position))
    {
      if position >= |turns| {
        return Err("cassette holds " + Numeral(|turns|) + " recorded turns, and the contract asked for more");
      }
      reply := Ok(turns[position]);
      position := position + 1;
    }

    /** Any operation of the replay, whatever it is asked: a call of the tape's world. */
    method Replay(request: Request, machine: World<nat>) returns (reply: Reply)
      modifies this
      ensures (position, reply) == TapeWorld(turns, machine).call(old(position), request)
    {
      reply := NextTurn();
    }
  }
}

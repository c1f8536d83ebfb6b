/**
 Responses of an agent and what is collected from them: events carrying messages, task snapshots,
 status and artifact updates, and the outcome of a turn.
 */
module Protocol {
  import opened Wrappers
  import opened Decimal
  import opened Json
  import opened Parts

  const MAX_EVENTS: nat := 1_000
  const MAX_TEXT_CHARS: nat := 1_000_000
  const MAX_DATA_BYTES: nat := 1_000_000
  const MAX_DATA_PARTS: nat := 1_000
  const MAX_FILE_PARTS: nat := 1_000
  const MAX_RAW_BYTES: nat := 20_000_000
  const MAX_FILE_URL_CHARS: nat := 10_000

  /** States in which a task waits for its client or has ended. */
  predicate Interrupted(state: string) {
    state in {"auth_required", "canceled", "completed", "failed", "input_required", "rejected"}
  }

  // ---------------------------------------------------------------------------------------------
  // Events
  // ---------------------------------------------------------------------------------------------

  /** One part of a message or artifact. `valid` says whether structured data has a JSON value. */
  datatype Part =
    | Prose
    | Data(value: Json, mediaType: string, valid: bool)
    | Raw(size: nat, sha256: string, filename: string, mediaType: string)
    | Link(url: string, filename: string, mediaType: string)

  /** A message; `text` is the text its parts render to. Absent identifiers are empty strings. */
  datatype Message = Message(
    id: string, taskId: string, contextId: string, fromUser: bool, text: string, parts: seq<Part>)

  datatype Artifact = Artifact(id: string, name: string, text: string, parts: seq<Part>)

  datatype Status = Status(state: string, message: Option<Message>)

  datatype Task = Task(
    id: string, contextId: string, status: Status, history: seq<Message>, artifacts: seq<Artifact>)

  datatype Event =
    | MessageEvent(message: Message)
    | TaskEvent(task: Task)
    | StatusEvent(taskId: string, contextId: string, status: Status)
    | ArtifactEvent(taskId: string, contextId: string, artifact: Artifact, append: bool)
    | EmptyEvent

  datatype Identity = Identity(taskId: string, contextId: string)

  /** The task and context an event names, if it carries a payload. */
  function IdentityOf(e: Event): Option<Identity> {
    match e
    case MessageEvent(m) => Some(Identity(m.taskId, m.contextId))
    case TaskEvent(t) => Some(Identity(t.id, t.contextId))
    case StatusEvent(task, context, _) => Some(Identity(task, context))
    case ArtifactEvent(task, context, _, _) => Some(Identity(task, context))
    case EmptyEvent => None
  }

  datatype Error =
    | TooManyEvents | NoPayload | WrongTask | WrongContext
    | InvalidData | InvalidFile | UrlTooLong
    | TextTooLong | RawTooLarge | TooManyDataParts | DataTooLarge | TooManyFiles
    | NoResponse | NotTerminal(state: string)

  datatype TurnOutcome = TurnOutcome(
    state: string,
    text: string,
    taskId: Option<string>,
    contextId: Option<string>,
    durationMs: int,
    data: seq<DataPart>,
    firstEventMs: Option<int>,
    states: seq<string>,
    files: seq<FilePart>)

  // ---------------------------------------------------------------------------------------------
  // Content of parts
  // ---------------------------------------------------------------------------------------------

  function OrNone(s: string): Option<string> {
    if s == "" then None else Some(s)
  }

  function DataOf(parts: seq<Part>, source: Source, id: Option<string>, name: Option<string>): seq<DataPart> {
    if parts == [] then []
    else
      (match parts[0]
       case Data(value, mediaType, _) => [DataPart(source, value, OrNone(mediaType), id, name)]
       case _ => [])
      + DataOf(parts[1..], source, id, name)
  }

  predicate DataValid(parts: seq<Part>) {
    forall i :: 0 <= i < |parts| && parts[i].Data? ==> parts[i].valid
  }

  function FilesOf(parts: seq<Part>, source: Source, id: Option<string>, name: Option<string>): seq<FilePart> {
    if parts == [] then []
    else
      (match parts[0]
       case Raw(size, sha256, filename, mediaType) =>
         [FilePart(source, true, OrNone(filename), OrNone(mediaType), Some(size), Some(sha256), id, name)]
       case Link(_, filename, mediaType) =>
         [FilePart(source, false, OrNone(filename), OrNone(mediaType), None, None, id, name)]
       case _ => [])
      + FilesOf(parts[1..], source, id, name)
  }

  predicate Fits(s: Option<string>, limit: nat) {
    s.None? || |s.value| <= limit
  }

  /** The first complaint about the file parts, in order: an overlong link or invalid metadata. */
  function FileError(parts: seq<Part>, id: Option<string>, name: Option<string>): Option<Error> {
    if parts == [] then None
    else if parts[0].Link? && |parts[0].url| > MAX_FILE_URL_CHARS then Some(UrlTooLong)
    else if (parts[0].Link? || parts[0].Raw?)
            && !(|parts[0].filename| <= 1_000 && |parts[0].mediaType| <= 200 && Fits(id, 1_000) && Fits(name, 200))
    then Some(InvalidFile)
    else FileError(parts[1..], id, name)
  }

  function RawSize(parts: seq<Part>): nat {
    if parts == [] then 0 else (if parts[0].Raw? then parts[0].size else 0) + RawSize(parts[1..])
  }

  // ---------------------------------------------------------------------------------------------
  // Content by key, in the order keys were first used
  // ---------------------------------------------------------------------------------------------

  datatype Content = Content(
    text: string, data: seq<DataPart>, files: seq<FilePart>, rawBytes: nat, name: Option<string>)

  datatype Entry = Entry(key: string, content: Content)

  type Dict = seq<Entry>

  function Find(d: Dict, key: string): (i: nat)
    ensures i <= |d|
    ensures i < |d| ==> d[i].key == key
    ensures forall j :: 0 <= j < i ==> d[j].key != key
  {
    if d == [] || d[0].key == key then 0 else 1 + Find(d[1..], key)
  }

  function Lookup(d: Dict, key: string): Option<Content> {
    var i := Find(d, key);
    if i < |d| then Some(d[i].content) else None
  }

  /** Assigning to a key keeps its place; a new key goes last. */
  function Put(d: Dict, key: string, content: Content): Dict {
    var i := Find(d, key);
    if i < |d| then d[i := Entry(key, content)] else d + [Entry(key, content)]
  }

  function Keys(d: Dict): seq<string> {
    seq(|d|, i requires 0 <= i < |d| => d[i].key)
  }

  // ---------------------------------------------------------------------------------------------
  // The collector as a value
  // ---------------------------------------------------------------------------------------------

  datatype Collected = Collected(
    expected: Option<Identity>,
    contextId: string,
    taskId: Option<string>,
    state: string,
    states: seq<string>,
    events: nat,
    messages: Dict,
    artifacts: Dict)

  function Fresh(contextId: string, expected: Option<Identity>): Collected {
    Collected(expected, contextId, None, "message", [], 0, [], [])
  }

  /** The elementary effects an event is made of. */
  datatype Op =
    | SeeTask(id: string)
    | SeeContext(id: string)
    | SeeState(state: string)
    | Speak(message: Message)
    | Publish(artifact: Artifact, append: bool)

  function RecordTask(c: Collected, id: string): Collected {
    if id == "" then c else c.(taskId := Some(id))
  }

  function RecordContext(c: Collected, id: string): Collected {
    if id == "" then c else c.(contextId := id)
  }

  function RecordState(c: Collected, state: string): Collected {
    c.(state := state,
       states := if c.states == [] || c.states[|c.states| - 1] != state then c.states + [state] else c.states)
  }

  function MessageKey(messages: Dict, m: Message): string {
    if m.id != "" then m.id else "message-" + Numeral(|messages|)
  }

  function ArtifactKey(artifacts: Dict, a: Artifact): string {
    if a.id != "" then a.id else "artifact-" + Numeral(|artifacts|)
  }

  function MessageContent(m: Message): Content {
    Content(m.text, DataOf(m.parts, FromMessage, None, None), FilesOf(m.parts, FromMessage, None, None),
            RawSize(m.parts), None)
  }

  /** What a message does; messages of the user are checked for identity and then ignored. */
  function AddMessage(c: Collected, m: Message): (Collected, Option<Error>) {
    if m.taskId != "" && c.expected.Some? && m.taskId != c.expected.value.taskId then (c, Some(WrongTask))
    else if m.contextId != "" && c.expected.Some? && m.contextId != c.expected.value.contextId then
      (c, Some(WrongContext))
    else if m.fromUser then (c, None)
    else if !DataValid(m.parts) then (c, Some(InvalidData))
    else
      var fileError := FileError(m.parts, None, None);
      if fileError.Some? then (c, fileError)
      else
        var c1 := c.(messages := Put(c.messages, MessageKey(c.messages, m), MessageContent(m)));
        (RecordContext(RecordTask(c1, m.taskId), m.contextId), None)
  }

  /** An artifact keeps the last name it was given. */
  function ArtifactName(previous: Option<Content>, a: Artifact): Option<string> {
    if a.name != "" then Some(a.name) else if previous.Some? then previous.value.name else None
  }

  function ArtifactContent(previous: Option<Content>, a: Artifact, append: bool): Content {
    var name := ArtifactName(previous, a);
    var data := DataOf(a.parts, FromArtifact, OrNone(a.id), name);
    var files := FilesOf(a.parts, FromArtifact, OrNone(a.id), name);
    if append && previous.Some? then
      var p := previous.value;
      Content(p.text + a.text, p.data + data, p.files + files, RawSize(a.parts) + p.rawBytes, name)
    else
      Content(a.text, data, files, RawSize(a.parts), name)
  }

  function AddArtifact(c: Collected, a: Artifact, append: bool): (Collected, Option<Error>) {
    var key := ArtifactKey(c.artifacts, a);
    var previous := Lookup(c.artifacts, key);
    var fileError := FileError(a.parts, OrNone(a.id), ArtifactName(previous, a));
    if !DataValid(a.parts) then (c, Some(InvalidData))
    else if fileError.Some? then (c, fileError)
    else (c.(artifacts := Put(c.artifacts, key, ArtifactContent(previous, a, append))), None)
  }

  function Apply(c: Collected, op: Op): (Collected, Option<Error>) {
    match op
    case SeeTask(id) => (RecordTask(c, id), None)
    case SeeContext(id) => (RecordContext(c, id), None)
    case SeeState(state) => (RecordState(c, state), None)
    case Speak(m) => AddMessage(c, m)
    case Publish(a, append) => AddArtifact(c, a, append)
  }

  /** Effects in order, stopping at the first error with what was done until then. */
  function ApplyAll(c: Collected, ops: seq<Op>): (Collected, Option<Error>) {
    if ops == [] then (c, None)
    else
      var (c1, error) := ApplyAll(c, ops[..|ops| - 1]);
      if error.Some? then (c1, error) else Apply(c1, ops[|ops| - 1])
  }

  function Speaks(ms: seq<Message>): (ops: seq<Op>)
    ensures |ops| == |ms| && forall i :: 0 <= i < |ms| ==> ops[i] == Speak(ms[i])
  {
    seq(|ms|, i requires 0 <= i < |ms| => Speak(ms[i]))
  }

  function Publishes(artifacts: seq<Artifact>): (ops: seq<Op>)
    ensures |ops| == |artifacts| && forall i :: 0 <= i < |artifacts| ==> ops[i] == Publish(artifacts[i], false)
  {
    seq(|artifacts|, i requires 0 <= i < |artifacts| => Publish(artifacts[i], false))
  }

  function StatusOps(task: string, context: string, status: Status): seq<Op> {
    [SeeTask(task), SeeContext(context), SeeState(status.state)]
    + if status.message.Some? then [Speak(status.message.value)] else []
  }

  /** The effects of an event, in the order the program performs them. */
  function Expand(e: Event): seq<Op> {
    match e
    case MessageEvent(m) => [Speak(m), SeeState("message")]
    case TaskEvent(t) => StatusOps(t.id, t.contextId, t.status) + Speaks(t.history) + Publishes(t.artifacts)
    case StatusEvent(task, context, status) => StatusOps(task, context, status)
    case ArtifactEvent(task, context, a, append) => [SeeTask(task), SeeContext(context), Publish(a, append)]
    case EmptyEvent => []
  }

  // ---------------------------------------------------------------------------------------------
  // Sizes
  // ---------------------------------------------------------------------------------------------

  function TextSize(d: Dict): nat {
    if d == [] then 0 else TextSize(d[..|d| - 1]) + |d[|d| - 1].content.text|
  }

  function RawTotal(d: Dict): nat {
    if d == [] then 0 else RawTotal(d[..|d| - 1]) + d[|d| - 1].content.rawBytes
  }

  function AllData(d: Dict): seq<DataPart> {
    if d == [] then [] else AllData(d[..|d| - 1]) + d[|d| - 1].content.data
  }

  function AllFiles(d: Dict): seq<FilePart> {
    if d == [] then [] else AllFiles(d[..|d| - 1]) + d[|d| - 1].content.files
  }

  function OptionalBytes(s: Option<string>): nat {
    if s.Some? then Utf8Bytes(s.value) else 0
  }

  function DataBytes(parts: seq<DataPart>): nat {
    if parts == [] then 0
    else
      var p := parts[|parts| - 1];
      DataBytes(parts[..|parts| - 1])
      + JsonBytes(p.value) + OptionalBytes(p.mediaType) + OptionalBytes(p.artifactId) + OptionalBytes(p.artifactName)
  }

  function SizeError(contents: Dict): Option<Error> {
    if TextSize(contents) > MAX_TEXT_CHARS then Some(TextTooLong)
    else if RawTotal(contents) > MAX_RAW_BYTES then Some(RawTooLarge)
    else if |AllData(contents)| > MAX_DATA_PARTS then Some(TooManyDataParts)
    else if DataBytes(AllData(contents)) > MAX_DATA_BYTES then Some(DataTooLarge)
    else if |AllFiles(contents)| > MAX_FILE_PARTS then Some(TooManyFiles)
    else None
  }

  function IdentityError(c: Collected, e: Event): Option<Error> {
    var id := IdentityOf(e);
    if c.expected.None? || id.None? then None
    else if id.value.taskId != c.expected.value.taskId then Some(WrongTask)
    else if id.value.contextId != c.expected.value.contextId then Some(WrongContext)
    else None
  }

  /** One event: counted, checked for identity, applied, and measured. */
  function AddEvent(c: Collected, e: Event): (Collected, Option<Error>) {
    var c1 := c.(events := c.events + 1);
    var identityError := IdentityError(c1, e);
    if c1.events > MAX_EVENTS then (c1, Some(TooManyEvents))
    else if identityError.Some? then (c1, identityError)
    else if e.EmptyEvent? then (c1, Some(NoPayload))
    else
      var (c2, error) := ApplyAll(c1, Expand(e));
      if error.Some? then (c2, error) else (c2, SizeError(c2.messages + c2.artifacts))
  }

  function AddEvents(c: Collected, es: seq<Event>): (Collected, Option<Error>) {
    if es == [] then (c, None)
    else
      var (c1, error) := AddEvents(c, es[..|es| - 1]);
      if error.Some? then (c1, error) else AddEvent(c1, es[|es| - 1])
  }

  // ---------------------------------------------------------------------------------------------
  // The outcome
  // ---------------------------------------------------------------------------------------------

  /** The non-empty texts, separated by line breaks. */
  function JoinTexts(d: Dict): string {
    if d == [] then ""
    else
      var before, last := JoinTexts(d[..|d| - 1]), d[|d| - 1].content.text;
      if last == "" then before else if before == "" then last else before + "\n" + last
  }

  function Finish(c: Collected, durationMs: int, firstEventMs: Option<int>, requireTerminal: bool)
    : Result<TurnOutcome, Error>
  {
    if c.events == 0 then Err(NoResponse)
    else if requireTerminal && !Interrupted(c.state) && c.state != "message" then Err(NotTerminal(c.state))
    else
      var contents := c.messages + c.artifacts;
      Ok(TurnOutcome(
        c.state, JoinTexts(contents), c.taskId, Some(c.contextId), durationMs, AllData(contents),
        firstEventMs, if c.states == [] then [c.state] else c.states, AllFiles(contents)))
  }
}

/**
 What a collected response is, as a function of the events alone: the trajectory of states, the content
 of every message and artifact, the bytes of raw files, and the identity of the task.
 */
module CollectorLaws {
  import opened Sequences
  import opened Wrappers
  import opened Decimal
  import opened Parts
  import opened Protocol
  import opened Collector
  import opened Trajectory

  // ---------------------------------------------------------------------------------------------
  // From events to effects
  // ---------------------------------------------------------------------------------------------

  function ExpandAll(es: seq<Event>): seq<Op> {
    if es == [] then [] else ExpandAll(es[..|es| - 1]) + Expand(es[|es| - 1])
  }

  lemma CounterIgnoredOnce(c: Collected, op: Op, n: nat)
    ensures Apply(c.(events := n), op) == (var (c1, error) := Apply(c, op); (c1.(events := n), error))
  {
    match op {
      case Speak(m) =>
      case Publish(a, append) =>
      case _ =>
    }
  }

  /** The event counter has no influence on effects. */
  lemma {:induction false} CounterIgnored(c: Collected, ops: seq<Op>, n: nat)
    ensures ApplyAll(c.(events := n), ops) ==
      (var (c1, error) := ApplyAll(c, ops); (c1.(events := n), error))
  {
    if ops != [] {
      CounterIgnored(c, ops[..|ops| - 1], n);
      CounterIgnoredOnce(ApplyAll(c, ops[..|ops| - 1]).0, ops[|ops| - 1], n);
    }
  }

  lemma AcceptedIsApplied(c: Collected, e: Event, ops: seq<Op>)
    requires AddEvent(c, e).1.None? && ops == Expand(e)
    ensures ApplyAll(c.(events := c.events + 1), ops) == (AddEvent(c, e).0, None)
  {
  }

  /** An accepted event is its effects, and one more on the counter. */
  lemma AcceptedEvent(c: Collected, e: Event)
    requires AddEvent(c, e).1.None?
    ensures var r := AddEvent(c, e).0;
      r.events == c.events + 1 && ApplyAll(c.(events := 0), Expand(e)) == (r.(events := 0), None)
  {
    var ops := Expand(e);
    AcceptedIsApplied(c, e, ops);
    CounterIgnored(c, ops, c.events + 1);
    CounterIgnored(c, ops, 0);
  }

  /** A response accepted so far is the result of its effects in order, and counts its events. */
  lemma {:induction false} AcceptedEffects(context: string, expected: Option<Identity>, es: seq<Event>)
    requires AddEvents(Fresh(context, expected), es).1.None?
    ensures var r := AddEvents(Fresh(context, expected), es).0;
      r.events == |es| && ApplyAll(Fresh(context, expected), ExpandAll(es)) == (r.(events := 0), None)
  {
    if es != [] {
      var init, last := es[..|es| - 1], es[|es| - 1];
      AcceptedEffects(context, expected, init);
      AcceptedEvent(AddEvents(Fresh(context, expected), init).0, last);
      ApplyConcat(Fresh(context, expected), ExpandAll(init), Expand(last));
    }
  }

  // ---------------------------------------------------------------------------------------------
  // States
  // ---------------------------------------------------------------------------------------------

  /** Every state an effect reports, repeats included. */
  function StateLog(ops: seq<Op>): seq<string> {
    if ops == [] then []
    else
      var before, last := StateLog(ops[..|ops| - 1]), ops[|ops| - 1];
      if last.SeeState? then before + [last.state] else before
  }

  predicate StatesMatch(c: Collected, log: seq<string>) {
    c.states == Collapse(log) && c.state == if log == [] then "message" else log[|log| - 1]
  }

  lemma StateRecorded(c: Collected, log: seq<string>, state: string)
    requires StatesMatch(c, log)
    ensures StatesMatch(RecordState(c, state), log + [state])
  {
    CollapseAppend(log, state);
    if log != [] { CollapseLast(log); }
  }

  lemma OtherOpsKeepStates(c: Collected, op: Op)
    requires !op.SeeState?
    ensures Apply(c, op).0.states == c.states && Apply(c, op).0.state == c.state
  {
  }

  /** The trajectory is the state log with adjacent repeats merged; the current state is its last entry. */
  lemma {:induction false} StatesAreCollapsedLog(context: string, expected: Option<Identity>, ops: seq<Op>)
    requires ApplyAll(Fresh(context, expected), ops).1.None?
    ensures StatesMatch(ApplyAll(Fresh(context, expected), ops).0, StateLog(ops))
  {
    if ops != [] {
      var init, last := ops[..|ops| - 1], ops[|ops| - 1];
      StatesAreCollapsedLog(context, expected, init);
      var c := ApplyAll(Fresh(context, expected), init).0;
      if last.SeeState? {
        StateRecorded(c, StateLog(init), last.state);
      } else {
        OtherOpsKeepStates(c, last);
      }
    }
  }

  // ---------------------------------------------------------------------------------------------
  // Dictionaries
  // ---------------------------------------------------------------------------------------------

  lemma {:induction false} LookupPut(d: Dict, key: string, content: Content, k: string)
    ensures Lookup(Put(d, key, content), k) == if k == key then Some(content) else Lookup(d, k)
  {
    if d == [] {
      assert Put(d, key, content)[1..] == [];
    } else if d[0].key == key {
      assert Put(d, key, content)[1..] == d[1..];
    } else {
      LookupPut(d[1..], key, content, k);
      assert Put(d, key, content) == [d[0]] + Put(d[1..], key, content);
      assert Put(d, key, content)[1..] == Put(d[1..], key, content);
    }
  }

  lemma KeysPut(d: Dict, key: string, content: Content)
    ensures Keys(Put(d, key, content)) == if key in Keys(d) then Keys(d) else Keys(d) + [key]
  {
    var i := Find(d, key);
    if i < |d| {
      assert Keys(d)[i] == key;
      assert Keys(Put(d, key, content)) == Keys(d);
    } else {
      assert forall j :: 0 <= j < |d| ==> Keys(d)[j] == d[j].key;
      assert key !in Keys(d);
      assert Keys(d + [Entry(key, content)]) == Keys(d) + [key];
    }
  }

  // ---------------------------------------------------------------------------------------------
  // Artifacts
  // ---------------------------------------------------------------------------------------------

  /** One publication of an artifact, with the key it was filed under. */
  datatype Publication = Publication(key: string, artifact: Artifact, append: bool)

  function KeysOf(log: seq<Publication>): (ks: seq<string>)
    ensures |ks| == |log|
  {
    if log == [] then [] else KeysOf(log[..|log| - 1]) + [log[|log| - 1].key]
  }

  /** All publications in order; one without an identifier is filed under the number of keys so far. */
  function Publications(ops: seq<Op>): seq<Publication> {
    if ops == [] then [] else Publicized(Publications(ops[..|ops| - 1]), ops[|ops| - 1])
  }

  /** The publications filed under one key, whatever was interleaved with them. */
  function Under(log: seq<Publication>, key: string): seq<Publication> {
    if log == [] then []
    else
      var before, last := Under(log[..|log| - 1], key), log[|log| - 1];
      if last.key == key then before + [last] else before
  }

  /** What a series of publications of one artifact amounts to. */
  function Assemble(ps: seq<Publication>): Option<Content> {
    if ps == [] then None
    else
      var last := ps[|ps| - 1];
      Some(ArtifactContent(Assemble(ps[..|ps| - 1]), last.artifact, last.append))
  }

  /** The stored artifacts: keys in first-use order, and for each key what its publications amount to. */
  ghost predicate ArtifactsMatch(d: Dict, log: seq<Publication>) {
    Keys(d) == FirstSeen(KeysOf(log)) && forall key :: Lookup(d, key) == Assemble(Under(log, key))
  }

  lemma UnderAppended(log: seq<Publication>, p: Publication, key: string)
    ensures Under(log + [p], key) == if p.key == key then Under(log, key) + [p] else Under(log, key)
    ensures KeysOf(log + [p]) == KeysOf(log) + [p.key]
  {
    assert (log + [p])[..|log|] == log;
  }

  lemma AssembleAppended(ps: seq<Publication>, p: Publication)
    ensures Assemble(ps + [p]) == Some(ArtifactContent(Assemble(ps), p.artifact, p.append))
  {
    assert (ps + [p])[..|ps|] == ps;
  }

  lemma PublishStep(d: Dict, log: seq<Publication>, p: Publication)
    requires ArtifactsMatch(d, log)
    ensures ArtifactsMatch(Put(d, p.key, ArtifactContent(Lookup(d, p.key), p.artifact, p.append)), log + [p])
  {
    var content := ArtifactContent(Lookup(d, p.key), p.artifact, p.append);
    var next := Put(d, p.key, content);
    KeysPut(d, p.key, content);
    FirstSeenAppended(KeysOf(log), p.key);
    UnderAppended(log, p, p.key);
    AssembleAppended(Under(log, p.key), p);
    forall key ensures Lookup(next, key) == Assemble(Under(log + [p], key)) {
      LookupPut(d, p.key, content, key);
      UnderAppended(log, p, key);
    }
  }

  lemma OtherOpsKeepArtifacts(c: Collected, op: Op)
    requires !op.Publish?
    ensures Apply(c, op).0.artifacts == c.artifacts
  {
  }

  lemma PublishStores(c: Collected, a: Artifact, append: bool)
    requires AddArtifact(c, a, append).1.None?
    ensures var key := ArtifactKey(c.artifacts, a);
      AddArtifact(c, a, append).0.artifacts
      == Put(c.artifacts, key, ArtifactContent(Lookup(c.artifacts, key), a, append))
  {
  }

  /** The log after one more effect. */
  function Publicized(log: seq<Publication>, op: Op): seq<Publication> {
    match op
    case Publish(a, append) =>
      var key := if a.id != "" then a.id else "artifact-" + Numeral(|FirstSeen(KeysOf(log))|);
      log + [Publication(key, a, append)]
    case _ => log
  }

  lemma ArtifactsAfter(c: Collected, op: Op, log: seq<Publication>)
    requires ArtifactsMatch(c.artifacts, log) && Apply(c, op).1.None?
    ensures ArtifactsMatch(Apply(c, op).0.artifacts, Publicized(log, op))
  {
    if op.Publish? {
      assert |Keys(c.artifacts)| == |c.artifacts|;
      PublishStores(c, op.artifact, op.append);
      PublishStep(c.artifacts, log, Publication(ArtifactKey(c.artifacts, op.artifact), op.artifact, op.append));
    } else {
      OtherOpsKeepArtifacts(c, op);
    }
  }

  /** Each artifact depends only on its own publications, and artifacts appear in first-use order. */
  lemma {:induction false} ArtifactsOfLog(context: string, expected: Option<Identity>, ops: seq<Op>)
    requires ApplyAll(Fresh(context, expected), ops).1.None?
    ensures ArtifactsMatch(ApplyAll(Fresh(context, expected), ops).0.artifacts, Publications(ops))
  {
    if ops != [] {
      var init, last := ops[..|ops| - 1], ops[|ops| - 1];
      ArtifactsOfLog(context, expected, init);
      ArtifactsAfter(ApplyAll(Fresh(context, expected), init).0, last, Publications(init));
    }
  }

  /** The name of an artifact is the last one given to it. */
  function NameOf(ps: seq<Publication>): Option<string> {
    if ps == [] then None
    else if ps[|ps| - 1].artifact.name != "" then Some(ps[|ps| - 1].artifact.name)
    else NameOf(ps[..|ps| - 1])
  }

  /** The last publication that replaces rather than appends; the first one always replaces. */
  function LastReplacement(ps: seq<Publication>): (i: nat)
    requires ps != []
    ensures i < |ps| && (i == 0 || !ps[i].append)
    ensures forall j :: i < j < |ps| ==> ps[j].append
  {
    if |ps| == 1 || !ps[|ps| - 1].append then |ps| - 1 else LastReplacement(ps[..|ps| - 1])
  }

  /** The own content of the last publication, under the name in force by then. */
  function Piece(ps: seq<Publication>): Content
    requires ps != []
  {
    var a, name := ps[|ps| - 1].artifact, NameOf(ps);
    Content(a.text, DataOf(a.parts, FromArtifact, OrNone(a.id), name),
            FilesOf(a.parts, FromArtifact, OrNone(a.id), name), RawSize(a.parts), name)
  }

  /** The pieces from position `from` on, put together. */
  function Joined(ps: seq<Publication>, from: nat): Content
    requires from < |ps|
  {
    var piece := Piece(ps);
    if from == |ps| - 1 then piece
    else
      var before := Joined(ps[..|ps| - 1], from);
      Content(before.text + piece.text, before.data + piece.data, before.files + piece.files,
              before.rawBytes + piece.rawBytes, piece.name)
  }

  lemma {:induction false} AssembledName(ps: seq<Publication>)
    requires ps != []
    ensures Assemble(ps).value.name == NameOf(ps)
  {
    var init := ps[..|ps| - 1];
    if init == [] {
      assert Assemble(init).None? && NameOf(init).None?;
    } else {
      AssembledName(init);
    }
  }

  /** An artifact is its last replacement plus all later appends. */
  lemma {:induction false} ArtifactIsReplacementPlusAppends(ps: seq<Publication>)
    requires ps != []
    ensures Assemble(ps) == Some(Joined(ps, LastReplacement(ps)))
    ensures Assemble(ps).value.name == NameOf(ps)
  {
    var init, last := ps[..|ps| - 1], ps[|ps| - 1];
    AssembledName(ps);
    assert Assemble(ps).value == ArtifactContent(Assemble(init), last.artifact, last.append);
    if init != [] { ArtifactIsReplacementPlusAppends(init); }
  }

  // ---------------------------------------------------------------------------------------------
  // Messages
  // ---------------------------------------------------------------------------------------------

  /** The log of messages after one more effect; those of the user are not kept. */
  function Heard(log: seq<(string, Message)>, op: Op): seq<(string, Message)> {
    match op
    case Speak(m) =>
      if m.fromUser then log
      else log + [(if m.id != "" then m.id else "message-" + Numeral(|FirstSeen(SpokenKeys(log))|), m)]
    case _ => log
  }

  /** The agent's messages with the keys they were filed under. */
  function Spoken(ops: seq<Op>): seq<(string, Message)> {
    if ops == [] then [] else Heard(Spoken(ops[..|ops| - 1]), ops[|ops| - 1])
  }

  function SpokenKeys(log: seq<(string, Message)>): (ks: seq<string>)
    ensures |ks| == |log|
  {
    if log == [] then [] else SpokenKeys(log[..|log| - 1]) + [log[|log| - 1].0]
  }

  /** The last message filed under a key. */
  function LastSpoken(log: seq<(string, Message)>, key: string): Option<Message> {
    if log == [] then None
    else if log[|log| - 1].0 == key then Some(log[|log| - 1].1)
    else LastSpoken(log[..|log| - 1], key)
  }

  function ContentOf(m: Option<Message>): Option<Content> {
    if m.Some? then Some(MessageContent(m.value)) else None
  }

  /** The stored messages: keys in first-use order, and for each key the last message spoken under it. */
  ghost predicate MessagesMatch(d: Dict, log: seq<(string, Message)>) {
    Keys(d) == FirstSeen(SpokenKeys(log)) && forall key :: Lookup(d, key) == ContentOf(LastSpoken(log, key))
  }

  lemma SpeakStep(d: Dict, log: seq<(string, Message)>, k: string, m: Message)
    requires MessagesMatch(d, log)
    ensures MessagesMatch(Put(d, k, MessageContent(m)), log + [(k, m)])
  {
    KeysPut(d, k, MessageContent(m));
    FirstSeenAppended(SpokenKeys(log), k);
    assert (log + [(k, m)])[..|log|] == log;
    forall key ensures Lookup(Put(d, k, MessageContent(m)), key) == ContentOf(LastSpoken(log + [(k, m)], key)) {
      LookupPut(d, k, MessageContent(m), key);
    }
  }

  lemma SpeechStores(c: Collected, m: Message)
    requires AddMessage(c, m).1.None?
    ensures AddMessage(c, m).0.messages ==
      if m.fromUser then c.messages else Put(c.messages, MessageKey(c.messages, m), MessageContent(m))
  {
  }

  lemma OtherOpsKeepMessages(c: Collected, op: Op)
    requires !op.Speak?
    ensures Apply(c, op).0.messages == c.messages
  {
  }

  lemma MessagesAfter(c: Collected, op: Op, log: seq<(string, Message)>)
    requires MessagesMatch(c.messages, log) && Apply(c, op).1.None?
    ensures MessagesMatch(Apply(c, op).0.messages, Heard(log, op))
  {
    if op.Speak? {
      assert |Keys(c.messages)| == |c.messages|;
      SpeechStores(c, op.message);
      if !op.message.fromUser { SpeakStep(c.messages, log, MessageKey(c.messages, op.message), op.message); }
    } else {
      OtherOpsKeepMessages(c, op);
    }
  }

  /** A message is the last one of its key, and messages appear in first-use order. */
  lemma {:induction false} MessagesOfLog(context: string, expected: Option<Identity>, ops: seq<Op>)
    requires ApplyAll(Fresh(context, expected), ops).1.None?
    ensures MessagesMatch(ApplyAll(Fresh(context, expected), ops).0.messages, Spoken(ops))
  {
    if ops != [] {
      var init, last := ops[..|ops| - 1], ops[|ops| - 1];
      MessagesOfLog(context, expected, init);
      MessagesAfter(ApplyAll(Fresh(context, expected), init).0, last, Spoken(init));
    }
  }

  // ---------------------------------------------------------------------------------------------
  // Bytes of raw files
  // ---------------------------------------------------------------------------------------------

  function FileBytes(files: seq<FilePart>): nat {
    if files == [] then 0
    else
      FileBytes(files[..|files| - 1])
      + if files[|files| - 1].sizeBytes.Some? then files[|files| - 1].sizeBytes.value else 0
  }

  lemma {:induction false} FileBytesConcat(a: seq<FilePart>, b: seq<FilePart>)
    ensures FileBytes(a + b) == FileBytes(a) + FileBytes(b)
    decreases |b|
  {
    if b == [] {
      assert a + b == a;
    } else {
      assert (a + b)[..|a + b| - 1] == a + b[..|b| - 1];
      FileBytesConcat(a, b[..|b| - 1]);
    }
  }

  lemma {:induction false} FileBytesOfParts(parts: seq<Part>, source: Source, id: Option<string>, name: Option<string>)
    ensures FileBytes(FilesOf(parts, source, id, name)) == RawSize(parts)
  {
    if parts != [] {
      FileBytesOfParts(parts[1..], source, id, name);
      var rest := FilesOf(parts[1..], source, id, name);
      var files := FilesOf(parts, source, id, name);
      var first := files[..|files| - |rest|];
      assert files == first + rest;
      FileBytesConcat(first, rest);
      if |first| == 1 { assert first[..0] == []; }
    }
  }

  /** The byte count kept with every entry is the sum of the sizes of its raw files. */
  predicate Conserves(d: Dict) {
    forall i :: 0 <= i < |d| ==> d[i].content.rawBytes == FileBytes(d[i].content.files)
  }

  lemma {:induction false} RawBytesConserved(context: string, expected: Option<Identity>, ops: seq<Op>)
    ensures var c := ApplyAll(Fresh(context, expected), ops).0;
      Conserves(c.messages) && Conserves(c.artifacts)
  {
    if ops != [] {
      var init, last := ops[..|ops| - 1], ops[|ops| - 1];
      RawBytesConserved(context, expected, init);
      ConservedByOne(ApplyAll(Fresh(context, expected), init).0, last);
    }
  }

  lemma ConservedByOne(c: Collected, op: Op)
    requires Conserves(c.messages) && Conserves(c.artifacts)
    ensures Conserves(Apply(c, op).0.messages) && Conserves(Apply(c, op).0.artifacts)
  {
    match op {
      case Speak(m) =>
        FileBytesOfParts(m.parts, FromMessage, None, None);
        PutConserves(c.messages, MessageKey(c.messages, m), MessageContent(m));
      case Publish(a, append) =>
        var key := ArtifactKey(c.artifacts, a);
        ArtifactConserves(c.artifacts, key, a, append);
        PutConserves(c.artifacts, key, ArtifactContent(Lookup(c.artifacts, key), a, append));
      case _ =>
    }
  }

  lemma PutConserves(d: Dict, key: string, content: Content)
    requires Conserves(d) && content.rawBytes == FileBytes(content.files)
    ensures Conserves(Put(d, key, content))
  {
  }

  lemma ArtifactConserves(d: Dict, key: string, a: Artifact, append: bool)
    requires Conserves(d)
    ensures var content := ArtifactContent(Lookup(d, key), a, append);
      content.rawBytes == FileBytes(content.files)
  {
    var previous := Lookup(d, key);
    var files := FilesOf(a.parts, FromArtifact, OrNone(a.id), ArtifactName(previous, a));
    FileBytesOfParts(a.parts, FromArtifact, OrNone(a.id), ArtifactName(previous, a));
    if previous.Some? { FileBytesConcat(previous.value.files, files); }
  }

  lemma {:induction false} RawTotalIsFileBytes(d: Dict)
    requires Conserves(d)
    ensures RawTotal(d) == FileBytes(AllFiles(d))
  {
    if d != [] {
      RawTotalIsFileBytes(d[..|d| - 1]);
      FileBytesConcat(AllFiles(d[..|d| - 1]), d[|d| - 1].content.files);
    }
  }

  // ---------------------------------------------------------------------------------------------
  // Identity
  // ---------------------------------------------------------------------------------------------

  /** Only the subscribed task and context have been recorded. */
  predicate KeepsIdentity(c: Collected, id: Identity) {
    c.expected == Some(id) && (c.taskId.None? || c.taskId == Some(id.taskId)) && c.contextId == id.contextId
  }

  predicate OwnOp(op: Op, id: Identity) {
    match op
    case SeeTask(task) => task == id.taskId
    case SeeContext(context) => context == id.contextId
    case _ => true
  }

  lemma {:induction false} OwnOpsKeepIdentity(c: Collected, ops: seq<Op>, id: Identity)
    requires KeepsIdentity(c, id) && forall i :: 0 <= i < |ops| ==> OwnOp(ops[i], id)
    ensures KeepsIdentity(ApplyAll(c, ops).0, id)
  {
    if ops != [] { OwnOpsKeepIdentity(c, ops[..|ops| - 1], id); }
  }

  lemma ExpandedOpsAreOwn(e: Event, id: Identity)
    requires IdentityOf(e).None? || IdentityOf(e) == Some(id)
    ensures forall i :: 0 <= i < |Expand(e)| ==> OwnOp(Expand(e)[i], id)
  {
  }

  lemma EventKeepsIdentity(c: Collected, e: Event, id: Identity, c1: Collected, ops: seq<Op>)
    requires KeepsIdentity(c, id) && c1 == c.(events := c.events + 1) && ops == Expand(e)
    ensures KeepsIdentity(AddEvent(c, e).0, id)
  {
    if IdentityError(c1, e).None? && !e.EmptyEvent? && c1.events <= MAX_EVENTS {
      ExpandedOpsAreOwn(e, id);
      OwnOpsKeepIdentity(c1, ops, id);
      assert AddEvent(c, e).0 == ApplyAll(c1, ops).0;
    }
  }

  /**
   A collector that expects an identity and starts in its context never records another task or context,
   whatever arrives, and also not when an event is refused half-way.
   */
  lemma {:induction false} IdentityNeverChanges(id: Identity, es: seq<Event>)
    ensures KeepsIdentity(AddEvents(Fresh(id.contextId, Some(id)), es).0, id)
  {
    if es != [] {
      var c, e := AddEvents(Fresh(id.contextId, Some(id)), es[..|es| - 1]).0, es[|es| - 1];
      IdentityNeverChanges(id, es[..|es| - 1]);
      EventKeepsIdentity(c, e, id, c.(events := c.events + 1), Expand(e));
    }
  }

  // ---------------------------------------------------------------------------------------------
  // Outcomes
  // ---------------------------------------------------------------------------------------------

  lemma {:induction false} JoinedTextSize(d: Dict)
    ensures |JoinTexts(d)| <= TextSize(d) + |d|
  {
    if d != [] { JoinedTextSize(d[..|d| - 1]); }
  }

  lemma AcceptedIsMeasured(c: Collected, e: Event)
    requires AddEvent(c, e).1.None?
    ensures SizeError(AddEvent(c, e).0.messages + AddEvent(c, e).0.artifacts).None?
  {
  }

  predicate OutcomeFits(r: TurnOutcome, contents: nat) {
    && |r.text| <= MAX_TEXT_CHARS + contents
    && |r.data| <= MAX_DATA_PARTS && DataBytes(r.data) <= MAX_DATA_BYTES
    && |r.files| <= MAX_FILE_PARTS && FileBytes(r.files) <= MAX_RAW_BYTES
  }

  lemma MeasuredOutcomeFits(c: Collected, duration: int, first: Option<int>)
    requires c.events > 0 && Conserves(c.messages + c.artifacts) && SizeError(c.messages + c.artifacts).None?
    ensures var r := Finish(c, duration, first, false);
      r.Ok? && OutcomeFits(r.value, |c.messages| + |c.artifacts|)
  {
    RawTotalIsFileBytes(c.messages + c.artifacts);
    JoinedTextSize(c.messages + c.artifacts);
  }

  /** An outcome keeps the limits; joining its texts adds at most one character per content. */
  lemma OutcomeWithinLimits(
    context: string, expected: Option<Identity>, es: seq<Event>, duration: int, first: Option<int>)
    requires es != [] && AddEvents(Fresh(context, expected), es).1.None?
    ensures var c := AddEvents(Fresh(context, expected), es).0;
      var r := Finish(c, duration, first, false);
      r.Ok? && OutcomeFits(r.value, |c.messages| + |c.artifacts|)
  {
    AcceptedEffects(context, expected, es);
    RawBytesConserved(context, expected, ExpandAll(es));
    AcceptedIsMeasured(AddEvents(Fresh(context, expected), es[..|es| - 1]).0, es[|es| - 1]);
    MeasuredOutcomeFits(AddEvents(Fresh(context, expected), es).0, duration, first);
  }

  /** The outcome lists every reported state once per change; with none it lists the default state. */
  lemma OutcomeStates(context: string, expected: Option<Identity>, es: seq<Event>, duration: int, first: Option<int>)
    requires es != [] && AddEvents(Fresh(context, expected), es).1.None?
    ensures var log := StateLog(ExpandAll(es));
      var r := Finish(AddEvents(Fresh(context, expected), es).0, duration, first, false);
      r.Ok? && r.value.states == if log == [] then ["message"] else Collapse(log)
  {
    AcceptedEffects(context, expected, es);
    StatesAreCollapsedLog(context, expected, ExpandAll(es));
  }
}

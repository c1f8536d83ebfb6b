/** The response collector, updated in place by each event of a response. */
module Collector {
  import opened Sequences
  import opened Wrappers
  import opened Decimal
  import opened Parts
  import opened Protocol

  class ResponseCollector {
    const expected: Option<Identity>
    var contextId: string
    var taskId: Option<string>
    var state: string
    var states: seq<string>
    var events: nat
    var messages: Dict
    var artifacts: Dict

    /** The collector's fields as a value. */
    function View(): Collected
      reads this
    {
      Collected(expected, contextId, taskId, state, states, events, messages, artifacts)
    }

    constructor (contextId: string, expected: Option<Identity>)
      ensures View() == Fresh(contextId, expected)
    {
      this.contextId, this.expected := contextId, expected;
      taskId, state, states, events, messages, artifacts := None, "message", [], 0, [], [];
    }

    method SetTaskId(id: string)
      modifies this
      ensures View() == RecordTask(old(View()), id)
    {
      if id == "" { return; }
      taskId := Some(id);
    }

    method SetContextId(id: string)
      modifies this
      ensures View() == RecordContext(old(View()), id)
    {
      if id == "" { return; }
      contextId := id;
    }

    method SetState(s: string)
      modifies this
      ensures View() == RecordState(old(View()), s)
    {
      state := s;
      if states == [] || states[|states| - 1] != s {
        states := states + [s];
      }
    }

    method Say(m: Message) returns (error: Option<Error>)
      modifies this
      ensures (View(), error) == AddMessage(old(View()), m)
    {
      if m.taskId != "" && expected.Some? && m.taskId != expected.value.taskId { return Some(WrongTask); }
      if m.contextId != "" && expected.Some? && m.contextId != expected.value.contextId { return Some(WrongContext); }
      if m.fromUser { return None; }
      var key := if m.id != "" then m.id else "message-" + Numeral(|messages|);
      if !DataValid(m.parts) { return Some(InvalidData); }
      var files := CollectFiles(m.parts, FromMessage, None, None);
      if files.Err? { return Some(files.error); }
      error := None;
      messages := Put(messages, key, Content(
        m.text, DataOf(m.parts, FromMessage, None, None), files.value, RawSize(m.parts), None));
      SetTaskId(m.taskId);
      SetContextId(m.contextId);
    }

    method Store(a: Artifact, append: bool) returns (error: Option<Error>)
      modifies this
      ensures (View(), error) == AddArtifact(old(View()), a, append)
    {
      var key := if a.id != "" then a.id else "artifact-" + Numeral(|artifacts|);
      var previous := Lookup(artifacts, key);
      var name := if a.name != "" then Some(a.name) else if previous.Some? then previous.value.name else None;
      if !DataValid(a.parts) { return Some(InvalidData); }
      var collected := CollectFiles(a.parts, FromArtifact, OrNone(a.id), name);
      if collected.Err? { return Some(collected.error); }
      error := None;
      var text, rawBytes, files := a.text, RawSize(a.parts), collected.value;
      var data := DataOf(a.parts, FromArtifact, OrNone(a.id), name);
      if append && previous.Some? {
        text := previous.value.text + text;
        data := previous.value.data + data;
        files := previous.value.files + files;
        rawBytes := rawBytes + previous.value.rawBytes;
      }
      artifacts := Put(artifacts, key, Content(text, data, files, rawBytes, name));
    }

    /** The three identifying fields of an update, and the message its status may carry. */
    method Update(task: string, context: string, status: Status) returns (error: Option<Error>)
      modifies this
      ensures (View(), error) == ApplyAll(old(View()), StatusOps(task, context, status))
    {
      ghost var ops := StatusOps(task, context, status);
      SetTaskId(task);
      SetContextId(context);
      SetState(status.state);
      FirstEffects(old(View()), ops);
      error := None;
      if status.message.Some? {
        error := Say(status.message.value);
        assert ops[..4] == ops;
      } else {
        assert ops[..3] == ops;
      }
    }

    method SayAll(ms: seq<Message>) returns (error: Option<Error>)
      modifies this
      ensures (View(), error) == ApplyAll(old(View()), Speaks(ms))
    {
      ghost var ops := Speaks(ms);
      error := None;
      for i := 0 to |ms|
        invariant (View(), error) == ApplyAll(old(View()), ops[..i]) && error.None?
      {
        NextEffect(old(View()), ops, i);
        error := Say(ms[i]);
        if error.Some? { ErrorStays(old(View()), ops, i + 1); return; }
      }
      assert ops[..|ms|] == ops;
    }

    method StoreAll(published: seq<Artifact>) returns (error: Option<Error>)
      modifies this
      ensures (View(), error) == ApplyAll(old(View()), Publishes(published))
    {
      ghost var ops := Publishes(published);
      error := None;
      for i := 0 to |published|
        invariant (View(), error) == ApplyAll(old(View()), ops[..i]) && error.None?
      {
        NextEffect(old(View()), ops, i);
        error := Store(published[i], false);
        if error.Some? { ErrorStays(old(View()), ops, i + 1); return; }
      }
      assert ops[..|published|] == ops;
    }

    method Snapshot(task: Task) returns (error: Option<Error>)
      modifies this
      ensures (View(), error) == ApplyAll(old(View()), Expand(TaskEvent(task)))
    {
      ghost var status := StatusOps(task.id, task.contextId, task.status);
      ApplyConcat(old(View()), status + Speaks(task.history), Publishes(task.artifacts));
      ApplyConcat(old(View()), status, Speaks(task.history));
      error := Update(task.id, task.contextId, task.status);
      if error.Some? { return; }
      error := SayAll(task.history);
      if error.Some? { return; }
      error := StoreAll(task.artifacts);
    }

    /** One event of the response; on an error the effects up to it remain. */
    method Add(e: Event) returns (error: Option<Error>)
      modifies this
      ensures (View(), error) == AddEvent(old(View()), e)
    {
      events := events + 1;
      if events > MAX_EVENTS { return Some(TooManyEvents); }
      error := IdentityError(View(), e);
      if error.Some? { return; }
      ghost var start := View();
      match e {
        case MessageEvent(m) =>
          MessageEffects(start, m);
          error := Say(m);
          if error.Some? { return; }
          SetState("message");
        case TaskEvent(t) =>
          error := Snapshot(t);
        case StatusEvent(task, context, status) =>
          error := Update(task, context, status);
        case ArtifactEvent(task, context, a, append) =>
          ArtifactEffects(start, task, context, a, append);
          SetTaskId(task);
          SetContextId(context);
          error := Store(a, append);
        case EmptyEvent =>
          return Some(NoPayload);
      }
      if error.Some? { return; }
      error := SizeError(messages + artifacts);
    }

    /** The outcome so far; a response that never reported a state is given its default one. */
    method Result(durationMs: int, firstEventMs: Option<int>, requireTerminal: bool)
      returns (r: Wrappers.Result<TurnOutcome, Error>)
      modifies this
      ensures r == Finish(old(View()), durationMs, firstEventMs, requireTerminal)
      ensures View() == if r.Ok? && old(states) == [] then RecordState(old(View()), state) else old(View())
    {
      if events == 0 { return Err(NoResponse); }
      if requireTerminal && !Interrupted(state) && state != "message" { return Err(NotTerminal(state)); }
      var contents := messages + artifacts;
      assert [] + [state] == [state];
      if states == [] { SetState(state); }
      return Ok(TurnOutcome(
        state, JoinTexts(contents), taskId, Some(contextId), durationMs, AllData(contents), firstEventMs,
        states, AllFiles(contents)));
    }
  }

  /** The file parts in order, or the first complaint about one. */
  method CollectFiles(parts: seq<Part>, source: Source, id: Option<string>, name: Option<string>)
    returns (r: Wrappers.Result<seq<FilePart>, Error>)
    ensures var error := FileError(parts, id, name);
      r == if error.Some? then Err(error.value) else Ok(FilesOf(parts, source, id, name))
  {
    var files := [];
    for i := 0 to |parts|
      invariant files + FilesOf(parts[i..], source, id, name) == FilesOf(parts, source, id, name)
      invariant FileError(parts[i..], id, name) == FileError(parts, id, name)
    {
      var part := parts[i];
      FilesFrom(parts, i, source, id, name);
      if part.Link? || part.Raw? {
        if part.Link? && |part.url| > MAX_FILE_URL_CHARS { return Err(UrlTooLong); }
        if |part.filename| > 1_000 || |part.mediaType| > 200 || !Fits(id, 1_000) || !Fits(name, 200) {
          return Err(InvalidFile);
        }
        var size := if part.Raw? then Some(part.size) else None;
        var digest := if part.Raw? then Some(part.sha256) else None;
        var file := FilePart(source, part.Raw?, OrNone(part.filename), OrNone(part.mediaType), size, digest, id, name);
        Associative(files, [file], FilesOf(parts[i + 1..], source, id, name));
        files := files + [file];
      }
    }
    assert parts[|parts|..] == [] && files + [] == files;
    return Ok(files);
  }

  lemma FilesFrom(parts: seq<Part>, i: nat, source: Source, id: Option<string>, name: Option<string>)
    requires i < |parts|
    ensures var p, rest := parts[i], FilesOf(parts[i + 1..], source, id, name);
      FilesOf(parts[i..], source, id, name) ==
        if p.Raw? then
          [FilePart(source, true, OrNone(p.filename), OrNone(p.mediaType), Some(p.size), Some(p.sha256), id, name)]
          + rest
        else if p.Link? then
          [FilePart(source, false, OrNone(p.filename), OrNone(p.mediaType), None, None, id, name)] + rest
        else rest
    ensures var p := parts[i];
      FileError(parts[i..], id, name) ==
        if p.Link? && |p.url| > MAX_FILE_URL_CHARS then Some(UrlTooLong)
        else if (p.Link? || p.Raw?)
                && !(|p.filename| <= 1_000 && |p.mediaType| <= 200 && Fits(id, 1_000) && Fits(name, 200))
        then Some(InvalidFile)
        else FileError(parts[i + 1..], id, name)
  {
    assert parts[i..][0] == parts[i] && parts[i..][1..] == parts[i + 1..];
  }

  lemma NextEffect(c: Collected, ops: seq<Op>, n: nat)
    requires n < |ops|
    ensures n == 0 ==> ApplyAll(c, ops[..n]) == (c, None)
    ensures ApplyAll(c, ops[..n + 1]) ==
      (var (c1, error) := ApplyAll(c, ops[..n]); if error.Some? then (c1, error) else Apply(c1, ops[n]))
  {
    assert ops[..n + 1][..n] == ops[..n];
  }

  lemma FirstTwoEffects(c: Collected, ops: seq<Op>)
    requires 2 <= |ops| && ops[0].SeeTask? && ops[1].SeeContext?
    ensures ApplyAll(c, ops[..2]) == (RecordContext(RecordTask(c, ops[0].id), ops[1].id), None)
  {
    NextEffect(c, ops, 0);
    NextEffect(c, ops, 1);
  }

  lemma FirstThreeEffects(c: Collected, ops: seq<Op>)
    requires 3 <= |ops| && ops[0].SeeTask? && ops[1].SeeContext? && ops[2].SeeState?
    ensures ApplyAll(c, ops[..3])
         == (RecordState(RecordContext(RecordTask(c, ops[0].id), ops[1].id), ops[2].state), None)
  {
    FirstTwoEffects(c, ops);
    NextEffect(c, ops, 2);
  }

  lemma FirstEffects(c: Collected, ops: seq<Op>)
    requires 3 <= |ops| <= 4 && ops[0].SeeTask? && ops[1].SeeContext? && ops[2].SeeState?
    ensures var c1 := RecordState(RecordContext(RecordTask(c, ops[0].id), ops[1].id), ops[2].state);
      ApplyAll(c, ops[..3]) == (c1, None) && (|ops| == 4 ==> ApplyAll(c, ops[..4]) == Apply(c1, ops[3]))
  {
    FirstThreeEffects(c, ops);
    if |ops| == 4 { NextEffect(c, ops, 3); }
  }

  lemma MessageEffects(c: Collected, m: Message)
    ensures ApplyAll(c, Expand(MessageEvent(m))) ==
      (var (c1, error) := AddMessage(c, m); if error.Some? then (c1, error) else (RecordState(c1, "message"), None))
  {
    var ops := Expand(MessageEvent(m));
    NextEffect(c, ops, 0);
    NextEffect(c, ops, 1);
    assert ops[..2] == ops;
  }

  lemma ArtifactEffects(c: Collected, task: string, context: string, a: Artifact, append: bool)
    ensures ApplyAll(c, Expand(ArtifactEvent(task, context, a, append)))
         == AddArtifact(RecordContext(RecordTask(c, task), context), a, append)
  {
    var ops := Expand(ArtifactEvent(task, context, a, append));
    FirstTwoEffects(c, ops);
    NextEffect(c, ops, 2);
    assert ops[..3] == ops;
  }

  lemma {:induction false} ApplyConcat(c: Collected, xs: seq<Op>, ys: seq<Op>)
    ensures ApplyAll(c, xs + ys) ==
      (var (c1, error) := ApplyAll(c, xs); if error.Some? then (c1, error) else ApplyAll(c1, ys))
    decreases |ys|
  {
    if ys == [] {
      assert xs + ys == xs;
    } else {
      assert (xs + ys)[..|xs + ys| - 1] == xs + ys[..|ys| - 1];
      ApplyConcat(c, xs, ys[..|ys| - 1]);
    }
  }

  /** Once an effect fails, what follows it is not performed. */
  lemma {:induction false} ErrorStays(c: Collected, ops: seq<Op>, n: nat)
    requires n <= |ops| && ApplyAll(c, ops[..n]).1.Some?
    ensures ApplyAll(c, ops) == ApplyAll(c, ops[..n])
    decreases |ops|
  {
    if n < |ops| {
      assert ops[..|ops| - 1][..n] == ops[..n];
      ErrorStays(c, ops[..|ops| - 1], n);
    } else {
      assert ops[..n] == ops;
    }
  }
}

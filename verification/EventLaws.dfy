/**
 What each event contributes to a collected response, said of the event itself: the parts of its messages and
 artifacts in order, the keys they are held under, and the task, context and state it reports.
 */
module EventLaws {
  import opened Sequences
  import opened Wrappers
  import opened Decimal
  import opened Parts
  import opened Protocol
  import opened Collector
  import opened CollectorLaws

  // ---------------------------------------------------------------------------------------------
  // Parts in order
  // ---------------------------------------------------------------------------------------------

  ghost predicate IsDataPart(d: DataPart, p: Part, source: Source, id: Option<string>, name: Option<string>) {
    && p.Data? && d.source == source && d.value == p.value && d.artifactId == id && d.artifactName == name
    && (if p.mediaType == "" then d.mediaType.None? else d.mediaType == Some(p.mediaType))
  }

  function DataFlags(parts: seq<Part>): (flags: seq<bool>)
    ensures |flags| == |parts|
  {
    seq(|parts|, i requires 0 <= i < |parts| => parts[i].Data?)
  }

  ghost predicate DataAt(
    data: seq<DataPart>, at: seq<nat>, parts: seq<Part>, source: Source, id: Option<string>, name: Option<string>)
  {
    && |data| == |at|
    && Enumerates(at, DataFlags(parts))
    && forall k :: 0 <= k < |data| ==> IsDataPart(data[k], parts[at[k]], source, id, name)
  }

  /** The structured parts, all of them and in order. */
  ghost predicate DataListed(
    data: seq<DataPart>, parts: seq<Part>, source: Source, id: Option<string>, name: Option<string>)
  {
    exists at: seq<nat> :: DataAt(data, at, parts, source, id, name)
  }

  lemma DataOfFirst(p: Part, rest: seq<Part>, source: Source, id: Option<string>, name: Option<string>)
    ensures DataOf([p] + rest, source, id, name) == DataOf([p], source, id, name) + DataOf(rest, source, id, name)
  {
    assert ([p] + rest)[1..] == rest && [p][1..] == [];
  }

  lemma {:induction false} DataOfLonger(
    parts: seq<Part>, p: Part, source: Source, id: Option<string>, name: Option<string>)
    ensures DataOf(parts + [p], source, id, name) == DataOf(parts, source, id, name) + DataOf([p], source, id, name)
  {
    if parts == [] {
      assert parts + [p] == [p];
    } else {
      var first, rest := parts[0], parts[1..];
      assert parts == [first] + rest && parts + [p] == [first] + (rest + [p]);
      DataOfFirst(first, rest, source, id, name);
      DataOfFirst(first, rest + [p], source, id, name);
      DataOfLonger(rest, p, source, id, name);
      Associative(DataOf([first], source, id, name), DataOf(rest, source, id, name), DataOf([p], source, id, name));
    }
  }

  lemma OneDataPart(p: Part, source: Source, id: Option<string>, name: Option<string>)
    ensures var data := DataOf([p], source, id, name);
      if p.Data? then |data| == 1 && IsDataPart(data[0], p, source, id, name) else data == []
  {
    assert [p][1..] == [];
  }

  lemma DataFlagsLonger(parts: seq<Part>, p: Part)
    ensures DataFlags(parts + [p]) == DataFlags(parts) + [p.Data?]
  {
  }

  lemma DataAtMore(
    data: seq<DataPart>, one: DataPart, at: seq<nat>, parts: seq<Part>, p: Part, source: Source, id: Option<string>,
    name: Option<string>)
    requires DataAt(data, at, parts, source, id, name) && IsDataPart(one, p, source, id, name)
    ensures DataAt(data + [one], at + [|parts|], parts + [p], source, id, name)
  {
    EnumeratesMore(at, DataFlags(parts), true);
    DataFlagsLonger(parts, p);
    forall n | 0 <= n < |data| ensures (parts + [p])[at[n]] == parts[at[n]] {
      assert at[n] < |DataFlags(parts)|;
    }
  }

  lemma DataAtOther(
    data: seq<DataPart>, at: seq<nat>, parts: seq<Part>, p: Part, source: Source, id: Option<string>,
    name: Option<string>)
    requires DataAt(data, at, parts, source, id, name) && !(p.Data?)
    ensures DataAt(data, at, parts + [p], source, id, name)
  {
    EnumeratesMore(at, DataFlags(parts), false);
    DataFlagsLonger(parts, p);
    forall n | 0 <= n < |data| ensures (parts + [p])[at[n]] == parts[at[n]] {
      assert at[n] < |DataFlags(parts)|;
    }
  }

  lemma {:induction false} DataInOrder(parts: seq<Part>, source: Source, id: Option<string>, name: Option<string>)
    ensures DataListed(DataOf(parts, source, id, name), parts, source, id, name)
  {
    if parts == [] {
      assert DataAt(DataOf(parts, source, id, name), [], parts, source, id, name);
    } else {
      var init, p := parts[..|parts| - 1], parts[|parts| - 1];
      assert parts == init + [p];
      DataInOrder(init, source, id, name);
      DataOfLonger(init, p, source, id, name);
      OneDataPart(p, source, id, name);
      var data := DataOf(init, source, id, name);
      var at: seq<nat> :| DataAt(data, at, init, source, id, name);
      if p.Data? {
        var one := DataOf([p], source, id, name);
        DataAtMore(data, one[0], at, init, p, source, id, name);
        assert one == [one[0]];
      } else {
        DataAtOther(data, at, init, p, source, id, name);
        assert data + [] == data;
      }
    }
  }

  /** A raw file keeps its size and digest; a linked one has neither. */
  ghost predicate IsFilePart(f: FilePart, p: Part, source: Source, id: Option<string>, name: Option<string>) {
    && (p.Raw? || p.Link?) && f.source == source && f.raw == p.Raw? && f.artifactId == id && f.artifactName == name
    && (if p.filename == "" then f.filename.None? else f.filename == Some(p.filename))
    && (if p.mediaType == "" then f.mediaType.None? else f.mediaType == Some(p.mediaType))
    && f.sizeBytes == (if p.Raw? then Some(p.size) else None)
    && f.sha256 == (if p.Raw? then Some(p.sha256) else None)
  }

  function FileFlags(parts: seq<Part>): (flags: seq<bool>)
    ensures |flags| == |parts|
  {
    seq(|parts|, i requires 0 <= i < |parts| => parts[i].Raw? || parts[i].Link?)
  }

  ghost predicate FilesAt(
    files: seq<FilePart>, at: seq<nat>, parts: seq<Part>, source: Source, id: Option<string>, name: Option<string>)
  {
    && |files| == |at|
    && Enumerates(at, FileFlags(parts))
    && forall k :: 0 <= k < |files| ==> IsFilePart(files[k], parts[at[k]], source, id, name)
  }

  /** The raw and linked files, all of them and in order. */
  ghost predicate FilesListed(
    files: seq<FilePart>, parts: seq<Part>, source: Source, id: Option<string>, name: Option<string>)
  {
    exists at: seq<nat> :: FilesAt(files, at, parts, source, id, name)
  }

  lemma FilesOfFirst(p: Part, rest: seq<Part>, source: Source, id: Option<string>, name: Option<string>)
    ensures FilesOf([p] + rest, source, id, name) == FilesOf([p], source, id, name) + FilesOf(rest, source, id, name)
  {
    assert ([p] + rest)[1..] == rest && [p][1..] == [];
  }

  lemma {:induction false} FilesOfLonger(
    parts: seq<Part>, p: Part, source: Source, id: Option<string>, name: Option<string>)
    ensures FilesOf(parts + [p], source, id, name) == FilesOf(parts, source, id, name) + FilesOf([p], source, id, name)
  {
    if parts == [] {
      assert parts + [p] == [p];
    } else {
      var first, rest := parts[0], parts[1..];
      assert parts == [first] + rest && parts + [p] == [first] + (rest + [p]);
      FilesOfFirst(first, rest, source, id, name);
      FilesOfFirst(first, rest + [p], source, id, name);
      FilesOfLonger(rest, p, source, id, name);
      Associative(FilesOf([first], source, id, name), FilesOf(rest, source, id, name), FilesOf([p], source, id, name));
    }
  }

  lemma OneFilePart(p: Part, source: Source, id: Option<string>, name: Option<string>)
    ensures var files := FilesOf([p], source, id, name);
      if p.Raw? || p.Link? then |files| == 1 && IsFilePart(files[0], p, source, id, name) else files == []
  {
    assert [p][1..] == [];
  }

  lemma FileFlagsLonger(parts: seq<Part>, p: Part)
    ensures FileFlags(parts + [p]) == FileFlags(parts) + [p.Raw? || p.Link?]
  {
  }

  lemma FilesAtMore(
    files: seq<FilePart>, one: FilePart, at: seq<nat>, parts: seq<Part>, p: Part, source: Source, id: Option<string>,
    name: Option<string>)
    requires FilesAt(files, at, parts, source, id, name) && IsFilePart(one, p, source, id, name)
    ensures FilesAt(files + [one], at + [|parts|], parts + [p], source, id, name)
  {
    EnumeratesMore(at, FileFlags(parts), true);
    FileFlagsLonger(parts, p);
    forall n | 0 <= n < |files| ensures (parts + [p])[at[n]] == parts[at[n]] {
      assert at[n] < |FileFlags(parts)|;
    }
  }

  lemma FilesAtOther(
    files: seq<FilePart>, at: seq<nat>, parts: seq<Part>, p: Part, source: Source, id: Option<string>,
    name: Option<string>)
    requires FilesAt(files, at, parts, source, id, name) && !(p.Raw? || p.Link?)
    ensures FilesAt(files, at, parts + [p], source, id, name)
  {
    EnumeratesMore(at, FileFlags(parts), false);
    FileFlagsLonger(parts, p);
    forall n | 0 <= n < |files| ensures (parts + [p])[at[n]] == parts[at[n]] {
      assert at[n] < |FileFlags(parts)|;
    }
  }

  lemma {:induction false} FilesInOrder(parts: seq<Part>, source: Source, id: Option<string>, name: Option<string>)
    ensures FilesListed(FilesOf(parts, source, id, name), parts, source, id, name)
  {
    if parts == [] {
      assert FilesAt(FilesOf(parts, source, id, name), [], parts, source, id, name);
    } else {
      var init, p := parts[..|parts| - 1], parts[|parts| - 1];
      assert parts == init + [p];
      FilesInOrder(init, source, id, name);
      FilesOfLonger(init, p, source, id, name);
      OneFilePart(p, source, id, name);
      var files := FilesOf(init, source, id, name);
      var at: seq<nat> :| FilesAt(files, at, init, source, id, name);
      if p.Raw? || p.Link? {
        var one := FilesOf([p], source, id, name);
        FilesAtMore(files, one[0], at, init, p, source, id, name);
        assert one == [one[0]];
      } else {
        FilesAtOther(files, at, init, p, source, id, name);
        assert files + [] == files;
      }
    }
  }

  /** Content with just this text and these parts; its raw bytes are those of its files. */
  ghost predicate Holds(
    content: Content, text: string, parts: seq<Part>, source: Source, id: Option<string>, name: Option<string>)
  {
    && content.text == text
    && DataListed(content.data, parts, source, id, name)
    && FilesListed(content.files, parts, source, id, name)
    && content.rawBytes == FileBytes(content.files)
    && content.name == name
  }

  lemma MessageHolds(m: Message)
    ensures Holds(MessageContent(m), m.text, m.parts, FromMessage, None, None)
  {
    DataInOrder(m.parts, FromMessage, None, None);
    FilesInOrder(m.parts, FromMessage, None, None);
    FileBytesOfParts(m.parts, FromMessage, None, None);
  }

  lemma ReplacementHolds(previous: Option<Content>, a: Artifact, name: Option<string>)
    requires name == ArtifactName(previous, a)
    ensures Holds(ArtifactContent(previous, a, false), a.text, a.parts, FromArtifact, OrNone(a.id), name)
  {
    DataInOrder(a.parts, FromArtifact, OrNone(a.id), name);
    FilesInOrder(a.parts, FromArtifact, OrNone(a.id), name);
    FileBytesOfParts(a.parts, FromArtifact, OrNone(a.id), name);
  }

  // ---------------------------------------------------------------------------------------------
  // Keys
  // ---------------------------------------------------------------------------------------------

  /** The keys in use after `n` items, in the order of their first use; an item without a key is not kept. */
  function InUse(keys: seq<string>, ks: seq<Option<string>>, n: nat): seq<string>
    requires n <= |ks|
  {
    if n == 0 then keys
    else
      var before := InUse(keys, ks, n - 1);
      if ks[n - 1].None? || ks[n - 1].value in before then before else before + [ks[n - 1].value]
  }

  /** The key of an item is its identifier, or the prefix with the number of keys in use. */
  ghost predicate IsKey(k: Option<string>, id: Option<string>, inUse: nat, prefix: string) {
    k == if id.None? then None else Some(if id.value != "" then id.value else prefix + Numeral(inUse))
  }

  ghost predicate AreKeys(ks: seq<Option<string>>, keys: seq<string>, ids: seq<Option<string>>, prefix: string) {
    |ks| == |ids| && forall n :: 0 <= n < |ks| ==> IsKey(ks[n], ids[n], |InUse(keys, ks, n)|, prefix)
  }

  /** None of the items from `from` up to `to` has the key. */
  ghost predicate Unused(ks: seq<Option<string>>, key: string, from: nat, to: nat) {
    to <= |ks| && forall j :: from <= j < to ==> ks[j] != Some(key)
  }

  ghost predicate LastOfKey(ks: seq<Option<string>>, key: string, i: nat) {
    i < |ks| && ks[i] == Some(key) && Unused(ks, key, i + 1, |ks|)
  }

  // ---------------------------------------------------------------------------------------------
  // Messages one after the other
  // ---------------------------------------------------------------------------------------------

  /** Messages of the user are not kept. */
  function MessageIds(ms: seq<Message>): (ids: seq<Option<string>>)
    ensures |ids| == |ms|
  {
    seq(|ms|, i requires 0 <= i < |ms| => if ms[i].fromUser then None else Some(ms[i].id))
  }

  ghost predicate HoldsMessage(content: Option<Content>, m: Message) {
    content.Some? && Holds(content.value, m.text, m.parts, FromMessage, None, None)
  }

  /** Each key holds the last message filed under it; other keys keep what they held. */
  ghost predicate SpokenUnder(ks: seq<Option<string>>, before: Dict, ms: seq<Message>, after: Dict) {
    && |ks| == |ms| && Keys(after) == InUse(Keys(before), ks, |ks|)
    && (forall i: nat, key :: LastOfKey(ks, key, i) ==> HoldsMessage(Lookup(after, key), ms[i]))
    && (forall key :: Unused(ks, key, 0, |ks|) ==> Lookup(after, key) == Lookup(before, key))
  }

  /** The messages after some were spoken, one after the other. */
  ghost predicate MessagesHeld(before: Dict, ms: seq<Message>, after: Dict) {
    exists ks :: AreKeys(ks, Keys(before), MessageIds(ms), "message-") && SpokenUnder(ks, before, ms, after)
  }

  /** Dictionaries of messages, each the one before with one more message under its key. */
  ghost predicate Speaking(ds: seq<Dict>, ks: seq<Option<string>>, ms: seq<Message>) {
    && |ds| == |ms| + 1 && |ks| == |ms|
    && forall n :: 0 <= n < |ms| ==> Filed(ds[n], ks[n], MessageContent(ms[n]), ds[n + 1])
  }

  ghost predicate Filed(d: Dict, k: Option<string>, content: Content, after: Dict) {
    after == if k.None? then d else Put(d, k.value, content)
  }

  lemma FiledKeys(d: Dict, k: Option<string>, content: Content, after: Dict)
    requires Filed(d, k, content, after)
    ensures Keys(after) == if k.None? || k.value in Keys(d) then Keys(d) else Keys(d) + [k.value]
  {
    if k.Some? { KeysPut(d, k.value, content); }
  }

  lemma FiledLookup(d: Dict, k: Option<string>, content: Content, after: Dict, key: string)
    requires Filed(d, k, content, after)
    ensures Lookup(after, key) == if k == Some(key) then Some(content) else Lookup(d, key)
  {
    if k.Some? { LookupPut(d, k.value, content, key); }
  }

  lemma {:induction false} SpeechHeld(
    ds: seq<Dict>, ks: seq<Option<string>>, ms: seq<Message>, key: string, i: nat, n: nat)
    requires Speaking(ds, ks, ms) && i < n <= |ms| && ks[i] == Some(key) && Unused(ks, key, i + 1, n)
    ensures Lookup(ds[n], key) == Some(MessageContent(ms[i]))
  {
    FiledLookup(ds[n - 1], ks[n - 1], MessageContent(ms[n - 1]), ds[n], key);
    if i < n - 1 { SpeechHeld(ds, ks, ms, key, i, n - 1); }
  }

  lemma {:induction false} OtherSpeechKept(
    ds: seq<Dict>, ks: seq<Option<string>>, ms: seq<Message>, key: string, n: nat)
    requires Speaking(ds, ks, ms) && n <= |ms| && Unused(ks, key, 0, n)
    ensures Lookup(ds[n], key) == Lookup(ds[0], key)
  {
    if n > 0 {
      var content := MessageContent(ms[n - 1]);
      assert Filed(ds[n - 1], ks[n - 1], content, ds[n]) && ks[n - 1] != Some(key);
      FiledLookup(ds[n - 1], ks[n - 1], content, ds[n], key);
      OtherSpeechKept(ds, ks, ms, key, n - 1);
    }
  }

  lemma {:induction false} SpeechKeysInUse(ds: seq<Dict>, ks: seq<Option<string>>, ms: seq<Message>, n: nat)
    requires Speaking(ds, ks, ms) && n <= |ms|
    ensures Keys(ds[n]) == InUse(Keys(ds[0]), ks, n)
  {
    if n > 0 {
      FiledKeys(ds[n - 1], ks[n - 1], MessageContent(ms[n - 1]), ds[n]);
      SpeechKeysInUse(ds, ks, ms, n - 1);
    }
  }

  lemma SpokenInTurn(ds: seq<Dict>, ks: seq<Option<string>>, ms: seq<Message>)
    requires Speaking(ds, ks, ms)
    ensures SpokenUnder(ks, ds[0], ms, ds[|ms|])
  {
    SpeechKeysInUse(ds, ks, ms, |ms|);
    forall i: nat, key | LastOfKey(ks, key, i) ensures HoldsMessage(Lookup(ds[|ms|], key), ms[i]) {
      SpeechHeld(ds, ks, ms, key, i, |ms|);
      MessageHolds(ms[i]);
    }
    forall key | Unused(ks, key, 0, |ks|) ensures Lookup(ds[|ms|], key) == Lookup(ds[0], key) {
      OtherSpeechKept(ds, ks, ms, key, |ms|);
    }
  }

  /** The collector after the first `n` messages. */
  function AfterSpeeches(c: Collected, ms: seq<Message>, n: nat): (Collected, Option<Error>)
    requires n <= |ms|
  {
    ApplyAll(c, Speaks(ms)[..n])
  }

  lemma NoErrorBefore(c: Collected, ops: seq<Op>, n: nat)
    requires n <= |ops| && ApplyAll(c, ops).1.None?
    ensures ApplyAll(c, ops[..n]).1.None?
  {
    if ApplyAll(c, ops[..n]).1.Some? { ErrorStays(c, ops, n); }
  }

  lemma SpeechNext(c: Collected, ms: seq<Message>, n: nat)
    requires n < |ms| && ApplyAll(c, Speaks(ms)).1.None?
    ensures AfterSpeeches(c, ms, n).1.None? && AfterSpeeches(c, ms, n + 1).1.None?
    ensures AddMessage(AfterSpeeches(c, ms, n).0, ms[n]) == AfterSpeeches(c, ms, n + 1)
  {
    NextEffect(c, Speaks(ms), n);
    NoErrorBefore(c, Speaks(ms), n);
    NoErrorBefore(c, Speaks(ms), n + 1);
  }

  function MessageDicts(c: Collected, ms: seq<Message>): (ds: seq<Dict>)
    ensures |ds| == |ms| + 1
  {
    seq(|ms| + 1, n requires 0 <= n <= |ms| => AfterSpeeches(c, ms, n).0.messages)
  }

  function SpeechKey(d: Dict, m: Message): Option<string> {
    if m.fromUser then None else Some(MessageKey(d, m))
  }

  function SpeechKeys(ds: seq<Dict>, ms: seq<Message>): (ks: seq<Option<string>>)
    requires |ms| <= |ds|
    ensures |ks| == |ms|
  {
    seq(|ms|, n requires 0 <= n < |ms| => SpeechKey(ds[n], ms[n]))
  }

  lemma SpeechesRun(c: Collected, ms: seq<Message>)
    requires ApplyAll(c, Speaks(ms)).1.None?
    ensures Speaking(MessageDicts(c, ms), SpeechKeys(MessageDicts(c, ms), ms), ms)
  {
    var ds := MessageDicts(c, ms);
    forall n | 0 <= n < |ms| ensures Filed(ds[n], SpeechKey(ds[n], ms[n]), MessageContent(ms[n]), ds[n + 1]) {
      SpeechNext(c, ms, n);
      SpeechStores(AfterSpeeches(c, ms, n).0, ms[n]);
    }
  }

  lemma KeyInUse(d: Dict, m: Message)
    ensures IsKey(SpeechKey(d, m), if m.fromUser then None else Some(m.id), |Keys(d)|, "message-")
  {
  }

  lemma SpeechesAreKeys(ds: seq<Dict>, ks: seq<Option<string>>, ms: seq<Message>)
    requires Speaking(ds, ks, ms) && ks == SpeechKeys(ds, ms)
    ensures AreKeys(ks, Keys(ds[0]), MessageIds(ms), "message-")
  {
    forall n | 0 <= n < |ms| ensures IsKey(ks[n], MessageIds(ms)[n], |InUse(Keys(ds[0]), ks, n)|, "message-") {
      SpeechKeysInUse(ds, ks, ms, n);
      KeyInUse(ds[n], ms[n]);
    }
  }

  lemma SpeechesHeld(c: Collected, ms: seq<Message>)
    requires ApplyAll(c, Speaks(ms)).1.None?
    ensures MessagesHeld(c.messages, ms, ApplyAll(c, Speaks(ms)).0.messages)
  {
    var ds := MessageDicts(c, ms);
    var ks := SpeechKeys(ds, ms);
    SpeechesRun(c, ms);
    SpokenInTurn(ds, ks, ms);
    SpeechesAreKeys(ds, ks, ms);
    assert Speaks(ms)[..0] == [] && Speaks(ms)[..|ms|] == Speaks(ms);
    assert ds[0] == c.messages && ds[|ms|] == ApplyAll(c, Speaks(ms)).0.messages;
  }

  // ---------------------------------------------------------------------------------------------
  // Artifacts one after the other
  // ---------------------------------------------------------------------------------------------

  function ArtifactIds(published: seq<Artifact>): (ids: seq<Option<string>>)
    ensures |ids| == |published|
  {
    seq(|published|, i requires 0 <= i < |published| => Some(published[i].id))
  }

  /** The content of an artifact that is not appended to. */
  ghost predicate HoldsArtifact(content: Option<Content>, a: Artifact, name: Option<string>) {
    && content.Some?
    && Holds(content.value, a.text, a.parts, FromArtifact, if a.id == "" then None else Some(a.id), name)
  }

  function NameIn(content: Option<Content>): Option<string> {
    if content.Some? then content.value.name else None
  }

  /** The last name given under a key by the first `n` artifacts, or the one known before. */
  function NameUnder(
    ks: seq<Option<string>>, published: seq<Artifact>, key: string, before: Option<string>, n: nat): Option<string>
    requires n <= |published| == |ks|
  {
    if n == 0 then before
    else if published[n - 1].name != "" && ks[n - 1] == Some(key) then Some(published[n - 1].name)
    else NameUnder(ks, published, key, before, n - 1)
  }

  /** Each key holds the last artifact filed under it, with the last name; other keys keep what they held. */
  ghost predicate PublishedUnder(ks: seq<Option<string>>, before: Dict, published: seq<Artifact>, after: Dict) {
    && |ks| == |published| && Keys(after) == InUse(Keys(before), ks, |ks|)
    && (forall i: nat, key :: LastOfKey(ks, key, i) ==>
          HoldsArtifact(Lookup(after, key), published[i],
                        NameUnder(ks, published, key, NameIn(Lookup(before, key)), |ks|)))
    && (forall key :: Unused(ks, key, 0, |ks|) ==> Lookup(after, key) == Lookup(before, key))
  }

  /** The artifacts after some were published whole, one after the other. */
  ghost predicate ArtifactsHeld(before: Dict, published: seq<Artifact>, after: Dict) {
    exists ks ::
      AreKeys(ks, Keys(before), ArtifactIds(published), "artifact-") && PublishedUnder(ks, before, published, after)
  }

  /** Dictionaries of artifacts, each the one before with one more artifact under its key. */
  ghost predicate Publishing(ds: seq<Dict>, ks: seq<Option<string>>, published: seq<Artifact>) {
    && |ds| == |published| + 1 && |ks| == |published|
    && forall n :: 0 <= n < |published| ==> Replaced(ds[n], ks[n], published[n], ds[n + 1])
  }

  ghost predicate Replaced(d: Dict, k: Option<string>, a: Artifact, after: Dict) {
    k.Some? && Filed(d, k, ArtifactContent(Lookup(d, k.value), a, false), after)
  }

  lemma ReplacedLookup(d: Dict, k: Option<string>, a: Artifact, after: Dict, key: string)
    requires Replaced(d, k, a, after)
    ensures Lookup(after, key) ==
      if k == Some(key) then Some(ArtifactContent(Lookup(d, key), a, false)) else Lookup(d, key)
  {
    FiledLookup(d, k, ArtifactContent(Lookup(d, k.value), a, false), after, key);
  }

  lemma ReplacedName(d: Dict, k: Option<string>, a: Artifact, after: Dict, key: string)
    requires Replaced(d, k, a, after)
    ensures NameIn(Lookup(after, key)) ==
      if a.name != "" && k == Some(key) then Some(a.name) else NameIn(Lookup(d, key))
  {
    ReplacedLookup(d, k, a, after, key);
  }

  lemma {:induction false} PublishedKeysInUse(
    ds: seq<Dict>, ks: seq<Option<string>>, published: seq<Artifact>, n: nat)
    requires Publishing(ds, ks, published) && n <= |published|
    ensures Keys(ds[n]) == InUse(Keys(ds[0]), ks, n)
  {
    if n > 0 {
      var d, k, a := ds[n - 1], ks[n - 1], published[n - 1];
      assert Replaced(d, k, a, ds[n]);
      FiledKeys(d, k, ArtifactContent(Lookup(d, k.value), a, false), ds[n]);
      PublishedKeysInUse(ds, ks, published, n - 1);
    }
  }

  lemma {:induction false} PublishedName(
    ds: seq<Dict>, ks: seq<Option<string>>, published: seq<Artifact>, key: string, n: nat)
    requires Publishing(ds, ks, published) && n <= |published|
    ensures NameIn(Lookup(ds[n], key)) == NameUnder(ks, published, key, NameIn(Lookup(ds[0], key)), n)
  {
    if n > 0 {
      ReplacedName(ds[n - 1], ks[n - 1], published[n - 1], ds[n], key);
      PublishedName(ds, ks, published, key, n - 1);
    }
  }

  lemma {:induction false} PublishedStays(
    ds: seq<Dict>, ks: seq<Option<string>>, published: seq<Artifact>, key: string, i: nat, n: nat)
    requires Publishing(ds, ks, published) && i <= n <= |published| && Unused(ks, key, i, n)
    ensures Lookup(ds[n], key) == Lookup(ds[i], key)
  {
    if i < n {
      ReplacedLookup(ds[n - 1], ks[n - 1], published[n - 1], ds[n], key);
      PublishedStays(ds, ks, published, key, i, n - 1);
    }
  }

  lemma ReplacedHolds(d: Dict, k: Option<string>, a: Artifact, after: Dict)
    requires Replaced(d, k, a, after)
    ensures var content := Lookup(after, k.value);
      HoldsArtifact(content, a, NameIn(content))
  {
    ReplacedLookup(d, k, a, after, k.value);
    ReplacementHolds(Lookup(d, k.value), a, ArtifactName(Lookup(d, k.value), a));
  }

  lemma PublishedHeld(ds: seq<Dict>, ks: seq<Option<string>>, published: seq<Artifact>, key: string, i: nat)
    requires Publishing(ds, ks, published) && LastOfKey(ks, key, i)
    ensures HoldsArtifact(Lookup(ds[|ks|], key), published[i],
                          NameUnder(ks, published, key, NameIn(Lookup(ds[0], key)), |ks|))
  {
    PublishedName(ds, ks, published, key, |ks|);
    PublishedStays(ds, ks, published, key, i + 1, |ks|);
    ReplacedHolds(ds[i], ks[i], published[i], ds[i + 1]);
  }

  lemma PublishedInTurn(ds: seq<Dict>, ks: seq<Option<string>>, published: seq<Artifact>)
    requires Publishing(ds, ks, published)
    ensures PublishedUnder(ks, ds[0], published, ds[|ks|])
  {
    PublishedKeysInUse(ds, ks, published, |ks|);
    forall i: nat, key | LastOfKey(ks, key, i)
      ensures HoldsArtifact(Lookup(ds[|ks|], key), published[i],
                            NameUnder(ks, published, key, NameIn(Lookup(ds[0], key)), |ks|))
    {
      PublishedHeld(ds, ks, published, key, i);
    }
    forall key | Unused(ks, key, 0, |ks|) ensures Lookup(ds[|ks|], key) == Lookup(ds[0], key) {
      PublishedStays(ds, ks, published, key, 0, |ks|);
    }
  }

  /** The collector after the first `n` artifacts. */
  function AfterArtifacts(c: Collected, published: seq<Artifact>, n: nat): (Collected, Option<Error>)
    requires n <= |published|
  {
    ApplyAll(c, Publishes(published)[..n])
  }

  lemma ArtifactNext(c: Collected, published: seq<Artifact>, n: nat)
    requires n < |published| && ApplyAll(c, Publishes(published)).1.None?
    ensures AfterArtifacts(c, published, n).1.None? && AfterArtifacts(c, published, n + 1).1.None?
    ensures AddArtifact(AfterArtifacts(c, published, n).0, published[n], false) == AfterArtifacts(c, published, n + 1)
  {
    NextEffect(c, Publishes(published), n);
    NoErrorBefore(c, Publishes(published), n);
    NoErrorBefore(c, Publishes(published), n + 1);
  }

  function ArtifactDicts(c: Collected, published: seq<Artifact>): (ds: seq<Dict>)
    ensures |ds| == |published| + 1
  {
    seq(|published| + 1, n requires 0 <= n <= |published| => AfterArtifacts(c, published, n).0.artifacts)
  }

  function PublishedKeys(ds: seq<Dict>, published: seq<Artifact>): (ks: seq<Option<string>>)
    requires |published| <= |ds|
    ensures |ks| == |published|
  {
    seq(|published|, n requires 0 <= n < |published| => Some(ArtifactKey(ds[n], published[n])))
  }

  lemma PublishesRun(c: Collected, published: seq<Artifact>)
    requires ApplyAll(c, Publishes(published)).1.None?
    ensures Publishing(ArtifactDicts(c, published), PublishedKeys(ArtifactDicts(c, published), published), published)
  {
    var ds := ArtifactDicts(c, published);
    forall n | 0 <= n < |published|
      ensures Replaced(ds[n], Some(ArtifactKey(ds[n], published[n])), published[n], ds[n + 1])
    {
      ArtifactNext(c, published, n);
      PublishStores(AfterArtifacts(c, published, n).0, published[n], false);
    }
  }

  lemma PublishesAreKeys(ds: seq<Dict>, ks: seq<Option<string>>, published: seq<Artifact>)
    requires Publishing(ds, ks, published) && ks == PublishedKeys(ds, published)
    ensures AreKeys(ks, Keys(ds[0]), ArtifactIds(published), "artifact-")
  {
    forall n | 0 <= n < |ks| ensures IsKey(ks[n], ArtifactIds(published)[n], |InUse(Keys(ds[0]), ks, n)|, "artifact-") {
      PublishedKeysInUse(ds, ks, published, n);
      assert |Keys(ds[n])| == |ds[n]|;
    }
  }

  lemma PublishesHeld(c: Collected, published: seq<Artifact>)
    requires ApplyAll(c, Publishes(published)).1.None?
    ensures ArtifactsHeld(c.artifacts, published, ApplyAll(c, Publishes(published)).0.artifacts)
  {
    var ds := ArtifactDicts(c, published);
    var ks := PublishedKeys(ds, published);
    PublishesRun(c, published);
    PublishedInTurn(ds, ks, published);
    PublishesAreKeys(ds, ks, published);
    assert Publishes(published)[..0] == [] && Publishes(published)[..|published|] == Publishes(published);
    assert ds[0] == c.artifacts && ds[|published|] == ApplyAll(c, Publishes(published)).0.artifacts;
  }

  // ---------------------------------------------------------------------------------------------
  // Task, context and state
  // ---------------------------------------------------------------------------------------------

  function LastNonEmpty(ids: seq<string>): string {
    if ids == [] then ""
    else if ids[|ids| - 1] != "" then ids[|ids| - 1]
    else LastNonEmpty(ids[..|ids| - 1])
  }

  function TasksNamed(ms: seq<Message>): (ids: seq<string>)
    ensures |ids| == |ms|
  {
    seq(|ms|, i requires 0 <= i < |ms| => if ms[i].fromUser then "" else ms[i].taskId)
  }

  function ContextsNamed(ms: seq<Message>): (ids: seq<string>)
    ensures |ids| == |ms|
  {
    seq(|ms|, i requires 0 <= i < |ms| => if ms[i].fromUser then "" else ms[i].contextId)
  }

  lemma LastNonEmptyMore(ids: seq<string>, id: string)
    ensures LastNonEmpty(ids + [id]) == if id != "" then id else LastNonEmpty(ids)
  {
    assert (ids + [id])[..|ids|] == ids;
  }

  /** The task and context last named by the event or a message of the agent. */
  predicate Records(c: Collected, r: Collected, tasks: seq<string>, contexts: seq<string>) {
    && r.taskId == (if LastNonEmpty(tasks) == "" then c.taskId else Some(LastNonEmpty(tasks)))
    && r.contextId == (if LastNonEmpty(contexts) == "" then c.contextId else LastNonEmpty(contexts))
  }

  lemma RecordedBySpeech(c: Collected, m: Message)
    requires AddMessage(c, m).1.None?
    ensures var r := AddMessage(c, m).0;
      && r.taskId == (if m.fromUser || m.taskId == "" then c.taskId else Some(m.taskId))
      && r.contextId == (if m.fromUser || m.contextId == "" then c.contextId else m.contextId)
  {
  }

  lemma RecordsMore(
    c: Collected, before: Collected, r: Collected, tasks: seq<string>, contexts: seq<string>, task: string,
    context: string)
    requires Records(c, before, tasks, contexts)
    requires r.taskId == if task == "" then before.taskId else Some(task)
    requires r.contextId == if context == "" then before.contextId else context
    ensures Records(c, r, tasks + [task], contexts + [context])
  {
    LastNonEmptyMore(tasks, task);
    LastNonEmptyMore(contexts, context);
  }

  lemma TakeOneMore(first: string, s: seq<string>, n: nat)
    requires 0 < n <= |s|
    ensures [first] + s[..n] == [first] + s[..n - 1] + [s[n - 1]]
  {
  }

  lemma {:induction false} SpeechesRecord(
    c: Collected, c0: Collected, ms: seq<Message>, task: string, context: string, n: nat)
    requires Records(c, c0, [task], [context]) && n <= |ms| && ApplyAll(c0, Speaks(ms)).1.None?
    ensures Records(c, AfterSpeeches(c0, ms, n).0, [task] + TasksNamed(ms)[..n], [context] + ContextsNamed(ms)[..n])
  {
    var tasks, contexts := TasksNamed(ms), ContextsNamed(ms);
    if n == 0 {
      assert [task] + tasks[..0] == [task] && [context] + contexts[..0] == [context];
    } else {
      var before, after := AfterSpeeches(c0, ms, n - 1).0, AfterSpeeches(c0, ms, n).0;
      SpeechNext(c0, ms, n - 1);
      SpeechesRecord(c, c0, ms, task, context, n - 1);
      RecordedBySpeech(before, ms[n - 1]);
      RecordsMore(
        c, before, after, [task] + tasks[..n - 1], [context] + contexts[..n - 1], tasks[n - 1], contexts[n - 1]);
      TakeOneMore(task, tasks, n);
      TakeOneMore(context, contexts, n);
    }
  }

  /** Messages leave artifacts and states alone, and artifacts leave all but artifacts alone. */
  predicate SpeechFrame(c: Collected, r: Collected) {
    r.artifacts == c.artifacts && r.state == c.state && r.states == c.states && r.events == c.events
  }

  predicate PublishFrame(c: Collected, r: Collected) {
    && r.messages == c.messages && r.taskId == c.taskId && r.contextId == c.contextId
    && r.state == c.state && r.states == c.states && r.events == c.events
  }

  lemma {:induction false} SpeechesFrame(c: Collected, ms: seq<Message>, n: nat)
    requires n <= |ms| && ApplyAll(c, Speaks(ms)).1.None?
    ensures SpeechFrame(c, AfterSpeeches(c, ms, n).0)
  {
    if n > 0 {
      SpeechNext(c, ms, n - 1);
      SpeechesFrame(c, ms, n - 1);
    }
  }

  lemma {:induction false} PublishesFrame(c: Collected, published: seq<Artifact>, n: nat)
    requires n <= |published| && ApplyAll(c, Publishes(published)).1.None?
    ensures PublishFrame(c, AfterArtifacts(c, published, n).0)
  {
    if n > 0 {
      ArtifactNext(c, published, n - 1);
      PublishesFrame(c, published, n - 1);
    }
  }

  // ---------------------------------------------------------------------------------------------
  // Events
  // ---------------------------------------------------------------------------------------------

  /** The state of the event is the current one and the last of the trajectory. */
  predicate Reports(c: Collected, r: Collected, state: string) {
    && r.state == state
    && r.states == if c.states != [] && c.states[|c.states| - 1] == state then c.states else c.states + [state]
  }

  function Head(t: Task): seq<Op> {
    [SeeTask(t.id), SeeContext(t.contextId), SeeState(t.status.state)]
  }

  lemma TaskOps(t: Task, ms: seq<Message>)
    requires ms == (if t.status.message.Some? then [t.status.message.value] else []) + t.history
    ensures Expand(TaskEvent(t)) == Head(t) + Speaks(ms) + Publishes(t.artifacts)
  {
    assert StatusOps(t.id, t.contextId, t.status) + Speaks(t.history) == Head(t) + Speaks(ms);
  }

  lemma HeadApplied(c: Collected, t: Task, c0: Collected)
    requires c0 == RecordState(RecordContext(RecordTask(c, t.id), t.contextId), t.status.state)
    ensures ApplyAll(c, Head(t)) == (c0, None)
  {
    FirstThreeEffects(c, Head(t));
    assert Head(t)[..3] == Head(t);
  }

  lemma TaskInSteps(c: Collected, t: Task, ms: seq<Message>, c0: Collected)
    requires ms == (if t.status.message.Some? then [t.status.message.value] else []) + t.history
    requires c0 == RecordState(RecordContext(RecordTask(c, t.id), t.contextId), t.status.state)
    requires ApplyAll(c, Expand(TaskEvent(t))).1.None?
    ensures var spoken := ApplyAll(c0, Speaks(ms));
      spoken.1.None? && ApplyAll(spoken.0, Publishes(t.artifacts)) == ApplyAll(c, Expand(TaskEvent(t)))
  {
    TaskOps(t, ms);
    HeadApplied(c, t, c0);
    ApplyConcat(c, Head(t), Speaks(ms));
    ApplyConcat(c, Head(t) + Speaks(ms), Publishes(t.artifacts));
  }

  lemma StepsCollect(c: Collected, c0: Collected, ms: seq<Message>, published: seq<Artifact>, task: string,
                     context: string)
    requires ApplyAll(c0, Speaks(ms)).1.None?
    requires ApplyAll(ApplyAll(c0, Speaks(ms)).0, Publishes(published)).1.None?
    requires Records(c, c0, [task], [context])
    ensures var r := ApplyAll(ApplyAll(c0, Speaks(ms)).0, Publishes(published)).0;
      && MessagesHeld(c0.messages, ms, r.messages) && ArtifactsHeld(c0.artifacts, published, r.artifacts)
      && r.state == c0.state && r.states == c0.states && r.events == c0.events
      && Records(c, r, [task] + TasksNamed(ms), [context] + ContextsNamed(ms))
  {
    var spoken := ApplyAll(c0, Speaks(ms)).0;
    SpeechesHeld(c0, ms);
    SpeechesFrame(c0, ms, |ms|);
    PublishesHeld(spoken, published);
    PublishesFrame(spoken, published, |published|);
    SpeechesRecord(c, c0, ms, task, context, |ms|);
    assert Speaks(ms)[..|ms|] == Speaks(ms) && Publishes(published)[..|published|] == Publishes(published);
    assert TasksNamed(ms)[..|ms|] == TasksNamed(ms) && ContextsNamed(ms)[..|ms|] == ContextsNamed(ms);
  }

  lemma StartOfTask(c: Collected, c0: Collected, task: string, context: string, state: string)
    requires c0 == RecordState(RecordContext(RecordTask(c, task), context), state)
    ensures Records(c, c0, [task], [context]) && Reports(c, c0, state)
    ensures c0.messages == c.messages && c0.artifacts == c.artifacts && c0.events == c.events
  {
    LastNonEmptyMore([], task);
    LastNonEmptyMore([], context);
  }

  /** What a task leaves behind: `c` before it, `r` after it. */
  ghost predicate TaskTaken(c: Collected, t: Task, ms: seq<Message>, r: Collected) {
    && MessagesHeld(c.messages, ms, r.messages) && ArtifactsHeld(c.artifacts, t.artifacts, r.artifacts)
    && Reports(c, r, t.status.state)
    && Records(c, r, [t.id] + TasksNamed(ms), [t.contextId] + ContextsNamed(ms))
  }

  lemma TaskApplied(c: Collected, t: Task, ms: seq<Message>, r: Collected)
    requires ApplyAll(c, Expand(TaskEvent(t))) == (r, None)
    requires ms == (if t.status.message.Some? then [t.status.message.value] else []) + t.history
    ensures TaskTaken(c, t, ms, r) && r.events == c.events
  {
    var c0 := RecordState(RecordContext(RecordTask(c, t.id), t.contextId), t.status.state);
    TaskInSteps(c, t, ms, c0);
    StartOfTask(c, c0, t.id, t.contextId, t.status.state);
    StepsCollect(c, c0, ms, t.artifacts, t.id, t.contextId);
  }

  /**
   An accepted task: the message of its status comes first and its history after it, its artifacts replace what
   their keys held, its state is recorded, and its task and context unless a message of the agent names others.
   */
  lemma TaskCollected(c: Collected, t: Task, ms: seq<Message>, r: Collected)
    requires AddEvent(c, TaskEvent(t)) == (r, None)
    requires ms == (if t.status.message.Some? then [t.status.message.value] else []) + t.history
    ensures TaskTaken(c, t, ms, r) && r.events == c.events + 1
  {
    AcceptedIsApplied(c, TaskEvent(t), Expand(TaskEvent(t)));
    TaskApplied(c.(events := c.events + 1), t, ms, r);
  }

  /** A status update is a task with neither history nor artifacts. */
  lemma StatusIsBareTask(c: Collected, task: string, context: string, status: Status)
    ensures AddEvent(c, StatusEvent(task, context, status))
         == AddEvent(c, TaskEvent(Task(task, context, status, [], [])))
  {
    var ops := StatusOps(task, context, status);
    assert ops + Speaks([]) + Publishes([]) == ops;
  }

  lemma {:induction false} NoOtherNamed(id: string, ids: seq<string>)
    requires forall i :: 0 <= i < |ids| ==> ids[i] == "" || ids[i] == id
    ensures LastNonEmpty([id] + ids) == id
  {
    var all := [id] + ids;
    if ids == [] {
      assert all[..0] == [];
    } else {
      assert all[..|all| - 1] == [id] + ids[..|ids| - 1];
      NoOtherNamed(id, ids[..|ids| - 1]);
    }
  }

  /** Messages of the agent that name no other task or context leave those of the event recorded. */
  lemma EventIsRecorded(c: Collected, r: Collected, ms: seq<Message>, task: string, context: string)
    requires Records(c, r, [task] + TasksNamed(ms), [context] + ContextsNamed(ms))
    requires forall m :: m in ms && !m.fromUser ==> m.taskId in {"", task} && m.contextId in {"", context}
    ensures task != "" ==> r.taskId == Some(task)
    ensures context != "" ==> r.contextId == context
  {
    NoOtherNamed(task, TasksNamed(ms));
    NoOtherNamed(context, ContextsNamed(ms));
  }

  lemma SpokenOnce(c: Collected, m: Message, r: Collected)
    requires AddMessage(c, m) == (r, None)
    ensures MessagesHeld(c.messages, [m], r.messages) && SpeechFrame(c, r)
    ensures Records(c, r, [if m.fromUser then "" else m.taskId], [if m.fromUser then "" else m.contextId])
  {
    var ops := Speaks([m]);
    assert ops[..0] == [] && ops[..1] == ops;
    NextEffect(c, ops, 0);
    SpeechesHeld(c, [m]);
    SpeechesFrame(c, [m], 1);
    RecordedBySpeech(c, m);
    LastNonEmptyMore([], if m.fromUser then "" else m.taskId);
    LastNonEmptyMore([], if m.fromUser then "" else m.contextId);
  }

  /** An accepted message is held unless the user sent it, and reports the state of a message. */
  lemma MessageCollected(c: Collected, m: Message, r: Collected)
    requires AddEvent(c, MessageEvent(m)) == (r, None)
    ensures MessagesHeld(c.messages, [m], r.messages) && r.artifacts == c.artifacts
    ensures Reports(c, r, "message") && r.events == c.events + 1
    ensures Records(c, r, [if m.fromUser then "" else m.taskId], [if m.fromUser then "" else m.contextId])
  {
    var c1 := c.(events := c.events + 1);
    AcceptedIsApplied(c, MessageEvent(m), Expand(MessageEvent(m)));
    MessageEffects(c1, m);
    SpokenOnce(c1, m, AddMessage(c1, m).0);
  }

  /** The content after appending to earlier content: the name is the new one if there is one. */
  ghost predicate Extends(content: Content, earlier: Content, a: Artifact) {
    exists piece: Content ::
      && HoldsArtifact(Some(piece), a, content.name)
      && content.name == (if a.name == "" then earlier.name else Some(a.name))
      && content.text == earlier.text + piece.text && content.data == earlier.data + piece.data
      && content.files == earlier.files + piece.files && content.rawBytes == earlier.rawBytes + piece.rawBytes
  }

  lemma AppendExtends(earlier: Content, a: Artifact)
    ensures Extends(ArtifactContent(Some(earlier), a, true), earlier, a)
  {
    ReplacementHolds(Some(earlier), a, ArtifactName(Some(earlier), a));
    assert HoldsArtifact(Some(ArtifactContent(Some(earlier), a, false)), a, ArtifactName(Some(earlier), a));
  }

  lemma ArtifactStored(c: Collected, a: Artifact, append: bool, r: Collected, key: string, earlier: Option<Content>)
    requires AddArtifact(c, a, append) == (r, None)
    requires IsKey(Some(key), Some(a.id), |Keys(c.artifacts)|, "artifact-") && earlier == Lookup(c.artifacts, key)
    ensures Lookup(r.artifacts, key) == Some(ArtifactContent(earlier, a, append))
    ensures forall k :: k != key ==> Lookup(r.artifacts, k) == Lookup(c.artifacts, k)
    ensures PublishFrame(c, r)
  {
    PublishStores(c, a, append);
    assert |Keys(c.artifacts)| == |c.artifacts| && key == ArtifactKey(c.artifacts, a);
    forall k ensures Lookup(r.artifacts, k) ==
        if k == key then Some(ArtifactContent(earlier, a, append)) else Lookup(c.artifacts, k)
    {
      LookupPut(c.artifacts, key, ArtifactContent(earlier, a, append), k);
    }
  }

  /** The content a key holds after an artifact: appended to what it held, if asked for, or in its place. */
  ghost predicate ArtifactTaken(earlier: Option<Content>, a: Artifact, append: bool, content: Option<Content>) {
    && content.Some?
    && if append && earlier.Some? then Extends(content.value, earlier.value, a)
       else HoldsArtifact(content, a, if a.name == "" then NameIn(earlier) else Some(a.name))
  }

  lemma ContentIsTaken(earlier: Option<Content>, a: Artifact, append: bool)
    ensures ArtifactTaken(earlier, a, append, Some(ArtifactContent(earlier, a, append)))
  {
    if append && earlier.Some? {
      AppendExtends(earlier.value, a);
    } else {
      ReplacementHolds(earlier, a, ArtifactName(earlier, a));
    }
  }

  /** An accepted artifact is appended to what its key holds or replaces it; nothing else is touched. */
  lemma ArtifactCollected(
    c: Collected, task: string, context: string, a: Artifact, append: bool, r: Collected, key: string)
    requires AddEvent(c, ArtifactEvent(task, context, a, append)) == (r, None)
    requires IsKey(Some(key), Some(a.id), |Keys(c.artifacts)|, "artifact-")
    ensures ArtifactTaken(Lookup(c.artifacts, key), a, append, Lookup(r.artifacts, key))
    ensures forall k :: k != key ==> Lookup(r.artifacts, k) == Lookup(c.artifacts, k)
    ensures r.messages == c.messages && r.state == c.state && r.states == c.states && r.events == c.events + 1
    ensures Records(c, r, [task], [context])
  {
    var c1 := c.(events := c.events + 1);
    AcceptedIsApplied(c, ArtifactEvent(task, context, a, append), Expand(ArtifactEvent(task, context, a, append)));
    ArtifactEffects(c1, task, context, a, append);
    ArtifactStored(RecordContext(RecordTask(c1, task), context), a, append, r, key, Lookup(c.artifacts, key));
    ContentIsTaken(Lookup(c.artifacts, key), a, append);
    LastNonEmptyMore([], task);
    LastNonEmptyMore([], context);
  }

  // ---------------------------------------------------------------------------------------------
  // Which messages and artifacts are accepted
  // ---------------------------------------------------------------------------------------------

  /** Structured data has a value, and a file has a link and metadata of tolerable length. */
  predicate PartAccepted(p: Part, id: Option<string>, name: Option<string>) {
    match p
    case Prose => true
    case Data(_, _, valid) => valid
    case Raw(_, _, filename, mediaType) => MetadataFits(filename, mediaType, id, name)
    case Link(url, filename, mediaType) => |url| <= 10_000 && MetadataFits(filename, mediaType, id, name)
  }

  predicate MetadataFits(filename: string, mediaType: string, id: Option<string>, name: Option<string>) {
    && |filename| <= 1_000 && |mediaType| <= 200
    && (id.Some? ==> |id.value| <= 1_000) && (name.Some? ==> |name.value| <= 200)
  }

  predicate FileAccepted(p: Part, id: Option<string>, name: Option<string>) {
    p.Raw? || p.Link? ==> PartAccepted(p, id, name)
  }

  lemma {:induction false} FilesAcceptedExactly(parts: seq<Part>, id: Option<string>, name: Option<string>)
    ensures FileError(parts, id, name).None? <==> forall i :: 0 <= i < |parts| ==> FileAccepted(parts[i], id, name)
  {
    if parts != [] {
      FilesAcceptedExactly(parts[1..], id, name);
      assert forall i :: 0 <= i < |parts| - 1 ==> parts[1..][i] == parts[i + 1];
      assert FileAccepted(parts[0], id, name) <==> FileError(parts[..1], id, name).None?;
      if forall i :: 0 <= i < |parts| - 1 ==> FileAccepted(parts[1..][i], id, name) {
        forall i | 1 <= i < |parts| ensures FileAccepted(parts[i], id, name) {
          assert parts[1..][i - 1] == parts[i];
        }
      }
    }
  }

  lemma PartsAcceptedExactly(parts: seq<Part>, id: Option<string>, name: Option<string>)
    ensures (DataValid(parts) && FileError(parts, id, name).None?)
       <==> (forall i :: 0 <= i < |parts| ==> PartAccepted(parts[i], id, name))
  {
    FilesAcceptedExactly(parts, id, name);
    if DataValid(parts) && FileError(parts, id, name).None? {
      forall i | 0 <= i < |parts| ensures PartAccepted(parts[i], id, name) {
        assert FileAccepted(parts[i], id, name);
      }
    }
  }

  /** A message is refused when it names another task or context than the expected, or for a part of the agent. */
  lemma MessageAcceptedExactly(c: Collected, m: Message)
    ensures AddMessage(c, m).1.None? <==>
      && (c.expected.Some? ==> m.taskId in {"", c.expected.value.taskId})
      && (c.expected.Some? ==> m.contextId in {"", c.expected.value.contextId})
      && (m.fromUser || forall i :: 0 <= i < |m.parts| ==> PartAccepted(m.parts[i], None, None))
  {
    PartsAcceptedExactly(m.parts, None, None);
  }

  /** An artifact is refused for its parts alone; its identifier and the name in force go with every file. */
  lemma ArtifactAcceptedExactly(c: Collected, a: Artifact, append: bool, key: string, name: Option<string>)
    requires IsKey(Some(key), Some(a.id), |Keys(c.artifacts)|, "artifact-")
    requires name == if a.name == "" then NameIn(Lookup(c.artifacts, key)) else Some(a.name)
    ensures AddArtifact(c, a, append).1.None? <==>
      forall i :: 0 <= i < |a.parts| ==> PartAccepted(a.parts[i], if a.id == "" then None else Some(a.id), name)
  {
    PartsAcceptedExactly(a.parts, OrNone(a.id), name);
    assert |Keys(c.artifacts)| == |c.artifacts|;
  }

  /** The event names this task and this context. */
  predicate Names(e: Event, id: Identity) {
    match e
    case MessageEvent(m) => m.taskId == id.taskId && m.contextId == id.contextId
    case TaskEvent(t) => t.id == id.taskId && t.contextId == id.contextId
    case StatusEvent(task, context, _) => task == id.taskId && context == id.contextId
    case ArtifactEvent(task, context, _, _) => task == id.taskId && context == id.contextId
    case EmptyEvent => false
  }

  lemma IdentityExactly(c: Collected, e: Event)
    requires !e.EmptyEvent?
    ensures IdentityError(c, e).None? <==> (c.expected.Some? ==> Names(e, c.expected.value))
  {
  }

  predicate EffectsAccepted(c: Collected, ops: seq<Op>) {
    var (held, error) := ApplyAll(c, ops);
    error.None? && SizeError(held.messages + held.artifacts).None?
  }

  lemma AcceptedInSteps(c: Collected, e: Event, c1: Collected, ops: seq<Op>)
    requires c1 == c.(events := c.events + 1) && ops == Expand(e)
    ensures AddEvent(c, e).1.None? <==>
      && c1.events <= MAX_EVENTS && IdentityError(c1, e).None? && !e.EmptyEvent? && EffectsAccepted(c1, ops)
  {
    var (c2, error) := ApplyAll(c1, ops);
    if c1.events <= MAX_EVENTS && IdentityError(c1, e).None? && !e.EmptyEvent? {
      assert AddEvent(c, e) == if error.Some? then (c2, error) else (c2, SizeError(c2.messages + c2.artifacts));
    }
  }

  /**
   An event is accepted as one of a thousand, with a payload, naming the expected task and context if there are any,
   if each of its effects is and all that is then held is within the limits.
   */
  lemma EventAcceptedExactly(c: Collected, e: Event)
    ensures AddEvent(c, e).1.None? <==>
      && c.events < 1_000 && !e.EmptyEvent? && (c.expected.Some? ==> Names(e, c.expected.value))
      && EffectsAccepted(c.(events := c.events + 1), Expand(e))
  {
    AcceptedInSteps(c, e, c.(events := c.events + 1), Expand(e));
    if !e.EmptyEvent? { IdentityExactly(c.(events := c.events + 1), e); }
  }
}

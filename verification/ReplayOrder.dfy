/**
 When a tape answers the calls of a replay with what was recorded for them. A recording is a list of tracks, the
 calls of one trial each; a replay makes the first few calls of every track, perhaps none.
 */
module ReplayOrder {
  import opened Wrappers
  import opened Protocol
  import opened Runner
  import opened Traces
  import opened Sequences

  // ---------------------------------------------------------------------------------------------
  // In order
  // ---------------------------------------------------------------------------------------------

  predicate NoneReplayed(counts: seq<nat>) {
    forall i :: 0 <= i < |counts| ==> counts[i] == 0
  }

  /** Everything recorded after the k-th call of the first track. */
  function After(tracks: seq<seq<Reply>>, k: nat): seq<Reply>
    requires tracks != [] && k < |tracks[0]|
  {
    tracks[0][k + 1..] + Flat(tracks[1..])
  }

  predicate LastIfRaised(tracks: seq<seq<Reply>>, k: nat)
    requires tracks != [] && k < |tracks[0]|
  {
    tracks[0][k].Err? ==> Returned(After(tracks, k)) == []
  }

  /** Nothing was returned after one of the first n calls of the first track that raised. */
  predicate RaisesLastFor(tracks: seq<seq<Reply>>, n: nat)
    requires tracks != [] && n <= |tracks[0]|
  {
    forall k :: 0 <= k < n ==> LastIfRaised(tracks, k)
  }

  /**
   The condition on a recording whose tracks are replayed up to these numbers of calls: every replayed call was
   recorded, nothing was returned after a replayed call that raised, and where an outcome is left out, nothing is
   replayed in later tracks.
   */
  predicate InOrder(tracks: seq<seq<Reply>>, counts: seq<nat>)
    requires |tracks| == |counts|
  {
    tracks == [] ||
    (&& counts[0] <= |tracks[0]| && RaisesLastFor(tracks, counts[0])
     && (Returned(tracks[0][counts[0]..]) != [] ==> NoneReplayed(counts[1..]))
     && InOrder(tracks[1..], counts[1..]))
  }

  // ---------------------------------------------------------------------------------------------
  // Answered
  // ---------------------------------------------------------------------------------------------

  /** The k-th calls raise in both, or return in both with the same entry of the tape. */
  predicate SameEntry(n: nat, u: seq<Reply>, m: nat, v: seq<Reply>, k: nat)
    requires k < |v| <= |u|
  {
    u[k].Ok? == v[k].Ok? && (u[k].Ok? ==> n + |Returned(u[..k])| == m + |Returned(v[..k])|)
  }

  /** Calls u of the recording, with n outcomes recorded before, and calls v of the replay, with m read before. */
  predicate SameEntries(n: nat, u: seq<Reply>, m: nat, v: seq<Reply>) {
    |v| <= |u| && forall k :: 0 <= k < |v| ==> SameEntry(n, u, m, v, k)
  }

  /** Every call of the replay was recorded, and is answered with what was recorded for it. */
  predicate Answered(n: nat, tracks: seq<seq<Reply>>, m: nat, calls: seq<seq<Reply>>)
    decreases |tracks|
  {
    |tracks| == |calls| &&
    (tracks == [] ||
     (&& SameEntries(n, tracks[0], m, calls[0])
      && Answered(n + |Returned(tracks[0])|, tracks[1..], m + |Returned(calls[0])|, calls[1..])))
  }

  predicate AtEndIfRaised(m: nat, v: seq<Reply>, size: nat, k: nat)
    requires k < |v|
  {
    v[k].Err? ==> m + |Returned(v[..k])| == size
  }

  /** What raises in a replay found the tape at its end. */
  predicate RaisedAtEnd(m: nat, v: seq<Reply>, size: nat) {
    forall k :: 0 <= k < |v| ==> AtEndIfRaised(m, v, size, k)
  }

  predicate Exhausted(m: nat, calls: seq<seq<Reply>>, size: nat)
    decreases |calls|
  {
    calls == [] ||
    (RaisedAtEnd(m, calls[0], size) && Exhausted(m + |Returned(calls[0])|, calls[1..], size))
  }

  function Counts(calls: seq<seq<Reply>>): seq<nat> {
    seq(|calls|, i requires 0 <= i < |calls| => |calls[i]|)
  }

  // ---------------------------------------------------------------------------------------------
  // What is answered is in order
  // ---------------------------------------------------------------------------------------------

  lemma {:induction false} SamePattern(u: seq<Reply>, v: seq<Reply>, k: nat)
    requires k <= |v| <= |u| && forall j :: 0 <= j < |v| ==> u[j].Ok? == v[j].Ok?
    ensures |Returned(u[..k])| == |Returned(v[..k])|
  {
    if k > 0 {
      SamePattern(u, v, k - 1);
      assert u[..k] == u[..k - 1] + [u[k - 1]] && v[..k] == v[..k - 1] + [v[k - 1]];
      ReturnedNext(u[..k - 1], u[k - 1]);
      ReturnedNext(v[..k - 1], v[k - 1]);
    }
  }

  lemma SamePatterns(n: nat, u: seq<Reply>, m: nat, v: seq<Reply>)
    requires SameEntries(n, u, m, v)
    ensures forall j :: 0 <= j < |v| ==> u[j].Ok? == v[j].Ok?
  {
    forall j | 0 <= j < |v| ensures u[j].Ok? == v[j].Ok? { assert SameEntry(n, u, m, v, j); }
  }

  lemma CountAround(u: seq<Reply>, reply: Reply, v: seq<Reply>)
    ensures |Returned((u + [reply]) + v)| == |Returned(u)| + (if reply.Ok? then 1 else 0) + |Returned(v)|
  {
    ReturnedConcat(u + [reply], v);
    ReturnedNext(u, reply);
  }

  lemma FlatAt(tracks: seq<seq<Reply>>, k: nat)
    requires tracks != [] && k < |tracks[0]|
    ensures var u := tracks[0];
      |Returned(Flat(tracks))|
        == |Returned(u[..k])| + (if u[k].Ok? then 1 else 0) + |Returned(After(tracks, k))|
  {
    var u := tracks[0];
    assert Flat(tracks) == (u[..k] + [u[k]]) + After(tracks, k);
    CountAround(u[..k], u[k], After(tracks, k));
  }

  /** One call of the first track that is answered as recorded. */
  lemma CallInOrder(n: nat, tracks: seq<seq<Reply>>, m: nat, v: seq<Reply>, size: nat, k: nat)
    requires tracks != [] && SameEntries(n, tracks[0], m, v) && k < |v|
    requires m <= n && size == n + |Returned(Flat(tracks))|
    requires AtEndIfRaised(m, v, size, k)
    ensures m == n && LastIfRaised(tracks, k)
  {
    var u := tracks[0];
    SamePatterns(n, u, m, v);
    SamePattern(u, v, k);
    assert SameEntry(n, u, m, v, k);
    FlatAt(tracks, k);
  }

  lemma FirstInOrder(n: nat, tracks: seq<seq<Reply>>, m: nat, v: seq<Reply>, size: nat)
    requires tracks != [] && SameEntries(n, tracks[0], m, v)
    requires m <= n && size == n + |Returned(Flat(tracks))|
    requires RaisedAtEnd(m, v, size)
    ensures RaisesLastFor(tracks, |v|) && (m < n ==> v == [])
  {
    forall k | 0 <= k < |v| ensures LastIfRaised(tracks, k) {
      assert AtEndIfRaised(m, v, size, k);
      CallInOrder(n, tracks, m, v, size, k);
    }
    if v != [] {
      assert AtEndIfRaised(m, v, size, 0);
      CallInOrder(n, tracks, m, v, size, 0);
    }
  }

  /** What remains of the tape after the first track, in the recording and in the replay. */
  lemma Remaining(n: nat, tracks: seq<seq<Reply>>, m: nat, v: seq<Reply>)
    requires tracks != [] && SameEntries(n, tracks[0], m, v)
    ensures |Returned(tracks[0])| == |Returned(v)| + |Returned(tracks[0][|v|..])|
    ensures |Returned(Flat(tracks))| == |Returned(tracks[0])| + |Returned(Flat(tracks[1..]))|
  {
    var u := tracks[0];
    SamePatterns(n, u, m, v);
    SamePattern(u, v, |v|);
    assert u == u[..|v|] + u[|v|..] && v[..|v|] == v;
    ReturnedConcat(u[..|v|], u[|v|..]);
    ReturnedConcat(u, Flat(tracks[1..]));
  }

  /** The first track of a replay that is answered as recorded. */
  lemma FirstAnswered(n: nat, tracks: seq<seq<Reply>>, m: nat, v: seq<Reply>, size: nat, n': nat, m': nat)
    requires tracks != [] && SameEntries(n, tracks[0], m, v)
    requires m <= n && size == n + |Returned(Flat(tracks))| && RaisedAtEnd(m, v, size)
    requires n' == n + |Returned(tracks[0])| && m' == m + |Returned(v)|
    ensures RaisesLastFor(tracks, |v|) && (m < n ==> v == [])
    ensures m' <= n' && size == n' + |Returned(Flat(tracks[1..]))|
    ensures m < n || Returned(tracks[0][|v|..]) != [] ==> m' < n'
  {
    FirstInOrder(n, tracks, m, v, size);
    Remaining(n, tracks, m, v);
  }

  lemma CountsNext(calls: seq<seq<Reply>>)
    requires calls != []
    ensures Counts(calls) == [|calls[0]|] + Counts(calls[1..])
    ensures calls[0] == [] && NoneReplayed(Counts(calls[1..])) ==> NoneReplayed(Counts(calls))
  {
    var rest := Counts(calls[1..]);
    assert forall i :: 0 < i < |calls| ==> Counts(calls)[i] == rest[i - 1];
  }

  /** A replay answered as recorded was in order; and once outcomes were left out it made no more calls. */
  lemma {:induction false} AnsweredInOrder(
    n: nat, tracks: seq<seq<Reply>>, m: nat, calls: seq<seq<Reply>>, size: nat)
    requires Answered(n, tracks, m, calls) && Exhausted(m, calls, size)
    requires m <= n && size == n + |Returned(Flat(tracks))|
    ensures |tracks| == |calls| && InOrder(tracks, Counts(calls))
    ensures m < n ==> NoneReplayed(Counts(calls))
    decreases |tracks|
  {
    if tracks != [] {
      var v, counts, rest := calls[0], Counts(calls), Counts(calls[1..]);
      var n', m' := n + |Returned(tracks[0])|, m + |Returned(v)|;
      FirstAnswered(n, tracks, m, v, size, n', m');
      AnsweredInOrder(n', tracks[1..], m', calls[1..], size);
      CountsNext(calls);
      assert counts[0] == |v| && counts[1..] == rest;
    }
  }

  // ---------------------------------------------------------------------------------------------
  // What is in order is answered
  // ---------------------------------------------------------------------------------------------

  /**
   A tape in front of a track: n of its outcomes were recorded before, and m were read. Either nothing was left
   out, or nothing will be replayed.
   */
  predicate AtTrack(tape: seq<TurnOutcome>, n: nat, tracks: seq<seq<Reply>>, m: nat, counts: seq<nat>) {
    && n <= |tape| && tape[n..] == Returned(Flat(tracks)) && |tracks| == |counts|
    && (m == n || NoneReplayed(counts))
  }

  /** The tape answers the next call as it was recorded, if a raise was final. */
  lemma TapeAnswers(tape: seq<TurnOutcome>, n: nat, before: seq<Reply>, reply: Reply, after: seq<Reply>)
    requires n <= |tape| && tape[n..] == Returned((before + [reply]) + after)
    requires reply.Err? ==> Returned(after) == []
    ensures n + |Returned(before)| <= |tape|
    ensures var (m, played) := Played(tape, n + |Returned(before)|);
      SameReply(reply, played) && m == n + |Returned(before + [reply])|
  {
    ReturnedConcat(before + [reply], after);
    ReturnedNext(before, reply);
    var p := |Returned(before)|;
    assert |tape| == n + |Returned((before + [reply]) + after)|;
    if reply.Ok? { assert tape[n..][p] == reply.value && tape[n + p] == tape[n..][p]; }
  }

  lemma TrackCall(tape: seq<TurnOutcome>, n: nat, tracks: seq<seq<Reply>>, count: nat, k: nat)
    requires tracks != [] && k < count <= |tracks[0]| && RaisesLastFor(tracks, count)
    requires n <= |tape| && tape[n..] == Returned(Flat(tracks))
    ensures var (m, played) := Played(tape, n + |Returned(tracks[0][..k])|);
      SameReply(tracks[0][k], played) && m == n + |Returned(tracks[0][..k] + [tracks[0][k]])|
  {
    var u := tracks[0];
    assert LastIfRaised(tracks, k);
    assert Flat(tracks) == (u[..k] + [u[k]]) + After(tracks, k);
    TapeAnswers(tape, n, u[..k], u[k], After(tracks, k));
  }

  lemma TrackStep(tape: seq<TurnOutcome>, n: nat, u: seq<Reply>, k: nat)
    requires k < |u| && Moved(Tape(tape), n, k) == n + |Returned(u[..k])|
    requires Played(tape, n + |Returned(u[..k])|).0 == n + |Returned(u[..k] + [u[k]])|
    ensures Moved(Tape(tape), n, k + 1) == n + |Returned(u[..k + 1])|
  {
    assert u[..k + 1] == u[..k] + [u[k]];
  }

  /** Reading the first track from the start of its outcomes. */
  lemma {:induction false} TrackRead(
    tape: seq<TurnOutcome>, n: nat, tracks: seq<seq<Reply>>, count: nat, k: nat)
    requires tracks != [] && count <= |tracks[0]| && RaisesLastFor(tracks, count) && k <= count
    requires n <= |tape| && tape[n..] == Returned(Flat(tracks))
    ensures Moved(Tape(tape), n, k) == n + |Returned(tracks[0][..k])|
  {
    if k > 0 {
      TrackRead(tape, n, tracks, count, k - 1);
      TrackCall(tape, n, tracks, count, k - 1);
      TrackStep(tape, n, tracks[0], k - 1);
    }
  }

  lemma ReturnedApart(u: seq<Reply>, count: nat, rest: seq<Reply>)
    requires count <= |u|
    ensures Returned(u + rest) == Returned(u) + Returned(rest)
    ensures Returned(u) == Returned(u[..count]) + Returned(u[count..])
  {
    assert u == u[..count] + u[count..];
    ReturnedConcat(u[..count], u[count..]);
    ReturnedConcat(u, rest);
  }

  lemma CallAgrees(tape: seq<TurnOutcome>, n: nat, tracks: seq<seq<Reply>>, count: nat, k: nat)
    requires tracks != [] && k < count <= |tracks[0]| && RaisesLastFor(tracks, count)
    requires n <= |tape| && tape[n..] == Returned(Flat(tracks))
    ensures SameReply(tracks[0][k], Next(Tape(tape), Moved(Tape(tape), n, k)).1)
  {
    TrackRead(tape, n, tracks, count, k);
    TrackCall(tape, n, tracks, count, k);
  }

  lemma TrackAgrees(tape: seq<TurnOutcome>, n: nat, tracks: seq<seq<Reply>>, count: nat)
    requires n <= |tape| && tape[n..] == Returned(Flat(tracks)) && tracks != []
    requires count <= |tracks[0]| && RaisesLastFor(tracks, count)
    ensures Agrees(Tape(tape), n, tracks[0][..count])
  {
    var calls := tracks[0][..count];
    forall k | 0 <= k < count ensures SameReply(calls[k], Next(Tape(tape), Moved(Tape(tape), n, k)).1) {
      CallAgrees(tape, n, tracks, count, k);
    }
  }

  lemma TrackReplayed(tape: seq<TurnOutcome>, n: nat, tracks: seq<seq<Reply>>, m: nat, count: nat)
    requires n <= |tape| && tape[n..] == Returned(Flat(tracks)) && tracks != []
    requires count <= |tracks[0]| && RaisesLastFor(tracks, count) && (m == n || count == 0)
    ensures Agrees(Tape(tape), m, tracks[0][..count])
    ensures Moved(Tape(tape), m, count) == m + |Returned(tracks[0][..count])|
  {
    if count > 0 {
      TrackAgrees(tape, n, tracks, count);
      TrackRead(tape, n, tracks, count, count);
    }
  }

  /** In order, the tape answers the replayed calls of the next track as recorded. */
  lemma TrackAnswered(tape: seq<TurnOutcome>, n: nat, tracks: seq<seq<Reply>>, m: nat, counts: seq<nat>)
    requires AtTrack(tape, n, tracks, m, counts) && InOrder(tracks, counts) && tracks != []
    ensures Agrees(Tape(tape), m, tracks[0][..counts[0]])
    ensures Moved(Tape(tape), m, counts[0]) == m + |Returned(tracks[0][..counts[0]])|
    ensures AtTrack(tape, n + |Returned(tracks[0])|, tracks[1..], Moved(Tape(tape), m, counts[0]), counts[1..])
  {
    var u := tracks[0];
    TrackReplayed(tape, n, tracks, m, counts[0]);
    ReturnedApart(u, counts[0], Flat(tracks[1..]));
    assert tape[n..][|Returned(u)|..] == tape[n + |Returned(u)|..];
  }

  lemma SameTracesSameEntries(n: nat, u: seq<Reply>, m: nat, v: seq<Reply>)
    requires |v| <= |u| && SameTraces(u[..|v|], v) && (v != [] ==> n == m)
    ensures SameEntries(n, u, m, v)
  {
    forall k | 0 <= k < |v| ensures SameEntry(n, u, m, v, k) {
      assert SameReply(u[..|v|][k], v[k]);
      assert SameTraces(u[..k], v[..k]) by {
        forall j | 0 <= j < k ensures SameReply(u[..k][j], v[..k][j]) { assert SameReply(u[..|v|][j], v[j]); }
      }
      SameReturned(u[..k], v[..k]);
    }
  }

  /** The replay of a track that was answered alike. */
  predicate Repeats(u: seq<Reply>, count: nat, v: seq<Reply>) {
    count <= |u| && SameTraces(u[..count], v)
  }

  predicate AllRepeat(tracks: seq<seq<Reply>>, counts: seq<nat>, calls: seq<seq<Reply>>) {
    |tracks| == |counts| == |calls| && forall i :: 0 <= i < |tracks| ==> Repeats(tracks[i], counts[i], calls[i])
  }

  lemma RepeatsNext(n: nat, u: seq<Reply>, count: nat, m: nat, v: seq<Reply>)
    requires Repeats(u, count, v) && (count > 0 ==> m == n)
    ensures SameEntries(n, u, m, v) && |Returned(v)| == |Returned(u[..count])|
  {
    SameTracesSameEntries(n, u, m, v);
    SameReturned(u[..count], v);
  }

  /** Calls repeated in order are answered as recorded. */
  lemma {:induction false} InOrderAnswered(
    n: nat, tracks: seq<seq<Reply>>, counts: seq<nat>, m: nat, calls: seq<seq<Reply>>)
    requires AllRepeat(tracks, counts, calls) && InOrder(tracks, counts) && (m == n || NoneReplayed(counts))
    ensures Answered(n, tracks, m, calls)
    decreases |tracks|
  {
    if tracks != [] {
      assert Repeats(tracks[0], counts[0], calls[0]);
      RepeatsNext(n, tracks[0], counts[0], m, calls[0]);
      ReturnedApart(tracks[0], counts[0], []);
      AllRepeatRest(tracks, counts, calls);
      InOrderAnswered(
        n + |Returned(tracks[0])|, tracks[1..], counts[1..], m + |Returned(calls[0])|, calls[1..]);
    }
  }

  lemma AllRepeatRest(tracks: seq<seq<Reply>>, counts: seq<nat>, calls: seq<seq<Reply>>)
    requires AllRepeat(tracks, counts, calls) && tracks != []
    ensures AllRepeat(tracks[1..], counts[1..], calls[1..])
  {
    forall i | 0 <= i < |tracks| - 1 ensures Repeats(tracks[1..][i], counts[1..][i], calls[1..][i]) {
      assert Repeats(tracks[i + 1], counts[i + 1], calls[i + 1]);
    }
  }
}

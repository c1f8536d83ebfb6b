/** Facts about sequences that several modules use. */
module Sequences {

  function Without<T>(s: seq<T>, k: nat): seq<T>
    requires k < |s|
  {
    s[..k] + s[k+1..]
  }

  lemma MultisetWithout<T>(s: seq<T>, k: nat)
    requires k < |s|
    ensures multiset(Without(s, k)) == multiset(s) - multiset{s[k]}
  {
    assert s == s[..k] + ([s[k]] + s[k+1..]);
  }

  lemma Associative<T>(a: seq<T>, b: seq<T>, c: seq<T>)
    ensures (a + b) + c == a + (b + c)
  {
  }

  /** All parts, one behind the other. */
  function Flat<T>(parts: seq<seq<T>>): seq<T> {
    if parts == [] then [] else parts[0] + Flat(parts[1..])
  }

  lemma FlatFirst<T>(part: seq<T>, rest: seq<seq<T>>)
    ensures Flat([part] + rest) == part + Flat(rest)
  {
    assert ([part] + rest)[1..] == rest;
  }

  lemma {:induction false} FlatConcat<T>(x: seq<seq<T>>, y: seq<seq<T>>)
    ensures Flat(x + y) == Flat(x) + Flat(y)
  {
    if x == [] {
      assert x + y == y;
    } else {
      assert (x + y)[1..] == x[1..] + y;
      FlatConcat(x[1..], y);
      Associative(x[0], Flat(x[1..]), Flat(y));
    }
  }

  /** The distinct elements in the order in which they first occur. */
  function FirstSeen<T(==)>(s: seq<T>): seq<T> {
    if s == [] then []
    else
      var before, last := FirstSeen(s[..|s| - 1]), s[|s| - 1];
      if last in before then before else before + [last]
  }

  lemma FirstSeenAppended<T>(s: seq<T>, x: T)
    ensures FirstSeen(s + [x]) == if x in FirstSeen(s) then FirstSeen(s) else FirstSeen(s) + [x]
  {
    assert (s + [x])[..|s|] == s;
  }

  /** The chosen positions, all of them and in order. */
  ghost predicate Enumerates(at: seq<nat>, chosen: seq<bool>) {
    && (forall k :: 0 <= k < |at| ==> at[k] < |chosen| && chosen[at[k]])
    && (forall j, k :: 0 <= j < k < |at| ==> at[j] < at[k])
    && (forall i: nat :: i < |chosen| && chosen[i] ==> i in at)
  }

  lemma EnumeratesMore(at: seq<nat>, chosen: seq<bool>, more: bool)
    requires Enumerates(at, chosen)
    ensures Enumerates(if more then at + [|chosen|] else at, chosen + [more])
  {
    var longer := if more then at + [|chosen|] else at;
    forall i: nat | i < |chosen| + 1 && (chosen + [more])[i] ensures i in longer {
      if i < |chosen| { assert i in at; }
    }
  }
}

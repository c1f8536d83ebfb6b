/**
 Redacted records: the shape of a record is kept, each text is redacted by itself, and a record without a secret
 is kept as it is.
 */
module Records {
  import opened Sequences
  import opened Wrappers
  import opened Json
  import opened Evidence

  // ---------------------------------------------------------------------------------------------
  // Texts
  // ---------------------------------------------------------------------------------------------

  lemma {:induction false} NothingToReplace(fold: Folding, secret: string, text: string)
    requires secret != "" && !Occurs(fold, secret, text)
    ensures Substitute(fold, secret, text) == text
  {
    if text != "" {
      NothingToReplace(fold, secret, text[1..]);
      assert text == [text[0]] + text[1..];
    }
  }

  /** The secret does not start at any of the first n positions. */
  predicate StartsNowhere(fold: Folding, secret: string, text: string, n: nat) {
    n <= |text| && forall i :: 0 <= i < n ==> !Starts(fold, secret, text[i..])
  }

  lemma {:induction false} CharacterKept(fold: Folding, secret: string, text: string)
    requires secret != "" && text != "" && !Starts(fold, secret, text)
    ensures Substitute(fold, secret, text) == [text[0]] + Substitute(fold, secret, text[1..])
  {
  }

  /** The first match is replaced by the marker, what is before it is kept, and the search goes on behind it. */
  lemma {:induction false} FirstMatchReplaced(fold: Folding, secret: string, before: string, hit: string, rest: string)
    requires secret != "" && |hit| == |secret| && Starts(fold, secret, hit + rest)
    requires StartsNowhere(fold, secret, before + (hit + rest), |before|)
    ensures Substitute(fold, secret, before + (hit + rest)) == before + ("[REDACTED]" + Substitute(fold, secret, rest))
  {
    var text := before + (hit + rest);
    if before == "" {
      assert text == hit + rest && text[|secret|..] == rest;
      assert before + ("[REDACTED]" + Substitute(fold, secret, rest)) == "[REDACTED]" + Substitute(fold, secret, rest);
    } else {
      assert text[0..] == text && text[1..] == before[1..] + (hit + rest);
      forall i | 0 <= i < |before| - 1 ensures !Starts(fold, secret, text[1..][i..]) {
        assert text[1..][i..] == text[i + 1..];
      }
      FirstMatchReplaced(fold, secret, before[1..], hit, rest);
      CharacterKept(fold, secret, text);
      assert before == [before[0]] + before[1..];
      Associative([before[0]], before[1..], "[REDACTED]" + Substitute(fold, secret, rest));
    }
  }

  lemma {:induction false} TextUnchanged(fold: Folding, secrets: seq<string>, text: string)
    requires NoneEmpty(secrets) && forall k :: 0 <= k < |secrets| ==> !Occurs(fold, secrets[k], text)
    ensures RedactText(fold, secrets, text) == text
  {
    if secrets != [] {
      TextUnchanged(fold, secrets[..|secrets| - 1], text);
      NothingToReplace(fold, secrets[|secrets| - 1], text);
    }
  }

  // ---------------------------------------------------------------------------------------------
  // Members
  // ---------------------------------------------------------------------------------------------

  function KeysOf(members: seq<Member>): (keys: seq<string>)
    ensures |keys| == |members|
  {
    seq(|members|, i requires 0 <= i < |members| => members[i].key)
  }

  /** The value of the first member named `key`. */
  function ValueAt(members: seq<Member>, key: string): Option<Json> {
    var i := FindKey(members, key);
    if i < |members| then Some(members[i].value) else None
  }

  lemma StoredKeys(members: seq<Member>, m: Member)
    ensures KeysOf(Store(members, m))
         == if m.key in KeysOf(members) then KeysOf(members) else KeysOf(members) + [m.key]
  {
    var i := FindKey(members, m.key);
    if i < |members| {
      assert KeysOf(members)[i] == m.key;
    } else {
      assert forall j :: 0 <= j < |members| ==> KeysOf(members)[j] == members[j].key;
    }
  }

  lemma FoundAt(members: seq<Member>, key: string, i: nat)
    requires i < |members| && members[i].key == key && forall j :: 0 <= j < i ==> members[j].key != key
    ensures FindKey(members, key) == i
  {
  }

  lemma StoredValue(members: seq<Member>, m: Member, key: string)
    ensures ValueAt(Store(members, m), key) == if key == m.key then Some(m.value) else ValueAt(members, key)
  {
    var stored, i, j := Store(members, m), FindKey(members, m.key), FindKey(members, key);
    if key == m.key {
      FoundAt(stored, key, i);
    } else if j < |members| {
      FoundAt(stored, key, j);
    } else {
      assert FindKey(stored, key) == |stored|;
    }
  }

  function RedactedKeys(fold: Folding, secrets: seq<string>, members: seq<Member>): (keys: seq<string>)
    requires NoneEmpty(secrets)
    ensures |keys| == |members|
  {
    seq(|members|, i requires 0 <= i < |members| => RedactText(fold, secrets, members[i].key))
  }

  lemma LastStored(fold: Folding, secrets: seq<string>, members: seq<Member>)
    requires NoneEmpty(secrets) && members != []
    ensures var init, last := members[..|members| - 1], members[|members| - 1];
      && RedactMembers(fold, secrets, members)
         == Store(RedactMembers(fold, secrets, init),
                  Member(RedactText(fold, secrets, last.key), RedactJson(fold, secrets, last.value)))
      && RedactedKeys(fold, secrets, members)
         == RedactedKeys(fold, secrets, init) + [RedactText(fold, secrets, last.key)]
  {
  }

  /** The keys of a redacted object are its distinct redacted keys in their order. */
  lemma {:induction false} ShownKeys(fold: Folding, secrets: seq<string>, members: seq<Member>)
    requires NoneEmpty(secrets)
    ensures KeysOf(RedactMembers(fold, secrets, members)) == FirstSeen(RedactedKeys(fold, secrets, members))
  {
    if members != [] {
      var init, last := members[..|members| - 1], members[|members| - 1];
      var key := RedactText(fold, secrets, last.key);
      ShownKeys(fold, secrets, init);
      LastStored(fold, secrets, members);
      StoredKeys(RedactMembers(fold, secrets, init), Member(key, RedactJson(fold, secrets, last.value)));
      FirstSeenAppended(RedactedKeys(fold, secrets, init), key);
    }
  }

  /** No later key is redacted to the same. */
  predicate LastWithKey(keys: seq<string>, i: nat) {
    i < |keys| && forall j :: i < j < |keys| ==> keys[j] != keys[i]
  }

  /** A redacted key shows the redacted value of the last member with that redacted key. */
  lemma {:induction false} ShownValue(fold: Folding, secrets: seq<string>, members: seq<Member>, i: nat)
    requires NoneEmpty(secrets) && LastWithKey(RedactedKeys(fold, secrets, members), i)
    ensures ValueAt(RedactMembers(fold, secrets, members), RedactedKeys(fold, secrets, members)[i])
         == Some(RedactJson(fold, secrets, members[i].value))
  {
    var keys, init, last := RedactedKeys(fold, secrets, members), members[..|members| - 1], members[|members| - 1];
    LastStored(fold, secrets, members);
    StoredValue(RedactMembers(fold, secrets, init),
                Member(RedactText(fold, secrets, last.key), RedactJson(fold, secrets, last.value)), keys[i]);
    if i < |members| - 1 {
      var before := RedactedKeys(fold, secrets, init);
      assert keys[..|members| - 1] == before && keys[|members| - 1] != keys[i];
      forall j | i < j < |before| ensures before[j] != before[i] { assert before[j] == keys[j]; }
      ShownValue(fold, secrets, init, i);
    }
  }

  // ---------------------------------------------------------------------------------------------
  // Shape
  // ---------------------------------------------------------------------------------------------

  /** The same kind of value; items one by one, and members by their redacted keys. */
  ghost predicate SameShape(fold: Folding, secrets: seq<string>, v: Json, shown: Json)
    requires NoneEmpty(secrets)
  {
    match v
    case Text(text) => shown == Text(RedactText(fold, secrets, text))
    case Array(items) =>
      && shown.Array? && |shown.items| == |items|
      && forall i :: 0 <= i < |items| ==> shown.items[i] == RedactJson(fold, secrets, items[i])
    case Object(members) =>
      var keys := RedactedKeys(fold, secrets, members);
      && shown.Object? && KeysOf(shown.members) == FirstSeen(keys)
      && forall i: nat :: LastWithKey(keys, i) ==>
        ValueAt(shown.members, keys[i]) == Some(RedactJson(fold, secrets, members[i].value))
    case _ => shown == v
  }

  lemma {:induction false} ItemsShown(fold: Folding, secrets: seq<string>, items: seq<Json>)
    requires NoneEmpty(secrets)
    ensures var shown := RedactItems(fold, secrets, items);
      |shown| == |items| && forall i :: 0 <= i < |items| ==> shown[i] == RedactJson(fold, secrets, items[i])
  {
    if items != [] { ItemsShown(fold, secrets, items[..|items| - 1]); }
  }

  /** Redaction keeps the shape of a record at every level. */
  lemma ShapeKept(fold: Folding, secrets: seq<string>, v: Json)
    requires NoneEmpty(secrets)
    ensures SameShape(fold, secrets, v, RedactJson(fold, secrets, v))
  {
    match v {
      case Array(items) => ItemsShown(fold, secrets, items);
      case Object(members) =>
        var keys := RedactedKeys(fold, secrets, members);
        ShownKeys(fold, secrets, members);
        forall i: nat | LastWithKey(keys, i)
          ensures ValueAt(RedactMembers(fold, secrets, members), keys[i])
               == Some(RedactJson(fold, secrets, members[i].value))
        {
          ShownValue(fold, secrets, members, i);
        }
      case _ =>
    }
  }

  // ---------------------------------------------------------------------------------------------
  // Records without a secret
  // ---------------------------------------------------------------------------------------------

  /** No object has two members of the same name, as in every record that was read or built from a dictionary. */
  predicate Dictionary(v: Json)
    decreases v, 0
  {
    match v
    case Array(items) => Dictionaries(items)
    case Object(members) => Named(members)
    case _ => true
  }

  predicate Dictionaries(items: seq<Json>)
    decreases items, 1
  {
    items == [] || (Dictionary(items[|items| - 1]) && Dictionaries(items[..|items| - 1]))
  }

  predicate Named(members: seq<Member>)
    decreases members, 1
  {
    members == []
    || (var init, last := members[..|members| - 1], members[|members| - 1];
        last.key !in KeysOf(init) && Dictionary(last.value) && Named(init))
  }

  predicate Clean(fold: Folding, secrets: seq<string>, v: Json) {
    forall k :: 0 <= k < |secrets| ==> Free(fold, secrets[k], v)
  }

  /** A record without a secret is kept as it is. */
  lemma {:induction false} CleanUnchanged(fold: Folding, secrets: seq<string>, v: Json)
    requires NoneEmpty(secrets) && Dictionary(v) && Clean(fold, secrets, v)
    ensures RedactJson(fold, secrets, v) == v
    decreases v, 0
  {
    match v {
      case Text(text) => TextUnchanged(fold, secrets, text);
      case Array(items) => CleanItems(fold, secrets, items);
      case Object(members) => CleanMembers(fold, secrets, members);
      case _ =>
    }
  }

  lemma {:induction false} CleanItems(fold: Folding, secrets: seq<string>, items: seq<Json>)
    requires NoneEmpty(secrets) && Dictionaries(items)
    requires forall k :: 0 <= k < |secrets| ==> AllFree(fold, secrets[k], items)
    ensures RedactItems(fold, secrets, items) == items
    decreases items, 1
  {
    if items != [] {
      CleanItems(fold, secrets, items[..|items| - 1]);
      CleanUnchanged(fold, secrets, items[|items| - 1]);
    }
  }

  lemma {:induction false} CleanMembers(fold: Folding, secrets: seq<string>, members: seq<Member>)
    requires NoneEmpty(secrets) && Named(members)
    requires forall k :: 0 <= k < |secrets| ==> MembersFree(fold, secrets[k], members)
    ensures RedactMembers(fold, secrets, members) == members
    decreases members, 1
  {
    if members != [] {
      var init, last := members[..|members| - 1], members[|members| - 1];
      CleanMembers(fold, secrets, init);
      TextUnchanged(fold, secrets, last.key);
      CleanUnchanged(fold, secrets, last.value);
      assert forall j :: 0 <= j < |init| ==> KeysOf(init)[j] == init[j].key;
    }
  }
}

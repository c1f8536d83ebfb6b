/**
 JSON Pointers (RFC 6901): splitting and unescaping a pointer into reference tokens (sections 3 and
 4), printing tokens back, and evaluating a token list against a value.
 */
module Pointer {
  import opened Wrappers
  import opened Json
  import opened Decimal

  // ---------------------------------------------------------------------------------------------
  // Text operations of the parser
  // ---------------------------------------------------------------------------------------------

  /** The pieces of s between separators; always at least one. */
  function Split(s: string, sep: char): (pieces: seq<string>)
    ensures pieces != []
  {
    if s == "" then [""]
    else
      var rest := Split(s[1..], sep);
      if s[0] == sep then [""] + rest else [[s[0]] + rest[0]] + rest[1..]
  }

  /** Replaces every occurrence of the two characters a, b, from left to right, by c. */
  function ReplacePair(s: string, a: char, b: char, c: char): string {
    if |s| < 2 then s
    else if s[0] == a && s[1] == b then [c] + ReplacePair(s[2..], a, b, c)
    else [s[0]] + ReplacePair(s[1..], a, b, c)
  }

  /** Decodes one token: "~1" first, "~0" second. */
  function Unescape(encoded: string): string {
    ReplacePair(ReplacePair(encoded, '~', '1', '/'), '~', '0', '~')
  }

  function UnescapeAll(pieces: seq<string>): (tokens: seq<string>)
    ensures |tokens| == |pieces|
  {
    if pieces == [] then [] else [Unescape(pieces[0])] + UnescapeAll(pieces[1..])
  }

  /** The reference tokens of a pointer; whatever precedes the first slash is dropped. */
  function Parse(pointer: string): seq<string> {
    UnescapeAll(Split(pointer, '/')[1..])
  }

  /** The validation pattern: empty, or a slash and then text in which every tilde starts ~0 or ~1. */
  predicate Valid(pointer: string) {
    pointer == "" || (pointer[0] == '/' && TildesPaired(pointer))
  }

  predicate TildesPaired(s: string) {
    s == ""
    || (if s[0] == '~' then |s| >= 2 && s[1] in "01" && TildesPaired(s[2..]) else TildesPaired(s[1..]))
  }

  // ---------------------------------------------------------------------------------------------
  // Printing
  // ---------------------------------------------------------------------------------------------

  /** Encodes one token as section 3 prescribes. */
  function Escape(token: string): string {
    if token == "" then ""
    else (if token[0] == '~' then "~0" else if token[0] == '/' then "~1" else [token[0]]) + Escape(token[1..])
  }

  function Print(tokens: seq<string>): string {
    if tokens == [] then "" else "/" + Escape(tokens[0]) + Print(tokens[1..])
  }

  // ---------------------------------------------------------------------------------------------
  // The two replacement passes against decoding in one pass
  // ---------------------------------------------------------------------------------------------

  /** Decoding character by character, the reading section 4 intends for well-formed tokens. */
  function Decode(s: string): string {
    if s == "" then ""
    else if s[0] == '~' && |s| >= 2 && s[1] == '0' then "~" + Decode(s[2..])
    else if s[0] == '~' && |s| >= 2 && s[1] == '1' then "/" + Decode(s[2..])
    else [s[0]] + Decode(s[1..])
  }

  lemma {:induction false} PassStep(s: string, t: string)
    requires s != "" && t == ReplacePair(s, '~', '1', '/') && TildesPaired(s)
    ensures s[0] == '~' && s[1] == '0' ==> t == "~0" + ReplacePair(s[2..], '~', '1', '/')
    ensures s[0] == '~' && s[1] == '1' ==> t == "/" + ReplacePair(s[2..], '~', '1', '/')
    ensures s[0] != '~' ==> t == [s[0]] + ReplacePair(s[1..], '~', '1', '/')
  {
    if s[0] == '~' && s[1] == '0' {
      assert s[1..][0] == '0' && s[1..][1..] == s[2..];
      assert ReplacePair(s[1..], '~', '1', '/') == ['0'] + ReplacePair(s[2..], '~', '1', '/');
    }
  }

  /** On well-formed tokens, replacing "~1" and then "~0" is decoding in one pass. */
  lemma {:induction false} TwoPassesDecode(s: string)
    requires TildesPaired(s)
    ensures Unescape(s) == Decode(s)
  {
    if s != "" {
      var t := ReplacePair(s, '~', '1', '/');
      PassStep(s, t);
      if s[0] == '~' {
        TwoPassesDecode(s[2..]);
        var rest := ReplacePair(s[2..], '~', '1', '/');
        if s[1] == '0' {
          assert t[2..] == rest;
        } else {
          assert t[1..] == rest;
        }
      } else {
        TwoPassesDecode(s[1..]);
        var rest := ReplacePair(s[1..], '~', '1', '/');
        assert t[1..] == rest;
      }
    }
  }

  lemma {:induction false} DecodeEscape(token: string)
    ensures TildesPaired(Escape(token)) && Decode(Escape(token)) == token
    ensures forall i :: 0 <= i < |Escape(token)| ==> Escape(token)[i] != '/'
  {
    if token != "" {
      DecodeEscape(token[1..]);
      var e := Escape(token);
      var rest := Escape(token[1..]);
      if token[0] == '~' || token[0] == '/' {
        assert e[2..] == rest;
      } else {
        assert e[1..] == rest;
      }
    }
  }

  lemma {:induction false} EscapeDecode(s: string)
    requires TildesPaired(s) && forall i :: 0 <= i < |s| ==> s[i] != '/'
    ensures Escape(Decode(s)) == s
  {
    if s != "" {
      var d := Decode(s);
      if s[0] == '~' {
        EscapeDecode(s[2..]);
        assert d[1..] == Decode(s[2..]);
        assert s == s[..2] + s[2..];
      } else {
        EscapeDecode(s[1..]);
        assert d[1..] == Decode(s[1..]);
        assert s == [s[0]] + s[1..];
      }
    }
  }

  // ---------------------------------------------------------------------------------------------
  // Parsing and printing are inverse
  // ---------------------------------------------------------------------------------------------

  lemma {:induction false} SplitPiece(piece: string, rest: string)
    requires forall i :: 0 <= i < |piece| ==> piece[i] != '/'
    requires rest == "" || rest[0] == '/'
    ensures Split(piece + rest, '/') == [piece] + Split(rest, '/')[1..]
  {
    if piece == "" {
      assert piece + rest == rest;
      if rest != "" { assert Split(rest, '/') == [""] + Split(rest[1..], '/'); }
    } else {
      SplitPiece(piece[1..], rest);
      assert (piece + rest)[1..] == piece[1..] + rest;
      assert [piece[0]] + piece[1..] == piece;
    }
  }

  lemma {:induction false} PairedConcat(s: string, t: string)
    requires TildesPaired(s)
    ensures TildesPaired(s + t) <==> TildesPaired(t)
  {
    if s == "" {
      assert s + t == t;
    } else if s[0] == '~' {
      assert (s + t)[2..] == s[2..] + t;
      PairedConcat(s[2..], t);
    } else {
      assert (s + t)[1..] == s[1..] + t;
      PairedConcat(s[1..], t);
    }
  }

  lemma SlashPaired(s: string)
    ensures Valid("/" + s) <==> TildesPaired(s)
  {
    assert ("/" + s)[1..] == s;
  }

  lemma {:induction false} PrintIsValid(tokens: seq<string>)
    ensures Valid(Print(tokens))
  {
    if tokens != [] {
      var piece, rest := Escape(tokens[0]), Print(tokens[1..]);
      PrintIsValid(tokens[1..]);
      DecodeEscape(tokens[0]);
      PairedConcat(piece, rest);
      SlashPaired(piece + rest);
      assert Print(tokens) == "/" + (piece + rest);
    }
  }

  lemma SplitSlash(s: string)
    ensures Split("/" + s, '/') == [""] + Split(s, '/')
  {
    assert ("/" + s)[1..] == s;
  }

  lemma UnescapeFirst(piece: string, pieces: seq<string>)
    ensures UnescapeAll([piece] + pieces) == [Unescape(piece)] + UnescapeAll(pieces)
  {
  }

  /** A pointer starting with a piece parses to the decoded piece and the tokens of what follows. */
  lemma ParseFirst(piece: string, rest: string)
    requires forall i :: 0 <= i < |piece| ==> piece[i] != '/'
    requires rest == "" || rest[0] == '/'
    ensures Parse("/" + piece + rest) == [Unescape(piece)] + Parse(rest)
  {
    assert "/" + piece + rest == "/" + (piece + rest);
    SplitSlash(piece + rest);
    SplitPiece(piece, rest);
    UnescapeFirst(piece, Split(rest, '/')[1..]);
  }

  /** Printed tokens parse back to themselves, whatever characters they hold. */
  lemma {:induction false} ParsePrint(tokens: seq<string>)
    ensures Parse(Print(tokens)) == tokens
  {
    if tokens != [] {
      var piece := Escape(tokens[0]);
      ParsePrint(tokens[1..]);
      DecodeEscape(tokens[0]);
      TwoPassesDecode(piece);
      ParseFirst(piece, Print(tokens[1..]));
    }
  }

  /** The escapes as RFC 6901 gives them in section 3, and its example of section 4. */
  lemma EscapesOfRfc()
    ensures Unescape("~0") == "~" && Unescape("~1") == "/" && Unescape("~01") == "~1"
  {
    assert Decode("~01") == "~" + Decode("~01"[2..]) && "~01"[2..] == "1";
    TwoPassesDecode("~0");
    TwoPassesDecode("~1");
    TwoPassesDecode("~01");
  }

  /** A name without the characters that pointers escape. */
  predicate Plain(name: string) {
    forall i :: 0 <= i < |name| ==> name[i] != '~' && name[i] != '/'
  }

  lemma {:induction false} NothingToDecode(s: string)
    requires Plain(s)
    ensures TildesPaired(s) && Decode(s) == s
  {
    if s != "" {
      NothingToDecode(s[1..]);
      assert s == [s[0]] + s[1..];
    }
  }

  /** A slash and a plain name lead to the member of that name. */
  lemma PlainToken(name: string)
    requires Plain(name)
    ensures Parse("/" + name) == [name]
  {
    NothingToDecode(name);
    TwoPassesDecode(name);
    ParseFirst(name, "");
    assert "/" + name + "" == "/" + name;
  }

  /** The text up to the next slash. */
  function Head(s: string): (h: string)
    ensures |h| <= |s| && s[..|h|] == h
    ensures forall i :: 0 <= i < |h| ==> h[i] != '/'
    ensures |h| < |s| ==> s[|h|] == '/'
  {
    if s == "" || s[0] == '/' then "" else [s[0]] + Head(s[1..])
  }

  lemma {:induction false} PairedHead(s: string)
    requires TildesPaired(s)
    ensures TildesPaired(Head(s)) && TildesPaired(s[|Head(s)|..])
  {
    if s != "" && s[0] != '/' {
      if s[0] == '~' {
        PairedHead(s[2..]);
        assert Head(s) == s[..2] + Head(s[2..]);
        assert Head(s)[2..] == Head(s[2..]);
        assert s[|Head(s)|..] == s[2..][|Head(s[2..])|..];
      } else {
        PairedHead(s[1..]);
        assert Head(s)[1..] == Head(s[1..]);
        assert s[|Head(s)|..] == s[1..][|Head(s[1..])|..];
      }
    }
  }

  /** A non-empty accepted pointer is a slash, a piece without slashes, and an accepted pointer. */
  lemma SplitFirst(pointer: string) returns (piece: string, rest: string)
    requires Valid(pointer) && pointer != ""
    ensures pointer == "/" + piece + rest && |rest| < |pointer|
    ensures TildesPaired(piece) && (forall i :: 0 <= i < |piece| ==> piece[i] != '/') && Valid(rest)
  {
    var body := pointer[1..];
    assert pointer == "/" + body;
    SlashPaired(body);
    PairedHead(body);
    piece := Head(body);
    rest := body[|piece|..];
    assert body == piece + rest;
  }

  /** On pointers the validator accepts, printing undoes parsing. */
  lemma {:induction false} PrintParse(pointer: string)
    requires Valid(pointer)
    ensures Print(Parse(pointer)) == pointer
    decreases |pointer|
  {
    if pointer != "" {
      var piece, rest := SplitFirst(pointer);
      PrintParse(rest);
      PrintOfParsed(piece, rest);
    }
  }

  lemma PrintOfParsed(piece: string, rest: string)
    requires TildesPaired(piece) && forall i :: 0 <= i < |piece| ==> piece[i] != '/'
    requires rest == "" || rest[0] == '/'
    ensures Print(Parse("/" + piece + rest)) == "/" + piece + Print(Parse(rest))
  {
    ParseFirst(piece, rest);
    TwoPassesDecode(piece);
    EscapeDecode(piece);
  }

  /** Printing undoes parsing for exactly the strings the validator accepts. */
  lemma PrintParseExactly(pointer: string)
    ensures Print(Parse(pointer)) == pointer <==> Valid(pointer)
  {
    PrintIsValid(Parse(pointer));
    if Valid(pointer) { PrintParse(pointer); }
  }

  // ---------------------------------------------------------------------------------------------
  // Evaluation
  // ---------------------------------------------------------------------------------------------

  /** The child position a token selects in a value, if any (section 4). */
  function Child(value: Json, token: string): (i: Option<nat>)
    ensures i.Some? ==> i.value < Width(value)
  {
    match value
    case Object(members) =>
      var i := FindKey(members, token);
      if i < |members| then Some(i) else None
    case Array(items) =>
      if Canonical(token) && Value(token) < |items| then Some(Value(token)) else None
    case _ => None
  }

  function Width(value: Json): nat {
    match value
    case Object(members) => |members|
    case Array(items) => |items|
    case _ => 0
  }

  function At(value: Json, i: nat): (c: Json)
    requires i < Width(value)
    ensures c < value
  {
    if value.Object? then value.members[i].value else value.items[i]
  }

  function Set(value: Json, i: nat, child: Json): (v: Json)
    requires i < Width(value)
    ensures Width(v) == Width(value)
    ensures forall j :: 0 <= j < Width(v) ==> At(v, j) == if j == i then child else At(value, j)
  {
    match value
    case Object(members) => Object(members[i := members[i].(value := child)])
    case Array(items) => Array(items[i := child])
  }

  function Get(value: Json, tokens: seq<string>): Option<Json> {
    if tokens == [] then Some(value)
    else
      var i := Child(value, tokens[0]);
      if i.None? then None else Get(At(value, i.value), tokens[1..])
  }

  // ---------------------------------------------------------------------------------------------
  // What the tokens of a path select
  // ---------------------------------------------------------------------------------------------

  /** The i-th member is the first of this name. */
  predicate Named(members: seq<Member>, i: int, key: string) {
    0 <= i < |members| && members[i].key == key && forall j :: 0 <= j < i ==> members[j].key != key
  }

  /** A numeral leads to the element at its number, a name to the member that has it, and nothing else anywhere. */
  ghost predicate LeadsTo(value: Json, tokens: seq<string>, target: Json)
    decreases |tokens|
  {
    if tokens == [] then target == value
    else
      || (value.Array? && exists i: nat ::
            i < |value.items| && tokens[0] == Numeral(i) && LeadsTo(value.items[i], tokens[1..], target))
      || (value.Object? && exists i: nat ::
            Named(value.members, i, tokens[0]) && LeadsTo(value.members[i].value, tokens[1..], target))
  }

  /** The numeral of a position selects the element there. */
  lemma ElementSelected(items: seq<Json>, i: nat, rest: seq<string>)
    requires i < |items|
    ensures Get(Array(items), [Numeral(i)] + rest) == Get(items[i], rest)
  {
    NumeralCanonical(i);
    ValueOfNumeral(i);
    assert ([Numeral(i)] + rest)[1..] == rest;
  }

  /** Any other token selects no element: names, leading zeros, signs and numbers out of range. */
  lemma NoOtherElement(items: seq<Json>, token: string, rest: seq<string>)
    requires forall i: nat :: i < |items| ==> token != Numeral(i)
    ensures Get(Array(items), [token] + rest).None?
  {
    if Canonical(token) { NumeralOfValue(token); }
  }

  /** A name selects the member that has it. */
  lemma MemberSelected(members: seq<Member>, i: nat, key: string, rest: seq<string>)
    requires Named(members, i, key)
    ensures Get(Object(members), [key] + rest) == Get(members[i].value, rest)
  {
    assert ([key] + rest)[1..] == rest && FindKey(members, key) == i;
  }

  lemma NoOtherMember(members: seq<Member>, key: string, rest: seq<string>)
    requires forall i :: 0 <= i < |members| ==> members[i].key != key
    ensures Get(Object(members), [key] + rest).None?
  {
  }

  lemma GetInArray(items: seq<Json>, tokens: seq<string>, target: Json)
    requires tokens != []
    requires forall i: nat :: i < |items| ==>
      (Get(items[i], tokens[1..]) == Some(target) <==> LeadsTo(items[i], tokens[1..], target))
    ensures Get(Array(items), tokens) == Some(target) <==> LeadsTo(Array(items), tokens, target)
  {
    var token, rest := tokens[0], tokens[1..];
    assert tokens == [token] + rest;
    if i: nat :| i < |items| && token == Numeral(i) {
      ElementSelected(items, i, rest);
      forall j: nat | j < |items| && token == Numeral(j) ensures j == i {
        ValueOfNumeral(i);
        ValueOfNumeral(j);
      }
    } else {
      NoOtherElement(items, token, rest);
    }
  }

  lemma GetInObject(members: seq<Member>, tokens: seq<string>, target: Json)
    requires tokens != []
    requires forall i: nat :: i < |members| ==>
      (Get(members[i].value, tokens[1..]) == Some(target) <==> LeadsTo(members[i].value, tokens[1..], target))
    ensures Get(Object(members), tokens) == Some(target) <==> LeadsTo(Object(members), tokens, target)
  {
    var token, rest := tokens[0], tokens[1..];
    var k := FindKey(members, token);
    assert tokens == [token] + rest;
    if k < |members| {
      assert Named(members, k, token);
      MemberSelected(members, k, token, rest);
      assert forall j: nat :: Named(members, j, token) ==> j == k;
    } else {
      NoOtherMember(members, token, rest);
    }
  }

  /** Following the tokens reaches exactly what they lead to. */
  lemma {:induction false} GetLeads(value: Json, tokens: seq<string>, target: Json)
    ensures Get(value, tokens) == Some(target) <==> LeadsTo(value, tokens, target)
    decreases |tokens|
  {
    if tokens != [] {
      match value {
        case Array(items) =>
          forall i: nat | i < |items| { GetLeads(items[i], tokens[1..], target); }
          GetInArray(items, tokens, target);
        case Object(members) =>
          forall i: nat | i < |members| { GetLeads(members[i].value, tokens[1..], target); }
          GetInObject(members, tokens, target);
        case _ =>
      }
    }
  }

  /** Evaluation token by token, as both resolvers do it; a printed pointer reaches what its tokens lead to. */
  method Resolve(value: Json, pointer: string) returns (r: Option<Json>)
    ensures r == Get(value, Parse(pointer))
    ensures forall tokens, target :: pointer == Print(tokens) ==>
      (r == Some(target) <==> LeadsTo(value, tokens, target))
  {
    r := Follow(value, pointer);
    forall tokens, target | pointer == Print(tokens) ensures r == Some(target) <==> LeadsTo(value, tokens, target) {
      ParsePrint(tokens);
      GetLeads(value, tokens, target);
    }
  }

  method Follow(value: Json, pointer: string) returns (r: Option<Json>)
    ensures r == Get(value, Parse(pointer))
  {
    var current := value;
    var pieces := Split(pointer, '/')[1..];
    var i := 0;
    while i < |pieces|
      invariant 0 <= i <= |pieces|
      invariant Get(value, Parse(pointer)) == Get(current, UnescapeAll(pieces[i..]))
    {
      var token := Unescape(pieces[i]);
      assert pieces[i..][1..] == pieces[i + 1..];
      i := i + 1;
      match current {
        case Object(members) =>
          var k := FindKey(members, token);
          if k == |members| { return None; }
          current := members[k].value;
        case Array(items) =>
          if !Canonical(token) { return None; }
          var index := Value(token);
          if index >= |items| { return None; }
          current := items[index];
        case _ => return None;
      }
    }
    return Some(current);
  }

  /** Tokens that differ select different children: keys differ, and canonical indices are distinct. */
  lemma ChildrenDiffer(value: Json, a: string, b: string)
    requires a != b && Child(value, a).Some? && Child(value, b).Some?
    ensures Child(value, a) != Child(value, b)
  {
    if value.Array? {
      NumeralOfValue(a);
      NumeralOfValue(b);
    }
  }

  /** Replacing a child leaves the selection of children as it was. */
  lemma ChildOfSet(value: Json, i: nat, child: Json, token: string)
    requires i < Width(value)
    ensures Child(Set(value, i, child), token) == Child(value, token)
  {
    if value.Object? {
      SameKeys(value.members, Set(value, i, child).members, token);
    }
  }

  lemma {:induction false} SameKeys(s: seq<Member>, t: seq<Member>, key: string)
    requires |s| == |t| && forall i :: 0 <= i < |s| ==> s[i].key == t[i].key
    ensures FindKey(s, key) == FindKey(t, key)
  {
    if s != [] { SameKeys(s[1..], t[1..], key); }
  }
}

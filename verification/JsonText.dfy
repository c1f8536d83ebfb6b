/**
 The compact text of a JSON value and its UTF-8 encoding (section 3 of RFC 3629). The size that limits
 structured data is the number of octets of this text.
 */
module JsonText {
  import opened Json

  // ---------------------------------------------------------------------------------------------
  // Octets
  // ---------------------------------------------------------------------------------------------

  type Octet = n: int | 0 <= n < 256

  function Trailing(code: nat): Octet { 0x80 + code % 0x40 }

  function Octets(c: char): seq<Octet> {
    var code := c as int;
    if code < 0x80 then [code]
    else if code < 0x800 then [0xC0 + code / 0x40, Trailing(code)]
    else if code < 0x1_0000 then [0xE0 + code / 0x1000, Trailing(code / 0x40), Trailing(code)]
    else [0xF0 + code / 0x4_0000, Trailing(code / 0x1000), Trailing(code / 0x40), Trailing(code)]
  }

  function Utf8(s: string): seq<Octet> {
    if s == "" then [] else Octets(s[0]) + Utf8(s[1..])
  }

  lemma {:induction false} Utf8Concat(s: string, t: string)
    ensures Utf8(s + t) == Utf8(s) + Utf8(t)
  {
    if s == "" {
      assert s + t == t;
    } else {
      assert (s + t)[1..] == s[1..] + t;
      Utf8Concat(s[1..], t);
    }
  }

  lemma {:induction false} Utf8Length(s: string)
    ensures |Utf8(s)| == Utf8Bytes(s)
  {
    if s != "" { Utf8Length(s[1..]); }
  }

  lemma OneByte(c: char)
    requires c as int < 0x80
    ensures |Utf8([c])| == 1
  {
    assert [c][1..] == "";
  }

  lemma {:induction false} AsciiLength(s: string)
    requires forall i :: 0 <= i < |s| ==> s[i] as int < 0x80
    ensures |Utf8(s)| == |s|
  {
    if s != "" { AsciiLength(s[1..]); }
  }

  // ---------------------------------------------------------------------------------------------
  // Texts
  // ---------------------------------------------------------------------------------------------

  function HexDigit(n: nat): char
    requires n < 16
  {
    if n < 10 then ('0' as int + n) as char else ('a' as int + n - 10) as char
  }

  /** A character inside a literal; characters beyond ASCII stand for themselves. */
  function Escaped(c: char): string {
    if c == '\"' then "\\\""
    else if c == '\\' then "\\\\"
    else if c == '\n' then "\\n"
    else if c == '\r' then "\\r"
    else if c == '\t' then "\\t"
    else if c == '\U{08}' then "\\b"
    else if c == '\U{0c}' then "\\f"
    else if c < ' ' then "\\u00" + [HexDigit(c as int / 16), HexDigit(c as int % 16)]
    else [c]
  }

  function EscapedAll(s: string): string {
    if s == "" then "" else Escaped(s[0]) + EscapedAll(s[1..])
  }

  function Literal(s: string): string { "\"" + EscapedAll(s) + "\"" }

  lemma EscapedLength(c: char)
    ensures |Utf8(Escaped(c))|
         == if c in "\"\\\n\r\t\U{08}\U{0c}" then 2 else if c < ' ' then 6 else CharBytes(c)
  {
    if c in "\"\\\n\r\t\U{08}\U{0c}" || c < ' ' {
      AsciiLength(Escaped(c));
    } else {
      assert [c][1..] == "";
    }
  }

  lemma {:induction false} EscapedAllLength(s: string)
    ensures |Utf8(EscapedAll(s))| + 2 == LiteralBytes(s)
  {
    if s != "" {
      Utf8Concat(Escaped(s[0]), EscapedAll(s[1..]));
      EscapedLength(s[0]);
      EscapedAllLength(s[1..]);
    }
  }

  lemma LiteralLength(s: string)
    ensures |Utf8(Literal(s))| == LiteralBytes(s)
  {
    Utf8Concat("\"" + EscapedAll(s), "\"");
    Utf8Concat("\"", EscapedAll(s));
    OneByte('\"');
    EscapedAllLength(s);
  }

  // ---------------------------------------------------------------------------------------------
  // Values
  // ---------------------------------------------------------------------------------------------

  /** Without blanks: items and members separated by commas, names and values by colons. */
  function Compact(v: Json): string
    decreases v, 0
  {
    match v
    case Null => "null"
    case Bool(truth) => if truth then "true" else "false"
    case Number(literal) => literal
    case Text(text) => Literal(text)
    case Array(items) => "[" + CompactItems(items) + "]"
    case Object(members) => "{" + CompactMembers(members) + "}"
  }

  function CompactItems(items: seq<Json>): string
    decreases items, 1
  {
    if items == [] then ""
    else Compact(items[0]) + (if |items| > 1 then "," else "") + CompactItems(items[1..])
  }

  function CompactMembers(members: seq<Member>): string
    decreases members, 1
  {
    if members == [] then ""
    else
      (Literal(members[0].key) + ":" + Compact(members[0].value)) + (if |members| > 1 then "," else "")
      + CompactMembers(members[1..])
  }

  lemma Utf8Three(a: string, b: string, c: string)
    ensures |Utf8(a + b + c)| == |Utf8(a)| + |Utf8(b)| + |Utf8(c)|
  {
    Utf8Concat(a + b, c);
    Utf8Concat(a, b);
  }

  lemma SeparatorLength(more: bool)
    ensures |Utf8(if more then "," else "")| == if more then 1 else 0
  {
    if more { OneByte(','); }
  }

  lemma BracketedLength(open: char, s: string, close: char)
    requires open as int < 0x80 && close as int < 0x80
    ensures |Utf8([open] + s + [close])| == 2 + |Utf8(s)|
  {
    Utf8Three([open], s, [close]);
    OneByte(open);
    OneByte(close);
  }

  /** The measured size of a value is the number of octets of its compact text. */
  lemma {:induction false} SizeIsTextLength(v: Json)
    ensures JsonBytes(v) == |Utf8(Compact(v))|
    decreases v, 0
  {
    match v {
      case Null => AsciiLength("null");
      case Bool(truth) => AsciiLength(if truth then "true" else "false");
      case Number(literal) => Utf8Length(literal);
      case Text(text) => LiteralLength(text);
      case Array(items) =>
        ItemsSize(items);
        BracketedLength('[', CompactItems(items), ']');
      case Object(members) =>
        MembersSize(members);
        BracketedLength('{', CompactMembers(members), '}');
    }
  }

  lemma {:induction false} ItemsSize(items: seq<Json>)
    ensures ItemsBytes(items) == |Utf8(CompactItems(items))|
    decreases items, 1
  {
    if items != [] {
      SizeIsTextLength(items[0]);
      ItemsSize(items[1..]);
      SeparatorLength(|items| > 1);
      Utf8Three(Compact(items[0]), if |items| > 1 then "," else "", CompactItems(items[1..]));
    }
  }

  lemma {:induction false} MembersSize(members: seq<Member>)
    ensures MembersBytes(members) == |Utf8(CompactMembers(members))|
    decreases members, 1
  {
    if members != [] {
      var key, value := Literal(members[0].key), Compact(members[0].value);
      LiteralLength(members[0].key);
      SizeIsTextLength(members[0].value);
      MembersSize(members[1..]);
      SeparatorLength(|members| > 1);
      OneByte(':');
      Utf8Three(key, ":", value);
      Utf8Three(key + ":" + value, if |members| > 1 then "," else "", CompactMembers(members[1..]));
    }
  }
}

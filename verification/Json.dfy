/** JSON values. Objects keep their members in order; a lookup finds the first member of a name. */
module Json {

  datatype Json =
    | Null
    | Bool(truth: bool)
    | Number(literal: string)
    | Text(text: string)
    | Array(items: seq<Json>)
    | Object(members: seq<Member>)

  datatype Member = Member(key: string, value: Json)

  /** The position of the first member named `key`, or the number of members when there is none. */
  function FindKey(members: seq<Member>, key: string): (i: nat)
    ensures i <= |members|
    ensures i < |members| ==> members[i].key == key
    ensures forall j :: 0 <= j < i ==> members[j].key != key
  {
    if members == [] || members[0].key == key then 0 else 1 + FindKey(members[1..], key)
  }

  // ---------------------------------------------------------------------------------------------
  // Length of the compact UTF-8 text of a value
  // ---------------------------------------------------------------------------------------------

  function CharBytes(c: char): nat {
    var code := c as int;
    if code < 0x80 then 1 else if code < 0x800 then 2 else if code < 0x1_0000 then 3 else 4
  }

  function Utf8Bytes(s: string): nat {
    if s == "" then 0 else CharBytes(s[0]) + Utf8Bytes(s[1..])
  }

  /** A string literal: two quotes, and escapes for quotes, backslashes and control characters. */
  function LiteralBytes(s: string): nat {
    if s == "" then 2
    else
      (if s[0] in "\"\\\n\r\t\U{08}\U{0c}" then 2 else if s[0] < ' ' then 6 else CharBytes(s[0]))
      + LiteralBytes(s[1..])
  }

  function JsonBytes(v: Json): nat
    decreases v, 0
  {
    match v
    case Null => 4
    case Bool(truth) => if truth then 4 else 5
    case Number(literal) => Utf8Bytes(literal)
    case Text(text) => LiteralBytes(text)
    case Array(items) => 2 + ItemsBytes(items)
    case Object(members) => 2 + MembersBytes(members)
  }

  function ItemsBytes(items: seq<Json>): nat
    decreases items, 1
  {
    if items == [] then 0
    else JsonBytes(items[0]) + (if |items| > 1 then 1 else 0) + ItemsBytes(items[1..])
  }

  function MembersBytes(members: seq<Member>): nat
    decreases members, 1
  {
    if members == [] then 0
    else
      LiteralBytes(members[0].key) + 1 + JsonBytes(members[0].value)
      + (if |members| > 1 then 1 else 0) + MembersBytes(members[1..])
  }
}

/**
 Limits on a JSON Schema in a contract: its size, its depth, and that every reference is local. The
 program walks the schema with a stack of pending nodes; the limits are properties of the tree.
 */
module Schema {
  import opened Wrappers
  import opened Json
  import opened JsonText

  const MAX_JSON_SCHEMA_BYTES: nat := 100_000
  const MAX_JSON_SCHEMA_DEPTH: nat := 50

  datatype Verdict = Accepted | TooLarge | TooDeep | RemoteReference

  // ---------------------------------------------------------------------------------------------
  // The limits, by recursion on the tree
  // ---------------------------------------------------------------------------------------------

  function Children(v: Json): (cs: seq<Json>)
    ensures forall i :: 0 <= i < |cs| ==> cs[i] < v
  {
    match v
    case Array(items) => items
    case Object(members) => seq(|members|, i requires 0 <= i < |members| => members[i].value)
    case _ => []
  }

  /** No node lies more than `limit` levels below the root. */
  predicate DepthWithin(v: Json, limit: int) {
    0 <= limit && forall i :: 0 <= i < |Children(v)| ==> DepthWithin(Children(v)[i], limit - 1)
  }

  /** A member that refers outside the schema. */
  predicate IsRemote(m: Member) {
    (m.key == "$ref" || m.key == "$dynamicRef") && m.value.Text? && !("#" <= m.value.text)
  }

  predicate HarmlessNode(v: Json) {
    v.Object? ==> forall i :: 0 <= i < |v.members| ==> !IsRemote(v.members[i])
  }

  predicate ReferencesLocal(v: Json) {
    HarmlessNode(v) && forall i :: 0 <= i < |Children(v)| ==> ReferencesLocal(Children(v)[i])
  }

  // ---------------------------------------------------------------------------------------------
  // The limits, path by path
  // ---------------------------------------------------------------------------------------------

  /** The node behind a path of positions, in arrays and in objects alike. */
  function NodeAt(v: Json, path: seq<nat>): Option<Json> {
    if path == [] then Some(v)
    else
      match v
      case Array(items) => if path[0] < |items| then NodeAt(items[path[0]], path[1..]) else None
      case Object(members) => if path[0] < |members| then NodeAt(members[path[0]].value, path[1..]) else None
      case _ => None
  }

  /** Every path that leads somewhere has at most this many steps. */
  ghost predicate PathsWithin(v: Json, limit: int) {
    forall path: seq<nat> :: NodeAt(v, path).Some? ==> |path| <= limit
  }

  /** No path leads to an object with a reference that does not start with a number sign. */
  ghost predicate PathsLocal(v: Json) {
    forall path: seq<nat> :: NodeAt(v, path).Some? ==> RefersLocally(NodeAt(v, path).value)
  }

  predicate RefersLocally(node: Json) {
    node.Object? ==>
      forall i :: 0 <= i < |node.members| && node.members[i].key in ["$ref", "$dynamicRef"] ==>
        node.members[i].value.Text? ==> node.members[i].value.text != "" && node.members[i].value.text[0] == '#'
  }

  lemma RefersLocallyExactly(node: Json)
    ensures RefersLocally(node) <==> HarmlessNode(node)
  {
    if node.Object? {
      forall i | 0 <= i < |node.members|
        ensures IsRemote(node.members[i]) <==>
          && node.members[i].key in ["$ref", "$dynamicRef"] && node.members[i].value.Text?
          && !(node.members[i].value.text != "" && node.members[i].value.text[0] == '#')
      {
      }
    }
  }

  lemma NodeBelow(v: Json, i: nat, rest: seq<nat>)
    ensures NodeAt(v, [i] + rest) == if i < |Children(v)| then NodeAt(Children(v)[i], rest) else None
  {
    assert ([i] + rest)[1..] == rest;
  }

  lemma NodeOfChild(v: Json, path: seq<nat>)
    requires path != []
    ensures NodeAt(v, path)
         == if path[0] < |Children(v)| then NodeAt(Children(v)[path[0]], path[1..]) else None
  {
    assert path == [path[0]] + path[1..];
  }

  lemma {:induction false} DepthByPaths(v: Json, limit: int)
    ensures DepthWithin(v, limit) <==> PathsWithin(v, limit)
    decreases v
  {
    var cs := Children(v);
    assert NodeAt(v, []).Some?;
    forall i | 0 <= i < |cs| ensures DepthWithin(cs[i], limit - 1) <==> PathsWithin(cs[i], limit - 1) {
      DepthByPaths(cs[i], limit - 1);
    }
    if DepthWithin(v, limit) {
      forall path: seq<nat> | NodeAt(v, path).Some? ensures |path| <= limit {
        if path != [] { NodeOfChild(v, path); }
      }
    }
    if PathsWithin(v, limit) {
      forall i: nat | i < |cs| ensures PathsWithin(cs[i], limit - 1) {
        forall path: seq<nat> | NodeAt(cs[i], path).Some? ensures |path| <= limit - 1 {
          NodeBelow(v, i, path);
        }
      }
    }
  }

  lemma {:induction false} ReferencesByPaths(v: Json)
    ensures ReferencesLocal(v) <==> PathsLocal(v)
    decreases v
  {
    var cs := Children(v);
    RefersLocallyExactly(v);
    assert NodeAt(v, []) == Some(v);
    forall i | 0 <= i < |cs| ensures ReferencesLocal(cs[i]) <==> PathsLocal(cs[i]) {
      ReferencesByPaths(cs[i]);
    }
    if ReferencesLocal(v) {
      forall path: seq<nat> | NodeAt(v, path).Some? ensures RefersLocally(NodeAt(v, path).value) {
        if path != [] { NodeOfChild(v, path); }
      }
    }
    if PathsLocal(v) {
      forall i: nat | i < |cs| ensures PathsLocal(cs[i]) {
        forall path: seq<nat> | NodeAt(cs[i], path).Some? ensures RefersLocally(NodeAt(cs[i], path).value) {
          NodeBelow(v, i, path);
        }
      }
    }
  }

  // ---------------------------------------------------------------------------------------------
  // The traversal
  // ---------------------------------------------------------------------------------------------

  datatype Pending = Pending(value: Json, depth: nat)

  function Size(v: Json): nat
    decreases v, 0
  {
    match v
    case Array(items) => 1 + ItemSizes(items)
    case Object(members) => 1 + MemberSizes(members)
    case _ => 1
  }

  function ItemSizes(items: seq<Json>): nat
    decreases items, 1
  {
    if items == [] then 0 else Size(items[0]) + ItemSizes(items[1..])
  }

  function MemberSizes(members: seq<Member>): nat
    decreases members, 1
  {
    if members == [] then 0 else Size(members[0].value) + MemberSizes(members[1..])
  }

  lemma {:induction false} MemberSizesOfValues(members: seq<Member>)
    ensures MemberSizes(members) == ItemSizes(Children(Object(members)))
  {
    if members != [] {
      MemberSizesOfValues(members[1..]);
      assert Children(Object(members))[1..] == Children(Object(members[1..]));
    }
  }

  /** The work left on the stack: the sum of the pending sizes. */
  function Work(stack: seq<Pending>): nat {
    if stack == [] then 0 else Work(stack[..|stack| - 1]) + Size(stack[|stack| - 1].value)
  }

  function Level(vs: seq<Json>, depth: nat): seq<Pending> {
    seq(|vs|, i requires 0 <= i < |vs| => Pending(vs[i], depth))
  }

  lemma {:induction false} WorkOfLevel(stack: seq<Pending>, vs: seq<Json>, depth: nat)
    ensures Work(stack + Level(vs, depth)) == Work(stack) + ItemSizes(vs)
    decreases |vs|
  {
    if vs == [] {
      assert stack + Level(vs, depth) == stack;
    } else {
      var next := stack + [Pending(vs[0], depth)];
      assert stack + Level(vs, depth) == next + Level(vs[1..], depth);
      WorkOfLevel(next, vs[1..], depth);
      assert next[..|stack|] == stack;
    }
  }

  predicate WithinAt(p: Pending) { DepthWithin(p.value, MAX_JSON_SCHEMA_DEPTH - p.depth) }

  /** Every pending node keeps the limits at its own depth. */
  predicate AllWithin(stack: seq<Pending>) {
    forall i :: 0 <= i < |stack| ==> WithinAt(stack[i])
  }

  predicate AllLocal(stack: seq<Pending>) {
    forall i :: 0 <= i < |stack| ==> ReferencesLocal(stack[i].value)
  }

  lemma ConcatLimits(a: seq<Pending>, b: seq<Pending>)
    ensures AllWithin(a + b) <==> AllWithin(a) && AllWithin(b)
    ensures AllLocal(a + b) <==> AllLocal(a) && AllLocal(b)
  {
    assert forall i :: 0 <= i < |a| ==> (a + b)[i] == a[i];
    assert forall i :: 0 <= i < |b| ==> (a + b)[|a| + i] == b[i];
  }

  lemma LevelDepth(v: Json, depth: nat)
    requires depth <= MAX_JSON_SCHEMA_DEPTH
    ensures AllWithin(Level(Children(v), depth + 1)) <==> WithinAt(Pending(v, depth))
  {
    var cs, level := Children(v), Level(Children(v), depth + 1);
    var below := MAX_JSON_SCHEMA_DEPTH - depth - 1;
    assert forall i :: 0 <= i < |cs| ==> WithinAt(level[i]) == DepthWithin(cs[i], below);
  }

  lemma LevelLocal(v: Json, depth: nat)
    requires HarmlessNode(v)
    ensures AllLocal(Level(Children(v), depth + 1)) <==> ReferencesLocal(v)
  {
    var cs, level := Children(v), Level(Children(v), depth + 1);
    assert forall i :: 0 <= i < |cs| ==> ReferencesLocal(level[i].value) == ReferencesLocal(cs[i]);
  }

  lemma ChildrenWork(stack: seq<Pending>, v: Json, depth: nat)
    ensures Work(stack + Level(Children(v), depth + 1)) < Work(stack + [Pending(v, depth)])
  {
    WorkOfLevel(stack, Children(v), depth + 1);
    assert (stack + [Pending(v, depth)])[..|stack|] == stack;
    if v.Object? { MemberSizesOfValues(v.members); }
  }

  /** The children of a node in stack form; stops at the first member that refers elsewhere. */
  method PushChildren(stack: seq<Pending>, v: Json, depth: nat) returns (stack': seq<Pending>, ok: bool)
    ensures ok <==> HarmlessNode(v)
    ensures ok ==> stack' == stack + Level(Children(v), depth + 1)
  {
    stack', ok := stack, true;
    match v {
      case Object(members) =>
        var i := 0;
        while i < |members|
          invariant 0 <= i <= |members|
          invariant stack' == stack + Level(Children(v)[..i], depth + 1)
          invariant forall k :: 0 <= k < i ==> !IsRemote(members[k])
        {
          if IsRemote(members[i]) {
            return stack', false;
          }
          stack' := stack' + [Pending(members[i].value, depth + 1)];
          i := i + 1;
        }
        assert Children(v)[..i] == Children(v);
      case Array(items) =>
        stack' := stack + Level(items, depth + 1);
      case _ =>
    }
  }

  lemma SingleLimits(p: Pending)
    ensures AllWithin([p]) <==> WithinAt(p)
    ensures AllLocal([p]) <==> ReferencesLocal(p.value)
    ensures WithinAt(p) ==> p.depth <= MAX_JSON_SCHEMA_DEPTH
    ensures ReferencesLocal(p.value) ==> HarmlessNode(p.value)
  {
    assert [p][0] == p;
  }

  lemma NodeDepth(rest: seq<Pending>, top: Pending)
    ensures top.depth > MAX_JSON_SCHEMA_DEPTH ==> !AllWithin(rest + [top])
    ensures top.depth <= MAX_JSON_SCHEMA_DEPTH ==>
      (AllWithin(rest + Level(Children(top.value), top.depth + 1)) <==> AllWithin(rest + [top]))
  {
    ConcatLimits(rest, [top]);
    SingleLimits(top);
    ConcatLimits(rest, Level(Children(top.value), top.depth + 1));
    if top.depth <= MAX_JSON_SCHEMA_DEPTH { LevelDepth(top.value, top.depth); }
  }

  lemma NodeLocal(rest: seq<Pending>, top: Pending)
    ensures !HarmlessNode(top.value) ==> !AllLocal(rest + [top])
    ensures HarmlessNode(top.value) ==>
      (AllLocal(rest + Level(Children(top.value), top.depth + 1)) <==> AllLocal(rest + [top]))
  {
    ConcatLimits(rest, [top]);
    SingleLimits(top);
    ConcatLimits(rest, Level(Children(top.value), top.depth + 1));
    if HarmlessNode(top.value) { LevelLocal(top.value, top.depth); }
  }

  /** One round of the walk: a node is refused, or replaced on the stack by its children. */
  method Visit(rest: seq<Pending>, top: Pending) returns (next: seq<Pending>, verdict: Verdict)
    ensures verdict == Accepted ==> (AllWithin(next) <==> AllWithin(rest + [top]))
                                    && (AllLocal(next) <==> AllLocal(rest + [top]))
                                    && Work(next) < Work(rest + [top])
    ensures verdict == TooDeep ==> !AllWithin(rest + [top])
    ensures verdict == RemoteReference ==> !AllLocal(rest + [top])
    ensures verdict != TooLarge
  {
    NodeDepth(rest, top);
    if top.depth > MAX_JSON_SCHEMA_DEPTH { return rest, TooDeep; }
    NodeLocal(rest, top);
    ChildrenWork(rest, top.value, top.depth);
    var ok;
    next, ok := PushChildren(rest, top.value, top.depth);
    verdict := if ok then Accepted else RemoteReference;
  }

  /** The walk over a schema accepts it exactly when the recursive limits hold. */
  method WalkSchema(schema: Json) returns (verdict: Verdict)
    ensures verdict == Accepted <==> DepthWithin(schema, MAX_JSON_SCHEMA_DEPTH) && ReferencesLocal(schema)
    ensures verdict == TooDeep ==> !DepthWithin(schema, MAX_JSON_SCHEMA_DEPTH)
    ensures verdict == RemoteReference ==> !ReferencesLocal(schema)
    ensures verdict != TooLarge
  {
    var stack := [Pending(schema, 0)];
    SingleLimits(Pending(schema, 0));
    while stack != []
      invariant AllWithin(stack) <==> WithinAt(Pending(schema, 0))
      invariant AllLocal(stack) <==> ReferencesLocal(schema)
      decreases Work(stack)
    {
      var top, rest := stack[|stack| - 1], stack[..|stack| - 1];
      assert stack == rest + [top];
      stack, verdict := Visit(rest, top);
      if verdict != Accepted { return verdict; }
    }
    return Accepted;
  }

  /** A schema passes exactly when it is small enough, nowhere too deep, and refers only to itself. */
  method ValidateLimits(schema: Json) returns (verdict: Verdict)
    ensures verdict == Accepted <==>
              JsonBytes(schema) <= MAX_JSON_SCHEMA_BYTES
              && DepthWithin(schema, MAX_JSON_SCHEMA_DEPTH) && ReferencesLocal(schema)
    ensures verdict == TooLarge <==> JsonBytes(schema) > MAX_JSON_SCHEMA_BYTES
    ensures verdict == Accepted <==>
              |Utf8(Compact(schema))| <= 100_000 && PathsWithin(schema, 50) && PathsLocal(schema)
  {
    SizeIsTextLength(schema);
    DepthByPaths(schema, MAX_JSON_SCHEMA_DEPTH);
    ReferencesByPaths(schema);
    if JsonBytes(schema) > MAX_JSON_SCHEMA_BYTES { return TooLarge; }
    verdict := WalkSchema(schema);
  }
}

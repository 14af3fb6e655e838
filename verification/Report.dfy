/** What the analysis reads off its final state: published names and problems. */
module Report {
  import opened Wrappers
  import opened Syntax
  import opened AbstractValues
  import opened GuardedEvaluation
  import opened FlowEquations
  import opened Collection

  datatype Problem = DynamicExport(node: NodeId) | StoredGlobal(node: NodeId)

  predicate IsNameStart(c: char) {
    'A' <= c <= 'Z' || 'a' <= c <= 'z' || c == '_' || c == '$'
  }

  predicate IsExportName(name: string) {
    |name| > 0 && IsNameStart(name[0]) && forall i :: 1 <= i < |name| ==> IsNameStart(name[i]) || '0' <= name[i] <= '9'
  }

  function EntryTarget(e: PatternEntry): seq<NodeId> {
    match e case Entry(_, _, value) => [value] case RestEntry(argument) => [argument]
  }

  /** The targets directly inside a destructuring target. */
  function SubTargets(node: Node): seq<NodeId> {
    match node
    case ObjectPattern(entries) => Flatten(entries, EntryTarget)
    case ArrayPattern(elements) => Flatten(elements, OptionToSeq)
    case AssignmentPattern(left, _) => [left]
    case RestElement(argument) => [argument]
    case _ => []
  }

  /** The keys of the browser global that a write to target `t` is taken to set. */
  function Writes(p: File, s: State, t: NodeId): set<Key>
    decreases |p.nodes| - t, 0
  {
    if t >= |p.nodes| then {}
    else
      match p.nodes[t]
      case Member(receiver, property, computed) =>
        if Root in ValuesAt(p, s, receiver) then {KeyOf(p, EvaluateBy(p, s), property, computed)} else {}
      case Identifier(name) =>
        if Lookup(p, Names(p), ScopeOf(p, t), name) == None then {Some(name)} else {}
      case _ =>
        WritesToAll(p, s, SubTargets(p.nodes[t]), t)
  }

  function WritesToAll(p: File, s: State, targets: seq<NodeId>, t: NodeId): set<Key>
    requires t < |p.nodes|
    decreases |p.nodes| - t - 1, |targets| + 1
  {
    if targets == [] then {}
    else (if targets[0] > t then Writes(p, s, targets[0]) else {}) + WritesToAll(p, s, targets[1..], t)
  }

  lemma SubTargetIsLater(p: File, t: NodeId)
    requires t < |p.nodes|
    ensures forall k :: k in SubTargets(p.nodes[t]) ==> t < k < |p.nodes|
  {
    forall k | k in SubTargets(p.nodes[t]) ensures t < k < |p.nodes| {
      assert IsChild(p, t, k) by {
        match p.nodes[t]
        case ObjectPattern(entries) =>
          var i :| 0 <= i < |entries| && k in EntryTarget(entries[i]);
          assert k in EntryChildren(entries[i]);
        case _ =>
      }
      ChildIsLater(p, t, k);
    }
  }

  predicate Publishable(key: Key) {
    key.Some? && IsExportName(key.value)
  }

  /** The target that node `n` writes. */
  function WrittenTarget(node: Node): Option<NodeId> {
    match node
    case Assignment(_, left, _) => Some(left)
    case Update(target) => Some(target)
    case _ => None
  }

  function NodeWrites(p: File, s: State, n: NodeId): set<Key>
    requires n < |p.nodes|
  {
    var t := WrittenTarget(p.nodes[n]);
    if t.Some? then Writes(p, s, t.value) else {}
  }

  /** An assignment puts the global into a member of something that is not the global. */
  predicate StoresGlobal(p: File, s: State, n: NodeId)
    requires n < |p.nodes|
  {
    p.nodes[n].Assignment? &&
    var left := p.nodes[n].left;
    left < |p.nodes| && p.nodes[left].Member? && Root in ValuesAt(p, s, p.nodes[n].right) &&
    Root !in ValuesAt(p, s, p.nodes[left].receiver)
  }

  function PublishedBy(keys: set<Key>): set<string> {
    set k | k in keys && Publishable(k) :: k.value
  }

  /** The complaint about keys that cannot be published by name. */
  function Complaints(keys: set<Key>, n: NodeId): set<Problem> {
    if exists k :: k in keys && !Publishable(k) then {DynamicExport(n)} else {}
  }

  function ProblemsAt(p: File, s: State, n: NodeId): set<Problem>
    requires n < |p.nodes|
  {
    Complaints(NodeWrites(p, s, n), n) +
    (if StoresGlobal(p, s, n) then {StoredGlobal(n)} else {})
  }

  /** In a classic script every top-level name is on the global as well. */
  function TopLevelExports(p: File): set<string> {
    if p.isModule then {} else set b | b in Names(p) && b.scope == 0 :: "@binding:" + b.name
  }

  function ExportsAt(p: File, s: State, visited: set<NodeId>): set<string> {
    set n, x | n in visited && n < |p.nodes| && x in PublishedBy(NodeWrites(p, s, n)) :: x
  }

  function ProblemsOf(p: File, s: State, visited: set<NodeId>): set<Problem> {
    set n, x | n in visited && n < |p.nodes| && x in ProblemsAt(p, s, n) :: x
  }

  function Exports(p: File, s: State): set<string> {
    ExportsAt(p, s, IdsFrom(p, 0)) + TopLevelExports(p)
  }

  function Problems(p: File, s: State): set<Problem> {
    ProblemsOf(p, s, IdsFrom(p, 0))
  }

  lemma OneMoreInspected(p: File, s: State, nodes: seq<NodeId>, i: nat)
    requires i < |nodes| && nodes[i] < |p.nodes|
    ensures ExportsAt(p, s, Elements(nodes[..i + 1])) ==
            ExportsAt(p, s, Elements(nodes[..i])) + PublishedBy(NodeWrites(p, s, nodes[i]))
    ensures ProblemsOf(p, s, Elements(nodes[..i + 1])) ==
            ProblemsOf(p, s, Elements(nodes[..i])) + ProblemsAt(p, s, nodes[i])
  {
    hide NodeWrites, ProblemsAt, PublishedBy;
    ElementsAppend(nodes[..i], nodes[i]);
    assert nodes[..i + 1] == nodes[..i] + [nodes[i]];
  }

  // ---- What is exported and what is complained about ------------------------------------------------

  /** The names that can be published: letters, digits, `_` and `$` of ASCII, no digit first. */
  lemma ExportNames(name: string)
    ensures IsExportName(name) <==>
      name != "" && !('0' <= name[0] <= '9') &&
      forall c :: c in name ==> 'a' <= c <= 'z' || 'A' <= c <= 'Z' || '0' <= c <= '9' || c == '_' || c == '$'
  {
    if IsExportName(name) {
      forall c | c in name
        ensures 'a' <= c <= 'z' || 'A' <= c <= 'Z' || '0' <= c <= '9' || c == '_' || c == '$'
      {
        var i :| 0 <= i < |name| && name[i] == c;
        if i > 0 { assert IsNameStart(name[i]) || '0' <= name[i] <= '9'; }
      }
    } else {
      assert forall i :: 0 <= i < |name| ==> name[i] in name;
    }
  }

  lemma PublishedIf(p: File, s: State, n: NodeId, name: string)
    requires n < |p.nodes| && NodeWrites(p, s, n) == {Some(name)}
    ensures (name in Exports(p, s) && DynamicExport(n) !in Problems(p, s)) <==> IsExportName(name)
  {
    hide NodeWrites, IsExportName, WellFormed;
    if IsExportName(name) {
      assert name in PublishedBy(NodeWrites(p, s, n)) && n in IdsFrom(p, 0);
      assert Complaints(NodeWrites(p, s, n), n) == {};
    } else {
      assert Some(name) in NodeWrites(p, s, n) && !Publishable(Some(name));
      assert DynamicExport(n) in ProblemsAt(p, s, n) && n in IdsFrom(p, 0);
    }
  }

  /** Writing `global.name = ...` exports the name and is not complained about, exactly if it is such a name. */
  lemma MemberWriteIsPublished(p: File, s: State, n: NodeId, t: NodeId, name: string)
    requires n < |p.nodes| && p.nodes[n].Assignment? && p.nodes[n].left == t < |p.nodes|
    requires p.nodes[t].Member? && !p.nodes[t].computed && Root in ValuesAt(p, s, p.nodes[t].receiver)
    requires p.nodes[t].property < |p.nodes| && p.nodes[p.nodes[t].property] == Identifier(name)
    ensures (name in Exports(p, s) && DynamicExport(n) !in Problems(p, s)) <==>
      name != "" && !('0' <= name[0] <= '9') &&
      forall c :: c in name ==> 'a' <= c <= 'z' || 'A' <= c <= 'Z' || '0' <= c <= '9' || c == '_' || c == '$'
  {
    hide Exports, Problems, IsExportName, WellFormed, ValuesAt;
    ExportNames(name);
    PublishedIf(p, s, n, name);
  }

  /** The same of writing a name that is nowhere declared. */
  lemma NameWriteIsPublished(p: File, s: State, n: NodeId, t: NodeId, name: string)
    requires n < |p.nodes| && p.nodes[n].Assignment? && p.nodes[n].left == t < |p.nodes|
    requires p.nodes[t] == Identifier(name) && Lookup(p, Names(p), ScopeOf(p, t), name) == None
    ensures (name in Exports(p, s) && DynamicExport(n) !in Problems(p, s)) <==>
      name != "" && !('0' <= name[0] <= '9') &&
      forall c :: c in name ==> 'a' <= c <= 'z' || 'A' <= c <= 'Z' || '0' <= c <= '9' || c == '_' || c == '$'
  {
    hide Exports, Problems, IsExportName, WellFormed, Names, Lookup, ScopeOf;
    ExportNames(name);
    PublishedIf(p, s, n, name);
  }

  /** The targets inside a target: what the entries and elements of a pattern hold, and what has a default. */
  lemma SubTargetsAre(node: Node, k: NodeId)
    ensures k in SubTargets(node) <==>
      match node
      case ObjectPattern(entries) =>
        exists i :: 0 <= i < |entries| && k == if entries[i].Entry? then entries[i].value else entries[i].argument
      case ArrayPattern(elements) => exists i :: 0 <= i < |elements| && elements[i] == Some(k)
      case AssignmentPattern(left, _) => k == left
      case RestElement(argument) => k == argument
      case _ => false
  {
    match node
    case ObjectPattern(entries) =>
      if k in SubTargets(node) {
        var i :| 0 <= i < |entries| && k in EntryTarget(entries[i]);
      } else {
        forall i | 0 <= i < |entries|
          ensures k != if entries[i].Entry? then entries[i].value else entries[i].argument
        {
          assert k !in EntryTarget(entries[i]);
        }
      }
    case ArrayPattern(elements) =>
      if k in SubTargets(node) {
        var i :| 0 <= i < |elements| && k in OptionToSeq(elements[i]);
        assert elements[i] == Some(k);
      } else {
        forall i | 0 <= i < |elements| ensures elements[i] != Some(k) { assert k !in OptionToSeq(elements[i]); }
      }
    case _ =>
  }

  /** Target `u` is `t` or stands inside it. */
  ghost predicate Leads(p: File, t: NodeId, u: NodeId)
    decreases |p.nodes| - t
  {
    t == u || (t < |p.nodes| && exists k :: k in SubTargets(p.nodes[t]) && k > t && Leads(p, k, u))
  }

  /** A write to `u` itself may set this key of the global. */
  ghost predicate Sets(p: File, s: State, u: NodeId, key: Key) {
    u < |p.nodes| &&
    match p.nodes[u]
    case Member(receiver, property, computed) =>
      Root in ValuesAt(p, s, receiver) && key == KeyOf(p, EvaluateBy(p, s), property, computed)
    case Identifier(name) => Lookup(p, Names(p), ScopeOf(p, u), name) == None && key == Some(name)
    case _ => false
  }

  lemma {:induction false} WritesAre(p: File, s: State, t: NodeId, key: Key)
    ensures key in Writes(p, s, t) <==> exists u :: Leads(p, t, u) && Sets(p, s, u, key)
    decreases |p.nodes| - t
  {
    hide WellFormed, Names, Lookup, ScopeOf, ValuesAt, EvaluateBy;
    if t < |p.nodes| {
      if p.nodes[t].Member? || p.nodes[t].Identifier? {
        NoTargetsInside(p, t);
        assert Leads(p, t, t);
      } else {
        var targets := SubTargets(p.nodes[t]);
        WritesToAllAre(p, s, targets, t, key);
        forall k | k in targets && k > t
          ensures key in Writes(p, s, k) <==> exists u :: Leads(p, k, u) && Sets(p, s, u, key)
        {
          WritesAre(p, s, k, key);
        }
        if key in Writes(p, s, t) {
          var k :| k in targets && k > t && key in Writes(p, s, k);
          var u :| Leads(p, k, u) && Sets(p, s, u, key);
          assert Leads(p, t, u);
        }
        if u :| Leads(p, t, u) && Sets(p, s, u, key) {
          var k :| k in targets && k > t && Leads(p, k, u);
        }
      }
    }
  }

  lemma NoTargetsInside(p: File, t: NodeId)
    requires t < |p.nodes| && SubTargets(p.nodes[t]) == []
    ensures forall u :: Leads(p, t, u) <==> u == t
  {
  }

  lemma {:induction false} WritesToAllAre(p: File, s: State, targets: seq<NodeId>, t: NodeId, key: Key)
    requires t < |p.nodes|
    ensures key in WritesToAll(p, s, targets, t) <==> exists k :: k in targets && k > t && key in Writes(p, s, k)
    decreases |targets|
  {
    hide Writes;
    if targets != [] {
      WritesToAllAre(p, s, targets[1..], t, key);
      assert targets[0] in targets && forall k :: k in targets <==> k == targets[0] || k in targets[1..];
    }
  }

  /** Assignment or update `n` may set this key of the global. */
  ghost predicate SetsKey(p: File, s: State, n: NodeId, key: Key) {
    n < |p.nodes| && (p.nodes[n].Assignment? || p.nodes[n].Update?) &&
    var target := if p.nodes[n].Assignment? then p.nodes[n].left else p.nodes[n].target;
    exists u :: Leads(p, target, u) && Sets(p, s, u, key)
  }

  lemma NodeWritesAre(p: File, s: State, n: NodeId, key: Key)
    requires n < |p.nodes|
    ensures key in NodeWrites(p, s, n) <==> SetsKey(p, s, n, key)
  {
    hide WellFormed, Writes, Leads, Sets;
    if WrittenTarget(p.nodes[n]).Some? { WritesAre(p, s, WrittenTarget(p.nodes[n]).value, key); }
  }

  /** Exported is exactly every such name that some write may set, and in a classic script every top-level
      name under its own mark. */
  lemma ExportsAre(p: File, s: State, x: string)
    ensures x in Exports(p, s) <==>
      || (x != "" && !('0' <= x[0] <= '9')
          && (forall c :: c in x ==> 'a' <= c <= 'z' || 'A' <= c <= 'Z' || '0' <= c <= '9' || c == '_' || c == '$')
          && exists n: NodeId :: SetsKey(p, s, n, Some(x)))
      || (!p.isModule && exists b :: b in Names(p) && b.scope == 0 && x == "@binding:" + b.name)
  {
    hide WellFormed, NodeWrites, IsExportName, SetsKey, Names;
    ExportNames(x);
    if n: NodeId :| SetsKey(p, s, n, Some(x)) {
      assert n < |p.nodes| by { assert SetsKey(p, s, n, Some(x)); KeySetter(p, s, n, Some(x)); }
      NodeWritesAre(p, s, n, Some(x));
      assert n in IdsFrom(p, 0);
      assert IsExportName(x) ==> x in PublishedBy(NodeWrites(p, s, n));
    }
    if x in ExportsAt(p, s, IdsFrom(p, 0)) {
      var n :| n in IdsFrom(p, 0) && n < |p.nodes| && x in PublishedBy(NodeWrites(p, s, n));
      NodeWritesAre(p, s, n, Some(x));
    }
  }

  lemma KeySetter(p: File, s: State, n: NodeId, key: Key)
    requires SetsKey(p, s, n, key)
    ensures n < |p.nodes|
  {
  }

  /** Complained about is exactly every write that may set a key that is unknown or no such name, and every
      assignment that puts the global into a member of something else. */
  lemma ProblemsAre(p: File, s: State, n: NodeId)
    ensures DynamicExport(n) in Problems(p, s) <==>
      exists key :: SetsKey(p, s, n, key) && !(key.Some? && key.value != "" && !('0' <= key.value[0] <= '9') &&
        forall c :: c in key.value ==>
          'a' <= c <= 'z' || 'A' <= c <= 'Z' || '0' <= c <= '9' || c == '_' || c == '$')
    ensures StoredGlobal(n) in Problems(p, s) <==>
      n < |p.nodes| && p.nodes[n].Assignment? && p.nodes[n].left < |p.nodes| && p.nodes[p.nodes[n].left].Member? &&
      Root in ValuesAt(p, s, p.nodes[n].right) && Root !in ValuesAt(p, s, p.nodes[p.nodes[n].left].receiver)
  {
    hide WellFormed, NodeWrites, IsExportName, SetsKey, ValuesAt;
    if n < |p.nodes| {
      assert n in IdsFrom(p, 0);
      forall key ensures key in NodeWrites(p, s, n) <==> SetsKey(p, s, n, key) { NodeWritesAre(p, s, n, key); }
      assert forall x :: x in ProblemsAt(p, s, n) ==> x in Problems(p, s);
    }
    forall key | SetsKey(p, s, n, key) ensures n < |p.nodes| { KeySetter(p, s, n, key); }
    forall key: Key | key.Some?
      ensures IsExportName(key.value) <==>
        key.value != "" && !('0' <= key.value[0] <= '9') &&
        forall c :: c in key.value ==>
          'a' <= c <= 'z' || 'A' <= c <= 'Z' || '0' <= c <= '9' || c == '_' || c == '$'
    {
      ExportNames(key.value);
    }
  }
}

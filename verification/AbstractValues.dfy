/**
 Abstract values and the evaluation of an expression to a set of them.

 One evaluation step is written once, over an arbitrary evaluator `rec` for the
 subexpressions. The analysis ties the knot with a set of nodes under evaluation: a
 node met again while it is being evaluated yields nothing. The unguarded equations tie
 it with a depth bound instead, and their solution is the union over all depths.
 */
module AbstractValues {
  import opened Wrappers
  import opened Syntax

  datatype Abstract =
    | Root
    | Builtin(name: string)
    | BuiltinMember(owner: string, key: string)
    | Text(text: string)
    | NodeValue(node: NodeId)

  type Values = set<Abstract>

  type Evaluator = NodeId -> Values

  /** What is known of every binding, and of the results of every function. */
  datatype State = State(env: map<Binding, Values>, results: map<NodeId, Values>)

  const GLOBAL_NAMES: set<string> := {"window", "self", "globalThis", "global"}
  const GLOBAL_ALIASES: set<string> := {"window", "self", "globalThis"}
  const CODE_BUILTINS: set<string> := {"eval", "Function"}
  const OBJECT_BUILTINS: set<string> := {"Object", "Reflect"}

  function BindingValues(s: State, b: Binding): Values {
    if b in s.env then s.env[b] else {}
  }

  function ResultsOf(s: State, v: Abstract): Values {
    if v.NodeValue? && v.node in s.results then s.results[v.node] else {}
  }

  function KeyText(key: Key): string {
    if key.Some? then key.value else "null"
  }

  predicate IsDigits(text: string) {
    |text| > 0 && forall i :: 0 <= i < |text| ==> '0' <= text[i] <= '9'
  }

  function DigitsValue(text: string): nat
    requires forall i :: 0 <= i < |text| ==> '0' <= text[i] <= '9'
  {
    if |text| == 0 then 0
    else DigitsValue(text[..|text| - 1]) * 10 + (text[|text| - 1] as int - '0' as int)
  }

  /** An unresolved identifier: the browser global, a tracked builtin, or nothing known. */
  function FreeValues(name: string): Values {
    if name in GLOBAL_NAMES then {Root}
    else if name in OBJECT_BUILTINS || name in CODE_BUILTINS then {Builtin(name)}
    else {}
  }

  /** The key a member access or property uses: a computed one only if a single string is known. */
  function KeyOf(p: File, rec: Evaluator, property: NodeId, computed: bool): Key {
    if !computed then KeyAt(p, property)
    else
      var keys := set v | v in rec(property) && v.Text? :: v.text;
      if |keys| == 1 then Some(Single(keys)) else None
  }

  lemma SingletonElement(keys: set<string>, x: string)
    requires |keys| == 1 && x in keys
    ensures keys == {x}
  {
    var rest := keys - {x};
    assert |rest| == 0 && keys == rest + {x};
  }

  function Single(keys: set<string>): (k: string)
    requires |keys| == 1
    ensures k in keys
  {
    assert exists x :: x in keys && keys == {x} by {
      var x :| x in keys;
      SingletonElement(keys, x);
    }
    var k :| k in keys && keys == {k};
    k
  }

  function PropertyValues(p: File, s: State, rec: Evaluator, q: Property, key: Key): Values {
    if q.kind == Spread || KeyOf(p, rec, q.key, q.computed) != key then {}
    else if q.kind == Get then ResultsOf(s, NodeValue(q.value))
    else rec(q.value)
  }

  /** What the first `i` properties of an object literal give for a key. */
  function PropertiesValues(p: File, s: State, rec: Evaluator, qs: seq<Property>, i: nat, key: Key): Values
    requires i <= |qs|
  {
    set j, v | 0 <= j < i && v in PropertyValues(p, s, rec, qs[j], key) :: v
  }

  lemma OneMoreProperty(p: File, s: State, rec: Evaluator, qs: seq<Property>, i: nat, key: Key)
    requires i < |qs|
    ensures PropertiesValues(p, s, rec, qs, i + 1, key) ==
            PropertiesValues(p, s, rec, qs, i, key) + PropertyValues(p, s, rec, qs[i], key)
  {
  }

  function MemberOfOne(p: File, s: State, rec: Evaluator, value: Abstract, key: Key): Values {
    match value
    case Root =>
      (if key.Some? && key.value in GLOBAL_ALIASES then {Root} else {}) +
      (if key.Some? && key.value in CODE_BUILTINS then {Builtin(key.value)} else {})
    case Builtin(name) => if name in OBJECT_BUILTINS then {BuiltinMember(name, KeyText(key))} else {}
    case NodeValue(n) =>
      if n >= |p.nodes| then {}
      else if p.nodes[n].Object? then
        var qs := p.nodes[n].properties;
        PropertiesValues(p, s, rec, qs, |qs|, key)
      else if p.nodes[n].Array? && key.Some? && IsDigits(key.value) &&
        DigitsValue(key.value) < |p.nodes[n].elements| then
        var element := p.nodes[n].elements[DigitsValue(key.value)];
        if element.Some? then rec(element.value) else {}
      else {}
    case _ => {}
  }

  function MemberOf(p: File, s: State, rec: Evaluator, objects: Values, key: Key): Values {
    set o, v | o in objects && v in MemberOfOne(p, s, rec, o, key) :: v
  }

  function AlongPath(p: File, s: State, rec: Evaluator, start: Values, path: seq<Key>): Values
    decreases |path|
  {
    if path == [] then start
    else AlongPath(p, s, rec, MemberOf(p, s, rec, start, path[0]), path[1..])
  }

  function FlowValues(p: File, s: State, rec: Evaluator, f: Flow): Values {
    AlongPath(p, s, rec, rec(f.init), f.path)
  }

  /** The function whose `this` a node would see. */
  function ThisOwner(p: File, s: NodeId): NodeId
    requires s < |p.nodes| && OpensScope(p.nodes[s])
  {
    if s == 0 then 0
    else if p.nodes[s].Function? && p.nodes[s].fkind != Arrow then s
    else ThisOwner(p, OuterScope(p, s))
  }

  function ThisValues(p: File, scope: NodeId): Values
    requires scope < |p.nodes| && OpensScope(p.nodes[scope])
  {
    if !p.isModule && ThisOwner(p, scope) == 0 then {Root} else {}
  }

  function NameValues(p: File, s: State, scope: NodeId, name: string): Values
    requires scope < |p.nodes| && OpensScope(p.nodes[scope])
  {
    var b := Lookup(p, Names(p), scope, name);
    if b.Some? then BindingValues(s, b.value) else FreeValues(name)
  }

  /** What calling any of `functions` can return. */
  function CallResults(s: State, functions: Values): Values {
    set v, w | v in functions && w in ResultsOf(s, v) :: w
  }

  function LiteralValues(tagged: bool, text: string): Values {
    if tagged then {Text(text)} else {}
  }

  /** One step of evaluation. */
  function Step(p: File, s: State, rec: Evaluator, n: NodeId): Values
    requires n < |p.nodes|
  {
    match p.nodes[n]
    case This => ThisValues(p, ScopeOf(p, n))
    case Identifier(name) => NameValues(p, s, ScopeOf(p, n), name)
    case Literal(tagged, text) => LiteralValues(tagged, text)
    case Function(_, _, _, _, _, _) => {NodeValue(n)}
    case Object(_) => {NodeValue(n)}
    case Array(_) => {NodeValue(n)}
    case Conditional(_, c, a) => rec(c) + rec(a)
    case Logical(l, r) => rec(l) + rec(r)
    case Chain(e) => rec(e)
    case Sequence(es) => if es == [] then {} else rec(es[|es| - 1])
    case Assignment(_, _, r) => rec(r)
    case Member(o, property, computed) => MemberOf(p, s, rec, rec(o), KeyOf(p, rec, property, computed))
    case Call(callee, _) => CallResults(s, rec(callee))
    case _ => {}
  }

  /** Evaluation with the guard: nodes in `evaluating` yield nothing. */
  function Guarded(p: File, s: State, evaluating: set<NodeId>, n: NodeId): Values
    decreases IdsFrom(p, 0) - evaluating, 0
  {
    if n >= |p.nodes| || n in evaluating then {}
    else
      assert n in IdsFrom(p, 0) - evaluating;
      Step(p, s, GuardedBy(p, s, evaluating + {n}), n)
  }

  function GuardedBy(p: File, s: State, evaluating: set<NodeId>): Evaluator
    decreases IdsFrom(p, 0) - evaluating, 1
  {
    (n: NodeId) => Guarded(p, s, evaluating, n)
  }

  function IdsFrom(p: File, lo: nat): (r: set<NodeId>)
    ensures forall n :: n in r <==> lo <= n < |p.nodes|
    decreases |p.nodes| - lo
  {
    if lo >= |p.nodes| then {} else {lo} + IdsFrom(p, lo + 1)
  }

  /** What the analysis takes an expression to evaluate to. */
  function ValuesAt(p: File, s: State, n: NodeId): Values
  {
    Guarded(p, s, {}, n)
  }

  /** The unguarded equations, unrolled to depth `h`. */
  ghost function Unrolled(p: File, s: State, h: nat, n: NodeId): Values
    decreases h, 0
  {
    if h == 0 || n >= |p.nodes| then {} else Step(p, s, UnrolledBy(p, s, h - 1), n)
  }

  ghost function UnrolledBy(p: File, s: State, h: nat): Evaluator
    decreases h, 1
  {
    (n: NodeId) => Unrolled(p, s, h, n)
  }
}

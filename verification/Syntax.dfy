/**
 The abstract syntax that the renderer source analysis walks, as a table of nodes.

 A node is named by its index, which plays the part of JavaScript object identity, so a
 set of nodes is a set of numbers. Every node but the root is the child of exactly one
 earlier node. Scopes are named by the node that opens them.
 */
module Syntax {
  import opened Wrappers

  type NodeId = nat

  datatype FunctionKind = Declaration | Expression | Arrow

  /** What opens a block scope: a list of statements, a catch clause, the head of a `for` loop, a switch, or
      the static part of a class. */
  datatype BlockKind = Statements | CatchClause | LoopHead | SwitchCases | StaticPart

  datatype PropertyKind = Init | Get | Set | Spread

  /** A property of an object literal; for `Spread` only `value` matters. */
  datatype Property = Property(key: NodeId, computed: bool, value: NodeId, kind: PropertyKind)

  datatype PatternEntry =
    | Entry(key: NodeId, computed: bool, value: NodeId)
    | RestEntry(argument: NodeId)

  datatype Declarator = Declarator(id: NodeId, init: Option<NodeId>)

  datatype Node =
    | Program(body: seq<NodeId>)
      // Everything that opens a block scope.
    | Block(blockKind: BlockKind, param: Option<NodeId>, body: seq<NodeId>)
      // `fnName` is the function's own name, `concise` marks an arrow with an expression body, and
      // `suspends` generators and asynchronous functions.
    | Function(fkind: FunctionKind, fnName: Option<string>, params: seq<NodeId>, fnBody: NodeId, concise: bool,
               suspends: bool)
    | VariableDeclaration(isVar: bool, declarators: seq<Declarator>)
      // Class declarations and imports: they declare names and give them no values. An import has no parts.
    | OtherDeclaration(names: seq<string>, parts: seq<NodeId>)
      // An export of a declaration or an expression; one of names alone has no parts.
    | Export(parts: seq<NodeId>)
    | Return(argument: Option<NodeId>)
    | ExpressionStatement(expression: NodeId)
    | If(test: NodeId, consequent: NodeId, otherwise: Option<NodeId>)
    | While(test: NodeId, loopBody: NodeId)
    | Identifier(name: string)
      // `tagged` holds for string and number literals; `text` is String(value).
    | Literal(tagged: bool, text: string)
    | This
    | Object(properties: seq<Property>)
    | Array(elements: seq<Option<NodeId>>)
    | Conditional(test: NodeId, consequent: NodeId, alternate: NodeId)
    | Logical(left: NodeId, right: NodeId)
    | Chain(expression: NodeId)
    | Sequence(expressions: seq<NodeId>)
      // `plain` holds for `=` and not for `+=`, `||=` and the like.
    | Assignment(plain: bool, left: NodeId, right: NodeId)
    | Update(target: NodeId)
    | Member(receiver: NodeId, property: NodeId, computed: bool)
    | Call(callee: NodeId, arguments: seq<NodeId>)
      // Operators with a primitive result: arithmetic, comparison, typeof, templates.
    | Operator(parts: seq<NodeId>)
    | ObjectPattern(entries: seq<PatternEntry>)
    | ArrayPattern(elements: seq<Option<NodeId>>)
    | AssignmentPattern(left: NodeId, right: NodeId)
    | RestElement(restArgument: NodeId)
      // Every node type the analysis has no case for.
    | Unmodelled(parts: seq<NodeId>)

  /** A whole source file; `parent[n]` is the node that `n` is a child of. */
  datatype Source = Source(nodes: seq<Node>, parent: seq<NodeId>, isModule: bool)

  function OptionToSeq(o: Option<NodeId>): seq<NodeId> {
    match o case None => [] case Some(n) => [n]
  }

  function PropertyChildren(q: Property): seq<NodeId> {
    if q.kind == Spread then [q.value] else [q.key, q.value]
  }

  function EntryChildren(e: PatternEntry): seq<NodeId> {
    match e case Entry(key, _, value) => [key, value] case RestEntry(argument) => [argument]
  }

  function DeclaratorChildren(d: Declarator): seq<NodeId> {
    [d.id] + OptionToSeq(d.init)
  }

  function Flatten<S, T>(parts: seq<S>, f: S -> seq<T>): (r: seq<T>)
    ensures forall i, k :: 0 <= i < |parts| && k in f(parts[i]) ==> k in r
    ensures forall k :: k in r ==> exists i :: 0 <= i < |parts| && k in f(parts[i])
  {
    if parts == [] then [] else f(parts[0]) + Flatten(parts[1..], f)
  }

  function Children(node: Node): seq<NodeId> {
    match node
    case Program(body) => body
    case Block(_, param, body) => OptionToSeq(param) + body
    case Function(_, _, params, body, _, _) => params + [body]
    case VariableDeclaration(_, ds) => Flatten(ds, DeclaratorChildren)
    case OtherDeclaration(_, parts) => parts
    case Export(parts) => parts
    case Return(argument) => OptionToSeq(argument)
    case ExpressionStatement(e) => [e]
    case If(test, c, o) => [test, c] + OptionToSeq(o)
    case While(test, body) => [test, body]
    case Identifier(_) => []
    case Literal(_, _) => []
    case This => []
    case Object(qs) => Flatten(qs, PropertyChildren)
    case Array(elements) => Flatten(elements, OptionToSeq)
    case Conditional(t, c, a) => [t, c, a]
    case Logical(l, r) => [l, r]
    case Chain(e) => [e]
    case Sequence(es) => es
    case Assignment(_, l, r) => [l, r]
    case Update(t) => [t]
    case Member(o, p, _) => [o, p]
    case Call(callee, args) => [callee] + args
    case Operator(parts) => parts
    case ObjectPattern(entries) => Flatten(entries, EntryChildren)
    case ArrayPattern(elements) => Flatten(elements, OptionToSeq)
    case AssignmentPattern(l, r) => [l, r]
    case RestElement(a) => [a]
    case Unmodelled(parts) => parts
  }

  predicate IsChild(p: Source, n: NodeId, k: NodeId) {
    n < |p.nodes| && k in Children(p.nodes[n])
  }

  /** The table is a tree: children come after their parent and name it back. */
  ghost predicate WellFormed(p: Source) {
    && |p.nodes| == |p.parent| > 0
    && p.nodes[0].Program?
    && (forall n: NodeId, k: NodeId :: IsChild(p, n, k) ==> n < k < |p.nodes| && p.parent[k] == n)
    && (forall k: NodeId :: 0 < k < |p.nodes| ==> p.parent[k] < k && IsChild(p, p.parent[k], k))
    && (forall n :: 0 <= n < |p.nodes| && p.nodes[n].Function? && p.nodes[n].fkind == Declaration ==>
          p.nodes[n].fnName.Some?)
    && (forall n :: 0 <= n < |p.nodes| && p.nodes[n].Function? && p.nodes[n].fkind == Arrow ==> p.nodes[n].fnName.None?)
  }

  /** A source file: a table that is a tree. */
  type File = p: Source | WellFormed(p) witness Source([Program([])], [0], true)

  /** What well-formedness says of one child. */
  lemma ChildIsLater(p: File, n: NodeId, k: NodeId)
    requires n < |p.nodes| && k in Children(p.nodes[n])
    ensures n < k < |p.nodes| && p.parent[k] == n
  {
    assert IsChild(p, n, k);
  }

  // ---- Scopes -----------------------------------------------------------------------

  predicate OpensScope(node: Node) {
    node.Program? || node.Function? || node.Block?
  }

  /** The scope a node is recorded under: its own if it opens one. */
  function ScopeOf(p: File, n: NodeId): (s: NodeId)
    requires n < |p.nodes|
    ensures s <= n && OpensScope(p.nodes[s])
  {
    if OpensScope(p.nodes[n]) then n else ScopeOf(p, p.parent[n])
  }

  /** The scope around a node that is not the root. */
  function OuterScope(p: File, n: NodeId): (s: NodeId)
    requires 0 < n < |p.nodes|
    ensures s < n && OpensScope(p.nodes[s])
  {
    ScopeOf(p, p.parent[n])
  }

  /** The scope that receives `var` declarations made in scope `s`. */
  function VarScope(p: File, s: NodeId): (d: NodeId)
    requires s < |p.nodes| && OpensScope(p.nodes[s])
    ensures d <= s && (p.nodes[d].Program? || p.nodes[d].Function?)
  {
    if p.nodes[s].Block? then VarScope(p, OuterScope(p, s)) else s
  }

  /** The function whose `return` statements node `n` would be one of. */
  function OwnerOf(p: File, n: NodeId): (f: Option<NodeId>)
    requires n < |p.nodes|
    ensures f.Some? ==> f.value <= n && p.nodes[f.value].Function?
  {
    if p.nodes[n].Function? then Some(n)
    else if n == 0 then None
    else OwnerOf(p, p.parent[n])
  }

  // ---- Bindings and flows -----------------------------------------------------------

  datatype Binding = Binding(scope: NodeId, name: string)

  type Key = Option<string>

  /** The values of `init`, followed along `path`, flow into `target`. */
  datatype Flow = Flow(target: Binding, init: NodeId, path: seq<Key>)

  function LiteralKey(node: Node): Key {
    match node
    case Identifier(name) => Some(name)
    case Literal(_, text) => Some(text)
    case _ => None
  }

  function KeyAt(p: File, n: NodeId): Key {
    if n < |p.nodes| then LiteralKey(p.nodes[n]) else None
  }

  function Digit(d: nat): char
    requires d < 10
  {
    ['0', '1', '2', '3', '4', '5', '6', '7', '8', '9'][d]
  }

  function IndexText(i: nat): string {
    if i < 10 then [Digit(i)] else IndexText(i / 10) + [Digit(i % 10)]
  }

  /** A pattern together with the expression and path its value comes from, if known. */
  datatype Bound = Bound(pattern: NodeId, init: Option<NodeId>, path: seq<Key>)

  function EntryBounds(p: File, e: PatternEntry, init: Option<NodeId>, path: seq<Key>): seq<Bound> {
    match e
    case Entry(key, computed, value) => if computed then [] else [Bound(value, init, path + [KeyAt(p, key)])]
    case RestEntry(argument) => [Bound(argument, None, [])]
  }

  function ElementBounds(elements: seq<Option<NodeId>>, i: nat, init: Option<NodeId>, path: seq<Key>): seq<Bound>
    decreases |elements| - i
  {
    if i >= |elements| then []
    else
      (if elements[i].Some? then [Bound(elements[i].value, init, path + [Some(IndexText(i))])] else []) +
      ElementBounds(elements, i + 1, init, path)
  }

  /** The patterns directly inside a pattern. A default value is a second source for its target. */
  function SubPatterns(p: File, b: Bound): seq<Bound>
    requires b.pattern < |p.nodes|
  {
    match p.nodes[b.pattern]
    case AssignmentPattern(left, right) => [Bound(left, b.init, b.path), Bound(left, Some(right), [])]
    case ObjectPattern(entries) => Flatten(entries, e => EntryBounds(p, e, b.init, b.path))
    case ArrayPattern(elements) => ElementBounds(elements, 0, b.init, b.path)
    case RestElement(argument) => [Bound(argument, None, [])]
    case _ => []
  }

  /** The names a pattern declares in `scope`. */
  function PatternNames(p: File, scope: NodeId, b: Bound): set<Binding>
    decreases |p.nodes| - b.pattern
  {
    if b.pattern >= |p.nodes| then {}
    else if p.nodes[b.pattern].Identifier? then {Binding(scope, p.nodes[b.pattern].name)}
    else
      var subs := SubPatterns(p, b);
      set i, x | 0 <= i < |subs| && subs[i].pattern > b.pattern && x in PatternNames(p, scope, subs[i]) :: x
  }

  /** The flows a pattern registers. */
  function PatternFlows(p: File, scope: NodeId, b: Bound): set<Flow>
    decreases |p.nodes| - b.pattern
  {
    if b.pattern >= |p.nodes| then {}
    else if p.nodes[b.pattern].Identifier? then
      if b.init.Some? then {Flow(Binding(scope, p.nodes[b.pattern].name), b.init.value, b.path)} else {}
    else
      var subs := SubPatterns(p, b);
      set i, f | 0 <= i < |subs| && subs[i].pattern > b.pattern && f in PatternFlows(p, scope, subs[i]) :: f
  }

  /** The patterns node `n` binds where it stands, and the scope they bind in. */
  function NodePatterns(p: File, n: NodeId): (NodeId, seq<Bound>)
    requires n < |p.nodes|
  {
    match p.nodes[n]
    case Function(_, _, params, _, _, _) =>
      (n, seq(|params|, i requires 0 <= i < |params| => Bound(params[i], None, [])))
    case Block(_, param, _) => (n, if param.Some? then [Bound(param.value, None, [])] else [])
    case VariableDeclaration(isVar, ds) =>
      (if isVar then VarScope(p, ScopeOf(p, n)) else ScopeOf(p, n),
       seq(|ds|, i requires 0 <= i < |ds| => Bound(ds[i].id, ds[i].init, [])))
    case _ => (0, [])
  }

  /** The names node `n` declares other than through a pattern. */
  function OwnNames(p: File, n: NodeId): set<Binding>
    requires n < |p.nodes|
  {
    match p.nodes[n]
    case Function(kind, name, _, _, _, _) =>
      if kind == FunctionKind.Declaration && name.Some? && n > 0 then {Binding(OuterScope(p, n), name.value)} else {}
    case OtherDeclaration(names, _) => set name | name in names :: Binding(ScopeOf(p, n), name)
    case _ => {}
  }

  /** The names node `n` declares, leaving out a function's own name inside itself. */
  function PlainNames(p: File, n: NodeId): set<Binding>
    requires n < |p.nodes|
  {
    var (scope, bounds) := NodePatterns(p, n);
    (set i, b | 0 <= i < |bounds| && b in PatternNames(p, scope, bounds[i]) :: b) + OwnNames(p, n)
  }

  /** A function's own name, visible inside it. */
  function SelfNames(p: File, n: NodeId): set<Binding>
    requires n < |p.nodes|
  {
    if p.nodes[n].Function? && p.nodes[n].fnName.Some? then {Binding(n, p.nodes[n].fnName.value)} else {}
  }

  /** The flows that visiting node `n` registers. */
  function NodeFlows(p: File, n: NodeId): set<Flow>
    requires n < |p.nodes|
  {
    var (scope, bounds) := NodePatterns(p, n);
    set i, f | 0 <= i < |bounds| && f in PatternFlows(p, scope, bounds[i]) :: f
  }

  /** The expressions whose values node `n` adds to the results of a function. */
  function NodeReturns(p: File, n: NodeId): set<(NodeId, NodeId)>
    requires n < |p.nodes|
  {
    match p.nodes[n]
    case Return(argument) =>
      var owner := OwnerOf(p, n);
      if owner.Some? && argument.Some? then {(owner.value, argument.value)} else {}
    case Function(kind, _, _, body, concise, _) => if kind == Arrow && concise then {(n, body)} else {}
    case _ => {}
  }

  /** The parameters of function `f` bound to the arguments of `call`. */
  function ParameterBounds(p: File, call: NodeId, f: NodeId): seq<Bound>
    requires call < |p.nodes| && f < |p.nodes| && p.nodes[call].Call? && p.nodes[f].Function?
  {
    var params, args := p.nodes[f].params, p.nodes[call].arguments;
    seq(|params|, i requires 0 <= i < |params| =>
          Bound(params[i], if i < |args| then Some(args[i]) else None, []))
  }

  /** The flows registered when `call` is found to call function `f`. */
  function ParameterFlows(p: File, call: NodeId, f: NodeId): set<Flow>
    requires call < |p.nodes| && f < |p.nodes| && p.nodes[call].Call? && p.nodes[f].Function?
  {
    var bounds := ParameterBounds(p, call, f);
    set i, w | 0 <= i < |bounds| && w in PatternFlows(p, f, bounds[i]) :: w
  }

  // ---- The whole file ---------------------------------------------------------------

  function Names(p: File): set<Binding>
  {
    set n, b | 0 <= n < |p.nodes| && b in PlainNames(p, n) + SelfNames(p, n) :: b
  }

  function Flows(p: File): set<Flow>
  {
    set n, f | 0 <= n < |p.nodes| && f in NodeFlows(p, n) :: f
  }

  function Returns(p: File): set<(NodeId, NodeId)>
  {
    set n, r | 0 <= n < |p.nodes| && r in NodeReturns(p, n) :: r
  }

  /** The functions a binding holds by declaration. */
  function Declared(p: File, n: NodeId): set<Binding>
    requires n < |p.nodes|
  {
    if p.nodes[n].Function? && p.nodes[n].fnName.Some? then
      {Binding(n, p.nodes[n].fnName.value)} +
      (if p.nodes[n].fkind == Declaration && n > 0 then {Binding(OuterScope(p, n), p.nodes[n].fnName.value)} else {})
    else {}
  }

  /** The innermost declaration of `name` seen from scope `s`. */
  function Lookup(p: File, names: set<Binding>, s: NodeId, name: string): (b: Option<Binding>)
    requires s < |p.nodes| && OpensScope(p.nodes[s])
    ensures b.Some? ==> b.value in names && b.value.name == name
  {
    if Binding(s, name) in names then Some(Binding(s, name))
    else if s == 0 then None
    else Lookup(p, names, OuterScope(p, s), name)
  }
}

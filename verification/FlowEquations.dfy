/**
 The flow equations of a file, their solutions, and the finite universe of facts that
 bounds every run of the analysis.
 */
module FlowEquations {
  import opened Wrappers
  import opened Syntax
  import opened AbstractValues
  import opened GuardedEvaluation

  // ---- The equations ------------------------------------------------------------------

  ghost predicate FlowMet(p: File, s: State, rec: Evaluator, f: Flow) {
    FlowValues(p, s, rec, f) <= BindingValues(s, f.target)
  }

  ghost predicate AssignmentMet(p: File, s: State, rec: Evaluator, n: NodeId)
    requires n < |p.nodes|
  {
    AssignedBinding(p, n).Some? ==> rec(p.nodes[n].right) <= BindingValues(s, AssignedBinding(p, n).value)
  }

  ghost predicate CallMet(p: File, s: State, rec: Evaluator, call: NodeId, f: NodeId)
    requires call < |p.nodes|
  {
    p.nodes[call].Call? && f < |p.nodes| && p.nodes[f].Function? && NodeValue(f) in rec(p.nodes[call].callee) ==>
      forall w :: w in ParameterFlows(p, call, f) ==> FlowMet(p, s, rec, w)
  }

  ghost predicate ReturnMet(s: State, rec: Evaluator, r: (NodeId, NodeId)) {
    rec(r.1) <= ResultsOf(s, NodeValue(r.0))
  }

  /** The binding that assignment `n` writes, if its target is a declared identifier. */
  function AssignedBinding(p: File, n: NodeId): Option<Binding>
    requires n < |p.nodes|
  {
    if p.nodes[n].Assignment? && p.nodes[n].left < |p.nodes| && p.nodes[p.nodes[n].left].Identifier? then
      Lookup(p, Names(p), ScopeOf(p, n), p.nodes[p.nodes[n].left].name)
    else None
  }

  ghost predicate DeclarationsMet(p: File, s: State)
  {
    forall n, b :: 0 <= n < |p.nodes| && b in Declared(p, n) ==> NodeValue(n) in BindingValues(s, b)
  }

  /** Every equation holds when expressions are evaluated by `rec`. */
  ghost predicate MetBy(p: File, s: State, rec: Evaluator)
  {
    && DeclarationsMet(p, s)
    && (forall f :: f in Flows(p) ==> FlowMet(p, s, rec, f))
    && (forall n :: 0 <= n < |p.nodes| ==> AssignmentMet(p, s, rec, n))
    && (forall n, f :: 0 <= n < |p.nodes| && 0 <= f < |p.nodes| ==> CallMet(p, s, rec, n, f))
    && (forall r :: r in Returns(p) ==> ReturnMet(s, rec, r))
  }

  /** The state is closed under the analysis' own, guarded, evaluation. */
  ghost predicate Closed(p: File, s: State)
  {
    MetBy(p, s, EvaluateBy(p, s))
  }

  /** The state solves the unguarded equations. */
  ghost predicate Solution(p: File, s: State)
  {
    forall h: nat :: MetBy(p, s, UnrolledBy(p, s, h))
  }

  /** Below every closed state. */
  ghost predicate BelowClosed(p: File, s: State)
  {
    forall t :: Closed(p, t) ==> Below(s, t)
  }

  ghost predicate LeastClosed(p: File, s: State)
  {
    Closed(p, s) && BelowClosed(p, s)
  }

  /** A solution of the unguarded equations that is below every other. */
  ghost predicate LeastSolution(p: File, s: State)
  {
    Solution(p, s) && forall t :: Solution(p, t) ==> Below(s, t)
  }

  lemma {:induction false} AlongPathMonotone(p: File, s: State, t: State, rec: Evaluator, rec': Evaluator,
                                             start: Values, start': Values, path: seq<Key>)
    requires NonComputed(p) && Below(s, t) && start <= start'
    requires forall k: NodeId :: rec(k) <= rec'(k)
    ensures AlongPath(p, s, rec, start, path) <= AlongPath(p, t, rec', start', path)
    decreases |path|
  {
    if path != [] {
      MemberOfMonotone(p, s, t, rec, rec', start, start', path[0]);
      AlongPathMonotone(p, s, t, rec, rec', MemberOf(p, s, rec, start, path[0]),
                        MemberOf(p, t, rec', start', path[0]), path[1..]);
    }
  }

  /** Equations met by an evaluator are met by any smaller one. */
  lemma MetBySmaller(p: File, s: State, rec: Evaluator, rec': Evaluator)
    requires NonComputed(p) && MetBy(p, s, rec')
    requires forall k: NodeId :: rec(k) <= rec'(k)
    ensures MetBy(p, s, rec)
  {
    BelowReflexive(s);
    forall f | FlowMet(p, s, rec', f) ensures FlowMet(p, s, rec, f) {
      AlongPathMonotone(p, s, s, rec, rec', rec(f.init), rec'(f.init), f.path);
    }
    forall n | 0 <= n < |p.nodes| ensures AssignmentMet(p, s, rec, n) {
      assert AssignmentMet(p, s, rec', n);
    }
    forall n, f | 0 <= n < |p.nodes| && 0 <= f < |p.nodes| ensures CallMet(p, s, rec, n, f) {
      assert CallMet(p, s, rec', n, f);
    }
    forall r | r in Returns(p) ensures ReturnMet(s, rec, r) {
      assert ReturnMet(s, rec', r);
    }
  }

  /** With flat property values, a closed state solves the unguarded equations. */
  lemma ClosedIsSolution(p: File, s: State)
    requires NonComputed(p) && FlatHeld(p) && Closed(p, s)
    ensures Solution(p, s)
  {
    forall h: nat ensures MetBy(p, s, UnrolledBy(p, s, h)) {
      forall k: NodeId ensures UnrolledBy(p, s, h)(k) <= EvaluateBy(p, s)(k) {
        GuardNeverCuts(p, s, h, {}, k);
      }
      MetBySmaller(p, s, UnrolledBy(p, s, h), EvaluateBy(p, s));
    }
  }

  /** The guard only leaves values out, so every solution is closed. */
  lemma SolutionIsClosed(p: File, s: State)
    requires NonComputed(p) && Solution(p, s)
    ensures Closed(p, s)
  {
    var rec := UnrolledBy(p, s, Remaining(p, {}));
    forall k: NodeId ensures EvaluateBy(p, s)(k) <= rec(k) {
      GuardedIsDerived(p, s, {}, k);
    }
    MetBySmaller(p, s, EvaluateBy(p, s), rec);
  }

  /** What is below every closed state is below every solution; with flat property values the least
      closed state is the least solution. */
  lemma LeastClosedAndSolutions(p: File, s: State)
    requires NonComputed(p) && LeastClosed(p, s)
    ensures forall t :: Solution(p, t) ==> Below(s, t)
    ensures FlatHeld(p) ==> LeastSolution(p, s)
  {
    forall t | Solution(p, t) ensures Below(s, t) { SolutionIsClosed(p, t); }
    if FlatHeld(p) { ClosedIsSolution(p, s); }
  }

  // ---- What a closed state bounds ---------------------------------------------------------

  /** Every closed state meets this flow. */
  ghost predicate Respected(p: File, f: Flow)
  {
    forall t :: Closed(p, t) ==> FlowMet(p, t, EvaluateBy(p, t), f)
  }

  lemma EvaluationBelow(p: File, s: State, t: State)
    requires NonComputed(p) && Below(s, t)
    ensures forall n: NodeId :: EvaluateBy(p, s)(n) <= EvaluateBy(p, t)(n)
  {
    forall n: NodeId ensures EvaluateBy(p, s)(n) <= EvaluateBy(p, t)(n) {
      GuardedMonotone(p, s, t, {}, n);
    }
  }

  lemma FlowBelowClosed(p: File, s: State, f: Flow)
    requires NonComputed(p) && BelowClosed(p, s) && Respected(p, f)
    ensures forall t :: Closed(p, t) ==> FlowValues(p, s, EvaluateBy(p, s), f) <= BindingValues(t, f.target)
  {
    forall t | Closed(p, t)
      ensures FlowValues(p, s, EvaluateBy(p, s), f) <= BindingValues(t, f.target)
    {
      EvaluationBelow(p, s, t);
      var rec, rec' := EvaluateBy(p, s), EvaluateBy(p, t);
      AlongPathMonotone(p, s, t, rec, rec', rec(f.init), rec'(f.init), f.path);
      assert FlowMet(p, t, rec', f);
    }
  }

  lemma AssignmentBelowClosed(p: File, s: State, n: NodeId)
    requires NonComputed(p) && BelowClosed(p, s)
    requires n < |p.nodes| && AssignedBinding(p, n).Some?
    ensures forall t :: Closed(p, t) ==>
              ValuesAt(p, s, p.nodes[n].right) <= BindingValues(t, AssignedBinding(p, n).value)
  {
    forall t | Closed(p, t)
      ensures ValuesAt(p, s, p.nodes[n].right) <= BindingValues(t, AssignedBinding(p, n).value)
    {
      EvaluationBelow(p, s, t);
      assert EvaluateBy(p, s)(p.nodes[n].right) <= EvaluateBy(p, t)(p.nodes[n].right);
      assert AssignmentMet(p, t, EvaluateBy(p, t), n);
    }
  }

  lemma ReturnBelowClosed(p: File, s: State, r: (NodeId, NodeId))
    requires NonComputed(p) && BelowClosed(p, s) && r in Returns(p)
    ensures forall t :: Closed(p, t) ==> ValuesAt(p, s, r.1) <= ResultsOf(t, NodeValue(r.0))
  {
    forall t | Closed(p, t) ensures ValuesAt(p, s, r.1) <= ResultsOf(t, NodeValue(r.0)) {
      EvaluationBelow(p, s, t);
      assert EvaluateBy(p, s)(r.1) <= EvaluateBy(p, t)(r.1);
      assert ReturnMet(t, EvaluateBy(p, t), r);
    }
  }

  /** The parameter flows of a call found by the analysis are flows of every closed state. */
  lemma CallRespected(p: File, s: State, call: NodeId, f: NodeId)
    requires NonComputed(p) && BelowClosed(p, s)
    requires call < |p.nodes| && f < |p.nodes| && p.nodes[call].Call? && p.nodes[f].Function?
    requires NodeValue(f) in ValuesAt(p, s, p.nodes[call].callee)
    ensures forall w :: w in ParameterFlows(p, call, f) ==> Respected(p, w)
  {
    hide WellFormed, Guarded, ParameterFlows;
    forall t | Closed(p, t)
      ensures forall w :: w in ParameterFlows(p, call, f) ==> FlowMet(p, t, EvaluateBy(p, t), w)
    {
      EvaluationBelow(p, s, t);
      assert EvaluateBy(p, s)(p.nodes[call].callee) <= EvaluateBy(p, t)(p.nodes[call].callee);
      assert CallMet(p, t, EvaluateBy(p, t), call, f);
    }
  }

  lemma BindingStaysBelow(p: File, s: State, b: Binding, values: Values)
    requires BelowClosed(p, s) && b in s.env
    requires forall t :: Closed(p, t) ==> values <= BindingValues(t, b)
    ensures BelowClosed(p, State(s.env[b := s.env[b] + values], s.results))
  {
    hide Closed;
    forall t | Closed(p, t) ensures Below(State(s.env[b := s.env[b] + values], s.results), t) {
      assert Below(s, t);
    }
  }

  lemma ResultsStayBelow(p: File, s: State, f: NodeId, values: Values)
    requires BelowClosed(p, s) && f in s.results
    requires forall t :: Closed(p, t) ==> values <= ResultsOf(t, NodeValue(f))
    ensures BelowClosed(p, State(s.env, s.results[f := s.results[f] + values]))
  {
    hide Closed;
    forall t | Closed(p, t) ensures Below(State(s.env, s.results[f := s.results[f] + values]), t) {
      assert Below(s, t);
    }
  }

  /** Two least closed states over the same bindings and functions are the same state. */
  lemma LeastIsUnique(p: File, s: State, t: State)
    requires LeastClosed(p, s) && LeastClosed(p, t)
    requires s.env.Keys == t.env.Keys && s.results.Keys == t.results.Keys
    ensures s == t
  {
    hide Closed;
    assert Below(s, t) && Below(t, s);
    forall b | b in s.env ensures s.env[b] == t.env[b] {
      assert s.env[b] <= BindingValues(t, b) && t.env[b] <= BindingValues(s, b);
    }
    forall f | f in s.results ensures s.results[f] == t.results[f] {
      assert s.results[f] <= ResultsOf(t, NodeValue(f)) && t.results[f] <= ResultsOf(s, NodeValue(f));
    }
    assert s.env == t.env && s.results == t.results;
  }

  // ---- The universe of facts --------------------------------------------------------------

  datatype Fact = Holds(b: Binding, v: Abstract) | Yields(f: NodeId, v: Abstract) | Calls(call: NodeId, f: NodeId)

  function StateFacts(s: State): set<Fact> {
    (set b, v | b in s.env && v in s.env[b] :: Holds(b, v)) +
    (set f, v | f in s.results && v in s.results[f] :: Yields(f, v))
  }

  /** Every key text a member access or a destructuring path can use. */
  function KeyTexts(p: File): set<string> {
    {"null"} +
    (set n | 0 <= n < |p.nodes| && LiteralKey(p.nodes[n]).Some? :: LiteralKey(p.nodes[n]).value) +
    (set n, i | 0 <= n < |p.nodes| && p.nodes[n].ArrayPattern? && 0 <= i < |p.nodes[n].elements| :: IndexText(i))
  }

  function Universe(p: File): Values {
    {Root} +
    (set name | name in OBJECT_BUILTINS + CODE_BUILTINS :: Builtin(name)) +
    (set o, k | o in OBJECT_BUILTINS && k in KeyTexts(p) :: BuiltinMember(o, k)) +
    (set n | 0 <= n < |p.nodes| && p.nodes[n].Literal? :: Text(p.nodes[n].text)) +
    (set n: NodeId | n in IdsFrom(p, 0) :: NodeValue(n))
  }

  function AllFacts(p: File): set<Fact>
  {
    (set b, v | b in Names(p) && v in Universe(p) :: Holds(b, v)) +
    (set f: NodeId, v | f in IdsFrom(p, 0) && v in Universe(p) :: Yields(f, v)) +
    (set call: NodeId, f: NodeId | call in IdsFrom(p, 0) && f in IdsFrom(p, 0) :: Calls(call, f))
  }

  ghost predicate InUniverse(p: File, s: State) {
    && (forall b :: b in s.env ==> s.env[b] <= Universe(p))
    && (forall f :: f in s.results ==> s.results[f] <= Universe(p))
  }

  lemma MemberInUniverse(p: File, s: State, rec: Evaluator, objects: Values, key: Key)
    requires InUniverse(p, s) && objects <= Universe(p) && KeyText(key) in KeyTexts(p)
    requires forall k: NodeId :: rec(k) <= Universe(p)
    ensures MemberOf(p, s, rec, objects, key) <= Universe(p)
  {
    forall o, v | o in objects && v in MemberOfOne(p, s, rec, o, key) ensures v in Universe(p) {
      if o.NodeValue? && o.node < |p.nodes| && p.nodes[o.node].Object? {
        var qs := p.nodes[o.node].properties;
        var i :| 0 <= i < |qs| && v in PropertyValues(p, s, rec, qs[i], key);
        assert rec(qs[i].value) <= Universe(p);
      }
    }
  }

  lemma KeyInUniverse(p: File, rec: Evaluator, property: NodeId, computed: bool)
    requires property < |p.nodes| && rec(property) <= Universe(p)
    ensures KeyText(KeyOf(p, rec, property, computed)) in KeyTexts(p)
  {
    if computed && KeyOf(p, rec, property, computed).Some? {
      var text := KeyOf(p, rec, property, computed).value;
      assert Text(text) in rec(property);
      var n :| 0 <= n < |p.nodes| && p.nodes[n].Literal? && p.nodes[n].text == text;
      assert LiteralKey(p.nodes[n]) == Some(text);
    }
  }

  lemma AtomInUniverse(p: File, n: NodeId)
    requires n < |p.nodes|
    ensures Root in Universe(p) && NodeValue(n) in Universe(p)
    ensures p.nodes[n].Literal? ==> Text(p.nodes[n].text) in Universe(p)
  {
    assert n in IdsFrom(p, 0);
  }

  lemma NameInUniverse(p: File, s: State, scope: NodeId, name: string)
    requires InUniverse(p, s) && scope < |p.nodes| && OpensScope(p.nodes[scope])
    ensures NameValues(p, s, scope, name) <= Universe(p)
  {
  }

  lemma ResultsInUniverse(p: File, s: State, functions: Values)
    requires InUniverse(p, s)
    ensures CallResults(s, functions) <= Universe(p)
  {
  }

  lemma StepInUniverse(p: File, s: State, rec: Evaluator, n: NodeId)
    requires InUniverse(p, s) && n < |p.nodes|
    requires forall k: NodeId :: rec(k) <= Universe(p)
    ensures Step(p, s, rec, n) <= Universe(p)
  {
    var node := p.nodes[n];
    AtomInUniverse(p, n);
    if node.Member? {
      assert IsChild(p, n, node.property);
      KeyInUniverse(p, rec, node.property, node.computed);
      MemberInUniverse(p, s, rec, rec(node.receiver), KeyOf(p, rec, node.property, node.computed));
    } else if node.Identifier? {
      NameInUniverse(p, s, ScopeOf(p, n), node.name);
    } else if node.Call? {
      ResultsInUniverse(p, s, rec(node.callee));
    }
  }

  lemma {:induction false} GuardedInUniverse(p: File, s: State, evaluating: set<NodeId>, n: NodeId)
    requires InUniverse(p, s)
    ensures Guarded(p, s, evaluating, n) <= Universe(p)
    decreases Remaining(p, evaluating)
  {
    if n < |p.nodes| && n !in evaluating {
      RemainingDrops(p, evaluating, n);
      var rec := GuardedBy(p, s, evaluating + {n});
      forall k: NodeId ensures rec(k) <= Universe(p) {
        GuardedInUniverse(p, s, evaluating + {n}, k);
      }
      StepInUniverse(p, s, rec, n);
    }
  }

  ghost predicate PathInUniverse(p: File, path: seq<Key>) {
    forall i :: 0 <= i < |path| ==> KeyText(path[i]) in KeyTexts(p)
  }

  lemma {:induction false} AlongPathInUniverse(p: File, s: State, rec: Evaluator, start: Values, path: seq<Key>)
    requires InUniverse(p, s) && start <= Universe(p) && PathInUniverse(p, path)
    requires forall k: NodeId :: rec(k) <= Universe(p)
    ensures AlongPath(p, s, rec, start, path) <= Universe(p)
    decreases |path|
  {
    if path != [] {
      MemberInUniverse(p, s, rec, start, path[0]);
      AlongPathInUniverse(p, s, rec, MemberOf(p, s, rec, start, path[0]), path[1..]);
    }
  }

  lemma FlowInUniverse(p: File, s: State, f: Flow)
    requires InUniverse(p, s) && PathInUniverse(p, f.path)
    ensures FlowValues(p, s, EvaluateBy(p, s), f) <= Universe(p)
  {
    forall k: NodeId ensures EvaluateBy(p, s)(k) <= Universe(p) {
      GuardedInUniverse(p, s, {}, k);
    }
    AlongPathInUniverse(p, s, EvaluateBy(p, s), EvaluateBy(p, s)(f.init), f.path);
  }

  lemma {:induction false} ElementPaths(p: File, elements: seq<Option<NodeId>>, i: nat, init: Option<NodeId>,
                                        path: seq<Key>)
    requires PathInUniverse(p, path)
    requires forall j :: i <= j < |elements| ==> IndexText(j) in KeyTexts(p)
    ensures forall b :: b in ElementBounds(elements, i, init, path) ==> PathInUniverse(p, b.path)
    decreases |elements| - i
  {
    if i < |elements| {
      ElementPaths(p, elements, i + 1, init, path);
    }
  }

  lemma SubPatternPaths(p: File, b: Bound)
    requires b.pattern < |p.nodes| && PathInUniverse(p, b.path)
    ensures forall c :: c in SubPatterns(p, b) ==> PathInUniverse(p, c.path)
  {
    match p.nodes[b.pattern]
    case ObjectPattern(entries) =>
      forall e: PatternEntry, c | c in EntryBounds(p, e, b.init, b.path) ensures PathInUniverse(p, c.path) {
        if e.Entry? && e.key < |p.nodes| {
          assert LiteralKey(p.nodes[e.key]).Some? ==> LiteralKey(p.nodes[e.key]).value in KeyTexts(p);
        }
      }
    case ArrayPattern(elements) =>
      forall j | 0 <= j < |elements| ensures IndexText(j) in KeyTexts(p) {
        assert p.nodes[b.pattern].elements == elements;
      }
      ElementPaths(p, elements, 0, b.init, b.path);
    case _ =>
  }

  /** Destructuring only ever uses keys of the universe. */
  lemma {:induction false} PatternPaths(p: File, scope: NodeId, b: Bound)
    requires PathInUniverse(p, b.path)
    ensures forall f :: f in PatternFlows(p, scope, b) ==> PathInUniverse(p, f.path)
    decreases |p.nodes| - b.pattern
  {
    if b.pattern < |p.nodes| && !p.nodes[b.pattern].Identifier? {
      SubPatternPaths(p, b);
      var subs := SubPatterns(p, b);
      forall f | f in PatternFlows(p, scope, b) ensures PathInUniverse(p, f.path) {
        var i :| 0 <= i < |subs| && subs[i].pattern > b.pattern && f in PatternFlows(p, scope, subs[i]);
        PatternPaths(p, scope, subs[i]);
      }
    }
  }

  lemma NodeFlowPaths(p: File, n: NodeId)
    requires n < |p.nodes|
    ensures forall f :: f in NodeFlows(p, n) ==> PathInUniverse(p, f.path)
  {
    var (scope, bounds) := NodePatterns(p, n);
    forall i | 0 <= i < |bounds|
      ensures forall f :: f in PatternFlows(p, scope, bounds[i]) ==> PathInUniverse(p, f.path)
    {
      PatternPaths(p, scope, bounds[i]);
    }
  }

  lemma ParameterFlowPaths(p: File, call: NodeId, f: NodeId)
    requires call < |p.nodes| && f < |p.nodes| && p.nodes[call].Call? && p.nodes[f].Function?
    ensures forall w :: w in ParameterFlows(p, call, f) ==> PathInUniverse(p, w.path)
  {
    var bounds := ParameterBounds(p, call, f);
    forall i | 0 <= i < |bounds| ensures forall w :: w in PatternFlows(p, f, bounds[i]) ==> PathInUniverse(p, w.path) {
      PatternPaths(p, f, bounds[i]);
    }
  }

  // ---- Targets of flows -------------------------------------------------------------------

  lemma SameSubPatterns(p: File, b: Bound, c: Bound)
    requires b.pattern == c.pattern < |p.nodes|
    ensures |SubPatterns(p, b)| == |SubPatterns(p, c)|
    ensures forall i :: 0 <= i < |SubPatterns(p, b)| ==> SubPatterns(p, b)[i].pattern == SubPatterns(p, c)[i].pattern
  {
    match p.nodes[b.pattern]
    case ObjectPattern(entries) => SameEntries(p, entries, b, c);
    case ArrayPattern(elements) => SameElements(elements, 0, b, c);
    case _ =>
  }

  lemma {:induction false} SameEntries(p: File, entries: seq<PatternEntry>, b: Bound, c: Bound)
    ensures var x := Flatten(entries, e => EntryBounds(p, e, b.init, b.path));
            var y := Flatten(entries, e => EntryBounds(p, e, c.init, c.path));
            |x| == |y| && forall i :: 0 <= i < |x| ==> x[i].pattern == y[i].pattern
    decreases |entries|
  {
    if entries != [] {
      SameEntries(p, entries[1..], b, c);
    }
  }

  lemma {:induction false} SameElements(elements: seq<Option<NodeId>>, i: nat, b: Bound, c: Bound)
    ensures var x, y := ElementBounds(elements, i, b.init, b.path), ElementBounds(elements, i, c.init, c.path);
            |x| == |y| && forall j :: 0 <= j < |x| ==> x[j].pattern == y[j].pattern
    decreases |elements| - i
  {
    if i < |elements| {
      SameElements(elements, i + 1, b, c);
    }
  }

  /** The targets of a pattern's flows are the names it declares, whatever it is bound to. */
  lemma {:induction false} PatternTargets(p: File, scope: NodeId, b: Bound, c: Bound)
    requires b.pattern == c.pattern
    ensures PatternNames(p, scope, b) == PatternNames(p, scope, c)
    ensures forall f :: f in PatternFlows(p, scope, b) ==> f.target in PatternNames(p, scope, c)
    decreases |p.nodes| - b.pattern
  {
    if b.pattern < |p.nodes| && !p.nodes[b.pattern].Identifier? {
      SameSubPatterns(p, b, c);
      var bs, cs := SubPatterns(p, b), SubPatterns(p, c);
      forall i | 0 <= i < |bs| && bs[i].pattern > b.pattern
        ensures PatternNames(p, scope, bs[i]) == PatternNames(p, scope, cs[i])
        ensures forall f :: f in PatternFlows(p, scope, bs[i]) ==> f.target in PatternNames(p, scope, cs[i])
      {
        PatternTargets(p, scope, bs[i], cs[i]);
      }
    }
  }

  lemma NodeFlowTargets(p: File, n: NodeId)
    requires n < |p.nodes|
    ensures forall f :: f in NodeFlows(p, n) ==> f.target in PlainNames(p, n) && f.target in Names(p)
  {
    var (scope, bounds) := NodePatterns(p, n);
    forall f | f in NodeFlows(p, n) ensures f.target in PlainNames(p, n) && f.target in Names(p) {
      var i :| 0 <= i < |bounds| && f in PatternFlows(p, scope, bounds[i]);
      PatternTargets(p, scope, bounds[i], bounds[i]);
      assert f.target in PlainNames(p, n) + SelfNames(p, n);
    }
  }

  lemma ParameterTargets(p: File, call: NodeId, f: NodeId)
    requires call < |p.nodes| && f < |p.nodes| && p.nodes[call].Call? && p.nodes[f].Function?
    ensures forall w :: w in ParameterFlows(p, call, f) ==> w.target in Names(p)
    ensures forall i :: 0 <= i < |ParameterBounds(p, call, f)| ==>
              PatternNames(p, f, ParameterBounds(p, call, f)[i]) <= Names(p)
  {
    var bounds := ParameterBounds(p, call, f);
    var (scope, own) := NodePatterns(p, f);
    forall i | 0 <= i < |bounds|
      ensures PatternNames(p, f, bounds[i]) <= Names(p)
      ensures forall w :: w in PatternFlows(p, f, bounds[i]) ==> w.target in Names(p)
    {
      PatternTargets(p, f, bounds[i], own[i]);
      forall b | b in PatternNames(p, f, own[i]) ensures b in Names(p) {
        assert b in PlainNames(p, f) + SelfNames(p, f);
      }
    }
  }
}

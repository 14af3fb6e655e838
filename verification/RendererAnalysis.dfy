/** The alias analysis of one renderer source file, as the object that carries its tables. */
module RendererAnalysis {
  import opened Wrappers
  import opened Syntax
  import opened AbstractValues
  import opened GuardedEvaluation
  import opened FlowEquations
  import opened Collection
  import opened Fixpoint
  import opened Report

  class Analysis {
    const p: File
    var scopes: map<NodeId, NodeId>
    var nodes: seq<NodeId>
    var calls: seq<NodeId>
    var flows: seq<Flow>
    var env: map<Binding, Values>
    var results: map<NodeId, Values>
    var returnSites: seq<(NodeId, NodeId)>
    var registered: set<(NodeId, NodeId)>
    var evaluating: set<NodeId>
    var exports: set<string>
    var problems: set<Problem>

    ghost function State(): State
      reads this`env, this`results
    {
      AbstractValues.State(env, results)
    }

    constructor (source: File)
      ensures p == source && registered == {} && evaluating == {} && exports == {} && problems == {}
      ensures Collected({})
    {
      p := source;
      scopes, nodes, calls, flows := map[], [], [], [];
      env, results, returnSites := map[], map[], [];
      registered, evaluating, exports, problems := {}, {}, {}, {};
    }

    // ---- Collection -----------------------------------------------------------------------

    /** The tables hold what the nodes in `visited` contribute, and nothing else. */
    ghost predicate Collected(visited: set<NodeId>)
      reads this
    {
      && Within(p, visited)
      && Elements(nodes) == visited
      && Elements(calls) == CallsOf(p, visited)
      && scopes.Keys == visited && (forall n :: n in visited ==> scopes[n] == ScopeOf(p, n))
      && env == EnvOf(p, visited)
      && Elements(flows) == FlowsOf(p, visited)
      && Elements(returnSites) == ReturnsOf(p, visited)
      && results == FunctionResults(p, visited)
    }

    method Declare(b: Binding, values: Values)
      modifies this`env
      ensures env == old(env)[b := BindingValues(old(State()), b) + values]
      ensures values == {} ==> env == WithNames(old(env), {b})
    {
      env := env[b := (if b in env then env[b] else {}) + values];
      if values == {} {
        forall x | x in env ensures env[x] == WithNames(old(env), {b})[x] {}
        assert env.Keys == WithNames(old(env), {b}).Keys;
      }
    }

    method BindPattern(scope: NodeId, b: Bound)
      requires b.pattern < |p.nodes|
      modifies this`env, this`flows
      ensures env == WithNames(old(env), PatternNames(p, scope, b))
      ensures Elements(flows) == Elements(old(flows)) + PatternFlows(p, scope, b)
      decreases |p.nodes| - b.pattern, 0
    {
      if p.nodes[b.pattern].Identifier? {
        var target := Binding(scope, p.nodes[b.pattern].name);
        Declare(target, {});
        if b.init.Some? {
          ElementsAppend(flows, Flow(target, b.init.value, b.path));
          flows := flows + [Flow(target, b.init.value, b.path)];
        }
      } else {
        var subs := SubPatterns(p, b);
        SubPatternsAreLater(p, b);
        BindAll(scope, subs, b.pattern + 1);
        NestedBounds(p, scope, b);
      }
    }

    method BindAll(scope: NodeId, bounds: seq<Bound>, ghost lo: nat)
      requires lo <= |p.nodes| && forall i :: 0 <= i < |bounds| ==> lo <= bounds[i].pattern < |p.nodes|
      modifies this`env, this`flows
      ensures env == WithNames(old(env), BoundNames(p, scope, bounds, |bounds|))
      ensures Elements(flows) == Elements(old(flows)) + BoundFlows(p, scope, bounds, |bounds|)
      decreases |p.nodes| - lo, 1
    {
      NoNames(env);
      for i := 0 to |bounds|
        invariant env == WithNames(old(env), BoundNames(p, scope, bounds, i))
        invariant Elements(flows) == Elements(old(flows)) + BoundFlows(p, scope, bounds, i)
      {
        OneMoreBound(p, scope, bounds, i);
        WithMoreNames(old(env), BoundNames(p, scope, bounds, i), PatternNames(p, scope, bounds[i]));
        BindPattern(scope, bounds[i]);
      }
    }

    /** Climbs from a block to the scope that receives its `var` declarations. */
    method Destination(scope: NodeId, isVar: bool) returns (d: NodeId)
      requires scope < |p.nodes| && OpensScope(p.nodes[scope])
      ensures d == if isVar then VarScope(p, scope) else scope
    {
      d := scope;
      if isVar {
        while p.nodes[d].Block?
          invariant d < |p.nodes| && OpensScope(p.nodes[d]) && VarScope(p, d) == VarScope(p, scope)
          decreases d
        {
          d := OuterScope(p, d);
        }
      }
    }

    /** Declares a function's name, outside it if it is a declaration, and inside it. */
    method DeclareFunction(n: NodeId, outer: NodeId)
      requires n < |p.nodes| && p.nodes[n].Function? && (n > 0 ==> outer == OuterScope(p, n))
      modifies this`env
      ensures env == WithOwn(p, old(env), n)
    {
      var node := p.nodes[n];
      if node.fnName.Some? {
        if node.fkind == FunctionKind.Declaration && n > 0 {
          Declare(Binding(outer, node.fnName.value), {NodeValue(n)});
        }
        Declare(Binding(n, node.fnName.value), {NodeValue(n)});
      }
      ghost var expected := WithOwn(p, old(env), n);
      assert env.Keys == expected.Keys;
      forall b | b in env ensures env[b] == expected[b] {}
    }

    /** Declares names without values. */
    method DeclareNames(scope: NodeId, names: seq<string>)
      modifies this`env
      ensures env == WithNames(old(env), set name | name in names :: Binding(scope, name))
    {
      for i := 0 to |names|
        invariant env == WithNames(old(env), set name | name in names[..i] :: Binding(scope, name))
      {
        ghost var before := set name | name in names[..i] :: Binding(scope, name);
        WithMoreNames(old(env), before, {Binding(scope, names[i])});
        Declare(Binding(scope, names[i]), {});
        assert names[..i + 1] == names[..i] + [names[i]];
        assert (set name | name in names[..i + 1] :: Binding(scope, name)) == before + {Binding(scope, names[i])};
      }
      assert names[..|names|] == names;
    }

    /** Declares what node `n` declares other than through a pattern. */
    method DeclareOwn(n: NodeId, outer: NodeId)
      requires n < |p.nodes| && (n > 0 ==> outer == OuterScope(p, n))
      modifies this`env
      ensures env == WithOwn(p, old(env), n)
    {
      hide WellFormed;
      if p.nodes[n].Function? {
        DeclareFunction(n, outer);
      } else {
        if p.nodes[n].OtherDeclaration? {
          assert ScopeOf(p, n) == outer;
          DeclareNames(outer, p.nodes[n].names);
        }
        assert OwnNames(p, n) != {} ==> p.nodes[n].OtherDeclaration?;
        ghost var expected := WithOwn(p, old(env), n);
        assert env.Keys == expected.Keys;
        forall b | b in env ensures env[b] == expected[b] {}
      }
    }

    /** Binds the parameters of a function, of a catch clause, or the targets of a declaration. */
    method BindNode(n: NodeId, scope: NodeId)
      requires n < |p.nodes| && scope == ScopeOf(p, n)
      modifies this`env, this`flows
      ensures env == WithNames(old(env), var (s, bounds) := NodePatterns(p, n); BoundNames(p, s, bounds, |bounds|))
      ensures Elements(flows) == Elements(old(flows)) + NodeFlows(p, n)
    {
      var bindingScope, bounds := scope, [];
      match p.nodes[n] {
        case Function(_, _, params, _, _, _) =>
          bounds := seq(|params|, i requires 0 <= i < |params| => Bound(params[i], None, []));
        case Block(_, param, _) =>
          bounds := if param.Some? then [Bound(param.value, None, [])] else [];
        case VariableDeclaration(isVar, ds) =>
          bindingScope := Destination(scope, isVar);
          bounds := seq(|ds|, i requires 0 <= i < |ds| => Bound(ds[i].id, ds[i].init, []));
        case _ =>
      }
      NodePatternsAreChildren(p, n);
      BindAll(bindingScope, bounds, 0);
    }

    /** Everything `visit` does at node `n` before it turns to the children. */
    method Enter(n: NodeId, outer: NodeId, owner: Option<NodeId>) returns (scope: NodeId)
      requires Within(p, Elements(nodes)) && Collected(Elements(nodes)) && n < |p.nodes|
      requires if n == 0 then owner == None else outer == OuterScope(p, n) && owner == OwnerOf(p, p.parent[n])
      modifies this`scopes, this`nodes, this`calls, this`env, this`flows, this`results, this`returnSites
      ensures Elements(nodes) == Elements(old(nodes)) + {n} && Within(p, Elements(nodes))
      ensures Collected(Elements(nodes)) && scope == ScopeOf(p, n)
    {
      hide WellFormed, WithOwn, WithNode, WithNames, BoundNames, EnvOf, NodeReturns, NodePatterns, NodeFlows, OwnerOf;
      ghost var visited := Elements(nodes);
      OneMoreNode(p, visited, n);
      OneMoreEnv(p, visited, n);
      OwnThenBound(p, env, n);
      var node := p.nodes[n];
      scope := if OpensScope(node) then n else outer;
      assert scope == ScopeOf(p, n);
      DeclareOwn(n, outer);
      BindNode(n, scope);
      assert env == EnvOf(p, visited + {n});
      assert Elements(flows) == FlowsOf(p, visited + {n});
      EnterTables(n, scope, owner);
      assert Elements(nodes) == visited + {n};
    }

    lemma OwnerAround(n: NodeId)
      requires n < |p.nodes|
      ensures n > 0 && !p.nodes[n].Function? ==> OwnerOf(p, n) == OwnerOf(p, p.parent[n])
      ensures n == 0 ==> OwnerOf(p, n) == None && p.nodes[n].Program?
    {
    }

    /** The scope, node, call and return tables at node `n`. */
    method EnterTables(n: NodeId, scope: NodeId, owner: Option<NodeId>)
      requires n < |p.nodes| && (n > 0 ==> owner == OwnerOf(p, p.parent[n]))
      modifies this`scopes, this`nodes, this`calls, this`results, this`returnSites
      ensures scopes == old(scopes)[n := scope] && Elements(nodes) == Elements(old(nodes)) + {n}
      ensures Elements(returnSites) == Elements(old(returnSites)) + NodeReturns(p, n)
      ensures Elements(calls) == Elements(old(calls)) + (if p.nodes[n].Call? then {n} else {})
      ensures results == old(results) + (if p.nodes[n].Function? then map[n := {}] else map[])
    {
      hide WellFormed, Elements, OwnerOf;
      OwnerAround(n);
      var node := p.nodes[n];
      if node.Function? {
        results := results[n := {}];
        if node.fkind == Arrow && node.concise {
          ElementsAppend(returnSites, (n, node.fnBody));
          returnSites := returnSites + [(n, node.fnBody)];
        }
      }
      scopes := scopes[n := scope];
      ElementsAppend(nodes, n);
      nodes := nodes + [n];
      if node.Return? && owner.Some? && node.argument.Some? {
        ElementsAppend(returnSites, (owner.value, node.argument.value));
        returnSites := returnSites + [(owner.value, node.argument.value)];
      }
      if node.Call? {
        ElementsAppend(calls, n);
        calls := calls + [n];
      }
    }

    /** Collects the subtree of `n`. */
    method Visit(n: NodeId, outer: NodeId, owner: Option<NodeId>)
      requires Within(p, Elements(nodes)) && Collected(Elements(nodes)) && n < |p.nodes|
      requires if n == 0 then owner == None else outer == OuterScope(p, n) && owner == OwnerOf(p, p.parent[n])
      modifies this`scopes, this`nodes, this`calls, this`env, this`flows, this`results, this`returnSites
      ensures Within(p, Elements(nodes)) && Collected(Elements(nodes))
      ensures Elements(nodes) == Elements(old(nodes)) + Under(p, n)
      decreases |p.nodes| - n
    {
      hide WellFormed, Under, IsUnder, UnderSome, Collected;
      UnderUnfold(p, n);
      UnderNone(p);
      var scope := Enter(n, outer, owner);
      var inner := if p.nodes[n].Function? then Some(n) else owner;
      var kids := Children(p.nodes[n]);
      ghost var visited := Elements(nodes);
      assert kids[..0] == [];
      for i := 0 to |kids|
        invariant Within(p, Elements(nodes)) && Collected(Elements(nodes))
        invariant Elements(nodes) == visited + UnderSome(p, kids[..i])
      {
        ChildIsLater(p, n, kids[i]);
        UnderOneMore(p, kids, i);
        Visit(kids[i], scope, inner);
      }
      assert kids[..|kids|] == kids;
    }

    /** Walks the whole file. */
    method Walk()
      requires Collected({}) && registered == {} && evaluating == {}
      modifies this`scopes, this`nodes, this`calls, this`env, this`flows, this`results, this`returnSites
      ensures Invariant()
    {
      assert Elements(nodes) == {};
      assert |p.nodes| > 0;
      WholeFile(p);
      Visit(0, 0, None);
      assert Elements(nodes) == IdsFrom(p, 0);
      AfterWalk();
    }

    lemma AfterWalk()
      requires Within(p, IdsFrom(p, 0)) && Collected(IdsFrom(p, 0)) && registered == {} && evaluating == {}
      ensures Invariant()
    {
      WholeFile(p);
      InitialState(p, State(), flows);
      hide Known, Listed, NothingExtra, WellFormed;
      assert forall n: NodeId :: n in calls <==> n in Elements(calls);
    }

    // ---- Evaluation -----------------------------------------------------------------------

    /** The tables cover the whole file. */
    ghost predicate Complete()
      reads this
    {
      && env.Keys == Names(p)
      && (forall n: NodeId :: n < |p.nodes| ==> n in scopes && scopes[n] == ScopeOf(p, n))
      && (forall n: NodeId :: n in results <==> n < |p.nodes| && p.nodes[n].Function?)
    }

    /** What the current guard makes of a subexpression. */
    ghost function Rec(): Evaluator
      reads this
    {
      GuardedBy(p, State(), evaluating)
    }

    method LookupName(scope: NodeId, name: string) returns (b: Option<Binding>)
      requires Complete() && scope < |p.nodes| && OpensScope(p.nodes[scope])
      ensures b == Lookup(p, Names(p), scope, name)
    {
      var current: NodeId := scope;
      while Binding(current, name) !in env
        invariant current < |p.nodes| && OpensScope(p.nodes[current])
        invariant Lookup(p, Names(p), current, name) == Lookup(p, Names(p), scope, name)
        decreases current
      {
        if current == 0 { return None; }
        current := OuterScope(p, current);
      }
      return Some(Binding(current, name));
    }

    /** Evaluates a node under the guard and leaves the guard as it was. */
    method Evaluate(n: NodeId) returns (r: Values)
      requires Complete()
      modifies this`evaluating
      ensures evaluating == old(evaluating) && r == Guarded(p, State(), evaluating, n)
      decreases IdsFrom(p, 0) - evaluating, 1
    {
      if n >= |p.nodes| || n in evaluating { return {}; }
      ghost var guard := evaluating;
      assert n in IdsFrom(p, 0) - evaluating;
      evaluating := evaluating + {n};
      r := ExpressionValues(n);
      evaluating := evaluating - {n};
      assert evaluating == guard;
    }

    method ValuesOfThis(scope: NodeId) returns (r: Values)
      requires Complete() && scope < |p.nodes| && OpensScope(p.nodes[scope])
      ensures r == ThisValues(p, scope)
    {
      if p.isModule { return {}; }
      var owner: NodeId := scope;
      while owner != 0 && !(p.nodes[owner].Function? && p.nodes[owner].fkind != Arrow)
        invariant owner < |p.nodes| && OpensScope(p.nodes[owner])
        invariant ThisOwner(p, owner) == ThisOwner(p, scope)
        decreases owner
      {
        owner := OuterScope(p, owner);
      }
      r := if owner == 0 then {Root} else {};
    }

    method ValuesOfName(scope: NodeId, name: string) returns (r: Values)
      requires Complete() && scope < |p.nodes| && OpensScope(p.nodes[scope])
      ensures r == NameValues(p, State(), scope, name)
    {
      var b := LookupName(scope, name);
      if b.Some? { r := env[b.value]; }
      else if name in GLOBAL_NAMES { r := {Root}; }
      else if name in OBJECT_BUILTINS || name in CODE_BUILTINS { r := {Builtin(name)}; }
      else { r := {}; }
    }

    method EitherValues(left: NodeId, right: NodeId) returns (r: Values)
      requires Complete()
      modifies this`evaluating
      ensures evaluating == old(evaluating) && r == Rec()(left) + Rec()(right)
      decreases IdsFrom(p, 0) - evaluating, 2
    {
      r := Evaluate(left);
      var other := Evaluate(right);
      r := r + other;
    }

    method CallValues(callee: NodeId) returns (r: Values)
      requires Complete()
      modifies this`evaluating
      ensures evaluating == old(evaluating)
      ensures r == CallResults(State(), Rec()(callee))
      decreases IdsFrom(p, 0) - evaluating, 2
    {
      var functions := Evaluate(callee);
      r := set v, w | v in functions && w in ResultsOf(AbstractValues.State(env, results), v) :: w;
    }

    method AccessValues(o: NodeId, property: NodeId, computed: bool) returns (r: Values)
      requires Complete()
      modifies this`evaluating
      ensures evaluating == old(evaluating)
      ensures r == MemberOf(p, State(), Rec(), Rec()(o), KeyOf(p, Rec(), property, computed))
      decreases IdsFrom(p, 0) - evaluating, 3, 3
    {
      var objects := Evaluate(o);
      var key := KeyFor(property, computed);
      r := MemberValues(objects, key);
    }

    /** The branch of `expressionValues` for operators that pass values through. */
    method OperatorValues(n: NodeId) returns (r: Values)
      requires Complete() && n < |p.nodes|
      requires var node := p.nodes[n];
               node.Conditional? || node.Logical? || node.Chain? || node.Sequence? || node.Assignment?
      modifies this`evaluating
      ensures evaluating == old(evaluating) && r == Step(p, State(), Rec(), n)
      decreases IdsFrom(p, 0) - evaluating, 3
    {
      match p.nodes[n] {
        case Conditional(_, c, a) => r := EitherValues(c, a);
        case Logical(left, right) => r := EitherValues(left, right);
        case Chain(e) => r := Evaluate(e);
        case Sequence(es) =>
          r := {};
          if es != [] { r := Evaluate(es[|es| - 1]); }
        case Assignment(_, _, right) => r := Evaluate(right);
      }
    }

    /** The branches of `expressionValues` that evaluate no other expression. */
    method AtomValues(n: NodeId) returns (r: Values)
      requires Complete() && n < |p.nodes|
      requires var node := p.nodes[n];
               !(node.Conditional? || node.Logical? || node.Chain? || node.Sequence? || node.Assignment? ||
                 node.Member? || node.Call?)
      ensures r == Step(p, State(), Rec(), n)
    {
      var node := p.nodes[n];
      if node.This? {
        r := ValuesOfThis(scopes[n]);
      } else if node.Identifier? {
        r := ValuesOfName(scopes[n], node.name);
      } else if node.Literal? {
        r := LiteralValues(node.tagged, node.text);
      } else if node.Function? || node.Object? || node.Array? {
        r := {NodeValue(n)};
      } else {
        r := {};
      }
    }

    method ExpressionValues(n: NodeId) returns (r: Values)
      requires Complete() && n < |p.nodes|
      modifies this`evaluating
      ensures evaluating == old(evaluating) && r == Step(p, State(), Rec(), n)
      decreases IdsFrom(p, 0) - evaluating, 4
    {
      var node := p.nodes[n];
      if node.Member? {
        r := AccessValues(node.receiver, node.property, node.computed);
      } else if node.Call? {
        r := CallValues(node.callee);
      } else if node.Conditional? || node.Logical? || node.Chain? || node.Sequence? || node.Assignment? {
        r := OperatorValues(n);
      } else {
        r := AtomValues(n);
      }
    }

    method KeyFor(property: NodeId, computed: bool) returns (key: Key)
      requires Complete()
      modifies this`evaluating
      ensures evaluating == old(evaluating) && key == KeyOf(p, Rec(), property, computed)
      decreases IdsFrom(p, 0) - evaluating, 2
    {
      if !computed { return KeyAt(p, property); }
      var values := Evaluate(property);
      var keys := set v | v in values && v.Text? :: v.text;
      key := if |keys| == 1 then Some(Single(keys)) else None;
    }

    method MemberValues(objects: Values, key: Key) returns (r: Values)
      requires Complete()
      modifies this`evaluating
      ensures evaluating == old(evaluating) && r == MemberOf(p, State(), Rec(), objects, key)
      decreases IdsFrom(p, 0) - evaluating, 3, 2
    {
      r := {};
      var rest := objects;
      while rest != {}
        invariant evaluating == old(evaluating) && rest <= objects
        invariant r == MemberOf(p, State(), Rec(), objects - rest, key)
        decreases rest
      {
        var o :| o in rest;
        var found := MemberOfObject(o, key);
        r := r + found;
        assert objects - (rest - {o}) == (objects - rest) + {o};
        rest := rest - {o};
      }
      assert objects - rest == objects;
    }

    method MemberOfObject(value: Abstract, key: Key) returns (r: Values)
      requires Complete()
      modifies this`evaluating
      ensures evaluating == old(evaluating) && r == MemberOfOne(p, State(), Rec(), value, key)
      decreases IdsFrom(p, 0) - evaluating, 3, 1
    {
      r := {};
      match value {
        case Root =>
          if key.Some? && key.value in GLOBAL_ALIASES { r := r + {Root}; }
          if key.Some? && key.value in CODE_BUILTINS { r := r + {Builtin(key.value)}; }
        case Builtin(name) => if name in OBJECT_BUILTINS { r := {BuiltinMember(name, KeyText(key))}; }
        case NodeValue(n) =>
          if n < |p.nodes| && p.nodes[n].Object? {
            var qs := p.nodes[n].properties;
            for i := 0 to |qs|
              invariant evaluating == old(evaluating)
              invariant r == PropertiesValues(p, State(), Rec(), qs, i, key)
            {
              var found := ValuesOfProperty(qs[i], key);
              OneMoreProperty(p, State(), Rec(), qs, i, key);
              r := r + found;
            }
          } else if n < |p.nodes| && p.nodes[n].Array? && key.Some? && IsDigits(key.value) {
            var index := DigitsValue(key.value);
            if index < |p.nodes[n].elements| && p.nodes[n].elements[index].Some? {
              r := Evaluate(p.nodes[n].elements[index].value);
            }
          }
        case _ =>
      }
    }

    method ValuesOfProperty(q: Property, key: Key) returns (r: Values)
      requires Complete()
      modifies this`evaluating
      ensures evaluating == old(evaluating) && r == PropertyValues(p, State(), Rec(), q, key)
      decreases IdsFrom(p, 0) - evaluating, 3, 0
    {
      if q.kind == Spread { return {}; }
      var own := KeyFor(q.key, q.computed);
      if own != key { return {}; }
      if q.kind == Get {
        r := ResultsOf(AbstractValues.State(env, results), NodeValue(q.value));
      } else {
        r := Evaluate(q.value);
      }
    }

    method EvaluateFlow(f: Flow) returns (r: Values)
      requires Complete()
      modifies this`evaluating
      ensures evaluating == old(evaluating) && r == FlowValues(p, State(), Rec(), f)
    {
      r := Evaluate(f.init);
      for i := 0 to |f.path|
        invariant evaluating == old(evaluating)
        invariant AlongPath(p, State(), Rec(), r, f.path[i..]) == FlowValues(p, State(), Rec(), f)
      {
        assert f.path[i..][0] == f.path[i] && f.path[i..][1..] == f.path[i + 1..];
        r := MemberValues(r, f.path[i]);
      }
    }

    // ---- The fixpoint ---------------------------------------------------------------------

    ghost function Facts(): set<Fact>
      reads this
    {
      FactsOf(State(), registered)
    }

    /** The tables made by the walk, which the rounds only read. */
    ghost predicate Walked()
      reads this
    {
      && Elements(nodes) == IdsFrom(p, 0)
      && (forall n: NodeId :: n in calls <==> n < |p.nodes| && p.nodes[n].Call?)
      && Elements(returnSites) == Returns(p)
      && (forall n: NodeId :: n < |p.nodes| ==> n in scopes && scopes[n] == ScopeOf(p, n))
    }

    /** What every step of the fixpoint keeps. */
    ghost predicate Invariant()
      reads this
    {
      && Walked() && evaluating == {}
      && Known(p, State()) && Listed(p, flows, registered) && NothingExtra(p, State(), flows)
    }

    /** The outcome of a step: new facts if it reports a change, the same state if not. */
    twostate predicate Stepped(changed: bool)
      reads this
    {
      if changed then old(Facts()) < Facts()
      else State() == old(State()) && flows == old(flows) && registered == old(registered)
    }

    method AddToBinding(b: Binding, values: Values) returns (changed: bool)
      requires Invariant() && b in env && Addable(p, b, values)
      modifies this`env
      ensures Invariant() && env == old(env)[b := old(env)[b] + values]
      ensures changed == !(values <= old(env)[b]) && Stepped(changed)
    {
      hide Known, Listed, NothingExtra, Addable, FactsOf, Returns, ScopeOf;
      BindingAdded(p, State(), flows, registered, b, values);
      changed := !(values <= env[b]);
      env := env[b := env[b] + values];
    }

    method AddToResults(f: NodeId, values: Values) returns (changed: bool)
      requires Invariant() && f in results && Returnable(p, f, values)
      modifies this`results
      ensures Invariant() && results == old(results)[f := old(results)[f] + values]
      ensures changed == !(values <= old(results)[f]) && Stepped(changed)
    {
      hide Known, Listed, NothingExtra, Returnable, FactsOf, Returns, ScopeOf;
      ResultsAdded(p, State(), flows, registered, f, values);
      changed := !(values <= results[f]);
      results := results[f := results[f] + values];
    }

    method FlowStep(f: Flow) returns (changed: bool)
      requires Invariant() && f in flows
      modifies this`env, this`evaluating
      ensures Invariant() && Stepped(changed)
      ensures !changed ==> FlowMet(p, State(), EvaluateBy(p, State()), f)
    {
      FlowAddable(p, State(), flows, registered, f);
      InvariantIsComplete();
      hide Known, Listed, NothingExtra, Addable, FactsOf, Returns, ScopeOf, FlowValues, Complete;
      var values := EvaluateFlow(f);
      changed := AddToBinding(f.target, values);
    }

    lemma InvariantIsComplete()
      requires Invariant()
      ensures Complete()
    {
    }

    lemma NodesWalked()
      requires Invariant()
      ensures forall j :: 0 <= j < |nodes| ==> nodes[j] < |p.nodes|
      ensures forall n: NodeId :: n < |p.nodes| ==> n in nodes
      ensures forall j :: 0 <= j < |calls| ==> calls[j] < |p.nodes| && p.nodes[calls[j]].Call?
      ensures forall n: NodeId :: n < |p.nodes| && p.nodes[n].Call? ==> n in calls
    {
      forall j | 0 <= j < |nodes| ensures nodes[j] < |p.nodes| {
        assert nodes[j] in Elements(nodes);
      }
      forall j | 0 <= j < |calls| ensures calls[j] < |p.nodes| && p.nodes[calls[j]].Call? {
        assert calls[j] in calls;
      }
      forall n: NodeId | n < |p.nodes| ensures n in nodes {
        assert n in IdsFrom(p, 0) && n in Elements(nodes);
      }
    }

    method FlowPhase() returns (changed: bool)
      requires Invariant()
      modifies this`env, this`evaluating
      ensures Invariant() && Stepped(changed)
      ensures !changed ==> forall f :: f in flows ==> FlowMet(p, State(), EvaluateBy(p, State()), f)
    {
      hide Invariant, FactsOf, FlowMet, EvaluateBy;
      changed := false;
      for i := 0 to |flows|
        invariant Invariant() && Stepped(changed)
        invariant !changed ==> forall j :: 0 <= j < i ==> FlowMet(p, State(), EvaluateBy(p, State()), flows[j])
      {
        var grew := FlowStep(flows[i]);
        changed := grew || changed;
      }
    }

    /** The binding that assignment `n` writes. */
    method AssignmentTarget(n: NodeId) returns (target: Option<Binding>)
      requires Complete() && n < |p.nodes|
      ensures target == AssignedBinding(p, n)
    {
      target := None;
      var node := p.nodes[n];
      if node.Assignment? && node.left < |p.nodes| && p.nodes[node.left].Identifier? {
        target := LookupName(scopes[n], p.nodes[node.left].name);
      }
    }

    method AssignmentStep(n: NodeId) returns (changed: bool)
      requires Invariant() && n < |p.nodes|
      modifies this`env, this`evaluating
      ensures Invariant() && Stepped(changed)
      ensures !changed ==> AssignmentMet(p, State(), EvaluateBy(p, State()), n)
    {
      hide Known, Listed, NothingExtra, Addable, FactsOf, Returns, ScopeOf, AssignedBinding, WellFormed;
      hide Guarded, Walked;
      InvariantIsComplete();
      changed := false;
      var target := AssignmentTarget(n);
      if target.Some? {
        AssignedIsAssignment(p, n);
        AssignmentAddable(p, State(), flows, n);
        var values := Evaluate(p.nodes[n].right);
        changed := AddToBinding(target.value, values);
      }
    }

    method AssignmentPhase() returns (changed: bool)
      requires Invariant()
      modifies this`env, this`evaluating
      ensures Invariant() && Stepped(changed)
      ensures !changed ==> forall n: NodeId :: n < |p.nodes| ==> AssignmentMet(p, State(), EvaluateBy(p, State()), n)
    {
      hide Invariant, FactsOf, AssignmentMet, EvaluateBy, WellFormed;
      NodesWalked();
      changed := false;
      for i := 0 to |nodes|
        invariant Invariant() && Stepped(changed)
        invariant !changed ==> forall j :: 0 <= j < i ==> AssignmentMet(p, State(), EvaluateBy(p, State()), nodes[j])
      {
        assert nodes[i] in nodes;
        var grew := AssignmentStep(nodes[i]);
        changed := grew || changed;
      }
      if !changed {
        forall n: NodeId | n < |p.nodes| ensures AssignmentMet(p, State(), EvaluateBy(p, State()), n) {
          assert n in nodes;
        }
      }
    }

    method ReturnStep(r: (NodeId, NodeId)) returns (changed: bool)
      requires Invariant() && r in returnSites
      modifies this`results, this`evaluating
      ensures Invariant() && Stepped(changed)
      ensures !changed ==> ReturnMet(State(), EvaluateBy(p, State()), r)
    {
      assert r in Elements(returnSites);
      ReturnReturnable(p, State(), flows, r);
      InvariantIsComplete();
      hide Known, Listed, NothingExtra, Returnable, FactsOf, Returns, ScopeOf, Complete;
      var values := Evaluate(r.1);
      changed := AddToResults(r.0, values);
    }

    lemma ReturnsWalked()
      requires Invariant()
      ensures forall r :: r in returnSites <==> r in Returns(p)
    {
      hide WellFormed, Known, Listed, NothingExtra, Returns;
      assert forall r :: r in returnSites <==> r in Elements(returnSites);
    }

    method ReturnPhase() returns (changed: bool)
      requires Invariant()
      modifies this`results, this`evaluating
      ensures Invariant() && Stepped(changed)
      ensures !changed ==> forall r :: r in Returns(p) ==> ReturnMet(State(), EvaluateBy(p, State()), r)
    {
      hide Invariant, FactsOf, ReturnMet, EvaluateBy, Returns, WellFormed;
      ReturnsWalked();
      changed := false;
      for i := 0 to |returnSites|
        invariant Invariant() && Stepped(changed)
        invariant !changed ==> forall j :: 0 <= j < i ==> ReturnMet(State(), EvaluateBy(p, State()), returnSites[j])
      {
        var grew := ReturnStep(returnSites[i]);
        changed := grew || changed;
      }
    }

    // ---- Calls --------------------------------------------------------------------------------

    /** Registers the parameters of `f` for `call`. */
    method Register(call: NodeId, f: NodeId)
      requires Invariant() && IsCall(p, (call, f)) && CallShown(p, call, f) && (call, f) !in registered
      modifies this`env, this`flows, this`registered
      ensures Invariant() && Stepped(true)
      ensures env == old(env) && registered == old(registered) + {(call, f)}
    {
      hide Known, Listed, NothingExtra, CallShown, FactsOf, Returns, ScopeOf, WellFormed, ParameterFlows;
      var bounds := ParameterBounds(p, call, f);
      ParametersAreChildren(p, call, f);
      ParameterNamesKnown(p, State(), call, f);
      NoNewNames(p, env, BoundNames(p, f, bounds, |bounds|));
      ghost var before := flows;
      BindAll(f, bounds, 0);
      SameFlows(flows, before, ParameterFlows(p, call, f));
      Fixpoint.CallRegistered(p, State(), before, flows, registered, call, f);
      registered := registered + {(call, f)};
    }

    /** The direct flow of argument `i` of `call` into parameter `i` of `f`. */
    method PassArgument(call: NodeId, f: NodeId, i: nat) returns (changed: bool)
      requires Invariant() && IsCall(p, (call, f)) && CallShown(p, call, f) && i < |p.nodes[f].params|
      modifies this`env, this`evaluating
      ensures Invariant() && Stepped(changed)
    {
      hide Known, Listed, NothingExtra, CallShown, Addable, FactsOf, Returns, ScopeOf, WellFormed, Guarded;
      hide Walked, Names;
      changed := false;
      var param, args := p.nodes[f].params[i], p.nodes[call].arguments;
      if i < |args| && param < |p.nodes| && p.nodes[param].Identifier? {
        InvariantIsComplete();
        ArgumentAddable(p, State(), flows, call, f, i);
        var target := LookupName(f, p.nodes[param].name);
        var values := Evaluate(args[i]);
        changed := AddToBinding(target.value, values);
      }
    }

    method CallFunction(call: NodeId, f: NodeId) returns (changed: bool)
      requires Invariant() && IsCall(p, (call, f)) && CallShown(p, call, f)
      modifies this`env, this`flows, this`registered, this`evaluating
      ensures Invariant() && Stepped(changed)
      ensures (call, f) in registered && old(registered) <= registered
    {
      hide Invariant, FactsOf, CallShown;
      changed := false;
      if (call, f) !in registered {
        Register(call, f);
        changed := true;
      }
      for i := 0 to |p.nodes[f].params|
        invariant Invariant() && Stepped(changed)
        invariant (call, f) in registered && old(registered) <= registered
      {
        var grew := PassArgument(call, f, i);
        changed := grew || changed;
      }
    }

    /** Whether `values(n)` hands out the set of a binding itself, which a loop over it sees grow. */
    predicate IsLive(n: NodeId)
      decreases |p.nodes| - n
    {
      n < |p.nodes| &&
      match p.nodes[n]
      case Identifier(_) => true
      case Chain(e) => e > n && IsLive(e)
      case Sequence(es) => es != [] && es[|es| - 1] > n && IsLive(es[|es| - 1])
      case Assignment(_, _, r) => r > n && IsLive(r)
      case _ => false
    }

    /** The functions a call is found to call, each of them safe to register. */
    method Callees(call: NodeId) returns (found: Values)
      requires Invariant() && call < |p.nodes| && p.nodes[call].Call?
      modifies this`evaluating
      ensures Invariant() && found == ValuesAt(p, State(), p.nodes[call].callee) && found <= Universe(p)
      ensures Shown(call, found)
      ensures Stepped(false)
    {
      InvariantIsComplete();
      KnownInUniverse(p, State());
      GuardedInUniverse(p, State(), {}, p.nodes[call].callee);
      CallsShown(p, State(), flows, call);
      hide Known, Listed, NothingExtra, CallShown, FactsOf, Returns, ScopeOf, Guarded, Universe, Complete;
      found := Evaluate(p.nodes[call].callee);
    }

    ghost predicate Shown(call: NodeId, found: Values) {
      forall f: NodeId :: NodeValue(f) in found && IsCall(p, (call, f)) ==> CallShown(p, call, f)
    }

    ghost predicate RegisteredFor(call: NodeId, done: Values)
      reads this
    {
      forall f: NodeId :: NodeValue(f) in done && IsCall(p, (call, f)) ==> (call, f) in registered
    }

    method CallStep(call: NodeId) returns (changed: bool)
      requires Invariant() && call < |p.nodes| && p.nodes[call].Call?
      modifies this`env, this`flows, this`registered, this`evaluating
      ensures Invariant() && Stepped(changed)
      ensures !changed ==> CallRegistered(call)
    {
      hide Invariant, FactsOf, CallShown, Universe, WellFormed, ValuesAt;
      changed := false;
      var found := Callees(call);
      var done: Values := {};
      while found - done != {}
        invariant Invariant() && Stepped(changed)
        invariant found <= Universe(p) && Shown(call, found) && RegisteredFor(call, done)
        invariant !changed ==> found == ValuesAt(p, State(), p.nodes[call].callee)
        decreases Universe(p) - done
      {
        var v :| v in found - done;
        if v.NodeValue? && v.node < |p.nodes| && p.nodes[v.node].Function? {
          var grew := CallFunction(call, v.node);
          changed := grew || changed;
        }
        assert v in Universe(p) - done;
        done := done + {v};
        if IsLive(p.nodes[call].callee) { found := Callees(call); }
      }
      forall v | v in found ensures v in done {
        assert v !in found - done;
      }
    }

    method CallPhase() returns (changed: bool)
      requires Invariant()
      modifies this`env, this`flows, this`registered, this`evaluating
      ensures Invariant() && Stepped(changed)
      ensures !changed ==> AllRegistered()
    {
      hide Invariant, FactsOf, CallRegistered, WellFormed;
      NodesWalked();
      changed := false;
      for i := 0 to |calls|
        invariant Invariant() && Stepped(changed)
        invariant !changed ==> forall j :: 0 <= j < i ==> CallRegistered(calls[j])
      {
        var grew := CallStep(calls[i]);
        changed := grew || changed;
      }
    }

    /** Every call has the parameters of every function it is found to call registered. */
    ghost predicate AllRegistered()
      reads this`env, this`results, this`registered
    {
      forall n: NodeId :: n < |p.nodes| && p.nodes[n].Call? ==> CallRegistered(n)
    }

    ghost predicate CallRegistered(call: NodeId)
      requires call < |p.nodes| && p.nodes[call].Call?
      reads this`env, this`results, this`registered
    {
      forall f: NodeId :: IsCall(p, (call, f)) && NodeValue(f) in ValuesAt(p, State(), p.nodes[call].callee) ==>
        (call, f) in registered
    }

    // ---- Rounds -------------------------------------------------------------------------------

    method Round() returns (changed: bool)
      requires Invariant()
      modifies this`env, this`results, this`flows, this`registered, this`evaluating
      ensures Invariant() && Stepped(changed)
      ensures !changed ==> Closed(p, State()) && AllRegistered()
    {
      hide FactsOf, Known, Listed, NothingExtra, FlowMet, AssignmentMet, ReturnMet, CallRegistered, WellFormed, Returns;
      var c1 := FlowPhase();
      var c2 := AssignmentPhase();
      var c3 := CallPhase();
      var c4 := ReturnPhase();
      changed := c1 || c2 || c3 || c4;
      if !changed { Settled(); }
    }

    lemma Settled()
      requires Invariant() && AllRegistered()
      requires forall f :: f in flows ==> FlowMet(p, State(), EvaluateBy(p, State()), f)
      requires forall n: NodeId :: n < |p.nodes| ==> AssignmentMet(p, State(), EvaluateBy(p, State()), n)
      requires forall r :: r in Returns(p) ==> ReturnMet(State(), EvaluateBy(p, State()), r)
      ensures Closed(p, State())
    {
      hide Known, Listed, NothingExtra, FlowMet, AssignmentMet, ReturnMet, WellFormed, Returns, ValuesAt;
      forall n: NodeId, f: NodeId | IsCall(p, (n, f)) && NodeValue(f) in ValuesAt(p, State(), p.nodes[n].callee)
        ensures (n, f) in registered
      {
        assert CallRegistered(n);
      }
      NothingLeft(p, State(), flows, registered);
    }

    /** Rounds until one changes nothing, at most 64 of them. The measure is the number of facts
        still unknown, so the rounds would end without the cap as well. */
    method Solve() returns (converged: bool)
      requires Invariant()
      modifies this`env, this`results, this`flows, this`registered, this`evaluating
      ensures Invariant()
      ensures converged ==> Closed(p, State()) && AllRegistered()
      ensures !converged ==> |AllFacts(p)| >= 64
    {
      hide FactsOf, Invariant, AllRegistered, Closed, AllFacts;
      var changed, round := true, 0;
      while changed && round < 64
        invariant Invariant() && round <= 64
        invariant !changed ==> Closed(p, State()) && AllRegistered()
        invariant changed ==> |Facts()| >= round
        decreases AllFacts(p) - Facts(), changed
      {
        ghost var before := Facts();
        changed := Round();
        FactsBounded();
        if changed {
          ProperSubsetIsSmaller(before, Facts());
          ghost var x :| x in Facts() && x !in before;
          assert x in AllFacts(p) - before && x !in AllFacts(p) - Facts();
        } else {
          assert Facts() == before;
        }
        round := round + 1;
      }
      FactsBounded();
      SubsetIsNoLarger(Facts(), AllFacts(p));
      converged := !changed;
    }

    lemma FactsBounded()
      requires Invariant()
      ensures Facts() <= AllFacts(p)
    {
      FactsInUniverse(p, State(), flows, registered);
    }

    // ---- The report ---------------------------------------------------------------------------

    /** Publishes one key that node `n` writes on the browser global. */
    method Publish(key: Key, n: NodeId)
      modifies this`exports, this`problems
      ensures exports == old(exports) + PublishedBy({key}) && problems == old(problems) + Complaints({key}, n)
    {
      if Publishable(key) {
        exports := exports + {key.value};
        assert PublishedBy({key}) == {key.value};
      } else {
        problems := problems + {DynamicExport(n)};
        assert key in {key} && PublishedBy({key}) == {};
      }
    }

    /** Publishes what node `n` writes on the global by writing target `t`. */
    method InspectWrite(t: NodeId, n: NodeId)
      requires Complete() && evaluating == {}
      modifies this`exports, this`problems, this`evaluating
      ensures evaluating == {}
      ensures exports == old(exports) + PublishedBy(Writes(p, State(), t))
      ensures problems == old(problems) + Complaints(Writes(p, State(), t), n)
      decreases |p.nodes| - t, 0
    {
      hide Names, ScopeOf, Guarded;
      if t >= |p.nodes| { return; }
      var node := p.nodes[t];
      if node.Member? {
        var receivers := Evaluate(node.receiver);
        if Root in receivers {
          var key := KeyFor(node.property, node.computed);
          Publish(key, n);
        }
      } else if node.Identifier? {
        var b := LookupName(scopes[t], node.name);
        if b == None { Publish(Some(node.name), n); }
      } else {
        SubTargetIsLater(p, t);
        InspectAll(SubTargets(node), t, n);
      }
    }

    method InspectAll(targets: seq<NodeId>, t: NodeId, n: NodeId)
      requires Complete() && evaluating == {} && t < |p.nodes|
      requires forall k :: k in targets ==> t < k < |p.nodes|
      modifies this`exports, this`problems, this`evaluating
      ensures evaluating == {}
      ensures exports == old(exports) + PublishedBy(WritesToAll(p, State(), targets, t))
      ensures problems == old(problems) + Complaints(WritesToAll(p, State(), targets, t), n)
      decreases |p.nodes| - t - 1, |targets| + 1
    {
      if targets != [] {
        assert targets[0] in targets;
        forall k | k in targets[1..] ensures t < k < |p.nodes| { assert k in targets; }
        InspectWrite(targets[0], n);
        InspectAll(targets[1..], t, n);
      }
    }

    method InspectNode(n: NodeId)
      requires Complete() && evaluating == {} && n < |p.nodes|
      modifies this`exports, this`problems, this`evaluating
      ensures evaluating == {}
      ensures exports == old(exports) + PublishedBy(NodeWrites(p, State(), n))
      ensures problems == old(problems) + ProblemsAt(p, State(), n)
    {
      var node := p.nodes[n];
      var t := WrittenTarget(node);
      if t.Some? { InspectWrite(t.value, n); }
      if node.Assignment? && node.left < |p.nodes| && p.nodes[node.left].Member? {
        var stored := Evaluate(node.right);
        var receivers := Evaluate(p.nodes[node.left].receiver);
        if Root in stored && Root !in receivers { problems := problems + {StoredGlobal(n)}; }
      }
    }

    method Inspect()
      requires Invariant() && exports == {} && problems == {}
      modifies this`exports, this`problems, this`evaluating
      ensures exports == Exports(p, State()) && problems == Problems(p, State())
    {
      hide Known, Listed, NothingExtra, WellFormed, NodeWrites, ProblemsAt, ExportsAt, ProblemsOf, Names, ScopeOf;
      InvariantIsComplete();
      NodesWalked();
      assert evaluating == {} && env.Keys == Names(p) && Elements(nodes) == IdsFrom(p, 0);
      hide Complete, Invariant;
      NothingInspected();
      for i := 0 to |nodes|
        invariant evaluating == {}
        invariant exports == ExportsAt(p, State(), Elements(nodes[..i]))
        invariant problems == ProblemsOf(p, State(), Elements(nodes[..i]))
      {
        InspectNode(nodes[i]);
        OneMoreInspected(p, State(), nodes, i);
      }
      assert nodes[..|nodes|] == nodes;
      if !p.isModule {
        exports := exports + set b | b in env && b.scope == 0 :: "@binding:" + b.name;
      }
    }

    lemma NothingInspected()
      ensures ExportsAt(p, State(), Elements(nodes[..0])) == {} && ProblemsOf(p, State(), Elements(nodes[..0])) == {}
    {
    }
  }
}

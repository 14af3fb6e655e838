/** What the rounds of the analysis keep, stated on values, and how one addition keeps it. */
module Fixpoint {
  import opened Wrappers
  import opened Syntax
  import opened AbstractValues
  import opened GuardedEvaluation
  import opened FlowEquations
  import opened Collection

  ghost predicate IsCall(p: File, r: (NodeId, NodeId)) {
    r.0 < |p.nodes| && p.nodes[r.0].Call? && r.1 < |p.nodes| && p.nodes[r.1].Function?
  }

  /** The flow list holds every flow of the file and those of the registered calls. */
  ghost predicate Listed(p: File, flows: seq<Flow>, registered: set<(NodeId, NodeId)>) {
    && (forall f :: f in Flows(p) ==> f in flows)
    && (forall f :: f in flows ==> f.target in Names(p) && PathInUniverse(p, f.path))
    && (forall r :: r in registered ==> IsCall(p, r) && forall w :: w in ParameterFlows(p, r.0, r.1) ==> w in flows)
  }

  /** The state is about this file: its names, its functions, values of its universe. */
  ghost predicate Known(p: File, s: State) {
    && s.env.Keys == Names(p)
    && (forall n: NodeId :: n in s.results <==> n < |p.nodes| && p.nodes[n].Function?)
    && InUniverse(p, s)
    && DeclarationsMet(p, s)
  }

  /** With static keys, nothing is known that some closed state does not say. */
  ghost predicate NothingExtra(p: File, s: State, flows: seq<Flow>) {
    NonComputed(p) ==> BelowClosed(p, s) && forall f :: f in flows ==> Respected(p, f)
  }

  /** Values that may be added to a binding: in the universe, and in every closed state. */
  ghost predicate Addable(p: File, b: Binding, values: Values) {
    values <= Universe(p) && (NonComputed(p) ==> forall t :: Closed(p, t) ==> values <= BindingValues(t, b))
  }

  ghost predicate Returnable(p: File, f: NodeId, values: Values) {
    values <= Universe(p) && (NonComputed(p) ==> forall t :: Closed(p, t) ==> values <= ResultsOf(t, NodeValue(f)))
  }

  ghost function FactsOf(s: State, registered: set<(NodeId, NodeId)>): set<Fact> {
    StateFacts(s) + set r | r in registered :: Calls(r.0, r.1)
  }

  function WithBinding(s: State, b: Binding, values: Values): State
    requires b in s.env
  {
    State(s.env[b := s.env[b] + values], s.results)
  }

  function WithResults(s: State, f: NodeId, values: Values): State
    requires f in s.results
  {
    State(s.env, s.results[f := s.results[f] + values])
  }

  lemma BindingKnown(p: File, s: State, b: Binding, values: Values)
    requires Known(p, s) && b in s.env && values <= Universe(p)
    ensures Known(p, WithBinding(s, b, values))
  {
    hide Universe, Names, Declared;
    var t := WithBinding(s, b, values);
    forall n, x | 0 <= n < |p.nodes| && x in Declared(p, n) ensures NodeValue(n) in BindingValues(t, x) {
      assert NodeValue(n) in BindingValues(s, x);
    }
  }

  lemma ResultsKnown(p: File, s: State, f: NodeId, values: Values)
    requires Known(p, s) && f in s.results && values <= Universe(p)
    ensures Known(p, WithResults(s, f, values))
  {
    hide Universe, Names, Declared;
    var t := WithResults(s, f, values);
    forall n, x | 0 <= n < |p.nodes| && x in Declared(p, n) ensures NodeValue(n) in BindingValues(t, x) {
      assert NodeValue(n) in BindingValues(s, x);
    }
  }

  lemma BindingFacts(s: State, registered: set<(NodeId, NodeId)>, b: Binding, values: Values)
    requires b in s.env
    ensures var t := WithBinding(s, b, values);
            if values <= s.env[b] then t == s else FactsOf(s, registered) < FactsOf(t, registered)
  {
    var t := WithBinding(s, b, values);
    if values <= s.env[b] {
      assert s.env[b] + values == s.env[b];
    } else {
      var v :| v in values && v !in s.env[b];
      assert Holds(b, v) in FactsOf(t, registered) && Holds(b, v) !in FactsOf(s, registered);
      assert FactsOf(s, registered) <= FactsOf(t, registered);
    }
  }

  lemma ResultsFacts(s: State, registered: set<(NodeId, NodeId)>, f: NodeId, values: Values)
    requires f in s.results
    ensures var t := WithResults(s, f, values);
            if values <= s.results[f] then t == s else FactsOf(s, registered) < FactsOf(t, registered)
  {
    var t := WithResults(s, f, values);
    if values <= s.results[f] {
      assert s.results[f] + values == s.results[f];
    } else {
      var v :| v in values && v !in s.results[f];
      assert Yields(f, v) in FactsOf(t, registered) && Yields(f, v) !in FactsOf(s, registered);
      assert FactsOf(s, registered) <= FactsOf(t, registered);
    }
  }

  lemma BindingAdded(p: File, s: State, flows: seq<Flow>, registered: set<(NodeId, NodeId)>, b: Binding, values: Values)
    requires Known(p, s) && NothingExtra(p, s, flows) && b in s.env && Addable(p, b, values)
    ensures var t := WithBinding(s, b, values);
            && Known(p, t) && NothingExtra(p, t, flows)
            && if values <= s.env[b] then t == s else FactsOf(s, registered) < FactsOf(t, registered)
  {
    BindingKnown(p, s, b, values);
    BindingFacts(s, registered, b, values);
    hide Known, FactsOf, Universe, BelowClosed, Respected;
    if NonComputed(p) { BindingStaysBelow(p, s, b, values); }
  }

  lemma ResultsAdded(p: File, s: State, flows: seq<Flow>, registered: set<(NodeId, NodeId)>, f: NodeId, values: Values)
    requires Known(p, s) && NothingExtra(p, s, flows) && f in s.results && Returnable(p, f, values)
    ensures var t := WithResults(s, f, values);
            && Known(p, t) && NothingExtra(p, t, flows)
            && if values <= s.results[f] then t == s else FactsOf(s, registered) < FactsOf(t, registered)
  {
    ResultsKnown(p, s, f, values);
    ResultsFacts(s, registered, f, values);
    hide Known, FactsOf, Universe, BelowClosed, Respected;
    if NonComputed(p) { ResultsStayBelow(p, s, f, values); }
  }

  /** A listed flow may be followed. */
  lemma FlowAddable(p: File, s: State, flows: seq<Flow>, registered: set<(NodeId, NodeId)>, f: Flow)
    requires Known(p, s) && NothingExtra(p, s, flows) && Listed(p, flows, registered) && f in flows
    ensures f.target in s.env && Addable(p, f.target, FlowValues(p, s, EvaluateBy(p, s), f))
  {
    FlowInUniverse(p, s, f);
    if NonComputed(p) { FlowBelowClosed(p, s, f); }
  }

  lemma AssignmentAddable(p: File, s: State, flows: seq<Flow>, n: NodeId)
    requires Known(p, s) && NothingExtra(p, s, flows) && n < |p.nodes| && AssignedBinding(p, n).Some?
    ensures AssignedBinding(p, n).value in s.env
    ensures Addable(p, AssignedBinding(p, n).value, ValuesAt(p, s, p.nodes[n].right))
  {
    GuardedInUniverse(p, s, {}, p.nodes[n].right);
    if NonComputed(p) { AssignmentBelowClosed(p, s, n); }
  }

  lemma ReturnReturnable(p: File, s: State, flows: seq<Flow>, r: (NodeId, NodeId))
    requires Known(p, s) && NothingExtra(p, s, flows) && r in Returns(p)
    ensures r.0 in s.results && Returnable(p, r.0, ValuesAt(p, s, r.1))
  {
    assert r.0 < |p.nodes| && p.nodes[r.0].Function?;
    GuardedInUniverse(p, s, {}, r.1);
    if NonComputed(p) { ReturnBelowClosed(p, s, r); }
  }

  /** Registering a call that the state shows to happen. */
  lemma CallRegistered(p: File, s: State, flows: seq<Flow>, more: seq<Flow>,
                       registered: set<(NodeId, NodeId)>, call: NodeId, f: NodeId)
    requires Known(p, s) && NothingExtra(p, s, flows) && Listed(p, flows, registered) && IsCall(p, (call, f))
    requires forall w :: w in more <==> w in flows || w in ParameterFlows(p, call, f)
    requires CallShown(p, call, f)
    ensures NothingExtra(p, s, more) && Listed(p, more, registered + {(call, f)})
    ensures (call, f) !in registered ==> FactsOf(s, registered) < FactsOf(s, registered + {(call, f)})
  {
    ParameterFlowPaths(p, call, f);
    ParameterTargets(p, call, f);
    if (call, f) !in registered {
      assert Calls(call, f) in FactsOf(s, registered + {(call, f)}) && Calls(call, f) !in FactsOf(s, registered);
    }
  }

  /** The parameter flows of the call are flows of every closed state. */
  ghost predicate CallShown(p: File, call: NodeId, f: NodeId)
    requires IsCall(p, (call, f))
  {
    NonComputed(p) ==> forall w :: w in ParameterFlows(p, call, f) ==> Respected(p, w)
  }

  lemma CallsShown(p: File, s: State, flows: seq<Flow>, call: NodeId)
    requires NothingExtra(p, s, flows) && call < |p.nodes| && p.nodes[call].Call?
    ensures forall f: NodeId :: NodeValue(f) in ValuesAt(p, s, p.nodes[call].callee) && IsCall(p, (call, f)) ==>
              CallShown(p, call, f)
  {
    forall f: NodeId | NodeValue(f) in ValuesAt(p, s, p.nodes[call].callee) && IsCall(p, (call, f))
      ensures CallShown(p, call, f)
    {
      if NonComputed(p) { CallRespected(p, s, call, f); }
    }
  }

  /** The direct flow of an argument into an identifier parameter. */
  lemma ArgumentAddable(p: File, s: State, flows: seq<Flow>, call: NodeId, f: NodeId, i: nat)
    requires Known(p, s) && NothingExtra(p, s, flows) && IsCall(p, (call, f)) && CallShown(p, call, f)
    requires i < |p.nodes[f].params| && i < |p.nodes[call].arguments|
    requires p.nodes[f].params[i] < |p.nodes| && p.nodes[p.nodes[f].params[i]].Identifier?
    ensures var b := Binding(f, p.nodes[p.nodes[f].params[i]].name);
            && b in s.env && Lookup(p, Names(p), f, b.name) == Some(b)
            && Addable(p, b, ValuesAt(p, s, p.nodes[call].arguments[i]))
  {
    var b := Binding(f, p.nodes[p.nodes[f].params[i]].name);
    var bound := ParameterBounds(p, call, f)[i];
    ParameterTargets(p, call, f);
    assert PatternNames(p, f, bound) == {b};
    assert b in Names(p);
    var w := Flow(b, p.nodes[call].arguments[i], []);
    assert w in PatternFlows(p, f, bound);
    assert w in ParameterFlows(p, call, f);
    GuardedInUniverse(p, s, {}, w.init);
    if NonComputed(p) {
      assert Respected(p, w);
      FlowBelowClosed(p, s, w);
      assert FlowValues(p, s, EvaluateBy(p, s), w) == ValuesAt(p, s, w.init);
    }
  }

  lemma AssignedIsAssignment(p: File, n: NodeId)
    requires n < |p.nodes| && AssignedBinding(p, n).Some?
    ensures p.nodes[n].Assignment?
  {
  }

  lemma ParameterNamesKnown(p: File, s: State, call: NodeId, f: NodeId)
    requires Known(p, s) && IsCall(p, (call, f))
    ensures var bounds := ParameterBounds(p, call, f); BoundNames(p, f, bounds, |bounds|) <= s.env.Keys
  {
    ParameterTargets(p, call, f);
  }

  lemma SameFlows(all: seq<Flow>, some: seq<Flow>, more: set<Flow>)
    requires Elements(all) == Elements(some) + more
    ensures forall w :: w in all <==> w in some || w in more
  {
    forall w ensures w in all <==> w in some || w in more {
      assert w in all <==> w in Elements(all);
      assert w in some <==> w in Elements(some);
    }
  }

  lemma KnownInUniverse(p: File, s: State)
    requires Known(p, s)
    ensures InUniverse(p, s)
  {
  }

  lemma FactsInUniverse(p: File, s: State, flows: seq<Flow>, registered: set<(NodeId, NodeId)>)
    requires Known(p, s) && Listed(p, flows, registered)
    ensures FactsOf(s, registered) <= AllFacts(p)
  {
    forall x | x in FactsOf(s, registered) ensures x in AllFacts(p) {
      match x
      case Holds(b, v) => assert b in Names(p) && v in Universe(p);
      case Yields(f, v) => assert f in IdsFrom(p, 0) && v in Universe(p);
      case Calls(c, f) => assert IsCall(p, (c, f)) && c in IdsFrom(p, 0) && f in IdsFrom(p, 0);
    }
  }

  lemma NoNewNames(p: File, env: map<Binding, Values>, names: set<Binding>)
    requires names <= env.Keys
    ensures WithNames(env, names) == env
  {
  }

  /** The state after the walk: declared functions and nothing else. */
  lemma InitialState(p: File, s: State, flows: seq<Flow>)
    requires s.env == EnvOf(p, IdsFrom(p, 0)) && s.results == FunctionResults(p, IdsFrom(p, 0))
    requires Elements(flows) == FlowsOf(p, IdsFrom(p, 0))
    ensures Known(p, s) && Listed(p, flows, {}) && NothingExtra(p, s, flows)
  {
    WholeFile(p);
    InitialFlows(p, flows);
    InitialKnown(p, s);
    if NonComputed(p) {
      hide Known, Listed, Flows;
      forall t | Closed(p, t) ensures Below(s, t) {
        assert DeclarationsMet(p, t);
      }
      forall f | f in flows ensures Respected(p, f) {
        assert f in Flows(p);
      }
    }
  }

  lemma InitialFlows(p: File, flows: seq<Flow>)
    requires Elements(flows) == FlowsOf(p, IdsFrom(p, 0))
    ensures Listed(p, flows, {}) && forall f :: f in flows <==> f in Flows(p)
  {
    WholeFile(p);
    forall f ensures f in flows <==> f in Flows(p) {
      assert f in flows <==> f in Elements(flows);
    }
    forall f | f in Flows(p) ensures f.target in Names(p) && PathInUniverse(p, f.path) {
      var n :| 0 <= n < |p.nodes| && f in NodeFlows(p, n);
      NodeFlowPaths(p, n);
      NodeFlowTargets(p, n);
    }
  }

  lemma InitialDeclared(p: File, s: State)
    requires s.env == EnvOf(p, IdsFrom(p, 0))
    ensures s.env.Keys == Names(p) && DeclarationsMet(p, s)
  {
    hide WellFormed, Declared, Names, FlowsOf, Flows, Returns, ReturnsOf, CallsOf;
    WholeFile(p);
    forall n, b | 0 <= n < |p.nodes| && b in Declared(p, n) ensures NodeValue(n) in BindingValues(s, b) {
      DeclaredIsNamed(p, n);
      assert n in IdsFrom(p, 0);
      assert b in NamesOf(p, IdsFrom(p, 0));
    }
  }

  lemma InitialInUniverse(p: File, s: State)
    requires s.env == EnvOf(p, IdsFrom(p, 0)) && s.results == FunctionResults(p, IdsFrom(p, 0))
    ensures InUniverse(p, s)
  {
    hide WellFormed, NamesOf;
  }

  lemma InitialKnown(p: File, s: State)
    requires s.env == EnvOf(p, IdsFrom(p, 0)) && s.results == FunctionResults(p, IdsFrom(p, 0))
    ensures Known(p, s)
  {
    hide WellFormed, EnvOf, InUniverse, DeclarationsMet, Names;
    InitialDeclared(p, s);
    InitialInUniverse(p, s);
  }

  /** A round that changes nothing leaves every equation met. */
  lemma NothingLeft(p: File, s: State, flows: seq<Flow>, registered: set<(NodeId, NodeId)>)
    requires Known(p, s) && Listed(p, flows, registered)
    requires forall f :: f in flows ==> FlowMet(p, s, EvaluateBy(p, s), f)
    requires forall n: NodeId :: n < |p.nodes| ==> AssignmentMet(p, s, EvaluateBy(p, s), n)
    requires forall n: NodeId, f: NodeId :: IsCall(p, (n, f)) && NodeValue(f) in ValuesAt(p, s, p.nodes[n].callee) ==>
               (n, f) in registered
    requires forall r :: r in Returns(p) ==> ReturnMet(s, EvaluateBy(p, s), r)
    ensures Closed(p, s)
  {
    var rec := EvaluateBy(p, s);
    forall n, f | 0 <= n < |p.nodes| && 0 <= f < |p.nodes| ensures CallMet(p, s, rec, n, f) {
      if p.nodes[n].Call? && p.nodes[f].Function? && NodeValue(f) in rec(p.nodes[n].callee) {
        assert IsCall(p, (n, f)) && (n, f) in registered;
        assert IsCall(p, (n, f)) && forall w :: w in ParameterFlows(p, n, f) ==> w in flows;
      }
    }
  }

  lemma ProperSubsetIsSmaller<T>(small: set<T>, big: set<T>)
    requires small < big
    ensures |small| < |big|
  {
    assert big == small + (big - small);
  }

  lemma SubsetIsNoLarger<T>(small: set<T>, big: set<T>)
    requires small <= big
    ensures |small| <= |big|
  {
    assert big == small + (big - small);
  }
}

/** The analysis of a renderer source file as a whole, and what its answer means. */
module RendererSource {
  import opened Syntax
  import opened AbstractValues
  import opened GuardedEvaluation
  import opened FlowEquations
  import opened Collection
  import opened Fixpoint
  import opened Report
  import opened RendererAnalysis
  import opened RunSemantics
  import opened Soundness
  import opened RunSoundness
  import opened RunInduction

  datatype Answer = Analyzed(exports: set<string>, problems: set<Problem>) | DidNotConverge

  /** A state the rounds can end in. */
  ghost predicate Final(p: File, s: State) {
    Known(p, s) && Closed(p, s) && (NonComputed(p) ==> BelowClosed(p, s))
  }

  /** With static keys the final state is the least closed state, and there is only one, whatever
      order the flows were visited in. It is below every solution of the unguarded equations, and
      with flat property values it is the least of them. */
  lemma FinalIsLeast(p: File, s: State, t: State)
    requires NonComputed(p) && Final(p, s)
    ensures LeastClosed(p, s)
    ensures Final(p, t) ==> s == t
    ensures Solution(p, t) ==> Below(s, t)
    ensures FlatHeld(p) ==> LeastSolution(p, s)
  {
    hide Known, Closed, Solution, Below, FlatHeld, NonComputed, WellFormed;
    LeastClosedAndSolutions(p, s);
    if Final(p, t) {
      FinalKeys(p, s, t);
      LeastIsUnique(p, s, t);
    }
  }

  lemma FinalKeys(p: File, s: State, t: State)
    requires Known(p, s) && Known(p, t)
    ensures s.env.Keys == t.env.Keys && s.results.Keys == t.results.Keys
  {
    hide InUniverse, DeclarationsMet, WellFormed, Names;
    assert forall n: NodeId :: n in s.results.Keys <==> n in t.results.Keys;
  }

  // ---- There is a final state -------------------------------------------------------------------

  /** What the rounds keep, on values. */
  ghost predicate Kept(p: File, s: State, flows: seq<Flow>, registered: set<(NodeId, NodeId)>) {
    Known(p, s) && Listed(p, flows, registered) && NothingExtra(p, s, flows)
  }

  /** Something is left to do in a state that is not closed. */
  ghost predicate Unfinished(p: File, s: State, flows: seq<Flow>, registered: set<(NodeId, NodeId)>) {
    || (exists f :: f in flows && !FlowMet(p, s, EvaluateBy(p, s), f))
    || (exists n: NodeId :: n < |p.nodes| && !AssignmentMet(p, s, EvaluateBy(p, s), n))
    || (exists r :: r in Returns(p) && !ReturnMet(s, EvaluateBy(p, s), r))
    || exists n: NodeId, f: NodeId :: Uncalled(p, s, registered, n, f)
  }

  ghost predicate Uncalled(p: File, s: State, registered: set<(NodeId, NodeId)>, n: NodeId, f: NodeId) {
    IsCall(p, (n, f)) && NodeValue(f) in ValuesAt(p, s, p.nodes[n].callee) && (n, f) !in registered
  }

  lemma ClosedOrUnfinished(p: File, s: State, flows: seq<Flow>, registered: set<(NodeId, NodeId)>)
    requires Kept(p, s, flows, registered)
    ensures Closed(p, s) || Unfinished(p, s, flows, registered)
  {
    hide Known, Listed, NothingExtra, FlowMet, AssignmentMet, ReturnMet, WellFormed, Returns, ValuesAt, Closed;
    if !Unfinished(p, s, flows, registered) {
      forall n: NodeId, f: NodeId | IsCall(p, (n, f)) && NodeValue(f) in ValuesAt(p, s, p.nodes[n].callee)
        ensures (n, f) in registered
      {
        assert !Uncalled(p, s, registered, n, f);
      }
      NothingLeft(p, s, flows, registered);
    }
  }

  /** Any step adds a fact. */
  lemma StepTaken(p: File, s: State, flows: seq<Flow>, registered: set<(NodeId, NodeId)>)
    returns (s': State, flows': seq<Flow>, registered': set<(NodeId, NodeId)>)
    requires Kept(p, s, flows, registered) && Unfinished(p, s, flows, registered)
    ensures Kept(p, s', flows', registered') && FactsOf(s, registered) < FactsOf(s', registered')
  {
    hide Known, Listed, NothingExtra, Addable, Returnable, FactsOf, WellFormed, Returns, Closed, Guarded;
    hide FlowValues, AssignedBinding;
    s', flows', registered' := s, flows, registered;
    if f :| f in flows && !FlowMet(p, s, EvaluateBy(p, s), f) {
      FlowAddable(p, s, flows, registered, f);
      var values := FlowValues(p, s, EvaluateBy(p, s), f);
      BindingAdded(p, s, flows, registered, f.target, values);
      s' := WithBinding(s, f.target, values);
    } else if n: NodeId :| n < |p.nodes| && !AssignmentMet(p, s, EvaluateBy(p, s), n) {
      AssignedIsAssignment(p, n);
      AssignmentAddable(p, s, flows, n);
      var b, values := AssignedBinding(p, n).value, ValuesAt(p, s, p.nodes[n].right);
      BindingAdded(p, s, flows, registered, b, values);
      s' := WithBinding(s, b, values);
    } else if r :| r in Returns(p) && !ReturnMet(s, EvaluateBy(p, s), r) {
      ReturnReturnable(p, s, flows, r);
      var values := ValuesAt(p, s, r.1);
      ResultsAdded(p, s, flows, registered, r.0, values);
      s' := WithResults(s, r.0, values);
    } else {
      var n: NodeId, f: NodeId :| Uncalled(p, s, registered, n, f);
      CallsShown(p, s, flows, n);
      flows' := flows + Listing(ParameterFlows(p, n, f));
      registered' := registered + {(n, f)};
      CallRegistered(p, s, flows, flows', registered, n, f);
    }
  }

  ghost function Listing<T(!new)>(items: set<T>): (list: seq<T>)
    ensures forall x :: x in list <==> x in items
  {
    if items == {} then [] else
      var x :| x in items;
      [x] + Listing(items - {x})
  }

  lemma {:induction false} FinalReached(p: File, s: State, flows: seq<Flow>, registered: set<(NodeId, NodeId)>)
    returns (t: State)
    requires Kept(p, s, flows, registered)
    ensures Final(p, t)
    decreases AllFacts(p) - FactsOf(s, registered)
  {
    hide Known, Listed, NothingExtra, FactsOf, AllFacts, Unfinished, Closed, WellFormed, BelowClosed, NonComputed;
    ClosedOrUnfinished(p, s, flows, registered);
    if Closed(p, s) {
      FinalIsKept(p, s, flows);
      t := s;
    } else {
      var s', flows', registered' := StepTaken(p, s, flows, registered);
      FactsInUniverse(p, s', flows', registered');
      ghost var x :| x in FactsOf(s', registered') && x !in FactsOf(s, registered);
      assert x in AllFacts(p) - FactsOf(s, registered) && x !in AllFacts(p) - FactsOf(s', registered');
      t := FinalReached(p, s', flows', registered');
    }
  }

  lemma FinalIsKept(p: File, s: State, flows: seq<Flow>)
    requires Known(p, s) && Closed(p, s) && NothingExtra(p, s, flows)
    ensures Final(p, s)
  {
    hide Known, Closed;
  }

  /** Taking any steps in any order, a final state is reached: every file has one. */
  lemma FinalExists(p: File)
    ensures exists s :: Final(p, s)
  {
    hide Final, Known, Listed, NothingExtra, WellFormed;
    var flows := Listing(FlowsOf(p, IdsFrom(p, 0)));
    var s := AbstractValues.State(EnvOf(p, IdsFrom(p, 0)), FunctionResults(p, IdsFrom(p, 0)));
    assert Elements(flows) == FlowsOf(p, IdsFrom(p, 0));
    InitialState(p, s, flows);
    var t := FinalReached(p, s, flows, {});
  }

  // ---- Soundness ----------------------------------------------------------------------------------

  lemma CarefulFor(goal: Goal, other: Goal, host: Host)
    requires Careful(goal, host) && goal.everything == other.everything
    ensures Careful(other, host)
  {
    assert forall v :: Harmless(goal, v) <==> Harmless(other, v);
    assert forall a :: HarmlessAct(goal, a) <==> HarmlessAct(other, a);
  }

  /** Every name that the module writes on the browser global is exported: in its body, and in anything the
      host calls before, during or after it, if the host hands only primitives to the module. */
  lemma AnalysisIsSound(p: File, s: State, host: Host, fuel: nat)
    requires InFragment(p) && Final(p, s) && Problems(p, s) == {} && Tame(host)
    ensures RunPage(p, host, fuel).written <= Exports(p, s)
  {
    hide Careful, InFragment, BelowClosed, RunPage, NonComputed, Exports, Problems, WellFormed;
    var goal := Goal(Exports(p, s), true);
    CarefulFor(Goal({}, true), goal, host);
    RunsAreCovered(p, s, goal, host, fuel);
  }

  /** If the module keeps the global in variables, which can be read off the final state, the host may hand
      it anything else: objects and functions of the module as results, arguments, imports, and stored
      anywhere. */
  lemma ConfinedIsSound(p: File, s: State, host: Host, fuel: nat)
    requires InFragment(p) && Final(p, s) && Problems(p, s) == {} && Confined(p, s) && Reserved(host)
    ensures RunPage(p, host, fuel).written <= Exports(p, s)
  {
    hide Careful, InFragment, BelowClosed, RunPage, NonComputed, Exports, Problems, WellFormed, Confined;
    var goal := Goal(Exports(p, s), false);
    CarefulFor(Goal({}, false), goal, host);
    RunsAreCovered(p, s, goal, host, fuel);
  }

  /** The names hold every write of every run of the page with a tame host. */
  ghost predicate CoversTame(p: File, exports: set<string>) {
    forall host: Host, fuel: nat :: Tame(host) ==> RunPage(p, host, fuel).written <= exports
  }

  /** The names hold every write of every run of the page with a host that does not hand out the global. */
  ghost predicate CoversReserved(p: File, exports: set<string>) {
    forall host: Host, fuel: nat :: Reserved(host) ==> RunPage(p, host, fuel).written <= exports
  }

  method AnalyzeRendererSource(p: File) returns (r: Answer)
    ensures r.Analyzed? ==> exists s :: Final(p, s) && r.exports == Exports(p, s) && r.problems == Problems(p, s)
    ensures r.Analyzed? && NonComputed(p) ==>
              forall s :: Final(p, s) ==> r == Analyzed(Exports(p, s), Problems(p, s))
    ensures r.Analyzed? && InFragment(p) && r.problems == {} ==> CoversTame(p, r.exports)
    ensures r.Analyzed? && InFragment(p) && r.problems == {} && (forall s :: Final(p, s) ==> Confined(p, s)) ==>
              CoversReserved(p, r.exports)
    ensures r.DidNotConverge? ==> |AllFacts(p)| >= 64
  {
    hide Closed, Final, Exports, Problems, CoversTame, CoversReserved, Confined, InFragment, AllFacts, WellFormed;
    var analysis := new Analysis(p);
    analysis.Walk();
    var converged := analysis.Solve();
    if !converged { return DidNotConverge; }
    FinalAfterRounds(p, analysis);
    Conclusions(p, analysis.State());
    analysis.Inspect();
    r := Analyzed(analysis.exports, analysis.problems);
  }

  lemma FinalAfterRounds(p: File, analysis: Analysis)
    requires analysis.p == p && analysis.Invariant() && Closed(p, analysis.State())
    ensures Final(p, analysis.State())
  {
    hide Known, Listed, Closed, WellFormed;
  }

  lemma Conclusions(p: File, s: State)
    requires Final(p, s)
    ensures NonComputed(p) ==> forall t :: Final(p, t) ==> s == t
    ensures InFragment(p) && Problems(p, s) == {} ==> CoversTame(p, Exports(p, s))
    ensures InFragment(p) && Problems(p, s) == {} && Confined(p, s) ==> CoversReserved(p, Exports(p, s))
  {
    hide Final, InFragment, Tame, Reserved, Confined, Problems, Exports, RunPage;
    if NonComputed(p) {
      forall t | Final(p, t) ensures s == t { FinalIsLeast(p, s, t); }
    }
    if InFragment(p) && Problems(p, s) == {} {
      forall host: Host, fuel: nat | Tame(host) ensures RunPage(p, host, fuel).written <= Exports(p, s) {
        AnalysisIsSound(p, s, host, fuel);
      }
      if Confined(p, s) {
        forall host: Host, fuel: nat | Reserved(host) ensures RunPage(p, host, fuel).written <= Exports(p, s) {
          ConfinedIsSound(p, s, host, fuel);
        }
      }
    }
  }
}

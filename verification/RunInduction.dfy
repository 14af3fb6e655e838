/** Soundness of whole runs, by induction over the interpreter. */
module RunInduction {
  import opened Wrappers
  import opened Syntax
  import opened AbstractValues
  import opened GuardedEvaluation
  import opened FlowEquations
  import opened Collection
  import opened Fixpoint
  import opened Report
  import opened RunSemantics
  import opened Soundness
  import opened RunSoundness

  // ---- Lists -------------------------------------------------------------------------------------------

  lemma {:induction false} ListSound(p: File, s: State, goal: Goal, host: Host, m: Machine, env: seq<nat>,
                                     ns: seq<NodeId>, owner: Option<NodeId>, fuel: nat)
    requires Careful(goal, host) && Certified(p, s, goal) && Safe(p, s, goal, m)
    requires forall k :: k in ns ==> Ready(p, m, env, k) && Around(p, k) == owner
    ensures ListSafe(p, s, goal, m, RunList(p, host, m, env, ns, fuel), ns, owner)
    decreases fuel, 5, |ns|
  {
    hide Careful, Certified, Safe, Grows, Covers, ValuesAt, WellFormed, EnvMatches, ReturnCovered, Around, Run;
    if ns == [] {
      Stays(p, s, goal, m);
    } else {
      var k := ns[0];
      assert k in ns;
      RunSound(p, s, goal, host, m, env, k, fuel);
      var r := Run(p, host, m, env, k, fuel);
      if r.out.Normal? {
        forall j | j in ns[1..] ensures Ready(p, r.m, env, j) && Around(p, j) == owner {
          assert j in ns;
          ReadyGrows(p, m, r.m, env, j);
        }
        ListSound(p, s, goal, host, r.m, env, ns[1..], owner, fuel);
        var rest := RunList(p, host, r.m, env, ns[1..], fuel);
        MovedThen(p, s, goal, m, r.m, rest.m);
        if rest.out.Normal? {
          CoversGrows(goal, r.m, rest.m, r.out.value, ValuesAt(p, s, k), ValuesAt(p, s, k));
        }
      }
    }
  }

  /** The children of a node that opens no scope run where it runs. */
  lemma ListReady(p: File, m: Machine, env: seq<nat>, n: NodeId, ns: seq<NodeId>)
    requires Ready(p, m, env, n) && !OpensScope(p.nodes[n]) && Siblings(p, ns, n)
    ensures forall k :: k in ns ==> Ready(p, m, env, k) && Around(p, k) == Around(p, n)
  {
    forall k | k in ns ensures Ready(p, m, env, k) && Around(p, k) == Around(p, n) { ChildReady(p, m, env, n, k); }
  }

  // ---- Nodes -------------------------------------------------------------------------------------------

  lemma {:induction false} RunSound(p: File, s: State, goal: Goal, host: Host, m: Machine, env: seq<nat>,
                                    n: NodeId, fuel: nat)
    requires Careful(goal, host) && Certified(p, s, goal) && Safe(p, s, goal, m) && Ready(p, m, env, n)
    ensures RunSafe(p, s, goal, m, Run(p, host, m, env, n, fuel), n)
    decreases fuel, 4
  {
    hide Careful, RunNode, Safe, Grows, EnvMatches, Certified, ReturnCovered, ValuesAt, WellFormed, Interrupted, Covers;
    Stays(p, s, goal, m);
    if fuel > 0 {
      NodeSound(p, s, goal, host, m, env, n, fuel - 1);
      var r := RunNode(p, host, m, env, n, fuel - 1);
      InterruptedSound(p, s, goal, host, m, r, n, fuel);
      var after := Interrupted(p, host, r, n, fuel);
      if after.out.Normal? { CoversGrows(goal, r.m, after.m, r.out.value, ValuesAt(p, s, n), ValuesAt(p, s, n)); }
      if after.out.Returned? { ReturnGrows(s, goal, r.m, after.m, r.out.value, Around(p, n)); }
    }
  }

  lemma ReturnGrows(s: State, goal: Goal, m: Machine, m': Machine, v: Value, owner: Option<NodeId>)
    requires ReturnCovered(s, goal, m, v, owner) && Grows(m, m')
    ensures ReturnCovered(s, goal, m', v, owner)
  {
    hide Grows, Covers;
    if owner.Some? {
      CoversGrows(goal, m, m', v, ResultsOf(s, NodeValue(owner.value)), ResultsOf(s, NodeValue(owner.value)));
    }
  }

  /** What the host does when a node has run leaves everything covered. */
  lemma {:induction false} InterruptedSound(p: File, s: State, goal: Goal, host: Host, m: Machine, r: Result,
                                            n: NodeId, fuel: nat)
    requires Careful(goal, host) && Certified(p, s, goal) && Moved(p, s, goal, m, r.m) && fuel > 0
    ensures var after := Interrupted(p, host, r, n, fuel);
            && Moved(p, s, goal, m, after.m) && Grows(r.m, after.m)
            && ((after.out == r.out && after.values == r.values) || after == Stop(after.m))
    decreases fuel, 3
  {
    hide Safe, Grows, Certified, HostActs, WellFormed;
    var acts := host.acts(r.m.clock, n, fuel);
    ActsSound(p, s, goal, host, r.m, acts, fuel - 1);
    MovedThen(p, s, goal, m, r.m, HostActs(p, host, r.m, acts, fuel - 1));
  }

  lemma {:induction false} NodeSound(p: File, s: State, goal: Goal, host: Host, m: Machine, env: seq<nat>,
                                     n: NodeId, fuel: nat)
    requires Careful(goal, host) && Certified(p, s, goal) && Safe(p, s, goal, m) && Ready(p, m, env, n)
    ensures RunSafe(p, s, goal, m, RunNode(p, host, m, env, n, fuel), n)
    decreases fuel, 10
  {
    hide Careful, RunNode, Safe, Grows, EnvMatches, Certified, ReturnCovered, ValuesAt, WellFormed;
    var node := p.nodes[n];
    if node.Block? { BlockSound(p, s, goal, host, m, env, n, fuel); }
    else if node.VariableDeclaration? { DeclarationSound(p, s, goal, host, m, env, n, fuel); }
    else if node.Return? { ReturnSound(p, s, goal, host, m, env, n, fuel); }
    else if node.If? || node.While? { BranchSound(p, s, goal, host, m, env, n, fuel); }
    else if node.Object? { ObjectSound(p, s, goal, host, m, env, n, fuel); }
    else if node.Conditional? || node.Logical? { ChoiceSound(p, s, goal, host, m, env, n, fuel); }
    else if node.Chain? { ChainSound(p, s, goal, host, m, env, n, fuel); }
    else if node.ExpressionStatement? { StatementSound(p, s, goal, host, m, env, n, fuel); }
    else if node.Sequence? { SequenceSound(p, s, goal, host, m, env, n, fuel); }
    else if node.Operator? || node.Export? { OperatorSound(p, s, goal, host, m, env, n, fuel); }
    else if node.Assignment? { AssignmentSound(p, s, goal, host, m, env, n, fuel); }
    else if node.Update? { UpdateSound(p, s, goal, host, m, env, n, fuel); }
    else if node.Member? { MemberSound(p, s, goal, host, m, env, n, fuel); }
    else if node.Call? { CallSound(p, s, goal, host, m, env, n, fuel); }
    else { LeafSound(p, s, goal, host, m, env, n, fuel); }
  }

  /** Nodes that run no other node. */
  predicate IsLeaf(node: Node) {
    !(node.Block? || node.VariableDeclaration? || node.Return? || node.If? || node.While? || node.Object? ||
      node.Conditional? || node.Logical? || node.Chain? || node.ExpressionStatement? || node.Sequence? ||
      node.Operator? || node.Export? || node.Assignment? || node.Update? || node.Member? || node.Call?)
  }

  lemma LeafSound(p: File, s: State, goal: Goal, host: Host, m: Machine, env: seq<nat>, n: NodeId, fuel: nat)
    requires Careful(goal, host) && Certified(p, s, goal) && Safe(p, s, goal, m) && Ready(p, m, env, n) &&
      IsLeaf(p.nodes[n])
    ensures RunSafe(p, s, goal, m, RunNode(p, host, m, env, n, fuel), n)
  {
    hide Careful, Safe, Grows, EnvMatches, Certified, ReturnCovered, ValuesAt, Step, Bindable, EvaluateBy, Followed;
    hide Around, RunList, Bind, BindEntries, RunDeclarators, Apply, BindParameters, Hoist, NewFrame, Fields;
    hide VarFrame, WellFormed;
    Stays(p, s, goal, m);
    if p.nodes[n].Identifier? { NameSound(p, s, goal, host, m, env, n); }
    if p.nodes[n].Function? { FunctionSound(p, s, goal, m, env, n); }
  }

  lemma {:induction false} BlockSound(p: File, s: State, goal: Goal, host: Host, m: Machine, env: seq<nat>,
                                      n: NodeId, fuel: nat)
    requires Careful(goal, host) && Certified(p, s, goal) && Safe(p, s, goal, m) && Ready(p, m, env, n) &&
      p.nodes[n].Block?
    ensures RunSafe(p, s, goal, m, RunNode(p, host, m, env, n, fuel), n)
    decreases fuel, 9
  {
    hide Careful, Safe, Grows, EnvMatches, Certified, ReturnCovered, ValuesAt, Hoist, RunList, WellFormed, Step;
    hide EvaluateBy, Followed, Bind, RunDeclarators, Apply, RunAssignment, RunUpdate;
    var body := p.nodes[n].body;
    var inner := [|m.frames|] + env;
    var m1 := NewFrame(p, m, env, n);
    ScopeEntered(p, s, goal, m, env, n);
    forall k | k in body ensures IsChild(p, n, k) {}
    HoistSafe(p, s, goal, m1, inner, n, body);
    var m2 := Hoist(p, m1, inner, |m.frames|, body);
    EnvGrows(p, m1, m2, inner, n);
    BodyReady(p, m2, inner, n, body);
    ListSound(p, s, goal, host, m2, inner, body, Around(p, n), fuel);
    var r := RunList(p, host, m2, inner, body, fuel);
    MovedThen(p, s, goal, m, m1, m2);
    MovedThen(p, s, goal, m, m2, r.m);
  }

  lemma BodyReady(p: File, m: Machine, env: seq<nat>, n: NodeId, body: seq<NodeId>)
    requires n < |p.nodes| && (p.nodes[n].Block? || n == 0) && EnvMatches(p, m, env, n) && Siblings(p, body, n)
    ensures forall k :: k in body ==> Ready(p, m, env, k) && Around(p, k) == Around(p, n)
  {
    forall k | k in body ensures Ready(p, m, env, k) && Around(p, k) == Around(p, n) {
      assert IsChild(p, n, k);
      ChildIsLater(p, n, k);
    }
  }

  lemma NameSeen(p: File, s: State, goal: Goal, n: NodeId)
    requires Certified(p, s, goal) && n < |p.nodes| && p.nodes[n].Identifier?
    ensures Shaped(p) && DeclarationsMet(p, s) && SeesVariable(p, ScopeOf(p, n), p.nodes[n].name)
  {
  }

  lemma NameSound(p: File, s: State, goal: Goal, host: Host, m: Machine, env: seq<nat>, n: NodeId)
    requires Careful(goal, host) && Certified(p, s, goal) && Safe(p, s, goal, m) && Ready(p, m, env, n) &&
      p.nodes[n].Identifier?
    ensures RunSafe(p, s, goal, m, ReadName(host, m, env, p.nodes[n].name), n)
  {
    hide Careful, Safe, Certified, EnvMatches, WellFormed, ValuesAt, ReadName, Grows;
    assert ScopeOf(p, n) == OuterScope(p, n);
    NameSeen(p, s, goal, n);
    NameRead(p, s, goal, host, m, env, OuterScope(p, n), p.nodes[n].name);
    NameEquation(p, s, goal, n);
    Stays(p, s, goal, m);
  }

  lemma FunctionSound(p: File, s: State, goal: Goal, m: Machine, env: seq<nat>, n: NodeId)
    requires Certified(p, s, goal) && Safe(p, s, goal, m) && Ready(p, m, env, n) && p.nodes[n].Function?
    ensures RunSafe(p, s, goal, m, Allocate(m, Cell(n, env, map[], map[])), n)
  {
    CellMade(p, s, goal, m, Cell(n, env, map[], map[]));
    MadeEquation(p, s, goal, n);
  }

  lemma {:induction false} ObjectSound(p: File, s: State, goal: Goal, host: Host, m: Machine, env: seq<nat>,
                                       n: NodeId, fuel: nat)
    requires Careful(goal, host) && Certified(p, s, goal) && Safe(p, s, goal, m) && Ready(p, m, env, n) &&
      p.nodes[n].Object?
    ensures RunSafe(p, s, goal, m, RunNode(p, host, m, env, n, fuel), n)
    decreases fuel, 9
  {
    hide Careful, Safe, Grows, EnvMatches, Certified, ReturnCovered, ValuesAt, Step, Bindable, EvaluateBy, Followed;
    hide Around, RunList, Bind, BindEntries, RunDeclarators, Apply, BindParameters, Hoist, NewFrame, Fields;
    hide VarFrame, WellFormed;
    var qs := p.nodes[n].properties;
    var ns := PropertyNodes(qs);
    forall k | k in ns ensures IsChild(p, n, k) {
      var i :| 0 <= i < |ns| && k == ns[i];
      PropertyIsChild(p, n, i);
    }
    ListReady(p, m, env, n, ns);
    ListSound(p, s, goal, host, m, env, ns, Around(p, n), fuel);
    var r := RunList(p, host, m, env, ns, fuel);
    if r.out.Normal? { ObjectMade(p, s, goal, m, n, r); }
  }

  lemma ObjectMade(p: File, s: State, goal: Goal, m: Machine, n: NodeId, r: Result)
    requires Certified(p, s, goal) && 0 < n < |p.nodes| && p.nodes[n].Object?
    requires var qs := p.nodes[n].properties;
             Moved(p, s, goal, m, r.m) && ValuesCovered(p, s, goal, r.m, r.values, PropertyNodes(qs))
    ensures var qs := p.nodes[n].properties;
            RunSafe(p, s, goal, m, Allocate(r.m, Cell(n, [], Fields(p, qs, r.values), map[])), n)
  {
    hide Careful, Grows, EnvMatches, Certified, ReturnCovered, ValuesAt, Step, EvaluateBy, FieldValues;
    var qs := p.nodes[n].properties;
    assert qs[..|qs|] == qs;
    FieldsSafe(p, s, goal, r.m, n, |qs|, r.values);
    var c := Cell(n, [], Fields(p, qs, r.values), map[]);
    CellMade(p, s, goal, r.m, c);
    MovedThen(p, s, goal, m, r.m, r.m.(heap := r.m.heap + [c]));
    MadeEquation(p, s, goal, n);
    assert (r.m.heap + [c])[|r.m.heap|] == c;
  }

  lemma {:induction false} ChoiceSound(p: File, s: State, goal: Goal, host: Host, m: Machine, env: seq<nat>,
                                       n: NodeId, fuel: nat)
    requires Careful(goal, host) && Certified(p, s, goal) && Safe(p, s, goal, m) && Ready(p, m, env, n)
    requires p.nodes[n].Conditional? || p.nodes[n].Logical?
    ensures RunSafe(p, s, goal, m, RunNode(p, host, m, env, n, fuel), n)
    decreases fuel, 9
  {
    hide Careful, Safe, Grows, EnvMatches, Certified, ReturnCovered, ValuesAt, Step, Bindable, EvaluateBy, Followed;
    hide Around, RunList, Bind, BindEntries, RunDeclarators, Apply, BindParameters, Hoist, NewFrame, Fields;
    hide VarFrame, WellFormed;
    var node := p.nodes[n];
    var first := if node.Conditional? then node.test else node.left;
    assert IsChild(p, n, first);
    ChildReady(p, m, env, n, first);
    RunSound(p, s, goal, host, m, env, first, fuel);
    var r := Run(p, host, m, env, first, fuel);
    if !r.out.Normal? {
      Stays(p, s, goal, m);
      PassedOn(p, s, goal, m, m, r, n, first);
    } else {
      var next := Tick(r.m);
      MovedOn(p, s, goal, r.m);
      MovedThen(p, s, goal, m, r.m, next);
      if node.Logical? && host.choose(r.m.clock) {
        Passed(p, s, goal, n, first);
        CoversGrows(goal, r.m, next, r.out.value, ValuesAt(p, s, first), ValuesAt(p, s, n));
      } else {
        var k := if node.Logical? then node.right else if host.choose(r.m.clock) then node.consequent
          else node.alternate;
        assert IsChild(p, n, k);
        ChildReady(p, m, env, n, k);
        ReadyGrows(p, m, next, env, k);
        RunSound(p, s, goal, host, next, env, k, fuel);
        Passed(p, s, goal, n, k);
        PassedOn(p, s, goal, m, next, Run(p, host, next, env, k, fuel), n, k);
      }
    }
  }

  lemma {:induction false} BranchSound(p: File, s: State, goal: Goal, host: Host, m: Machine, env: seq<nat>,
                                       n: NodeId, fuel: nat)
    requires Careful(goal, host) && Certified(p, s, goal) && Safe(p, s, goal, m) && Ready(p, m, env, n)
    requires p.nodes[n].If? || p.nodes[n].While?
    ensures RunSafe(p, s, goal, m, RunNode(p, host, m, env, n, fuel), n)
    decreases fuel, 9
  {
    hide Careful, Safe, Grows, EnvMatches, Certified, ReturnCovered, ValuesAt, Step, Bindable, EvaluateBy, Followed;
    hide Around, RunList, Bind, BindEntries, RunDeclarators, Apply, WellFormed, RunAssignment, RunUpdate;
    hide BindParameters, Hoist, NewFrame, ReadName, ReadMember, Allocate, Fields, VarFrame;
    var node := p.nodes[n];
    assert IsChild(p, n, node.test);
    ChildReady(p, m, env, n, node.test);
    RunSound(p, s, goal, host, m, env, node.test, fuel);
    var r := Run(p, host, m, env, node.test, fuel);
    if !r.out.Normal? {
      Stays(p, s, goal, m);
      PassedOn(p, s, goal, m, m, r, n, node.test);
    } else {
      var next := Tick(r.m);
      MovedOn(p, s, goal, r.m);
      MovedThen(p, s, goal, m, r.m, next);
      var taken := if node.While? then (if host.choose(r.m.clock) then Some(node.loopBody) else None)
                   else if host.choose(r.m.clock) then Some(node.consequent) else node.otherwise;
      if taken.Some? {
        var k := taken.value;
        assert IsChild(p, n, k);
        ChildReady(p, m, env, n, k);
        ReadyGrows(p, m, next, env, k);
        RunSound(p, s, goal, host, next, env, k, fuel);
        var once := Run(p, host, next, env, k, fuel);
        MovedThen(p, s, goal, m, next, once.m);
        if !once.out.Normal? {
          PassedOn(p, s, goal, m, next, once, n, k);
        } else if node.While? {
          ReadyGrows(p, m, once.m, env, n);
          RunSound(p, s, goal, host, once.m, env, n, fuel);
          MovedThen(p, s, goal, m, once.m, Run(p, host, once.m, env, n, fuel).m);
        }
      }
    }
  }

  lemma {:induction false} StatementSound(p: File, s: State, goal: Goal, host: Host, m: Machine, env: seq<nat>,
                                          n: NodeId, fuel: nat)
    requires Careful(goal, host) && Certified(p, s, goal) && Safe(p, s, goal, m) && Ready(p, m, env, n)
    requires p.nodes[n].ExpressionStatement?
    ensures RunSafe(p, s, goal, m, RunNode(p, host, m, env, n, fuel), n)
    decreases fuel, 9
  {
    hide Careful, Safe, Grows, EnvMatches, Certified, ReturnCovered, ValuesAt, Step, Bindable, EvaluateBy, Followed;
    hide Around, RunList, Bind, BindEntries, RunDeclarators, Apply, BindParameters, Hoist, NewFrame, Fields;
    hide VarFrame, WellFormed;
    var e := p.nodes[n].expression;
    assert IsChild(p, n, e);
    ChildReady(p, m, env, n, e);
    RunSound(p, s, goal, host, m, env, e, fuel);
    var r := Run(p, host, m, env, e, fuel);
    Stays(p, s, goal, m);
    if !r.out.Normal? { PassedOn(p, s, goal, m, m, r, n, e); }
  }

  lemma {:induction false} ChainSound(p: File, s: State, goal: Goal, host: Host, m: Machine, env: seq<nat>,
                                      n: NodeId, fuel: nat)
    requires Careful(goal, host) && Certified(p, s, goal) && Safe(p, s, goal, m) && Ready(p, m, env, n) &&
      p.nodes[n].Chain?
    ensures RunSafe(p, s, goal, m, RunNode(p, host, m, env, n, fuel), n)
    decreases fuel, 9
  {
    hide Careful, Safe, Grows, EnvMatches, Certified, ReturnCovered, ValuesAt, Step, Bindable, EvaluateBy, Followed;
    hide Around, RunList, Bind, BindEntries, RunDeclarators, Apply, BindParameters, Hoist, NewFrame, Fields;
    hide VarFrame, WellFormed;
    var e := p.nodes[n].expression;
    assert IsChild(p, n, e);
    ChildReady(p, m, env, n, e);
    RunSound(p, s, goal, host, m, env, e, fuel);
    var r := Run(p, host, m, env, e, fuel);
    Stays(p, s, goal, m);
    Passed(p, s, goal, n, e);
    PassedOn(p, s, goal, m, m, r, n, e);
    MovedOn(p, s, goal, r.m);
    MovedThen(p, s, goal, m, r.m, Tick(r.m));
  }

  lemma {:induction false} ReturnSound(p: File, s: State, goal: Goal, host: Host, m: Machine, env: seq<nat>,
                                       n: NodeId, fuel: nat)
    requires Careful(goal, host) && Certified(p, s, goal) && Safe(p, s, goal, m) && Ready(p, m, env, n) &&
      p.nodes[n].Return?
    ensures RunSafe(p, s, goal, m, RunNode(p, host, m, env, n, fuel), n)
    decreases fuel, 9
  {
    hide Careful, Safe, Grows, EnvMatches, Certified, ValuesAt, Step, EvaluateBy, Followed, Around, Bindable, RunList;
    Stays(p, s, goal, m);
    if p.nodes[n].argument.Some? {
      var e := p.nodes[n].argument.value;
      assert IsChild(p, n, e);
      ChildReady(p, m, env, n, e);
      RunSound(p, s, goal, host, m, env, e, fuel);
      var r := Run(p, host, m, env, e, fuel);
      if !r.out.Normal? {
        PassedOn(p, s, goal, m, m, r, n, e);
      } else {
        ReturnedCovered(p, s, goal, n, e, r.m, r.out.value);
      }
    }
  }

  lemma ReturnedCovered(p: File, s: State, goal: Goal, n: NodeId, e: NodeId, m: Machine, v: Value)
    requires Certified(p, s, goal) && 0 < n < |p.nodes| && p.nodes[n].Return? && p.nodes[n].argument == Some(e)
    requires Covers(goal, m, v, ValuesAt(p, s, e))
    ensures ReturnCovered(s, goal, m, v, Around(p, n))
  {
    assert OwnerOf(p, n) == Around(p, n);
    if OwnerOf(p, n).Some? {
      var f := OwnerOf(p, n).value;
      ReturnEquation(p, s, goal, n, f, e);
      CoversGrows(goal, m, m, v, ValuesAt(p, s, e), ResultsOf(s, NodeValue(f)));
    }
  }

  lemma {:induction false} SequenceSound(p: File, s: State, goal: Goal, host: Host, m: Machine, env: seq<nat>,
                                         n: NodeId, fuel: nat)
    requires Careful(goal, host) && Certified(p, s, goal) && Safe(p, s, goal, m) && Ready(p, m, env, n) &&
      p.nodes[n].Sequence?
    ensures RunSafe(p, s, goal, m, RunNode(p, host, m, env, n, fuel), n)
    decreases fuel, 9
  {
    hide Careful, Safe, Grows, EnvMatches, Certified, ReturnCovered, ValuesAt, Step, Bindable, EvaluateBy, Followed;
    hide Around, RunList, Bind, BindEntries, RunDeclarators, Apply, BindParameters, Hoist, NewFrame, Fields;
    hide VarFrame, WellFormed;
    var ns := p.nodes[n].expressions;
    forall k | k in ns ensures IsChild(p, n, k) {}
    ListReady(p, m, env, n, ns);
    ListSound(p, s, goal, host, m, env, ns, Around(p, n), fuel);
    var r := RunList(p, host, m, env, ns, fuel);
    if r.out.Normal? && |ns| > 0 {
      var last := ns[|ns| - 1];
      Passed(p, s, goal, n, last);
      CoversGrows(goal, r.m, r.m, r.values[|ns| - 1], ValuesAt(p, s, last), ValuesAt(p, s, n));
    }
  }

  lemma {:induction false} OperatorSound(p: File, s: State, goal: Goal, host: Host, m: Machine, env: seq<nat>,
                                         n: NodeId, fuel: nat)
    requires Careful(goal, host) && Certified(p, s, goal) && Safe(p, s, goal, m) && Ready(p, m, env, n)
    requires p.nodes[n].Operator? || p.nodes[n].Export?
    ensures RunSafe(p, s, goal, m, RunNode(p, host, m, env, n, fuel), n)
    decreases fuel, 9
  {
    hide Careful, Safe, Grows, EnvMatches, Certified, ReturnCovered, ValuesAt, Step, Bindable, EvaluateBy, Followed;
    hide Around, RunList, Bind, BindEntries, RunDeclarators, Apply, BindParameters, Hoist, NewFrame, Fields;
    hide VarFrame, WellFormed;
    var ns := p.nodes[n].parts;
    forall k | k in ns ensures IsChild(p, n, k) {}
    ListReady(p, m, env, n, ns);
    ListSound(p, s, goal, host, m, env, ns, Around(p, n), fuel);
  }

  lemma {:induction false} MemberSound(p: File, s: State, goal: Goal, host: Host, m: Machine, env: seq<nat>,
                                       n: NodeId, fuel: nat)
    requires Careful(goal, host) && Certified(p, s, goal) && Safe(p, s, goal, m) && Ready(p, m, env, n) &&
      p.nodes[n].Member?
    ensures RunSafe(p, s, goal, m, RunNode(p, host, m, env, n, fuel), n)
    decreases fuel, 9
  {
    hide Careful, Safe, Grows, EnvMatches, Certified, ReturnCovered, ValuesAt, Step, Bindable, EvaluateBy, Followed;
    hide Around, RunList, Bind, BindEntries, RunDeclarators, Apply, BindParameters, Hoist, NewFrame, Fields;
    hide VarFrame, WellFormed;
    MemberEquation(p, s, goal, n);
    var node := p.nodes[n];
    assert IsChild(p, n, node.receiver);
    ChildReady(p, m, env, n, node.receiver);
    RunSound(p, s, goal, host, m, env, node.receiver, fuel);
    var r := Run(p, host, m, env, node.receiver, fuel);
    if !r.out.Normal? {
      Stays(p, s, goal, m);
      PassedOn(p, s, goal, m, m, r, n, node.receiver);
    } else {
      CertifiedHoldsNone(p, s, goal);
      MemberRead(p, s, goal, host, r.m, r.out.value, KeyAt(p, node.property), ValuesAt(p, s, node.receiver));
    }
  }

  // ---- Writes ------------------------------------------------------------------------------------------

  lemma {:induction false} AssignmentSound(p: File, s: State, goal: Goal, host: Host, m: Machine, env: seq<nat>,
                                           n: NodeId, fuel: nat)
    requires Careful(goal, host) && Certified(p, s, goal) && Safe(p, s, goal, m) && Ready(p, m, env, n) &&
      p.nodes[n].Assignment?
    ensures RunSafe(p, s, goal, m, RunNode(p, host, m, env, n, fuel), n)
    decreases fuel, 9
  {
    hide Careful, Safe, Grows, EnvMatches, Certified, ReturnCovered, ValuesAt, Step, Bindable, EvaluateBy, Followed;
    hide Around, RunList, Bind, BindEntries, RunDeclarators, Apply, BindParameters, Hoist, NewFrame, Fields;
    hide VarFrame, WellFormed;
    Passed(p, s, goal, n, p.nodes[n].right);
    NodeFollowed(p, s, goal, n);
    AssignmentShape(p, n);
    var left, right := p.nodes[n].left, p.nodes[n].right;
    assert IsChild(p, n, left) && IsChild(p, n, right);
    ChildReady(p, m, env, n, left);
    ChildReady(p, m, env, n, right);
    if p.nodes[left].Identifier? {
      RunSound(p, s, goal, host, m, env, right, fuel);
      var r := Run(p, host, m, env, right, fuel);
      if !r.out.Normal? {
        Stays(p, s, goal, m);
        PassedOn(p, s, goal, m, m, r, n, right);
      } else {
        ReadyGrows(p, m, r.m, env, n);
        NameWriteSound(p, s, goal, r.m, env, n, r.out.value);
        var next := WriteName(r.m, env, p.nodes[left].name, r.out.value);
        MovedThen(p, s, goal, m, r.m, next);
        CoversGrows(goal, r.m, next, r.out.value, ValuesAt(p, s, right), ValuesAt(p, s, n));
      }
    } else {
      MemberWriteSound(p, s, goal, host, m, env, n, fuel);
    }
  }

  lemma AssignmentShape(p: File, n: NodeId)
    requires n < |p.nodes| && p.nodes[n].Assignment? && Followed(p, p.nodes[n])
    ensures var left := p.nodes[n].left; left < |p.nodes| && (p.nodes[left].Identifier? || p.nodes[left].Member?)
  {
  }

  lemma NameWriteSound(p: File, s: State, goal: Goal, m: Machine, env: seq<nat>, n: NodeId, v: Value)
    requires Certified(p, s, goal) && Safe(p, s, goal, m) && Ready(p, m, env, n)
    requires p.nodes[n].Assignment? && p.nodes[n].left < |p.nodes| && p.nodes[p.nodes[n].left].Identifier?
    requires Covers(goal, m, v, ValuesAt(p, s, p.nodes[n].right))
    ensures Moved(p, s, goal, m, WriteName(m, env, p.nodes[p.nodes[n].left].name, v))
  {
    var left, right := p.nodes[n].left, p.nodes[n].right;
    NameTarget(p, s, goal, n, left);
    NameSeen(p, s, goal, left);
    if AssignedBinding(p, n).Some? {
      AssignmentEquation(p, s, goal, n);
      CoversGrows(goal, m, m, v, ValuesAt(p, s, right), BindingValues(s, AssignedBinding(p, n).value));
    } else {
      AssignedStorable(p, s, goal, n, m, v);
    }
    NameAssigned(p, s, goal, m, env, n, ScopeOf(p, n), p.nodes[left].name, v);
  }

  /** What is not assigned to a variable is stored. */
  lemma AssignedStorable(p: File, s: State, goal: Goal, n: NodeId, m: Machine, v: Value)
    requires Certified(p, s, goal) && n < |p.nodes| && p.nodes[n].Assignment? && AssignedBinding(p, n) == None
    requires Covers(goal, m, v, ValuesAt(p, s, p.nodes[n].right))
    ensures Storable(goal, v)
  {
    hide InFragment, Closed, DeclarationsMet, Exports, Problems, WellFormed, Guarded;
  }

  lemma {:induction false} MemberWriteSound(p: File, s: State, goal: Goal, host: Host, m: Machine, env: seq<nat>,
                                            n: NodeId, fuel: nat)
    requires Careful(goal, host) && Certified(p, s, goal) && Safe(p, s, goal, m) && Ready(p, m, env, n) &&
      p.nodes[n].Assignment?
    requires p.nodes[n].left < |p.nodes| && p.nodes[p.nodes[n].left].Member?
    ensures RunSafe(p, s, goal, m, RunAssignment(p, host, m, env, p.nodes[n].left, p.nodes[n].right, fuel), n)
    decreases fuel, 8
  {
    hide Careful, Safe, Grows, EnvMatches, Certified, ReturnCovered, ValuesAt, Step, Bindable, EvaluateBy, Followed;
    hide Around, RunList, Bind, BindEntries, RunDeclarators, Apply, BindParameters, Hoist, NewFrame, Fields;
    hide VarFrame, WellFormed;
    Passed(p, s, goal, n, p.nodes[n].right);
    var left, right := p.nodes[n].left, p.nodes[n].right;
    var node := p.nodes[left];
    assert IsChild(p, n, left) && IsChild(p, n, right) && IsChild(p, left, node.receiver);
    ChildReady(p, m, env, n, left);
    ChildReady(p, m, env, n, right);
    ChildReady(p, m, env, left, node.receiver);
    RunSound(p, s, goal, host, m, env, node.receiver, fuel);
    var r := Run(p, host, m, env, node.receiver, fuel);
    if !r.out.Normal? {
      Stays(p, s, goal, m);
      PassedOn(p, s, goal, m, m, r, n, node.receiver);
    } else {
      ReadyGrows(p, m, r.m, env, right);
      RunSound(p, s, goal, host, r.m, env, right, fuel);
      var w := Run(p, host, r.m, env, right, fuel);
      MovedThen(p, s, goal, m, r.m, w.m);
      if !w.out.Normal? {
        PassedOn(p, s, goal, m, r.m, w, n, right);
      } else {
        CoversGrows(goal, r.m, w.m, r.out.value, ValuesAt(p, s, node.receiver), ValuesAt(p, s, node.receiver));
        MemberTarget(p, s, goal, n, left, w.m, r.out.value);
        var next := WriteMember(w.m, r.out.value, KeyAt(p, node.property), w.out.value);
        assert AssignedBinding(p, n) == None;
        AssignedStorable(p, s, goal, n, w.m, w.out.value);
        MemberStored(p, s, goal, w.m, r.out.value, KeyAt(p, node.property), w.out.value);
        MovedThen(p, s, goal, m, w.m, next);
        CoversGrows(goal, w.m, next, w.out.value, ValuesAt(p, s, right), ValuesAt(p, s, n));
      }
    }
  }

  lemma {:induction false} UpdateSound(p: File, s: State, goal: Goal, host: Host, m: Machine, env: seq<nat>,
                                       n: NodeId, fuel: nat)
    requires Careful(goal, host) && Certified(p, s, goal) && Safe(p, s, goal, m) && Ready(p, m, env, n) &&
      p.nodes[n].Update?
    ensures RunSafe(p, s, goal, m, RunNode(p, host, m, env, n, fuel), n)
    decreases fuel, 9
  {
    hide Careful, Safe, Grows, EnvMatches, Certified, ReturnCovered, ValuesAt, Step, Bindable, EvaluateBy, Followed;
    hide Around, RunList, Bind, BindEntries, RunDeclarators, Apply, BindParameters, Hoist, NewFrame, Fields;
    hide VarFrame, WellFormed;
    var t := p.nodes[n].target;
    assert IsChild(p, n, t);
    ChildReady(p, m, env, n, t);
    Stays(p, s, goal, m);
    var node := p.nodes[t];
    if node.Identifier? {
      NameTarget(p, s, goal, n, t);
      NameSeen(p, s, goal, t);
      NameUpdated(p, s, goal, m, env, ScopeOf(p, n), node.name);
    } else if node.Member? {
      assert IsChild(p, t, node.receiver);
      ChildReady(p, m, env, t, node.receiver);
      RunSound(p, s, goal, host, m, env, node.receiver, fuel);
      var r := Run(p, host, m, env, node.receiver, fuel);
      if !r.out.Normal? {
        PassedOn(p, s, goal, m, m, r, n, node.receiver);
      } else {
        MemberTarget(p, s, goal, n, t, r.m, r.out.value);
        MemberStored(p, s, goal, r.m, r.out.value, KeyAt(p, node.property), Prim);
        MovedThen(p, s, goal, m, r.m, WriteMember(r.m, r.out.value, KeyAt(p, node.property), Prim));
      }
    }
  }

  // ---- Bindings ----------------------------------------------------------------------------------------

  /** The outcome of matching a pattern is no value. */
  ghost predicate BindSafe(p: File, s: State, goal: Goal, m: Machine, r: Result, owner: Option<NodeId>) {
    && Moved(p, s, goal, m, r.m)
    && (r.out.Normal? ==> r.out.value == Prim)
    && (r.out.Returned? ==> ReturnCovered(s, goal, r.m, r.out.value, owner))
  }

  /** What binding value `v` to pattern `b` in frame `frame` needs. */
  ghost predicate Bound?(p: File, s: State, goal: Goal, m: Machine, frame: nat, scope: NodeId, b: Bound, v: Value) {
    && frame < |m.frames| && Bindable(p, s, m.frames[frame].scope, scope, b)
    && (Harmless(goal, v) || (b.init.Some? && Covers(goal, m, v, BoundValues(p, s, b))))
  }

  /** A pattern bound to a whole value. */
  lemma BoundToWhole(p: File, s: State, b: Bound)
    requires b.init.Some? && b.path == []
    ensures BoundValues(p, s, b) == ValuesAt(p, s, b.init.value)
  {
  }

  lemma BoundGrows(p: File, s: State, goal: Goal, m: Machine, m': Machine, frame: nat, scope: NodeId, b: Bound,
                   v: Value)
    requires Bound?(p, s, goal, m, frame, scope, b, v) && Grows(m, m')
    ensures Bound?(p, s, goal, m', frame, scope, b, v)
  {
    if !Harmless(goal, v) { CoversGrows(goal, m, m', v, BoundValues(p, s, b), BoundValues(p, s, b)); }
  }

  lemma {:induction false} BindSound(p: File, s: State, goal: Goal, host: Host, m: Machine, env: seq<nat>,
                                     frame: nat, scope: NodeId, b: Bound, v: Value, fuel: nat)
    requires Careful(goal, host) && Certified(p, s, goal) && Safe(p, s, goal, m) && Ready(p, m, env, b.pattern)
    requires Bound?(p, s, goal, m, frame, scope, b, v)
    ensures BindSafe(p, s, goal, m, Bind(p, host, m, env, frame, b.pattern, v, fuel), Around(p, b.pattern))
    decreases fuel, 4
  {
    hide Careful, Safe, Grows, EnvMatches, Certified, ReturnCovered, Bindable, BindNode, Interrupted, Around;
    hide WellFormed;
    Stays(p, s, goal, m);
    if fuel > 0 {
      BindNodeSound(p, s, goal, host, m, env, frame, scope, b, v, fuel - 1);
      var r := BindNode(p, host, m, env, frame, b.pattern, v, fuel - 1);
      InterruptedSound(p, s, goal, host, m, r, b.pattern, fuel);
      var after := Interrupted(p, host, r, b.pattern, fuel);
      if after.out.Returned? { ReturnGrows(s, goal, r.m, after.m, r.out.value, Around(p, b.pattern)); }
    }
  }

  lemma {:induction false} BindNodeSound(p: File, s: State, goal: Goal, host: Host, m: Machine, env: seq<nat>,
                                         frame: nat, scope: NodeId, b: Bound, v: Value, fuel: nat)
    requires Careful(goal, host) && Certified(p, s, goal) && Safe(p, s, goal, m) && Ready(p, m, env, b.pattern)
    requires Bound?(p, s, goal, m, frame, scope, b, v)
    ensures BindSafe(p, s, goal, m, BindNode(p, host, m, env, frame, b.pattern, v, fuel), Around(p, b.pattern))
    decreases fuel, 10
  {
    hide Careful, Safe, Grows, EnvMatches, Certified, ValuesAt, Step, EvaluateBy, Followed, Around, ReturnCovered;
    hide Bindable, Run, BindEntries;
    Stays(p, s, goal, m);
    var node := p.nodes[b.pattern];
    if node.Identifier? {
      NameBindSound(p, s, goal, m, frame, scope, b, v);
    } else if node.AssignmentPattern? {
      DefaultSound(p, s, goal, host, m, env, frame, scope, b, v, fuel);
    } else if node.ObjectPattern? {
      assert node.entries[0..] == node.entries;
      EntriesSound(p, s, goal, host, m, env, frame, scope, b, 0, v, fuel);
    }
  }

  lemma NameBindSound(p: File, s: State, goal: Goal, m: Machine, frame: nat, scope: NodeId, b: Bound, v: Value)
    requires Certified(p, s, goal) && Safe(p, s, goal, m) && Bound?(p, s, goal, m, frame, scope, b, v)
    requires b.pattern < |p.nodes| && p.nodes[b.pattern].Identifier?
    ensures Moved(p, s, goal, m, SetVar(m, frame, p.nodes[b.pattern].name, v))
  {
    hide Certified, Grows, WellFormed, FrameNames, VariableBinding, DeclaredBinding, EvaluateBy;
    var x := Binding(scope, p.nodes[b.pattern].name);
    assert x in PatternNames(p, scope, b);
    if Harmless(goal, v) {
      HarmlessHoldable(p, s, goal, m, v, x);
    } else {
      var f := Flow(x, b.init.value, b.path);
      assert f in PatternFlows(p, scope, b);
      assert FlowMet(p, s, EvaluateBy(p, s), f);
      FlowValuesAre(p, s, b, f);
      CoversGrows(goal, m, m, v, BoundValues(p, s, b), BindingValues(s, x));
    }
    assert FrameSafe(p, s, goal, m, m.frames[frame]);
    VarSet(p, s, goal, m, frame, x.name, v);
  }

  lemma FlowValuesAre(p: File, s: State, b: Bound, f: Flow)
    requires b.init.Some? && f.init == b.init.value && f.path == b.path
    ensures FlowValues(p, s, EvaluateBy(p, s), f) == BoundValues(p, s, b)
  {
  }

  lemma {:induction false} DefaultSound(p: File, s: State, goal: Goal, host: Host, m: Machine, env: seq<nat>,
                                        frame: nat, scope: NodeId, b: Bound, v: Value, fuel: nat)
    requires Careful(goal, host) && Certified(p, s, goal) && Safe(p, s, goal, m) && Ready(p, m, env, b.pattern)
    requires Bound?(p, s, goal, m, frame, scope, b, v) && p.nodes[b.pattern].AssignmentPattern?
    ensures BindSafe(p, s, goal, m, BindNode(p, host, m, env, frame, b.pattern, v, fuel), Around(p, b.pattern))
    decreases fuel, 9
  {
    hide Careful, Safe, Grows, EnvMatches, Certified, ValuesAt, Step, EvaluateBy, Followed, Around, ReturnCovered;
    hide Bindable, Run, Bind, BindEntries, WellFormed;
    Stays(p, s, goal, m);
    var left, right := p.nodes[b.pattern].left, p.nodes[b.pattern].right;
    assert IsChild(p, b.pattern, left) && IsChild(p, b.pattern, right);
    ChildReady(p, m, env, b.pattern, left);
    ChildReady(p, m, env, b.pattern, right);
    SubPatternBindable(p, s, m.frames[frame].scope, scope, b, 0);
    SubPatternBindable(p, s, m.frames[frame].scope, scope, b, 1);
    var given, default := SubPatterns(p, b)[0], SubPatterns(p, b)[1];
    var next := Tick(m);
    MovedOn(p, s, goal, m);
    ReadyGrows(p, m, next, env, left);
    if host.choose(m.clock) {
      assert Bound?(p, s, goal, m, frame, scope, given, v);
      BoundGrows(p, s, goal, m, next, frame, scope, given, v);
      BindSound(p, s, goal, host, next, env, frame, scope, given, v, fuel);
      MovedThen(p, s, goal, m, next, Bind(p, host, next, env, frame, left, v, fuel).m);
    } else {
      ReadyGrows(p, m, next, env, right);
      RunSound(p, s, goal, host, next, env, right, fuel);
      var r := Run(p, host, next, env, right, fuel);
      MovedThen(p, s, goal, m, next, r.m);
      if r.out.Normal? {
        ReadyGrows(p, m, r.m, env, left);
        FrameKept(m, r.m, frame);
        BoundToWhole(p, s, default);
        assert Bound?(p, s, goal, r.m, frame, scope, default, r.out.value);
        BindSound(p, s, goal, host, r.m, env, frame, scope, default, r.out.value, fuel);
        MovedThen(p, s, goal, m, r.m, Bind(p, host, r.m, env, frame, left, r.out.value, fuel).m);
      }
    }
  }

  /** The subpattern of entry `i` of an object pattern. */
  lemma EntryBindable(p: File, s: State, goal: Goal, fscope: NodeId, scope: NodeId, b: Bound, i: nat)
    requires Certified(p, s, goal) && b.pattern < |p.nodes| && p.nodes[b.pattern].ObjectPattern?
    requires i < |p.nodes[b.pattern].entries| && Bindable(p, s, fscope, scope, b)
    ensures var e := p.nodes[b.pattern].entries[i];
            && e.Entry? && IsChild(p, b.pattern, e.value)
            && Bindable(p, s, fscope, scope, Bound(e.value, b.init, b.path + [KeyAt(p, e.key)]))
  {
    var entries := p.nodes[b.pattern].entries;
    assert Followed(p, p.nodes[b.pattern]);
    assert entries[i].value in EntryChildren(entries[i]);
    var f := e => EntryBounds(p, e, b.init, b.path);
    var sub := Bound(entries[i].value, b.init, b.path + [KeyAt(p, entries[i].key)]);
    assert sub in f(entries[i]) && sub in Flatten(entries, f);
    var j :| 0 <= j < |SubPatterns(p, b)| && SubPatterns(p, b)[j] == sub;
    SubPatternBindable(p, s, fscope, scope, b, j);
  }

  lemma CertifiedHoldsNone(p: File, s: State, goal: Goal)
    requires Certified(p, s, goal)
    ensures HoldsNoGlobal(p, s, goal)
  {
  }

  /** What is read for an entry is harmless, or among what the subpattern is bound to. */
  lemma EntryRead(p: File, s: State, goal: Goal, host: Host, m: Machine, b: Bound, v: Value, key: Key, sub: NodeId)
    requires Careful(goal, host) && Certified(p, s, goal) && Safe(p, s, goal, m)
    requires Harmless(goal, v) || (b.init.Some? && Covers(goal, m, v, BoundValues(p, s, b)))
    ensures var r := ReadMember(host, m, v, key);
            && r.m == m && !r.out.Returned?
            && (r.out.Normal? ==> (Harmless(goal, r.out.value) ||
                  (b.init.Some? && Covers(goal, m, r.out.value,
                                          BoundValues(p, s, Bound(sub, b.init, b.path + [key]))))))
  {
    hide Careful, Safe, Certified, ValuesAt, EvaluateBy, ReadMember, Covers, Harmless, MemberOf;
    CertifiedHoldsNone(p, s, goal);
    if Harmless(goal, v) {
      HarmlessRead(p, s, goal, host, m, v, key);
    } else {
      MemberRead(p, s, goal, host, m, v, key, BoundValues(p, s, b));
      AlongLongerPath(p, s, EvaluateBy(p, s), ValuesAt(p, s, b.init.value), b.path, key);
    }
  }

  lemma {:induction false} EntriesSound(p: File, s: State, goal: Goal, host: Host, m: Machine, env: seq<nat>,
                                        frame: nat, scope: NodeId, b: Bound, i: nat, v: Value, fuel: nat)
    requires Careful(goal, host) && Certified(p, s, goal) && Safe(p, s, goal, m) && Ready(p, m, env, b.pattern)
    requires p.nodes[b.pattern].ObjectPattern? && i <= |p.nodes[b.pattern].entries| &&
      Bound?(p, s, goal, m, frame, scope, b, v)
    ensures BindSafe(p, s, goal, m, BindEntries(p, host, m, env, frame, p.nodes[b.pattern].entries[i..], v, fuel),
                     Around(p, b.pattern))
    decreases fuel, 5, |p.nodes[b.pattern].entries| - i
  {
    hide Careful, Safe, Grows, EnvMatches, Certified, ValuesAt, Step, EvaluateBy, Followed, Around, ReturnCovered;
    hide Bindable, Run, Bind, WellFormed;
    Stays(p, s, goal, m);
    var entries := p.nodes[b.pattern].entries;
    if i < |entries| {
      var e := entries[i];
      EntryBindable(p, s, goal, m.frames[frame].scope, scope, b, i);
      var key := KeyAt(p, e.key);
      var sub := Bound(e.value, b.init, b.path + [key]);
      var r := ReadMember(host, m, v, key);
      EntryRead(p, s, goal, host, m, b, v, key, e.value);
      if r.out.Normal? {
        assert Bound?(p, s, goal, m, frame, scope, sub, r.out.value);
        ChildReady(p, m, env, b.pattern, e.value);
        BindSound(p, s, goal, host, m, env, frame, scope, sub, r.out.value, fuel);
        var w := Bind(p, host, m, env, frame, e.value, r.out.value, fuel);
        assert entries[i..][1..] == entries[i + 1..] && entries[i..][0] == e;
        if w.out.Normal? {
          ReadyGrows(p, m, w.m, env, b.pattern);
          BoundGrows(p, s, goal, m, w.m, frame, scope, b, v);
          EntriesSound(p, s, goal, host, w.m, env, frame, scope, b, i + 1, v, fuel);
          MovedThen(p, s, goal, m, w.m, BindEntries(p, host, w.m, env, frame, entries[i + 1..], v, fuel).m);
        }
      }
    }
  }

  lemma FrameKept(m: Machine, m': Machine, frame: nat)
    requires Grows(m, m') && frame < |m.frames|
    ensures frame < |m'.frames| && m'.frames[frame].scope == m.frames[frame].scope
  {
  }

  lemma {:induction false} DeclarationSound(p: File, s: State, goal: Goal, host: Host, m: Machine, env: seq<nat>,
                                            n: NodeId, fuel: nat)
    requires Careful(goal, host) && Certified(p, s, goal) && Safe(p, s, goal, m) && Ready(p, m, env, n)
    requires p.nodes[n].VariableDeclaration?
    ensures RunSafe(p, s, goal, m, RunNode(p, host, m, env, n, fuel), n)
    decreases fuel, 9
  {
    hide Careful, Safe, Grows, EnvMatches, Certified, ValuesAt, Step, EvaluateBy, Followed, Around, ReturnCovered;
    hide Bindable, RunDeclarators, Bind;
    var node := p.nodes[n];
    assert ScopeOf(p, n) == OuterScope(p, n);
    DeclarationScope(p, s, goal, n);
    VarFrameScope(p, m, env, OuterScope(p, n));
    HeadFrame(p, m, env, OuterScope(p, n));
    var frame := if node.isVar then VarFrame(p, m, env).value else env[0];
    assert node.declarators[0..] == node.declarators;
    DeclaratorsSound(p, s, goal, host, m, env, n, frame, 0, fuel);
  }

  /** A declaration is no child of a function's own scope. */
  lemma DeclarationScope(p: File, s: State, goal: Goal, n: NodeId)
    requires Certified(p, s, goal) && 0 < n < |p.nodes| && p.nodes[n].VariableDeclaration?
    ensures Shaped(p) && !p.nodes[OuterScope(p, n)].Function? && !p.nodes[ScopeOf(p, n)].Function?
  {
    assert Underneath(p, n) || !p.nodes[OuterScope(p, n)].Function?;
    assert ScopeOf(p, n) == OuterScope(p, n);
  }

  lemma {:induction false} DeclaratorsSound(p: File, s: State, goal: Goal, host: Host, m: Machine, env: seq<nat>,
                                            n: NodeId, frame: nat, i: nat, fuel: nat)
    requires Careful(goal, host) && Certified(p, s, goal) && Safe(p, s, goal, m) && Ready(p, m, env, n)
    requires p.nodes[n].VariableDeclaration? && i <= |p.nodes[n].declarators|
    requires frame < |m.frames| && FrameFor(p, m.frames[frame].scope, NodePatterns(p, n).0)
    ensures BindSafe(p, s, goal, m, RunDeclarators(p, host, m, env, frame, p.nodes[n].declarators[i..], fuel),
                     Around(p, n))
    decreases fuel, 5, |p.nodes[n].declarators| - i, 0
  {
    hide Careful, Safe, Grows, EnvMatches, Certified, ValuesAt, Step, EvaluateBy, Followed, Around, ReturnCovered;
    hide Bindable, Run, Bind;
    Stays(p, s, goal, m);
    var ds := p.nodes[n].declarators;
    if i < |ds| {
      assert ds[i..][1..] == ds[i + 1..] && ds[i..][0] == ds[i];
      if ds[i].init == None {
        DeclaratorsSound(p, s, goal, host, m, env, n, frame, i + 1, fuel);
      } else {
        DeclaratorSound(p, s, goal, host, m, env, n, frame, i, fuel);
      }
    }
  }

  lemma {:induction false} DeclaratorSound(p: File, s: State, goal: Goal, host: Host, m: Machine, env: seq<nat>,
                                           n: NodeId, frame: nat, i: nat, fuel: nat)
    requires Careful(goal, host) && Certified(p, s, goal) && Safe(p, s, goal, m) && Ready(p, m, env, n)
    requires p.nodes[n].VariableDeclaration? && i < |p.nodes[n].declarators| && p.nodes[n].declarators[i].init.Some?
    requires frame < |m.frames| && FrameFor(p, m.frames[frame].scope, NodePatterns(p, n).0)
    ensures BindSafe(p, s, goal, m, RunDeclarators(p, host, m, env, frame, p.nodes[n].declarators[i..], fuel),
                     Around(p, n))
    decreases fuel, 5, |p.nodes[n].declarators| - i - 1, 1
  {
    hide Careful, Safe, Grows, EnvMatches, Certified, ValuesAt, Step, EvaluateBy, Followed, Around, ReturnCovered;
    hide Bindable, Run, Bind, WellFormed;
    var ds := p.nodes[n].declarators;
    assert ds[i..][1..] == ds[i + 1..] && ds[i..][0] == ds[i];
    DeclaratorIsChild(p, n, i);
    var init := ds[i].init.value;
    ChildReady(p, m, env, n, init);
    ChildReady(p, m, env, n, ds[i].id);
    RunSound(p, s, goal, host, m, env, init, fuel);
    var r := Run(p, host, m, env, init, fuel);
    if r.out.Normal? {
      var (scope, bounds) := NodePatterns(p, n);
      var b := bounds[i];
      DeclarationScope(p, s, goal, n);
      NodeBindable(p, s, goal, n, i, m.frames[frame].scope);
      BoundToWhole(p, s, b);
      FrameKept(m, r.m, frame);
      assert Bound?(p, s, goal, r.m, frame, scope, b, r.out.value);
      ReadyGrows(p, m, r.m, env, ds[i].id);
      BindSound(p, s, goal, host, r.m, env, frame, scope, b, r.out.value, fuel);
      var w := Bind(p, host, r.m, env, frame, ds[i].id, r.out.value, fuel);
      MovedThen(p, s, goal, m, r.m, w.m);
      if w.out.Normal? {
        ReadyGrows(p, m, w.m, env, n);
        FrameKept(m, w.m, frame);
        DeclaratorsSound(p, s, goal, host, w.m, env, n, frame, i + 1, fuel);
        MovedThen(p, s, goal, m, w.m, RunDeclarators(p, host, w.m, env, frame, ds[i + 1..], fuel).m);
      }
    }
  }

  lemma DeclaratorIsChild(p: File, n: NodeId, i: nat)
    requires n < |p.nodes| && p.nodes[n].VariableDeclaration? && i < |p.nodes[n].declarators|
    ensures IsChild(p, n, p.nodes[n].declarators[i].id)
    ensures p.nodes[n].declarators[i].init.Some? ==> IsChild(p, n, p.nodes[n].declarators[i].init.value)
  {
    var d := p.nodes[n].declarators[i];
    assert d.id in DeclaratorChildren(d);
    assert d.init.Some? ==> d.init.value in DeclaratorChildren(d);
  }

  lemma ChildOfFunction(p: File, f: NodeId, k: NodeId)
    requires f < |p.nodes| && p.nodes[f].Function? && IsChild(p, f, k)
    ensures 0 < k < |p.nodes| && OuterScope(p, k) == f && Around(p, k) == Some(f)
  {
    ChildIsLater(p, f, k);
  }

  // ---- Calls -------------------------------------------------------------------------------------------

  /** The arguments are harmless or among what the patterns are bound to. */
  ghost predicate Given(p: File, s: State, goal: Goal, m: Machine, bounds: seq<Bound>, i: nat, args: seq<Value>) {
    forall j :: 0 <= j < |args| && i + j < |bounds| && !Harmless(goal, args[j]) ==>
      bounds[i + j].init.Some? && Covers(goal, m, args[j], BoundValues(p, s, bounds[i + j]))
  }

  lemma GivenGrows(p: File, s: State, goal: Goal, m: Machine, m': Machine, bounds: seq<Bound>, i: nat, args: seq<Value>)
    requires Given(p, s, goal, m, bounds, i, args) && Grows(m, m')
    ensures Given(p, s, goal, m', bounds, i, args)
    ensures args != [] ==> Given(p, s, goal, m', bounds, i + 1, args[1..])
  {
    hide Covers, Grows, BoundValues;
    forall j | 0 <= j < |args| && i + j < |bounds| && !Harmless(goal, args[j])
      ensures bounds[i + j].init.Some? && Covers(goal, m', args[j], BoundValues(p, s, bounds[i + j]))
    {
      CoversGrows(goal, m, m', args[j], BoundValues(p, s, bounds[i + j]), BoundValues(p, s, bounds[i + j]));
    }
    if args != [] {
      forall j | 0 <= j < |args[1..]| && i + 1 + j < |bounds| && !Harmless(goal, args[1..][j])
        ensures bounds[i + 1 + j].init.Some? && Covers(goal, m', args[1..][j], BoundValues(p, s, bounds[i + 1 + j]))
      {
        assert args[1..][j] == args[j + 1] && i + 1 + j == i + (j + 1);
      }
    }
  }

  lemma {:induction false} ParametersSound(p: File, s: State, goal: Goal, host: Host, m: Machine, env: seq<nat>,
                                           frame: nat, f: NodeId, bounds: seq<Bound>, i: nat, args: seq<Value>,
                                             fuel: nat)
    requires Careful(goal, host) && Certified(p, s, goal) && Safe(p, s, goal, m) && f < |p.nodes| &&
      p.nodes[f].Function?
    requires Receives(p, s, f, bounds) && i <= |bounds| && Given(p, s, goal, m, bounds, i, args)
    requires EnvMatches(p, m, env, f) && frame < |m.frames| && m.frames[frame].scope == f
    ensures BindSafe(p, s, goal, m, BindParameters(p, host, m, env, frame, p.nodes[f].params[i..], args, fuel), Some(f))
    decreases fuel, 5, |bounds| - i
  {
    hide Careful, Safe, Grows, EnvMatches, Certified, ValuesAt, Step, EvaluateBy, Followed, Around, ReturnCovered;
    hide Bindable, Run, Bind, WellFormed, BoundValues;
    Stays(p, s, goal, m);
    var params := p.nodes[f].params;
    if i < |params| {
      assert params[i..][0] == params[i] && params[i..][1..] == params[i + 1..];
      var v := if args == [] then Prim else args[0];
      var b := bounds[i];
      assert IsChild(p, f, params[i]);
      ChildOfFunction(p, f, params[i]);
      assert args != [] ==> bounds[i + 0] == b && args[0] == v;
      assert Bound?(p, s, goal, m, frame, f, b, v);
      BindSound(p, s, goal, host, m, env, frame, f, b, v, fuel);
      var w := Bind(p, host, m, env, frame, params[i], v, fuel);
      if w.out.Normal? {
        EnvGrows(p, m, w.m, env, f);
        FrameKept(m, w.m, frame);
        GivenGrows(p, s, goal, m, w.m, bounds, i, args);
        var rest := if args == [] then [] else args[1..];
        assert Given(p, s, goal, w.m, bounds, i + 1, rest);
        ParametersSound(p, s, goal, host, w.m, env, frame, f, bounds, i + 1, rest, fuel);
        MovedThen(p, s, goal, m, w.m, BindParameters(p, host, w.m, env, frame, params[i + 1..], rest, fuel).m);
      }
    }
  }

  /** `env` is the chain of frames in the called function. */
  ghost predicate Inside(p: File, m: Machine, env: seq<nat>, f: NodeId) {
    0 < f < |p.nodes| && p.nodes[f].Function? && EnvMatches(p, m, env, f)
  }

  lemma FunctionEntered(p: File, s: State, goal: Goal, m: Machine, callee: Value)
    requires Certified(p, s, goal) && Safe(p, s, goal, m) && IsFunction(p, m, callee)
    ensures Moved(p, s, goal, m, Entered(p, m, callee))
    ensures Inside(p, Entered(p, m, callee), [|m.frames|] + m.heap[callee.address].env, m.heap[callee.address].origin)
  {
    hide WellFormed, EnvMatches, Plain, FrameNames, FrameSafe, ValuesAt, Followed, Declared, ParamNames, Initial;
    hide Certified, Holdable;
    var cell := m.heap[callee.address];
    var o := cell.origin;
    assert CellSafe(p, s, goal, m, cell);
    var next := Tick(m);
    MovedOn(p, s, goal, m);
    EnvGrows(p, m, next, cell.env, OuterScope(p, o));
    ScopeEntered(p, s, goal, next, cell.env, o);
    var made, m' := NewFrame(p, next, cell.env, o), Entered(p, m, callee);
    MovedThen(p, s, goal, m, next, made);
    if m' != made {
      OwnNameSafe(p, s, goal, o, made, callee);
      VarSet(p, s, goal, made, |m.frames|, p.nodes[o].fnName.value, callee);
      MovedThen(p, s, goal, m, made, m');
      EnvGrows(p, made, m', [|m.frames|] + cell.env, o);
    }
  }

  /** The own name of a function expression stands for the function. */
  lemma OwnNameSafe(p: File, s: State, goal: Goal, f: NodeId, m: Machine, v: Value)
    requires Certified(p, s, goal) && f < |p.nodes| && p.nodes[f].Function? && p.nodes[f].fnName.Some?
    requires Covers(goal, m, v, {NodeValue(f)})
    ensures Holdable(p, s, goal, m, v, VariableBinding(p, f, p.nodes[f].fnName.value))
  {
    var b := Binding(f, p.nodes[f].fnName.value);
    assert b in Declared(p, f);
    CoversGrows(goal, m, m, v, {NodeValue(f)}, BindingValues(s, b));
    forall d | 0 <= d < |p.nodes| ensures DeclaredBinding(p, d) != Some(b) {
      if DeclaredBinding(p, d).Some? { DeclaredOutside(p, d); }
    }
  }

  /** The outcome of a call: a value among the results of the function, or none. */
  ghost predicate CallSafe(p: File, s: State, goal: Goal, m: Machine, r: Result, f: NodeId) {
    && Moved(p, s, goal, m, r.m)
    && !r.out.Returned?
    && (r.out.Normal? ==> Covers(goal, r.m, r.out.value, ResultsOf(s, NodeValue(f))))
  }

  lemma {:induction false} InvokeSound(p: File, s: State, goal: Goal, host: Host, m: Machine,
                                       callee: Value, bounds: seq<Bound>, args: seq<Value>, fuel: nat)
    requires Careful(goal, host) && Certified(p, s, goal) && Safe(p, s, goal, m) && IsFunction(p, m, callee)
    requires Receives(p, s, m.heap[callee.address].origin, bounds) && Given(p, s, goal, m, bounds, 0, args)
    ensures CallSafe(p, s, goal, m, Invoke(p, host, m, callee, args, fuel), m.heap[callee.address].origin)
    decreases fuel, 6
  {
    hide Careful, Safe, Grows, EnvMatches, Certified, ValuesAt, Step, EvaluateBy, Followed, Around, Bindable, Run;
    hide BindParameters, WellFormed, Entered, BoundValues;
    var f := m.heap[callee.address].origin;
    var env := [|m.frames|] + m.heap[callee.address].env;
    FunctionEntered(p, s, goal, m, callee);
    var m1 := Entered(p, m, callee);
    HeadFrame(p, m1, env, f);
    GivenGrows(p, s, goal, m, m1, bounds, 0, args);
    assert p.nodes[f].params[0..] == p.nodes[f].params;
    ParametersSound(p, s, goal, host, m1, env, |m.frames|, f, bounds, 0, args, fuel);
    var w := BindParameters(p, host, m1, env, |m.frames|, p.nodes[f].params, args, fuel);
    MovedThen(p, s, goal, m, m1, w.m);
    if w.out.Normal? {
      EnvGrows(p, m1, w.m, env, f);
      BodySound(p, s, goal, host, w.m, env, f, fuel);
      MovedThen(p, s, goal, m, w.m, Run(p, host, w.m, env, p.nodes[f].fnBody, fuel).m);
    }
  }

  lemma {:induction false} BodySound(p: File, s: State, goal: Goal, host: Host, m: Machine, env: seq<nat>,
                                     f: NodeId, fuel: nat)
    requires Careful(goal, host) && Certified(p, s, goal) && Safe(p, s, goal, m) && f < |p.nodes| &&
      p.nodes[f].Function?
    requires EnvMatches(p, m, env, f)
    ensures var node := p.nodes[f];
            CallSafe(p, s, goal, m,
                     CallResult(Run(p, host, m, env, node.fnBody, fuel), node.fkind == Arrow && node.concise), f)
    decreases fuel, 5
  {
    hide Careful, Safe, Grows, EnvMatches, Certified, ValuesAt, Step, EvaluateBy, Followed, Around, Bindable;
    hide Run, WellFormed;
    var node := p.nodes[f];
    assert IsChild(p, f, node.fnBody);
    ChildOfFunction(p, f, node.fnBody);
    RunSound(p, s, goal, host, m, env, node.fnBody, fuel);
    var r := Run(p, host, m, env, node.fnBody, fuel);
    if r.out.Normal? && node.fkind == Arrow && node.concise {
      ReturnEquation(p, s, goal, f, f, node.fnBody);
      CoversGrows(goal, r.m, r.m, r.out.value, ValuesAt(p, s, node.fnBody), ResultsOf(s, NodeValue(f)));
    }
  }

  // ---- Host code ---------------------------------------------------------------------------------------

  /** One act of host code leaves everything covered. */
  lemma {:induction false} ActSound(p: File, s: State, goal: Goal, host: Host, m: Machine, a: Act, fuel: nat)
    requires Careful(goal, host) && Certified(p, s, goal) && Safe(p, s, goal, m) && HarmlessAct(goal, a)
    ensures Moved(p, s, goal, m, HostActs(p, host, m, [a], fuel))
    decreases fuel, 6, 0
  {
    hide Careful, Safe, Grows, Certified, Invoke, WellFormed, Receives, Store, SetVar;
    Stays(p, s, goal, m);
    assert [a][1..] == [];
    match a
    case Invocation(callee, args) =>
      if fuel > 0 && IsFunction(p, m, callee) {
        var f := m.heap[callee.address].origin;
        HostReceives(p, s, goal, f);
        assert forall j :: 0 <= j < |args| ==> args[j] in args;
        InvokeSound(p, s, goal, host, m, callee, NodePatterns(p, f).1, args, fuel - 1);
      }
    case Put(target, key, v) => Stored(p, s, goal, m, target, key, v);
    case Provide(name, v) =>
      if 0 < |m.frames| { HarmlessHoldable(p, s, goal, m, v, VariableBinding(p, m.frames[0].scope, name)); }
      VarSet(p, s, goal, m, 0, name, v);
  }

  /** Host code that hands nothing harmful to the module leaves everything covered, whatever functions it
      calls, whatever objects it changes, and however each call ends. */
  lemma {:induction false} ActsSound(p: File, s: State, goal: Goal, host: Host, m: Machine, acts: seq<Act>, fuel: nat)
    requires Careful(goal, host) && Certified(p, s, goal) && Safe(p, s, goal, m)
    requires forall a :: a in acts ==> HarmlessAct(goal, a)
    ensures Moved(p, s, goal, m, HostActs(p, host, m, acts, fuel))
    decreases fuel, 6, |acts|
  {
    hide Careful, Safe, Grows, Certified, HarmlessAct, WellFormed;
    Stays(p, s, goal, m);
    if acts != [] {
      var first, rest := acts[0], acts[1..];
      assert first in acts && forall a :: a in rest ==> a in acts;
      ActSound(p, s, goal, host, m, first, fuel);
      var next := HostActs(p, host, m, [first], fuel);
      ActsInTurn(p, host, m, acts, fuel);
      ActsSound(p, s, goal, host, next, rest, fuel);
      MovedThen(p, s, goal, m, next, HostActs(p, host, next, rest, fuel));
    }
  }

  lemma ActsInTurn(p: File, host: Host, m: Machine, acts: seq<Act>, fuel: nat)
    requires acts != []
    ensures HostActs(p, host, m, acts, fuel) ==
      HostActs(p, host, HostActs(p, host, m, [acts[0]], fuel), acts[1..], fuel)
  {
    hide Invoke, Store, SetVar, WellFormed;
    assert [acts[0]][1..] == [];
  }

  lemma {:induction false} ApplySound(p: File, s: State, goal: Goal, host: Host, m: Machine,
                                      call: NodeId, callee: Value, args: seq<Value>, fuel: nat)
    requires Careful(goal, host) && Certified(p, s, goal) && Safe(p, s, goal, m) && 0 < call < |p.nodes| &&
      p.nodes[call].Call?
    requires Covers(goal, m, callee, ValuesAt(p, s, p.nodes[call].callee))
    requires ValuesCovered(p, s, goal, m, args, p.nodes[call].arguments)
    ensures RunSafe(p, s, goal, m, Apply(p, host, m, callee, args, fuel), call)
    decreases fuel, 8
  {
    hide Safe, Grows, EnvMatches, Certified, ValuesAt, Step, EvaluateBy, Followed, Around, Bindable, Invoke;
    hide WellFormed, Receives;
    if IsFunction(p, m, callee) && !goal.everything {
      ConfinedCallSound(p, s, goal, host, m, call, callee, args, fuel);
    } else if IsFunction(p, m, callee) {
      var f := m.heap[callee.address].origin;
      CallReceives(p, s, goal, call, f);
      ArgumentsGiven(p, s, goal, m, call, f, args);
      InvokeSound(p, s, goal, host, m, callee, ParameterBounds(p, call, f), args, fuel);
      var r := Invoke(p, host, m, callee, args, fuel);
      if r.out.Normal? {
        CallEquation(p, s, goal, call, f);
        CoversGrows(goal, r.m, r.m, r.out.value, ResultsOf(s, NodeValue(f)), ValuesAt(p, s, call));
      }
    } else {
      MovedOn(p, s, goal, m);
    }
  }

  /** If the global is confined, any function may be called anywhere: it is neither passed nor returned. */
  lemma {:induction false} ConfinedCallSound(p: File, s: State, goal: Goal, host: Host, m: Machine, call: NodeId,
                                             callee: Value, args: seq<Value>, fuel: nat)
    requires Careful(goal, host) && Certified(p, s, goal) && Safe(p, s, goal, m) && 0 < call < |p.nodes| &&
      p.nodes[call].Call?
    requires ValuesCovered(p, s, goal, m, args, p.nodes[call].arguments) && IsFunction(p, m, callee) && !goal.everything
    ensures RunSafe(p, s, goal, m, Apply(p, host, m, callee, args, fuel), call)
    decreases fuel, 7
  {
    hide Careful, Safe, Grows, EnvMatches, Certified, ValuesAt, Around, Invoke, WellFormed, Receives;
    var f := m.heap[callee.address].origin;
    HostReceives(p, s, goal, f);
    GlobalIsNotPassed(p, s, goal, call, m, args);
    InvokeSound(p, s, goal, host, m, callee, NodePatterns(p, f).1, args, fuel);
    GlobalIsNoResult(p, s, goal, f);
  }

  lemma GlobalIsNotPassed(p: File, s: State, goal: Goal, call: NodeId, m: Machine, args: seq<Value>)
    requires Certified(p, s, goal) && call < |p.nodes| && p.nodes[call].Call? && !goal.everything
    requires ValuesCovered(p, s, goal, m, args, p.nodes[call].arguments)
    ensures forall j :: 0 <= j < |args| ==> Harmless(goal, args[j])
  {
    hide InFragment, Closed, DeclarationsMet, Exports, Problems, WellFormed, Guarded;
  }

  lemma GlobalIsNoResult(p: File, s: State, goal: Goal, f: NodeId)
    requires Certified(p, s, goal) && !goal.everything
    ensures Root !in ResultsOf(s, NodeValue(f))
  {
    hide InFragment, Closed, DeclarationsMet, Exports, Problems, WellFormed, Guarded;
  }

  lemma ArgumentsGiven(p: File, s: State, goal: Goal, m: Machine, call: NodeId, f: NodeId, args: seq<Value>)
    requires IsCall(p, (call, f)) && ValuesCovered(p, s, goal, m, args, p.nodes[call].arguments)
    ensures Given(p, s, goal, m, ParameterBounds(p, call, f), 0, args)
  {
    var bounds := ParameterBounds(p, call, f);
    forall j | 0 <= j < |args| && 0 + j < |bounds| && !Harmless(goal, args[j])
      ensures bounds[0 + j].init.Some? && Covers(goal, m, args[j], BoundValues(p, s, bounds[0 + j]))
    {
      BoundToWhole(p, s, bounds[j]);
    }
  }

  lemma {:induction false} CallSound(p: File, s: State, goal: Goal, host: Host, m: Machine, env: seq<nat>,
                                     n: NodeId, fuel: nat)
    requires Careful(goal, host) && Certified(p, s, goal) && Safe(p, s, goal, m) && Ready(p, m, env, n) &&
      p.nodes[n].Call?
    ensures RunSafe(p, s, goal, m, RunNode(p, host, m, env, n, fuel), n)
    decreases fuel, 9
  {
    hide Careful, Safe, Grows, EnvMatches, Certified, ReturnCovered, ValuesAt, Step, Bindable, EvaluateBy, Followed;
    hide Around, RunList, Bind, BindEntries, RunDeclarators, Apply, WellFormed;
    var ns := [p.nodes[n].callee] + p.nodes[n].arguments;
    forall k | k in ns ensures IsChild(p, n, k) {}
    ListReady(p, m, env, n, ns);
    ListSound(p, s, goal, host, m, env, ns, Around(p, n), fuel);
    var r := RunList(p, host, m, env, ns, fuel);
    if r.out.Normal? {
      var args := r.values[1..];
      forall i | 0 <= i < |args| ensures Covers(goal, r.m, args[i], ValuesAt(p, s, p.nodes[n].arguments[i])) {
        assert args[i] == r.values[i + 1] && ns[i + 1] == p.nodes[n].arguments[i];
      }
      assert Covers(goal, r.m, r.values[0], ValuesAt(p, s, ns[0]));
      ApplySound(p, s, goal, host, r.m, n, r.values[0], args, fuel);
      MovedThen(p, s, goal, m, r.m, Apply(p, host, r.m, r.values[0], args, fuel).m);
    }
  }

  // ---- The theorem -------------------------------------------------------------------------------------

  /** After the module has run, or stopped, everything is covered. */
  lemma ModuleSound(p: File, s: State, goal: Goal, host: Host, fuel: nat)
    requires Careful(goal, host) && Certified(p, s, goal)
    ensures Safe(p, s, goal, RunModule(p, host, fuel).m)
  {
    hide Certified, WellFormed, NewFrame, Hoist, RunList, HostActs, Grows, EnvMatches, HarmlessAct;
    RootIsProgram(p);
    var body := p.nodes[0].body;
    EmptySafe(p, s, goal);
    ScopeEntered(p, s, goal, EMPTY, [], 0);
    var m1 := NewFrame(p, EMPTY, [], 0);
    assert [|EMPTY.frames|] + [] == [0];
    forall k | k in body ensures IsChild(p, 0, k) {}
    HoistSafe(p, s, goal, m1, [0], 0, body);
    var m2 := Hoist(p, m1, [0], 0, body);
    EnvGrows(p, m1, m2, [0], 0);
    ActsSound(p, s, goal, host, m2, host.earlier, fuel);
    var m3 := HostActs(p, host, m2, host.earlier, fuel);
    EnvGrows(p, m2, m3, [0], 0);
    BodyReady(p, m3, [0], 0, body);
    ListSound(p, s, goal, host, m3, [0], body, Around(p, 0), fuel);
  }

  lemma EmptySafe(p: File, s: State, goal: Goal)
    ensures Safe(p, s, goal, EMPTY)
  {
  }

  /** Every name that the module writes on the browser global is exported, in its body and in anything the
      host calls before, during or after it, if the host hands the module nothing that the goal forbids. */
  lemma RunsAreCovered(p: File, s: State, goal: Goal, host: Host, fuel: nat)
    requires Careful(goal, host) && Certified(p, s, goal)
    ensures RunPage(p, host, fuel).written <= goal.names
  {
    hide Certified, RunModule, HostActs, HarmlessAct;
    ModuleSound(p, s, goal, host, fuel);
    ActsSound(p, s, goal, host, RunModule(p, host, fuel).m, host.later, fuel);
  }
}

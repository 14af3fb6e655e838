/** Files given by a table of a few nodes: what the analysis makes of them, and how they run. */
module SmallFiles {
  import opened Wrappers
  import opened Syntax
  import opened AbstractValues
  import opened GuardedEvaluation
  import opened FlowEquations
  import opened Fixpoint
  import opened Report
  import opened RunSemantics
  import opened Soundness
  import opened RendererSource

  // ---- Tables ---------------------------------------------------------------------------------

  /** A table of nodes with their parents, children and scopes. */
  datatype Shape = Shape(size: nat, node: nat -> Node, up: nat -> NodeId, kids: nat -> seq<NodeId>,
                         scope: nat -> NodeId)

  ghost predicate HasKids(t: Shape, n: nat) {
    Children(t.node(n)) == t.kids(n)
  }

  /** The children of node `n` stand behind it. */
  ghost predicate InFront(t: Shape, n: nat, k: NodeId) {
    k in t.kids(n) ==> n < k < t.size && t.up(k) == n
  }

  /** It is a child of its parent. */
  ghost predicate Attached(t: Shape, n: nat) {
    n > 0 ==> t.up(n) < n && n in t.kids(t.up(n))
  }

  /** Its scope is its own or that of its parent. */
  ghost predicate Scoped(t: Shape, n: nat) {
    t.scope(n) == if OpensScope(t.node(n)) then n else t.scope(t.up(n))
  }

  /** The few kinds of nodes that the files consist of. Every function is a declaration. */
  ghost predicate Simple(t: Shape, n: nat) {
    match t.node(n)
    case Program(_) => n == 0
    case Identifier(name) => |name| < 9
    case Literal(_, text) => |text| < 9
    case Block(kind, param, _) => kind == Statements && param == None
    case Function(kind, name, _, _, concise, suspends) => kind == FunctionKind.Declaration && name.Some? && !concise &&
      !suspends
    case Assignment(plain, left, _) => plain && (t.node(left).Identifier? || t.node(left).Member?)
    case Member(_, _, computed) => !computed
    case Object(qs) => forall q :: q in qs ==> q.kind == Init && !q.computed && t.node(q.value).Identifier?
    case VariableDeclaration(_, _) => true
    case ExpressionStatement(_) => true
    case Call(_, _) => true
    case AssignmentPattern(_, _) => true
    case _ => false
  }

  /** Statements stand in blocks, and blocks are statements or bodies. */
  ghost predicate Placed(t: Shape, n: nat) {
    var node, above := t.node(n), t.node(t.up(n));
    && (node.Function? || node.VariableDeclaration? ==> above.Program? || above.Block?)
    && (node.Block? ==> above.Program? || above.Block? || (above.Function? && above.fnBody == n))
  }

  ghost predicate Fits(t: Shape, n: nat) {
    HasKids(t, n) && (forall k: NodeId :: InFront(t, n, k)) && Attached(t, n) && Scoped(t, n) && Simple(t, n) &&
      Placed(t, n)
  }

  ghost predicate Fitting(t: Shape) {
    t.size > 0 && t.node(0).Program? && forall n: nat :: n < t.size ==> Fits(t, n)
  }

  ghost function Table(t: Shape): Source {
    Source(seq(t.size, n requires n >= 0 => t.node(n)), seq(t.size, n requires n >= 0 => t.up(n)), true)
  }

  lemma TableIsFile(t: Shape)
    requires Fitting(t)
    ensures WellFormed(Table(t))
  {
    hide Children, Placed;
    var p := Table(t);
    forall n: NodeId, k: NodeId | IsChild(p, n, k) ensures n < k < t.size && p.parent[k] == n {
      assert Fits(t, n) && InFront(t, n, k);
    }
    forall k: NodeId | 0 < k < t.size ensures p.parent[k] < k && IsChild(p, p.parent[k], k) {
      assert Fits(t, k) && Fits(t, t.up(k));
    }
    forall n: nat | n < t.size && p.nodes[n].Function?
      ensures p.nodes[n].fkind == FunctionKind.Declaration && p.nodes[n].fnName.Some?
    {
      assert Fits(t, n);
    }
  }

  ghost function FileOf(t: Shape): (p: File)
    requires Fitting(t)
    ensures |p.nodes| == t.size && p.isModule
    ensures forall n :: 0 <= n < t.size ==> p.nodes[n] == t.node(n) && p.parent[n] == t.up(n)
  {
    TableIsFile(t);
    Table(t)
  }

  lemma {:induction false} ScopesAre(t: Shape, n: NodeId)
    requires Fitting(t) && n < t.size
    ensures ScopeOf(FileOf(t), n) == t.scope(n)
    decreases n
  {
    hide FileOf, WellFormed, Children, Simple, Placed;
    assert Fits(t, n) && Fits(t, 0);
    if !OpensScope(t.node(n)) { ScopesAre(t, t.up(n)); }
  }

  lemma ChildrenOfOne(d: Declarator, q: Property)
    ensures Flatten([d], DeclaratorChildren) == DeclaratorChildren(d) &&
      Flatten([q], PropertyChildren) == PropertyChildren(q) && Flatten([], PropertyChildren) == []
  {
    assert [d][1..] == [] && [q][1..] == [];
  }

  // ---- The analysis ------------------------------------------------------------------------------

  /** In state `t` node `n` is seen to write nothing on the global and to store the global nowhere. */
  ghost predicate Quiet(p: File, t: State, n: NodeId)
    requires n < |p.nodes|
  {
    && NodeWrites(p, t, n) == {}
    && (p.nodes[n].Assignment? && p.nodes[n].left < |p.nodes| && p.nodes[p.nodes[n].left].Member? ==>
          Root !in ValuesAt(p, t, p.nodes[n].right))
  }

  lemma QuietWithoutWrite(p: File, t: State, n: NodeId)
    requires n < |p.nodes| && !p.nodes[n].Assignment? && !p.nodes[n].Update?
    ensures Quiet(p, t, n)
  {
    hide WellFormed, ValuesAt;
  }

  lemma QuietMemberWrite(p: File, t: State, n: NodeId)
    requires n < |p.nodes| && p.nodes[n].Assignment? && p.nodes[n].left < |p.nodes| && p.nodes[p.nodes[n].left].Member?
    requires Root !in ValuesAt(p, t, p.nodes[p.nodes[n].left].receiver) && Root !in ValuesAt(p, t, p.nodes[n].right)
    ensures Quiet(p, t, n)
  {
    hide WellFormed, ValuesAt;
  }

  lemma QuietNameWrite(p: File, t: State, n: NodeId)
    requires n < |p.nodes| && p.nodes[n].Assignment? && p.nodes[n].left < |p.nodes| &&
      p.nodes[p.nodes[n].left].Identifier?
    requires var left := p.nodes[n].left; Lookup(p, Names(p), ScopeOf(p, left), p.nodes[left].name).Some?
    ensures Quiet(p, t, n)
  {
    hide WellFormed, ValuesAt, Lookup, Names, ScopeOf;
  }

  lemma LiteralEvaluates(p: File, s: State, n: NodeId)
    requires n < |p.nodes| && p.nodes[n].Literal?
    ensures Root !in ValuesAt(p, s, n)
  {
    hide WellFormed;
  }

  lemma {:induction false} WritesMonotone(p: File, s: State, t: State, n: NodeId)
    requires NonComputed(p) && Below(s, t)
    ensures Writes(p, s, n) <= Writes(p, t, n)
    decreases |p.nodes| - n, 0
  {
    hide Guarded;
    if n < |p.nodes| {
      if p.nodes[n].Member? {
        GuardedMonotone(p, s, t, {}, p.nodes[n].receiver);
      } else if !p.nodes[n].Identifier? {
        AllWritesMonotone(p, s, t, SubTargets(p.nodes[n]), n);
      }
    }
  }

  lemma {:induction false} AllWritesMonotone(p: File, s: State, t: State, targets: seq<NodeId>, n: NodeId)
    requires NonComputed(p) && Below(s, t) && n < |p.nodes|
    ensures WritesToAll(p, s, targets, n) <= WritesToAll(p, t, targets, n)
    decreases |p.nodes| - n - 1, |targets| + 1
  {
    if targets != [] {
      if targets[0] > n { WritesMonotone(p, s, t, targets[0]); }
      AllWritesMonotone(p, s, t, targets[1..], n);
    }
  }

  /** If some closed state sees nothing to report, no final state does. */
  lemma NothingReported(p: File, s: State, t: State)
    requires p.isModule && NonComputed(p) && Final(p, s) && Closed(p, t)
    requires forall n: NodeId :: n < |p.nodes| ==> Quiet(p, t, n)
    ensures Exports(p, s) == {} && Problems(p, s) == {}
  {
    hide Closed, NonComputed, Known, Guarded, Below, Writes;
    assert Below(s, t);
    forall n: NodeId | n < |p.nodes| ensures NodeWrites(p, s, n) == {} && !StoresGlobal(p, s, n) {
      assert Quiet(p, t, n);
      if WrittenTarget(p.nodes[n]).Some? { WritesMonotone(p, s, t, WrittenTarget(p.nodes[n]).value); }
      if p.nodes[n].Assignment? { GuardedMonotone(p, s, t, {}, p.nodes[n].right); }
    }
  }

  lemma WholeFlowMet(p: File, s: State, f: Flow)
    requires f.path == [] && ValuesAt(p, s, f.init) <= BindingValues(s, f.target)
    ensures FlowMet(p, s, EvaluateBy(p, s), f)
  {
  }

  /** A call without arguments asks nothing of the called function that it does not ask of itself. */
  lemma NoArguments(p: File, s: State, call: NodeId, f: NodeId)
    requires call < |p.nodes| && p.nodes[call].Call? && p.nodes[call].arguments == []
    requires f < |p.nodes| && p.nodes[f].Function?
    ensures ParameterFlows(p, call, f) <= Flows(p)
  {
    hide PatternFlows, WellFormed;
    assert ParameterBounds(p, call, f) == NodePatterns(p, f).1;
    assert ParameterFlows(p, call, f) == NodeFlows(p, f);
  }

  /** The call passes nothing, or is of nothing known. */
  ghost predicate PassesNothing(p: File, s: State, n: NodeId)
    requires n < |p.nodes|
  {
    p.nodes[n].Call? ==> p.nodes[n].arguments == [] || forall f :: NodeValue(f) !in ValuesAt(p, s, p.nodes[n].callee)
  }

  lemma ArgumentlessClosed(p: File, s: State)
    requires DeclarationsMet(p, s) && Returns(p) == {}
    requires forall f :: f in Flows(p) ==> f.path == [] && ValuesAt(p, s, f.init) <= BindingValues(s, f.target)
    requires forall n: NodeId :: n < |p.nodes| ==> AssignmentMet(p, s, EvaluateBy(p, s), n) && PassesNothing(p, s, n)
    ensures Closed(p, s)
  {
    hide DeclarationsMet, FlowMet, AssignmentMet, Guarded, WellFormed, Flows, Returns, ParameterFlows;
    forall f | f in Flows(p) ensures FlowMet(p, s, EvaluateBy(p, s), f) { WholeFlowMet(p, s, f); }
    forall n: NodeId, f: NodeId | n < |p.nodes| && f < |p.nodes| ensures CallMet(p, s, EvaluateBy(p, s), n, f) {
      assert PassesNothing(p, s, n);
      if p.nodes[n].Call? && p.nodes[n].arguments == [] && p.nodes[f].Function? { NoArguments(p, s, n, f); }
    }
  }

  // ---- The fragment -------------------------------------------------------------------------------

  lemma ShortIsFollowed(text: string)
    requires |text| < 9
    ensures text !in UNFOLLOWED
  {
    assert forall u :: u in UNFOLLOWED ==> |u| >= 9;
  }

  lemma SimpleIsFollowed(t: Shape, n: NodeId)
    requires Fitting(t) && n < t.size
    ensures var p := FileOf(t); Followed(p, p.nodes[n]) && (n > 0 ==> !p.nodes[n].Program?)
  {
    hide FileOf, WellFormed, Placed;
    assert Fits(t, n);
    match t.node(n)
    case Identifier(name) => ShortIsFollowed(name);
    case Literal(_, text) => ShortIsFollowed(text);
    case Assignment(_, left, right) => assert left in Children(t.node(n)) && InFront(t, n, left);
    case Function(_, _, params, body, _, _) => assert body in Children(t.node(n)) && InFront(t, n, body);
    case Object(qs) => assert forall i :: 0 <= i < |qs| ==> qs[i] in qs;
    case _ =>
  }

  lemma PropertiesAreNames(t: Shape, n: NodeId)
    requires Fitting(t) && n < t.size
    ensures var node := FileOf(t).nodes[n];
      && !node.Array? && (node.Member? ==> !node.computed)
      && (node.Object? ==> forall i :: 0 <= i < |node.properties| ==>
            !node.properties[i].computed && Flat(FileOf(t), node.properties[i].value))
  {
    hide FileOf, WellFormed, Placed;
    assert Fits(t, n);
    if t.node(n).Object? {
      var qs := t.node(n).properties;
      forall i | 0 <= i < |qs| ensures !qs[i].computed && Flat(FileOf(t), qs[i].value) {
        assert qs[i] in qs && qs[i].value in PropertyChildren(qs[i]) && InFront(t, n, qs[i].value);
      }
    }
  }

  lemma NothingUnderFunctions(t: Shape, n: NodeId)
    requires Fitting(t) && 0 < n < t.size && t.node(OuterScope(FileOf(t), n)).Function?
    ensures Underneath(FileOf(t), n)
  {
    hide FileOf, WellFormed, Children, Simple;
    assert Fits(t, n);
    ScopesAre(t, t.up(n));
    assert Fits(t, t.up(n));
  }

  /** The files are in the fragment, as far as names do not matter. */
  lemma FittingIsFollowable(t: Shape)
    requires Fitting(t)
    ensures Followable(FileOf(t))
  {
    hide FileOf, WellFormed, Fitting, Followed, Underneath, Flat;
    var p := FileOf(t);
    forall n: NodeId | n < t.size
      ensures Followed(p, p.nodes[n]) && (n > 0 ==> !p.nodes[n].Program?)
    {
      SimpleIsFollowed(t, n);
    }
    forall n: NodeId | n < t.size
      ensures !p.nodes[n].Array? && (p.nodes[n].Member? ==> !p.nodes[n].computed)
      ensures p.nodes[n].Object? ==> forall i :: 0 <= i < |p.nodes[n].properties| ==>
        !p.nodes[n].properties[i].computed && Flat(p, p.nodes[n].properties[i].value)
    {
      PropertiesAreNames(t, n);
    }
    forall n: NodeId | 0 < n < t.size && p.nodes[OuterScope(p, n)].Function? ensures Underneath(p, n) {
      NothingUnderFunctions(t, n);
    }
  }

  /** If some closed state of such a file sees nothing to report, no final state does. */
  lemma NothingSeen(t: Shape, s: State, guess: State)
    requires Fitting(t) && Final(FileOf(t), s) && Closed(FileOf(t), guess)
    requires forall n: NodeId :: n < t.size ==> Quiet(FileOf(t), guess, n)
    ensures Exports(FileOf(t), s) == {} && Problems(FileOf(t), s) == {}
  {
    hide FileOf, WellFormed, Final, Quiet, Closed, Fitting;
    assert NonComputed(FileOf(t)) by { FittingIsFollowable(t); }
    NothingReported(FileOf(t), s, guess);
  }

  // ---- Names -----------------------------------------------------------------------------------------

  lemma FoundHere(p: File, scope: NodeId, name: string)
    requires scope < |p.nodes| && OpensScope(p.nodes[scope]) && Binding(scope, name) in Names(p)
    ensures Lookup(p, Names(p), scope, name) == Some(Binding(scope, name))
  {
    hide Names, WellFormed;
  }

  lemma FoundOutside(p: File, scope: NodeId, name: string)
    requires scope < |p.nodes| && OpensScope(p.nodes[scope]) && Binding(scope, name) !in Names(p)
    ensures Lookup(p, Names(p), scope, name) == if scope == 0 then None
      else Lookup(p, Names(p), OuterScope(p, scope), name)
  {
    hide Names, WellFormed, OuterScope;
  }

  /** Nodes that declare nothing, bind nothing and return nothing. */
  lemma DeclaresNothing(t: Shape, n: NodeId)
    requires Fitting(t) && n < t.size && !t.node(n).Function? && !t.node(n).VariableDeclaration?
    ensures var p := FileOf(t);
            PlainNames(p, n) == {} && SelfNames(p, n) == {} && NodeFlows(p, n) == {} && NodeReturns(p, n) == {}
  {
    hide FileOf, WellFormed, PatternNames, PatternFlows, Placed, Children;
    assert Fits(t, n);
    assert NodePatterns(FileOf(t), n).1 == [];
  }

  lemma NameEvaluates(p: File, s: State, n: NodeId, b: Option<Binding>)
    requires n < |p.nodes| && p.nodes[n].Identifier? && Lookup(p, Names(p), ScopeOf(p, n), p.nodes[n].name) == b
    ensures ValuesAt(p, s, n) == if b.Some? then BindingValues(s, b.value) else FreeValues(p.nodes[n].name)
  {
    hide Names, WellFormed, Lookup, ScopeOf, FreeValues;
  }

  lemma ObjectEvaluates(p: File, s: State, n: NodeId)
    requires n < |p.nodes| && p.nodes[n].Object?
    ensures ValuesAt(p, s, n) == {NodeValue(n)}
  {
    hide WellFormed;
  }

  /** Assignments to members, and calls of no known function, ask nothing. */
  lemma AsksNothing(p: File, s: State, n: NodeId)
    requires n < |p.nodes|
    requires p.nodes[n].Assignment? ==> p.nodes[n].left < |p.nodes| && p.nodes[p.nodes[n].left].Member?
    requires p.nodes[n].Call? ==> forall v :: v in ValuesAt(p, s, p.nodes[n].callee) ==> !v.NodeValue?
    ensures AssignedBinding(p, n) == None && AssignmentMet(p, s, EvaluateBy(p, s), n) && PassesNothing(p, s, n)
  {
    hide WellFormed, Guarded, Lookup, Names;
  }

  /** Members of functions and of empty objects are unknown. */
  lemma MemberEvaluates(p: File, s: State, n: NodeId)
    requires NonComputed(p) && FlatHeld(p) && n < |p.nodes| && p.nodes[n].Member?
    requires forall v :: v in ValuesAt(p, s, p.nodes[n].receiver) ==>
               v.NodeValue? && v.node < |p.nodes| && !p.nodes[v.node].Array? &&
               (p.nodes[v.node].Object? ==> p.nodes[v.node].properties == [])
    ensures ValuesAt(p, s, n) == {}
  {
    hide WellFormed, Guarded, NonComputed, FlatHeld;
    EvaluateEquation(p, s, n);
    var rec, receiver, property := EvaluateBy(p, s), p.nodes[n].receiver, p.nodes[n].property;
    assert rec(receiver) == ValuesAt(p, s, receiver);
    forall v | v in rec(receiver)
      ensures MemberOfOne(p, s, rec, v, KeyOf(p, rec, property, p.nodes[n].computed)) == {}
    {
    }
  }

  lemma FreeIsNoNode(name: string)
    ensures forall v :: v in FreeValues(name) ==> !v.NodeValue?
  {
  }

  /** Members of the global and of builtins are no functions of the file. */
  lemma MemberIsNoNode(p: File, s: State, n: NodeId)
    requires NonComputed(p) && FlatHeld(p) && n < |p.nodes| && p.nodes[n].Member?
    requires forall v :: v in ValuesAt(p, s, p.nodes[n].receiver) ==> !v.NodeValue?
    ensures forall v :: v in ValuesAt(p, s, n) ==> !v.NodeValue?
  {
    hide WellFormed, Guarded, NonComputed, FlatHeld;
    EvaluateEquation(p, s, n);
    var rec, receiver, property := EvaluateBy(p, s), p.nodes[n].receiver, p.nodes[n].property;
    assert rec(receiver) == ValuesAt(p, s, receiver);
    forall o, v | o in rec(receiver) && v in MemberOfOne(p, s, rec, o, KeyOf(p, rec, property, p.nodes[n].computed))
      ensures !v.NodeValue?
    {
      assert !o.NodeValue?;
    }
  }

  lemma WindowIsFree()
    ensures FreeValues("window") == {Root}
  {
    assert "window" in GLOBAL_NAMES;
  }

  /** A name that no function declares by `var` is found where it is looked up. */
  lemma {:induction false} NoVarIsSeen(p: File, scope: NodeId, x: string)
    requires scope < |p.nodes| && OpensScope(p.nodes[scope])
    requires forall f: NodeId :: f < |p.nodes| && p.nodes[f].Function? ==> x !in BodyVars(p, f)
    ensures SeesVariable(p, scope, x)
    decreases scope
  {
    hide FrameNames, BodyVars, WellFormed;
    if scope > 0 { NoVarIsSeen(p, OuterScope(p, scope), x); }
  }

  /** A name that a scope has as a variable is found from the blocks in it. */
  lemma VariableIsSeen(p: File, scope: NodeId, x: string)
    requires scope < |p.nodes| && OpensScope(p.nodes[scope])
    requires x in FrameNames(p, scope) || (p.nodes[scope].Block? && SeesVariable(p, OuterScope(p, scope), x))
    ensures SeesVariable(p, scope, x)
  {
    hide FrameNames, BodyVars, WellFormed;
  }

  // ---- Files without declarations -----------------------------------------------------------------

  ghost predicate Nameless(t: Shape) {
    Fitting(t) && forall n: nat :: n < t.size ==> !t.node(n).Function? && !t.node(n).VariableDeclaration?
  }

  /** Nothing is known of such a file, and nothing needs to be. */
  ghost function Nothing(): State {
    AbstractValues.State(map[], map[])
  }

  lemma NamelessNames(t: Shape)
    requires Nameless(t)
    ensures var p := FileOf(t); Plain(p) == {} && Names(p) == {} && Flows(p) == {} && Returns(p) == {}
  {
    hide FileOf, WellFormed, PlainNames, SelfNames, NodeFlows, NodeReturns, Fitting;
    var p := FileOf(t);
    forall n: NodeId | n < t.size
      ensures PlainNames(p, n) == {} && SelfNames(p, n) == {} && NodeFlows(p, n) == {} && NodeReturns(p, n) == {}
    {
      DeclaresNothing(t, n);
    }
  }

  lemma {:induction false} NothingLookedUp(p: File, scope: NodeId, x: string)
    requires Names(p) == {} && scope < |p.nodes| && OpensScope(p.nodes[scope])
    ensures Lookup(p, Names(p), scope, x) == None
    decreases scope
  {
    hide WellFormed, Names, OuterScope;
    if scope > 0 { NothingLookedUp(p, OuterScope(p, scope), x); }
  }

  /** Every name is free. */
  lemma FreeName(t: Shape, s: State, n: NodeId)
    requires Nameless(t) && n < t.size && t.node(n).Identifier?
    ensures ValuesAt(FileOf(t), s, n) == FreeValues(t.node(n).name)
  {
    hide FileOf, WellFormed, Names, ScopeOf, Lookup, ValuesAt, FreeValues, Fitting;
    var p := FileOf(t);
    NamelessNames(t);
    NothingLookedUp(p, ScopeOf(p, n), t.node(n).name);
    NameEvaluates(p, s, n, None);
  }

  lemma NamelessInFragment(t: Shape)
    requires Nameless(t)
    ensures InFragment(FileOf(t))
  {
    hide FileOf, WellFormed, Names, ScopeOf, Followable, SeesVariable, Plain, BodyVars, Fitting;
    var p := FileOf(t);
    FittingIsFollowable(t);
    NamelessNames(t);
    forall n: NodeId | n < t.size && p.nodes[n].Identifier? ensures SeesVariable(p, ScopeOf(p, n), p.nodes[n].name) {
      NoVarIsSeen(p, ScopeOf(p, n), p.nodes[n].name);
    }
  }

  lemma NothingIsClosed(t: Shape)
    requires Nameless(t)
    requires forall n: NodeId :: n < t.size && t.node(n).Call? ==>
               forall v :: v in ValuesAt(FileOf(t), Nothing(), t.node(n).callee) ==> !v.NodeValue?
    ensures Closed(FileOf(t), Nothing())
  {
    hide FileOf, WellFormed, Names, ScopeOf, Lookup, ValuesAt, Fitting, Flows, Returns, Guarded;
    var p, s := FileOf(t), Nothing();
    NamelessNames(t);
    forall n: NodeId | n < t.size ensures AssignmentMet(p, s, EvaluateBy(p, s), n) && PassesNothing(p, s, n) {
      if p.nodes[n].Assignment? && p.nodes[n].left < |p.nodes| && p.nodes[p.nodes[n].left].Identifier? {
        NothingLookedUp(p, ScopeOf(p, n), p.nodes[p.nodes[n].left].name);
      }
    }
    ArgumentlessClosed(p, s);
  }
}

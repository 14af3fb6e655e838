/**
 Why soundness asks that the parameters of a function do not name a `var` of its body. In

     function g(h = window) { var window; h.leak = 1; }
     g();

 the default value is the browser global: a parameter does not see what the body declares.
 The analysis declares the `var` in the one scope of the function, where the default value
 looks `window` up and finds a variable without values.
 */
module HiddenVariable {
  import opened Wrappers
  import opened Syntax
  import opened AbstractValues
  import opened GuardedEvaluation
  import opened FlowEquations
  import opened Fixpoint
  import opened Report
  import opened RunSemantics
  import opened Soundness
  import opened RendererSource
  import opened SmallFiles
  import opened SmallRuns

  const SIZE: nat := 17

  function NodeAt(n: nat): Node {
    match n
    case 0 => Program([1, 14])
    case 1 => Function(FunctionKind.Declaration, Some("g"), [2], 5, false, false)
    case 2 => AssignmentPattern(3, 4)
    case 3 => Identifier("h")
    case 4 => Identifier("window")
    case 5 => Block(Statements, None, [6, 8])
    case 6 => VariableDeclaration(true, [Declarator(7, None)])
    case 7 => Identifier("window")
    case 8 => ExpressionStatement(9)
    case 9 => Assignment(true, 10, 13)
    case 10 => Member(11, 12, false)
    case 11 => Identifier("h")
    case 12 => Identifier("leak")
    case 13 => Literal(true, "1")
    case 14 => ExpressionStatement(15)
    case 15 => Call(16, [])
    case _ => Identifier("g")
  }

  function ParentAt(n: nat): NodeId {
    match n
    case 2 => 1
    case 3 => 2
    case 4 => 2
    case 5 => 1
    case 6 => 5
    case 7 => 6
    case 8 => 5
    case 9 => 8
    case 10 => 9
    case 11 => 10
    case 12 => 10
    case 13 => 9
    case 15 => 14
    case 16 => 15
    case _ => 0
  }

  function ChildrenAt(n: nat): seq<NodeId> {
    match n
    case 0 => [1, 14]
    case 1 => [2, 5]
    case 2 => [3, 4]
    case 5 => [6, 8]
    case 6 => [7]
    case 8 => [9]
    case 9 => [10, 13]
    case 10 => [11, 12]
    case 14 => [15]
    case 15 => [16]
    case _ => []
  }

  function ScopeAt(n: nat): NodeId {
    if n == 0 || n >= 14 then 0 else if n < 5 then 1 else 5
  }

  ghost function Layout(): Shape {
    Shape(SIZE, NodeAt, ParentAt, ChildrenAt, ScopeAt)
  }

  lemma NodeIsInFront(n: nat, k: NodeId)
    requires n < SIZE
    ensures InFront(Layout(), n, k)
  {
  }

  lemma NodeHasKids(n: nat)
    requires n < SIZE
    ensures HasKids(Layout(), n)
  {
    hide Flatten;
    if n == 6 { ChildrenOfOne(Declarator(7, None), Property(0, false, 0, Init)); }
  }

  lemma NodeIsAttached(n: nat)
    requires n < SIZE
    ensures Attached(Layout(), n)
  {
  }

  lemma NodeIsScoped(n: nat)
    requires n < SIZE
    ensures Scoped(Layout(), n)
  {
  }

  lemma NodeIsSimple(n: nat)
    requires n < SIZE
    ensures Simple(Layout(), n) && Placed(Layout(), n)
  {
  }

  ghost function File(): File
    ensures |File().nodes| == SIZE && File().isModule && Fitting(Layout()) && File() == FileOf(Layout())
    ensures forall n {:trigger File().nodes[n]} :: 0 <= n < SIZE ==> File().nodes[n] == NodeAt(n)
    ensures forall n {:trigger File().parent[n]} :: 0 <= n < SIZE ==> File().parent[n] == ParentAt(n)
  {
    assert Fitting(Layout()) by {
      hide HasKids, InFront, Attached, Scoped, Simple, Placed;
      forall n: nat | n < SIZE ensures Fits(Layout(), n) {
        NodeHasKids(n);
        forall k: NodeId ensures InFront(Layout(), n, k) { NodeIsInFront(n, k); }
        NodeIsAttached(n);
        NodeIsScoped(n);
        NodeIsSimple(n);
      }
    }
    FileOf(Layout())
  }

  lemma FileIsFollowable()
    ensures Followable(File())
  {
    hide Fitting, FileOf, File, Layout, Followable;
    assert |File().nodes| == SIZE;
    FittingIsFollowable(Layout());
  }

  lemma NothingDeclared(n: NodeId)
    requires n < SIZE && !NodeAt(n).Function? && !NodeAt(n).VariableDeclaration?
    ensures PlainNames(File(), n) == {} && SelfNames(File(), n) == {}
    ensures NodeFlows(File(), n) == {} && NodeReturns(File(), n) == {}
  {
    hide Fitting, FileOf, File, NodeAt, WellFormed, PlainNames, SelfNames, NodeFlows, NodeReturns;
    assert |File().nodes| == SIZE;
    DeclaresNothing(Layout(), n);
  }

  lemma ModuleNodes()
    ensures NodeAt(0) == Program([1, 14])
    ensures NodeAt(1) == Function(FunctionKind.Declaration, Some("g"), [2], 5, false, false)
    ensures NodeAt(14) == ExpressionStatement(15) && NodeAt(15) == Call(16, []) && NodeAt(16) == Identifier("g")
  {
  }

  lemma ParameterNodes()
    ensures NodeAt(2) == AssignmentPattern(3, 4) && NodeAt(3) == Identifier("h") && NodeAt(4) == Identifier("window")
  {
  }

  lemma BodyNodes()
    ensures NodeAt(5) == Block(Statements, None, [6, 8]) &&
      NodeAt(6) == VariableDeclaration(true, [Declarator(7, None)])
    ensures NodeAt(8) == ExpressionStatement(9)
  {
  }

  lemma WriteNodes()
    ensures NodeAt(8) == ExpressionStatement(9) && NodeAt(9) == Assignment(true, 10, 13) &&
      NodeAt(10) == Member(11, 12, false)
    ensures NodeAt(11) == Identifier("h") && NodeAt(12) == Identifier("leak") && NodeAt(13).Literal?
  {
  }

  // ---- Names ----------------------------------------------------------------------------------

  const G := Binding(0, "g")
  const SELF := Binding(1, "g")
  const PARAMETER := Binding(1, "h")
  const HIDDEN := Binding(1, "window")

  lemma Scopes(n: NodeId)
    requires n < SIZE
    ensures ScopeOf(File(), n) == ScopeAt(n)
  {
    hide Fitting, FileOf, File;
    assert |File().nodes| == SIZE;
    ScopesAre(Layout(), n);
  }

  function PlainAt(n: NodeId): set<Binding> {
    if n == 1 then {G, PARAMETER} else if n == 6 then {HIDDEN} else {}
  }

  function SelfAt(n: NodeId): set<Binding> {
    if n == 1 then {SELF} else {}
  }

  function FlowsAt(n: NodeId): set<Flow> {
    if n == 1 then {Flow(PARAMETER, 4, [])} else {}
  }

  lemma ParameterDeclares()
    ensures PatternNames(File(), 1, Bound(2, None, [])) == {PARAMETER}
    ensures PatternFlows(File(), 1, Bound(2, None, [])) == {Flow(PARAMETER, 4, [])}
  {
    hide Fitting, FileOf, File, Layout, WellFormed;
    ParameterNodes();
    hide NodeAt, ParentAt;
    var p, b := File(), Bound(2, None, []);
    var subs := SubPatterns(p, b);
    assert subs == [Bound(3, None, []), Bound(3, Some(4), [])];
    assert PatternNames(p, 1, subs[0]) == {PARAMETER} == PatternNames(p, 1, subs[1]);
    assert PatternFlows(p, 1, subs[0]) == {} && PatternFlows(p, 1, subs[1]) == {Flow(PARAMETER, 4, [])};
  }

  lemma FunctionDeclares()
    ensures PlainNames(File(), 1) == {G, PARAMETER} && NodeFlows(File(), 1) == {Flow(PARAMETER, 4, [])}
  {
    hide Fitting, FileOf, File, Layout, WellFormed, SubPatterns, PatternNames, PatternFlows;
    Scopes(0);
    ParameterDeclares();
    var bounds := NodePatterns(File(), 1).1;
    assert bounds == [Bound(2, None, [])];
    assert PatternNames(File(), 1, bounds[0]) == {PARAMETER};
  }

  lemma VarDeclares()
    ensures PlainNames(File(), 6) == {HIDDEN} && NodeFlows(File(), 6) == {}
  {
    hide Fitting, FileOf, File, Layout, WellFormed, SubPatterns;
    var p := File();
    Scopes(6);
    Scopes(1);
    assert VarScope(p, 5) == 1;
    var bounds := NodePatterns(p, 6).1;
    assert bounds == [Bound(7, None, [])];
    assert PatternNames(p, 1, bounds[0]) == {HIDDEN};
    assert PatternFlows(p, 1, bounds[0]) == {};
  }

  lemma NodeDeclares(n: NodeId)
    requires n < SIZE
    ensures PlainNames(File(), n) == PlainAt(n) && SelfNames(File(), n) == SelfAt(n)
    ensures NodeFlows(File(), n) == FlowsAt(n) && NodeReturns(File(), n) == {}
  {
    hide Fitting, FileOf, File, Layout, WellFormed, PlainNames, NodeFlows;
    if n == 1 { FunctionDeclares(); } else if n == 6 { VarDeclares(); } else { NothingDeclared(n); }
  }

  lemma NamesAre()
    ensures var p := File();
      && Plain(p) == {G, PARAMETER, HIDDEN} && Names(p) == {G, SELF, PARAMETER, HIDDEN}
      && Flows(p) == {Flow(PARAMETER, 4, [])} && Returns(p) == {}
  {
    hide Fitting, FileOf, File, Layout, WellFormed, PlainNames, SelfNames, NodeFlows, NodeReturns;
    var p := File();
    forall n: NodeId | n < SIZE
      ensures PlainNames(p, n) == PlainAt(n) && SelfNames(p, n) == SelfAt(n)
      ensures NodeFlows(p, n) == FlowsAt(n) && NodeReturns(p, n) == {}
    {
      NodeDeclares(n);
    }
    assert G in PlainNames(p, 1) && PARAMETER in PlainNames(p, 1) && HIDDEN in PlainNames(p, 6);
    assert G in PlainNames(p, 1) + SelfNames(p, 1) && SELF in PlainNames(p, 1) + SelfNames(p, 1);
    assert PARAMETER in PlainNames(p, 1) + SelfNames(p, 1);
    assert HIDDEN in PlainNames(p, 6) + SelfNames(p, 6);
    assert Flow(PARAMETER, 4, []) in NodeFlows(p, 1);
  }

  lemma ScopesNest()
    ensures OpensScope(File().nodes[0]) && OpensScope(File().nodes[1]) && OpensScope(File().nodes[5])
    ensures OuterScope(File(), 1) == 0 && OuterScope(File(), 5) == 1
  {
    hide Fitting, FileOf, File, Layout, WellFormed, ScopeOf;
    assert OpensScope(NodeAt(0)) && OpensScope(NodeAt(1)) && OpensScope(NodeAt(5));
    assert ParentAt(1) == 0 && ParentAt(5) == 1;
    Scopes(0);
    Scopes(1);
  }

  lemma NamesDiffer()
    ensures "window" != "h" && "window" != "g" && "g" != "h"
  {
    assert |"window"| == 6 && |"h"| == 1 && |"g"| == 1 && "g"[0] == 'g' && "h"[0] == 'h';
  }

  lemma NamesKnown()
    ensures HIDDEN in Names(File()) && PARAMETER in Names(File()) && forall b :: b in Names(File()) ==> b.scope < 2
  {
    hide Names, File, Plain, Flows, Returns;
    NamesAre();
  }

  /** The default value of the parameter is looked up as the `var` of the body. */
  lemma LookedUp()
    ensures OpensScope(File().nodes[0]) && OpensScope(File().nodes[1]) && OpensScope(File().nodes[5])
    ensures Lookup(File(), Names(File()), 1, "window") == Some(HIDDEN)
    ensures Lookup(File(), Names(File()), 5, "h") == Some(PARAMETER)
  {
    hide Fitting, FileOf, File, Layout, WellFormed, Names, OuterScope, NodeAt, ParentAt, Lookup, BodyVars;
    var p := File();
    ScopesNest();
    NamesKnown();
    FoundHere(p, 1, "window");
    FoundHere(p, 1, "h");
    FoundOutside(p, 5, "h");
  }

  // ---- The analysis ---------------------------------------------------------------------------

  /** A closed state in which only the functions are known. */
  ghost function Guess(): State {
    AbstractValues.State(map[G := {NodeValue(1)}, SELF := {NodeValue(1)}, PARAMETER := {}, HIDDEN := {}], map[1 := {}])
  }

  lemma NameValuesAre()
    ensures ValuesAt(File(), Guess(), 4) == ValuesAt(File(), Guess(), 11) == {}
  {
    hide Fitting, FileOf, File, Layout, WellFormed, Lookup, Names, ValuesAt, ScopeOf;
    ParameterNodes();
    WriteNodes();
    hide NodeAt, ParentAt;
    Scopes(4);
    Scopes(11);
    LookedUp();
    NameEvaluates(File(), Guess(), 4, Some(HIDDEN));
    NameEvaluates(File(), Guess(), 11, Some(PARAMETER));
  }

  lemma NothingAssigned(n: NodeId)
    requires n < SIZE
    ensures AssignedBinding(File(), n) == None && AssignmentMet(File(), Guess(), EvaluateBy(File(), Guess()), n)
    ensures PassesNothing(File(), Guess(), n)
  {
    hide Fitting, FileOf, File, Layout, WellFormed, Lookup, Names, Guarded;
  }

  lemma DeclarationsHold()
    ensures DeclarationsMet(File(), Guess())
  {
    hide Fitting, FileOf, File, Layout, WellFormed, ScopeOf;
    Scopes(0);
  }

  lemma FlowsHold()
    ensures Returns(File()) == {}
    ensures forall f :: f in Flows(File()) ==>
              f.path == [] && ValuesAt(File(), Guess(), f.init) <= BindingValues(Guess(), f.target)
  {
    hide Fitting, FileOf, File, Layout, WellFormed, ValuesAt, Names, Plain, Flows, Returns;
    NamesAre();
    NameValuesAre();
  }

  lemma GuessIsClosed()
    ensures Closed(File(), Guess())
  {
    hide Fitting, FileOf, File, Layout, WellFormed, Guarded, Names, Flows, Returns, AssignmentMet;
    hide PassesNothing, DeclarationsMet, NodeAt;
    hide ParentAt, File;
    var p, s := File(), Guess();
    FlowsHold();
    DeclarationsHold();
    forall n: NodeId | n < SIZE
      ensures AssignmentMet(p, s, EvaluateBy(p, s), n) && PassesNothing(p, s, n)
    {
      NothingAssigned(n);
    }
    ArgumentlessClosed(p, s);
  }

  /** The analysis knows nothing of `h` in the last statement of `g`. */
  lemma NodeIsQuiet(n: NodeId)
    requires n < SIZE
    ensures Quiet(File(), Guess(), n)
  {
    hide Fitting, FileOf, File, Layout, WellFormed, ValuesAt, Lookup, Names, ScopeOf, Quiet;
    var p, s := File(), Guess();
    if n == 9 {
      WriteNodes();
      NameValuesAre();
      LiteralEvaluates(p, s, 13);
      QuietMemberWrite(p, s, n);
    } else {
      QuietWithoutWrite(p, s, n);
    }
  }

  lemma AllIsQuiet()
    ensures forall n: NodeId :: n < SIZE ==> Quiet(File(), Guess(), n)
  {
    hide Fitting, FileOf, File, Layout, WellFormed, Quiet, NodeAt, ParentAt;
    forall n: NodeId | n < SIZE ensures Quiet(File(), Guess(), n) { NodeIsQuiet(n); }
  }

  // ---- The conditions ---------------------------------------------------------------------------

  lemma DeclaresWhere(d: NodeId)
    requires d < SIZE && DeclaredBinding(File(), d).Some?
    ensures d == 1 && DeclaredBinding(File(), d) == Some(G)
  {
    hide Fitting, FileOf, File, Layout, WellFormed, ScopeOf;
    Scopes(0);
  }

  lemma DeclarationsAreStable()
    ensures StableDeclarations(File())
  {
    hide Fitting, FileOf, File, Layout, WellFormed, ScopeOf, PlainNames, AssignedBinding, NodeAt, ParentAt;
    var p := File();
    forall d: NodeId | d < SIZE && DeclaredBinding(p, d).Some? ensures StableDeclaration(p, d) {
      forall n: NodeId | n < SIZE
        ensures PlainNames(p, n) == PlainAt(n) && AssignedBinding(p, n) == None
      {
        NodeDeclares(n);
        NothingAssigned(n);
      }
      DeclaresWhere(d);
    }
  }

  lemma VarsAre()
    ensures BodyVars(File(), 1) == {"window"} && ParamNames(File(), 1) == {"h"}
  {
    hide Fitting, FileOf, File, Layout, WellFormed, PlainNames, NodeAt, ParentAt;
    var p := File();
    forall n: NodeId | n < SIZE ensures PlainNames(p, n) == PlainAt(n) { NodeDeclares(n); }
    assert HIDDEN in PlainNames(p, 6) && HIDDEN.scope == 1;
    assert PARAMETER in PlainNames(p, 1) && PARAMETER.scope == 1;
    assert forall n: NodeId, b | n < SIZE && n != 1 && b in PlainAt(n) && b.scope == 1 :: b == HIDDEN;
    assert forall b | b in PlainAt(1) && b.scope == 1 :: b == PARAMETER;
  }

  /** The variables of the module, of a call of `g`, and of the body of `g`. */
  lemma FramesAre()
    ensures FrameNames(File(), 0) == {"g"} && FrameNames(File(), 1) == {"h"} && FrameNames(File(), 5) == {"window"}
    ensures !IsBody(File(), 0) && !IsBody(File(), 1) && IsBody(File(), 5)
  {
    hide Fitting, FileOf, File, Layout, WellFormed, PlainNames, BodyVars, ParamNames, Names, Plain;
    var p := File();
    NamesAre();
    VarsAre();
    assert IsBody(p, 5) && ParentAt(5) == 1;
    assert !IsBody(p, 0) && !IsBody(p, 1);
    assert G in Plain(p);
  }

  lemma BlocksAreInside()
    ensures forall b: NodeId :: IsBody(File(), b) ==> b > 1
  {
    hide Fitting, FileOf, File, Layout, WellFormed;
  }

  lemma VarsAreSeparate()
    ensures SeparateVars(File())
  {
    hide Fitting, FileOf, File, Layout, WellFormed, BodyVars, Names, Plain, NodeAt, ParentAt;
    var p := File();
    assert forall b :: b in Plain(p) ==> b.scope < 2 by { NamesAre(); }
    BlocksAreInside();
  }

  /** The default value stands in the scope of the function, and names a variable of its body. */
  lemma WindowIsHidden()
    ensures !NamesAreSeen(File())
  {
    hide Fitting, FileOf, File, Layout, WellFormed, FrameNames, BodyVars;
    Scopes(4);
    FramesAre();
    VarsAre();
    NamesDiffer();
    assert NodeAt(4) == Identifier("window");
    assert !SeesVariable(File(), 1, "window");
  }

  // ---- The run ------------------------------------------------------------------------------------

  /** The machine when the module body starts. */
  ghost function Start(): Machine {
    EMPTY.(frames := [Frame(0, map["g" := Ref(0)])], heap := [Cell(1, [0], map[], map[])])
  }

  /** The machine in which the parameter is bound. */
  ghost function Called(): Machine {
    EMPTY.(frames := [Frame(0, map["g" := Ref(0)]), Frame(1, map["h" := Global])],
           heap := [Cell(1, [0], map[], map[])], clock := 2)
  }

  /** The machine in the body of `g`. */
  ghost function Inside(): Machine {
    Called().(frames := [Frame(0, map["g" := Ref(0)]), Frame(1, map["h" := Global]), Frame(5, map["window" := Prim])])
  }

  lemma Started()
    ensures Hoist(File(), NewFrame(File(), EMPTY, [], 0), [0], 0, [1, 14]) == Start()
  {
    hide Fitting, FileOf, File, Layout, WellFormed, FrameNames, ParentAt, Plain, BodyVars, ParamNames, IsBody, NodeAt;
    var p := File();
    FramesAre();
    ModuleNodes();
    FrameStarts(p, EMPTY, [], 0, map["g" := Prim]);
    var m := NewFrame(p, EMPTY, [], 0);
    assert m.frames == [Frame(0, map["g" := Prim])];
    assert map["g" := Prim]["g" := Ref(0)] == map["g" := Ref(0)];
    assert [1, 14][1..] == [14] && [14][1..] == [];
    assert Hoist(p, Start(), [0], 0, [14]) == Start();
  }

  /** A host that leaves the default value to be taken when `g` is called. */
  ghost predicate TakesDefault(host: Host) {
    Calm(host) && !host.choose(1)
  }

  /** The default value is the global: the parameter does not see the body. */
  lemma ParameterBound(host: Host, fuel: nat)
    requires TakesDefault(host) && fuel > 1
    ensures BindParameters(File(), host, NewFrame(File(), Tick(Start()), [0], 1), [1, 0], 1, [2], [], fuel) ==
      Done(Called(), Prim)
  {
    hide Fitting, FileOf, File, Layout, WellFormed, FrameNames, ParentAt, NodeAt, BodyVars, ParamNames, IsBody;
    hide ReadName, Run;
    var p, m, env := File(), Tick(Start()), [1, 0];
    ParameterNodes();
    FramesAre();
    NamesDiffer();
    FrameStarts(p, m, [0], 1, map["h" := Prim]);
    var entered := NewFrame(p, m, [0], 1);
    assert entered.frames == [Frame(0, map["g" := Ref(0)]), Frame(1, map["h" := Prim])];
    WindowIsGlobal(host, Tick(entered), env);
    NameRuns(p, host, Tick(entered), env, 4, fuel - 1);
    assert map["h" := Prim]["h" := Global] == map["h" := Global];
    assert SetVar(Tick(entered), 1, "h", Global).frames == Called().frames;
    DefaultBound(p, host, entered, env, 1, 2, 3, 4, fuel, Global);
  }

  lemma BodyStarted()
    ensures Hoist(File(), NewFrame(File(), Called(), [1, 0], 5), [2, 1, 0], 2, [6, 8]) == Inside()
  {
    hide Fitting, FileOf, File, Layout, WellFormed, FrameNames, Plain, BodyVars, ParamNames, IsBody, NodeAt;
    var p, m := File(), Called();
    FramesAre();
    BodyNodes();
    VarsAre();
    NamesDiffer();
    assert ParentAt(5) == 1;
    FrameStarts(p, m, [1, 0], 5, map["window" := Prim]);
    assert NewFrame(p, m, [1, 0], 5) == Inside();
    assert [6, 8][1..] == [8] && [8][1..] == [];
    assert Hoist(p, Inside(), [2, 1, 0], 2, [8]) == Inside();
  }

  lemma DeclarationRuns(host: Host, fuel: nat)
    requires Calm(host) && fuel > 1
    ensures Run(File(), host, Inside(), [2, 1, 0], 6, fuel) == Done(Inside(), Prim)
  {
    hide Fitting, FileOf, File, Layout, WellFormed, NodeAt, ParentAt, Run, IsBody, FrameNames;
    var p, m, env := File(), Inside(), [2, 1, 0];
    BodyNodes();
    FramesAre();
    var ds := [Declarator(7, None)];
    assert ds[1..] == [];
    assert RunDeclarators(p, host, m, env, 2, ds, fuel - 1) == Done(m, Prim);
    assert RunNode(p, host, m, env, 6, fuel - 1) == Done(m, Prim);
    NodeRuns(p, host, m, env, 6, fuel, Done(m, Prim));
  }

  lemma ParameterRead(host: Host)
    ensures ReadName(host, Inside(), [2, 1, 0], "h") == Done(Inside(), Global)
  {
    NamesDiffer();
    assert [2, 1, 0][1..] == [1, 0];
    FoundBeyond(host, Inside(), [2, 1, 0], "h");
    FoundInFrame(host, Inside(), [1, 0], "h");
  }

  lemma WriteRuns(host: Host, fuel: nat)
    requires Calm(host) && fuel > 2
    ensures Run(File(), host, Inside(), [2, 1, 0], 8, fuel) == Done(WriteGlobal(Inside(), "leak", Prim), Prim)
  {
    hide Fitting, FileOf, File, Layout, WellFormed, Run, NodeAt, ParentAt, ReadName, WriteGlobal, Inside;
    var p, m, env := File(), Inside(), [2, 1, 0];
    WriteNodes();
    ParameterRead(host);
    NameRuns(p, host, m, env, 11, fuel - 2);
    LiteralRuns(p, host, m, env, 13, fuel - 2);
    GlobalWriteRuns(p, host, m, env, 9, fuel - 1, Done(m, Global), Prim);
    StatementRuns(p, host, m, env, 8, fuel, Done(WriteGlobal(m, "leak", Prim), Prim));
  }

  lemma BodyRuns(host: Host, fuel: nat)
    requires Calm(host) && fuel > 3
    ensures
      var r := Run(File(), host, Called(), [1, 0], 5, fuel);
      r.out.Normal? && "leak" in r.m.written
  {
    hide Fitting, FileOf, File, Layout, WellFormed, Run, ParentAt, NodeAt, NewFrame, Hoist, RunList;
    var p, m, env := File(), Inside(), [2, 1, 0];
    BodyStarted();
    BodyNodes();
    assert [2] + [1, 0] == env && [6] + [8] == [6, 8] && [Prim] + [Prim] == [Prim, Prim];
    BlockRuns(p, host, Called(), [1, 0], 5, fuel);
    DeclarationRuns(host, fuel - 1);
    WriteRuns(host, fuel - 1);
    var last := WriteGlobal(m, "leak", Prim);
    LastNodeRuns(p, host, m, env, 8, fuel - 1, Done(last, Prim));
    NextNodeRuns(p, host, m, env, 6, [8], fuel - 1, Done(m, Prim), Result(last, Normal(Prim), [Prim]));
  }

  lemma CallRuns(host: Host, fuel: nat)
    requires TakesDefault(host) && fuel > 5
    ensures
      var r := Run(File(), host, Start(), [0], 14, fuel);
      r.out.Normal? && "leak" in r.m.written
  {
    hide Fitting, FileOf, File, Layout, WellFormed, Run, ParentAt, NodeAt, NewFrame, RunList, Apply, ReadName;
    hide BindParameters, Called;
    var p, m := File(), Start();
    ModuleNodes();
    FoundInFrame(host, m, [0], "g");
    NameRuns(p, host, m, [0], 16, fuel - 2);
    LastNodeRuns(p, host, m, [0], 16, fuel - 2, Done(m, Ref(0)));
    assert [16] + [] == [16] && [Ref(0)][1..] == [] && [1] + [0] == [1, 0];
    SmallRuns.CallRuns(p, host, m, [0], 15, fuel - 1, Result(m, Normal(Prim), [Ref(0)]));
    ParameterBound(host, fuel - 2);
    BodyRuns(host, fuel - 2);
    var r := Run(p, host, Called(), [1, 0], 5, fuel - 2);
    InvokeRuns(p, host, m, Ref(0), [], fuel - 2, Called(), r);
    StatementRuns(p, host, m, [0], 14, fuel, Done(r.m, Prim));
  }

  lemma ModuleRuns(host: Host, fuel: nat)
    requires TakesDefault(host) && fuel > 5
    ensures "leak" in RunModule(File(), host, fuel).m.written
  {
    hide Fitting, FileOf, File, Layout, WellFormed, Run, ParentAt, NodeAt, NewFrame, Hoist, RunList;
    var p, m := File(), Start();
    Started();
    ModuleNodes();
    LiteralRuns(p, host, m, [0], 1, fuel);
    CallRuns(host, fuel);
    assert [1] + [14] == [1, 14];
    var r := Run(p, host, m, [0], 14, fuel);
    LastNodeRuns(p, host, m, [0], 14, fuel, r);
    NextNodeRuns(p, host, m, [0], 1, [14], fuel, Done(m, Prim), Result(r.m, Normal(Prim), [r.out.value]));
  }

  /** The file meets every condition of the soundness theorem save the one on what parameters see. Every run
      that takes the default value writes a name that no final state of the analysis shows. */
  lemma HiddenVariableEscapes(host: Host, fuel: nat, s: State)
    requires TakesDefault(host) && fuel > 5 && Final(File(), s)
    ensures Followable(File()) && StableDeclarations(File()) && SeparateVars(File()) && !NamesAreSeen(File())
    ensures Problems(File(), s) == {} && Exports(File(), s) == {}
    ensures "leak" in RunModule(File(), host, fuel).m.written
  {
    hide Fitting, FileOf, File, Layout, WellFormed, Final, Followable, StableDeclarations, NamesAreSeen;
    hide SeparateVars, Exports, Problems, RunModule;
    FileIsFollowable();
    DeclarationsAreStable();
    VarsAreSeparate();
    WindowIsHidden();
    GuessIsClosed();
    AllIsQuiet();
    NothingSeen(Layout(), s, Guess());
    ModuleRuns(host, fuel);
  }
}

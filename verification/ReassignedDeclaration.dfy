/**
 Why soundness asks that no declared function is reassigned. In

     function f() { f = window; }
     f();
     f.leak = 1;

 the run replaces the module's `f` by the browser global, while the analysis takes the
 assignment to write a second binding, the function's own name inside itself. The name
 `leak` is written on the global and neither exported nor complained about.
 */
module ReassignedDeclaration {
  import opened Wrappers
  import opened Syntax
  import opened AbstractValues
  import opened GuardedEvaluation
  import opened FlowEquations
  import opened Fixpoint
  import opened Report
  import opened RunSemantics
  import opened Soundness
  import opened RendererSource
  import opened SmallFiles
  import opened SmallRuns

  const SIZE: nat := 16

  function NodeAt(n: nat): Node {
    match n
    case 0 => Program([1, 7, 10])
    case 1 => Function(FunctionKind.Declaration, Some("f"), [], 2, false, false)
    case 2 => Block(Statements, None, [3])
    case 3 => ExpressionStatement(4)
    case 4 => Assignment(true, 5, 6)
    case 5 => Identifier("f")
    case 6 => Identifier("window")
    case 7 => ExpressionStatement(8)
    case 8 => Call(9, [])
    case 9 => Identifier("f")
    case 10 => ExpressionStatement(11)
    case 11 => Assignment(true, 12, 15)
    case 12 => Member(13, 14, false)
    case 13 => Identifier("f")
    case 14 => Identifier("leak")
    case _ => Literal(true, "1")
  }

  function ParentAt(n: nat): NodeId {
    match n
    case 2 => 1
    case 3 => 2
    case 4 => 3
    case 5 => 4
    case 6 => 4
    case 8 => 7
    case 9 => 8
    case 11 => 10
    case 12 => 11
    case 13 => 12
    case 14 => 12
    case 15 => 11
    case _ => 0
  }

  function ChildrenAt(n: nat): seq<NodeId> {
    match n
    case 0 => [1, 7, 10]
    case 1 => [2]
    case 2 => [3]
    case 3 => [4]
    case 4 => [5, 6]
    case 7 => [8]
    case 8 => [9]
    case 10 => [11]
    case 11 => [12, 15]
    case 12 => [13, 14]
    case _ => []
  }

  function ScopeAt(n: nat): NodeId {
    if n == 1 then 1 else if 2 <= n <= 6 then 2 else 0
  }

  ghost function Layout(): Shape {
    Shape(SIZE, NodeAt, ParentAt, ChildrenAt, ScopeAt)
  }

  lemma NodeIsInFront(n: nat, k: NodeId)
    requires n < SIZE
    ensures InFront(Layout(), n, k)
  {
  }

  lemma NodeHasKids(n: nat)
    requires n < SIZE
    ensures HasKids(Layout(), n)
  {
  }

  lemma NodeIsAttached(n: nat)
    requires n < SIZE
    ensures Attached(Layout(), n)
  {
  }

  lemma NodeIsScoped(n: nat)
    requires n < SIZE
    ensures Scoped(Layout(), n)
  {
  }

  lemma NodeIsSimple(n: nat)
    requires n < SIZE
    ensures Simple(Layout(), n) && Placed(Layout(), n)
  {
  }

  ghost function File(): File
    ensures |File().nodes| == SIZE && File().isModule && Fitting(Layout()) && File() == FileOf(Layout())
    ensures forall n {:trigger File().nodes[n]} :: 0 <= n < SIZE ==> File().nodes[n] == NodeAt(n)
    ensures forall n {:trigger File().parent[n]} :: 0 <= n < SIZE ==> File().parent[n] == ParentAt(n)
  {
    assert Fitting(Layout()) by {
      hide HasKids, InFront, Attached, Scoped, Simple, Placed;
      forall n: nat | n < SIZE ensures Fits(Layout(), n) {
        NodeHasKids(n);
        forall k: NodeId ensures InFront(Layout(), n, k) { NodeIsInFront(n, k); }
        NodeIsAttached(n);
        NodeIsScoped(n);
        NodeIsSimple(n);
      }
    }
    FileOf(Layout())
  }

  lemma FileIsFollowable()
    ensures Followable(File())
  {
    hide Fitting, FileOf, File, Layout, Followable;
    assert |File().nodes| == SIZE;
    FittingIsFollowable(Layout());
  }

  lemma NothingDeclared(n: NodeId)
    requires n < SIZE && !NodeAt(n).Function? && !NodeAt(n).VariableDeclaration?
    ensures PlainNames(File(), n) == {} && SelfNames(File(), n) == {}
    ensures NodeFlows(File(), n) == {} && NodeReturns(File(), n) == {}
  {
    hide Fitting, FileOf, File, NodeAt, WellFormed, PlainNames, SelfNames, NodeFlows, NodeReturns;
    assert |File().nodes| == SIZE;
    DeclaresNothing(Layout(), n);
  }

  lemma ModuleNodes()
    ensures NodeAt(0) == Program([1, 7, 10])
    ensures NodeAt(1) == Function(FunctionKind.Declaration, Some("f"), [], 2, false, false)
    ensures NodeAt(7) == ExpressionStatement(8) && NodeAt(8) == Call(9, []) && NodeAt(9) == Identifier("f")
    ensures NodeAt(10) == ExpressionStatement(11)
  {
  }

  lemma BodyNodes()
    ensures NodeAt(2) == Block(Statements, None, [3]) && NodeAt(3) == ExpressionStatement(4)
    ensures NodeAt(4) == Assignment(true, 5, 6) && NodeAt(5) == Identifier("f") && NodeAt(6) == Identifier("window")
  {
  }

  lemma WriteNodes()
    ensures NodeAt(10) == ExpressionStatement(11) && NodeAt(11) == Assignment(true, 12, 15) &&
      NodeAt(12) == Member(13, 14, false)
    ensures NodeAt(13) == Identifier("f") && NodeAt(14) == Identifier("leak") && NodeAt(15).Literal?
  {
  }

  // ---- Names ----------------------------------------------------------------------------------

  const OUTER := Binding(0, "f")
  const INNER := Binding(1, "f")

  lemma Scopes(n: NodeId)
    requires n < SIZE
    ensures ScopeOf(File(), n) == ScopeAt(n)
  {
    hide Fitting, FileOf, File;
    assert |File().nodes| == SIZE;
    ScopesAre(Layout(), n);
  }

  lemma FunctionDeclares()
    ensures PlainNames(File(), 1) == {OUTER} && NodeFlows(File(), 1) == {}
  {
    hide Fitting, FileOf, File, Layout, WellFormed, PatternNames, PatternFlows;
    Scopes(0);
    assert NodePatterns(File(), 1).1 == [];
  }

  lemma NodeDeclares(n: NodeId)
    requires n < SIZE
    ensures PlainNames(File(), n) == (if n == 1 then {OUTER} else {})
    ensures SelfNames(File(), n) == (if n == 1 then {INNER} else {})
    ensures NodeFlows(File(), n) == {} && NodeReturns(File(), n) == {}
  {
    hide Fitting, FileOf, File, Layout, WellFormed, PlainNames, NodeFlows;
    if n == 1 { FunctionDeclares(); } else { NothingDeclared(n); }
  }

  lemma NamesAre()
    ensures Plain(File()) == {OUTER} && Names(File()) == {OUTER, INNER}
    ensures Flows(File()) == {} && Returns(File()) == {}
  {
    hide Fitting, FileOf, File, Layout, WellFormed, PlainNames, SelfNames, NodeFlows, NodeReturns;
    var p := File();
    forall n: NodeId | n < SIZE
      ensures PlainNames(p, n) == (if n == 1 then {OUTER} else {})
      ensures SelfNames(p, n) == (if n == 1 then {INNER} else {})
      ensures NodeFlows(p, n) == {} && NodeReturns(p, n) == {}
    {
      NodeDeclares(n);
    }
    assert OUTER in PlainNames(p, 1);
    assert OUTER in PlainNames(p, 1) + SelfNames(p, 1) && INNER in PlainNames(p, 1) + SelfNames(p, 1);
  }

  lemma ScopesNest()
    ensures OpensScope(File().nodes[0]) && OpensScope(File().nodes[1]) && OpensScope(File().nodes[2])
    ensures OuterScope(File(), 1) == 0 && OuterScope(File(), 2) == 1
  {
    hide Fitting, FileOf, File, Layout, WellFormed, ScopeOf;
    assert OpensScope(NodeAt(0)) && OpensScope(NodeAt(1)) && OpensScope(NodeAt(2));
    assert ParentAt(1) == 0 && ParentAt(2) == 1;
    Scopes(0);
    Scopes(1);
  }

  lemma NamesDiffer()
    ensures "window" != "f" && "leak" != "f"
  {
    assert |"window"| == 6 && |"f"| == 1 && |"leak"| == 4;
  }

  /** The assignment in `f` is taken to write the function's own name. */
  lemma LookedUp()
    ensures OpensScope(File().nodes[0]) && OpensScope(File().nodes[2])
    ensures Lookup(File(), Names(File()), 0, "f") == Some(OUTER)
    ensures Lookup(File(), Names(File()), 2, "f") == Some(INNER)
    ensures Lookup(File(), Names(File()), 2, "window") == None
  {
    hide Fitting, FileOf, File, Layout, WellFormed, Names, OuterScope, NodeAt, ParentAt, Lookup, BodyVars;
    var p := File();
    ScopesNest();
    NamesDiffer();
    assert OUTER in Names(p) && INNER in Names(p) && forall b :: b in Names(p) ==>
      b.scope < 2 && b.name == "f" by { NamesAre(); }
    FoundHere(p, 0, "f");
    FoundHere(p, 1, "f");
    FoundOutside(p, 2, "f");
    FoundOutside(p, 2, "window");
    FoundOutside(p, 1, "window");
    FoundOutside(p, 0, "window");
  }

  // ---- The analysis ---------------------------------------------------------------------------

  /** A closed state in which the module's `f` is only the function. */
  ghost function Guess(): State {
    AbstractValues.State(map[OUTER := {NodeValue(1)}, INNER := {NodeValue(1), Root}], map[1 := {}])
  }

  lemma NameValuesAre()
    ensures ValuesAt(File(), Guess(), 6) == {Root} && ValuesAt(File(), Guess(), 13) == {NodeValue(1)}
    ensures Lookup(File(), Names(File()), ScopeOf(File(), 5), "f") == Some(INNER)
  {
    hide Fitting, FileOf, File, Layout, WellFormed, Lookup, Names, ValuesAt, ScopeOf;
    BodyNodes();
    WriteNodes();
    hide NodeAt, ParentAt;
    Scopes(5);
    Scopes(6);
    Scopes(13);
    LookedUp();
    WindowIsFree();
    NameEvaluates(File(), Guess(), 6, None);
    NameEvaluates(File(), Guess(), 13, Some(OUTER));
  }

  lemma AssignedIs(n: NodeId)
    requires n < SIZE
    ensures AssignedBinding(File(), n) == if n == 4 then Some(INNER) else None
  {
    hide Fitting, FileOf, File, Layout, WellFormed, Lookup, Names, ScopeOf;
    Scopes(4);
    LookedUp();
  }

  lemma AssignmentHolds(n: NodeId)
    requires n < SIZE
    ensures AssignmentMet(File(), Guess(), EvaluateBy(File(), Guess()), n) && PassesNothing(File(), Guess(), n)
  {
    hide Fitting, FileOf, File, Layout, WellFormed, Lookup, Names, Guarded, AssignedBinding;
    AssignedIs(n);
    NameValuesAre();
  }

  lemma DeclarationsHold()
    ensures DeclarationsMet(File(), Guess())
  {
    hide Fitting, FileOf, File, Layout, WellFormed, ScopeOf;
    Scopes(0);
  }

  lemma GuessIsClosed()
    ensures Closed(File(), Guess())
  {
    hide Fitting, FileOf, File, Layout, WellFormed, Guarded, Names, Flows, Returns, AssignmentMet;
    hide PassesNothing, DeclarationsMet, NodeAt;
    hide ParentAt, File;
    var p, s := File(), Guess();
    NamesAre();
    DeclarationsHold();
    forall n: NodeId | n < SIZE
      ensures AssignmentMet(p, s, EvaluateBy(p, s), n) && PassesNothing(p, s, n)
    {
      AssignmentHolds(n);
    }
    ArgumentlessClosed(p, s);
  }

  /** The analysis takes `f` in the last line for the function. */
  lemma NodeIsQuiet(n: NodeId)
    requires n < SIZE
    ensures Quiet(File(), Guess(), n)
  {
    hide Fitting, FileOf, File, Layout, WellFormed, ValuesAt, Lookup, Names, ScopeOf, Quiet;
    var p, s := File(), Guess();
    if n == 4 {
      BodyNodes();
      NameValuesAre();
      QuietNameWrite(p, s, n);
    } else if n == 11 {
      WriteNodes();
      NameValuesAre();
      LiteralEvaluates(p, s, 15);
      QuietMemberWrite(p, s, n);
    } else {
      QuietWithoutWrite(p, s, n);
    }
  }

  lemma AllIsQuiet()
    ensures forall n: NodeId :: n < SIZE ==> Quiet(File(), Guess(), n)
  {
    hide Fitting, FileOf, File, Layout, WellFormed, Quiet, NodeAt, ParentAt;
    forall n: NodeId | n < SIZE ensures Quiet(File(), Guess(), n) { NodeIsQuiet(n); }
  }

  // ---- The conditions ---------------------------------------------------------------------------

  /** The body of `f` assigns its name. */
  lemma FunctionIsReassigned()
    ensures !StableDeclarations(File())
  {
    hide Fitting, FileOf, File, Layout, WellFormed, Lookup, Names, AssignedBinding, Plain, PlainNames, ScopeOf;
    NamesAre();
    AssignedIs(4);
    Scopes(0);
    assert DeclaredBinding(File(), 1) == Some(OUTER);
    assert !StableDeclaration(File(), 1);
  }

  lemma NoVars()
    ensures BodyVars(File(), 1) == {} && ParamNames(File(), 1) == {}
  {
    hide Fitting, FileOf, File, Layout, WellFormed, PlainNames, NodeAt, ParentAt;
    forall n: NodeId | n < SIZE ensures PlainNames(File(), n) == (if n == 1 then {OUTER} else {}) { NodeDeclares(n); }
  }

  lemma FramesAre()
    ensures FrameNames(File(), 0) == {"f"} && FrameNames(File(), 1) == {} && FrameNames(File(), 2) == {}
    ensures !IsBody(File(), 0) && !IsBody(File(), 1) && IsBody(File(), 2)
  {
    hide Fitting, FileOf, File, Layout, WellFormed, PlainNames, BodyVars, ParamNames, Names, Plain;
    var p := File();
    NamesAre();
    NoVars();
    assert IsBody(p, 2) && ParentAt(2) == 1;
    assert !IsBody(p, 0) && !IsBody(p, 1);
    assert OUTER in Plain(p);
  }

  lemma BlocksAreInside()
    ensures forall b: NodeId :: IsBody(File(), b) ==> b > 1
    ensures forall f: NodeId :: f < SIZE && NodeAt(f).Function? ==> f == 1
  {
    hide Fitting, FileOf, File, Layout, WellFormed;
  }

  lemma OtherConditionsHold()
    ensures SeparateVars(File()) && NamesAreSeen(File())
  {
    hide Fitting, FileOf, File, Layout, WellFormed, BodyVars, Names, Plain, NodeAt, ParentAt, IsBody, SeesVariable;
    var p := File();
    assert forall b :: b in Plain(p) ==> b.scope < 2 by { NamesAre(); }
    BlocksAreInside();
    NoVars();
    forall n: NodeId | n < SIZE && NodeAt(n).Identifier? ensures SeesVariable(p, ScopeOf(p, n), NodeAt(n).name) {
      NoVarIsSeen(p, ScopeOf(p, n), NodeAt(n).name);
    }
  }

  // ---- The run ------------------------------------------------------------------------------------

  /** The machine in the module, when `f` is `v`. */
  ghost function Module(v: Value): Machine {
    EMPTY.(frames := [Frame(0, map["f" := v])], heap := [Cell(1, [0], map[], map[])])
  }

  /** The machine in the body of `f`. */
  ghost function Inside(v: Value): Machine {
    Module(v).(frames := [Frame(0, map["f" := v]), Frame(1, map[]), Frame(2, map[])], clock := 1)
  }

  lemma Started()
    ensures Hoist(File(), NewFrame(File(), EMPTY, [], 0), [0], 0, [1, 7, 10]) == Module(Ref(0))
  {
    hide Fitting, FileOf, File, Layout, WellFormed, FrameNames, ParentAt, Plain, BodyVars, ParamNames, IsBody, NodeAt;
    var p := File();
    FramesAre();
    ModuleNodes();
    FrameStarts(p, EMPTY, [], 0, map["f" := Prim]);
    var m, last := NewFrame(p, EMPTY, [], 0), Module(Ref(0));
    assert m.frames == [Frame(0, map["f" := Prim])];
    assert map["f" := Prim]["f" := Ref(0)] == map["f" := Ref(0)];
    assert [1, 7, 10][1..] == [7, 10] && [7, 10][1..] == [10] && [10][1..] == [];
    assert Hoist(p, last, [0], 0, [10]) == last;
    assert Hoist(p, last, [0], 0, [7, 10]) == last;
  }

  /** The machine when `f` is called. */
  ghost function Called(): Machine {
    NewFrame(File(), Tick(Module(Ref(0))), [0], 1)
  }

  lemma BodyStarted()
    ensures Hoist(File(), NewFrame(File(), Called(), [1, 0], 2), [2, 1, 0], 2, [3]) == Inside(Ref(0))
    ensures |Called().frames| == 2
  {
    hide Fitting, FileOf, File, Layout, WellFormed, FrameNames, Plain, BodyVars, ParamNames, IsBody, NodeAt;
    var p, m := File(), Tick(Module(Ref(0)));
    FramesAre();
    BodyNodes();
    NoVars();
    assert ParentAt(2) == 1;
    FrameStarts(p, m, [0], 1, map[]);
    FrameStarts(p, Called(), [1, 0], 2, map[]);
    assert Called().frames == m.frames + [Frame(1, map[])];
    assert NewFrame(p, Called(), [1, 0], 2) == Inside(Ref(0));
    assert [3][1..] == [];
  }

  lemma NamesInside(host: Host)
    ensures
      var m, env := Inside(Ref(0)), [2, 1, 0];
      ReadName(host, m, env, "window") == Done(m, Global) && WriteName(m, env, "f", Global) == Inside(Global)
  {
    hide Fitting, FileOf, File, Layout, WellFormed, ReadName;
    var m, env := Inside(Ref(0)), [2, 1, 0];
    NamesDiffer();
    WindowIsGlobal(host, m, env);
    assert env[1..] == [1, 0] && [1, 0][1..] == [0];
    assert Resolve(m, [0], "f") == Some(0);
    assert Resolve(m, [1, 0], "f") == Some(0);
    assert map["f" := Ref(0)]["f" := Global] == map["f" := Global];
    assert SetVar(m, 0, "f", Global).frames == Inside(Global).frames;
  }

  /** The assignment replaces the module's `f`. */
  lemma AssignmentRuns(host: Host, fuel: nat)
    requires Calm(host) && fuel > 2
    ensures Run(File(), host, Inside(Ref(0)), [2, 1, 0], 3, fuel) == Done(Inside(Global), Prim)
  {
    hide Fitting, FileOf, File, Layout, WellFormed, Run, NodeAt, ParentAt, ReadName, WriteName, Inside;
    var p, m, env := File(), Inside(Ref(0)), [2, 1, 0];
    BodyNodes();
    NamesInside(host);
    NameRuns(p, host, m, env, 6, fuel - 2);
    NameAssignmentRuns(p, host, m, env, 4, fuel - 1, Done(m, Global));
    StatementRuns(p, host, m, env, 3, fuel, Done(Inside(Global), Global));
  }

  lemma BodyRuns(host: Host, fuel: nat)
    requires Calm(host) && fuel > 3
    ensures Run(File(), host, Called(), [1, 0], 2, fuel).(values := []) == Result(Inside(Global), Normal(Prim), [])
  {
    hide Fitting, FileOf, File, Layout, WellFormed, Run, ParentAt, NodeAt, NewFrame, Hoist, RunList, Inside, Called;
    var p, env := File(), [2, 1, 0];
    BodyStarted();
    BodyNodes();
    assert [2] + [1, 0] == env;
    BlockRuns(p, host, Called(), [1, 0], 2, fuel);
    AssignmentRuns(host, fuel - 1);
    LastNodeRuns(p, host, Inside(Ref(0)), env, 3, fuel - 1, Done(Inside(Global), Prim));
  }

  lemma CallRuns(host: Host, fuel: nat)
    requires Calm(host) && fuel > 5
    ensures Run(File(), host, Module(Ref(0)), [0], 7, fuel) == Done(Inside(Global), Prim)
  {
    hide Fitting, FileOf, File, Layout, WellFormed, Run, ParentAt, NodeAt, NewFrame, RunList, Apply, ReadName;
    var p, m := File(), Module(Ref(0));
    ModuleNodes();
    FoundInFrame(host, m, [0], "f");
    NameRuns(p, host, m, [0], 9, fuel - 2);
    LastNodeRuns(p, host, m, [0], 9, fuel - 2, Done(m, Ref(0)));
    assert [9] + [] == [9] && [Ref(0)][1..] == [] && [1] + [0] == [1, 0];
    SmallRuns.CallRuns(p, host, m, [0], 8, fuel - 1, Result(m, Normal(Prim), [Ref(0)]));
    BodyRuns(host, fuel - 2);
    NothingBound(p, host, Called(), [1, 0], 1, [], fuel - 2);
    InvokeRuns(p, host, m, Ref(0), [], fuel - 2, Called(), Run(p, host, Called(), [1, 0], 2, fuel - 2));
    StatementRuns(p, host, m, [0], 7, fuel, Done(Inside(Global), Prim));
  }

  lemma WriteRuns(host: Host, fuel: nat)
    requires Calm(host) && fuel > 2
    ensures Run(File(), host, Inside(Global), [0], 10, fuel) == Done(WriteGlobal(Inside(Global), "leak", Prim), Prim)
  {
    hide Fitting, FileOf, File, Layout, WellFormed, Run, NodeAt, ParentAt, ReadName, WriteGlobal;
    var p, m, env := File(), Inside(Global), [0];
    WriteNodes();
    FoundInFrame(host, m, env, "f");
    NameRuns(p, host, m, env, 13, fuel - 2);
    LiteralRuns(p, host, m, env, 15, fuel - 2);
    GlobalWriteRuns(p, host, m, env, 11, fuel - 1, Done(m, Global), Prim);
    StatementRuns(p, host, m, env, 10, fuel, Done(WriteGlobal(m, "leak", Prim), Prim));
  }

  lemma ModuleRuns(host: Host, fuel: nat)
    requires Calm(host) && fuel > 5
    ensures "leak" in RunModule(File(), host, fuel).m.written
  {
    hide Fitting, FileOf, File, Layout, WellFormed, Run, ParentAt, NodeAt, NewFrame, Hoist, RunList, Inside, Module;
    var p, m := File(), Module(Ref(0));
    Started();
    ModuleNodes();
    LiteralRuns(p, host, m, [0], 1, fuel);
    CallRuns(host, fuel);
    WriteRuns(host, fuel);
    var last := WriteGlobal(Inside(Global), "leak", Prim);
    assert [1] + [7, 10] == [1, 7, 10] && [7] + [10] == [7, 10] && [Prim] + [Prim] == [Prim, Prim];
    LastNodeRuns(p, host, Inside(Global), [0], 10, fuel, Done(last, Prim));
    NextNodeRuns(p, host, m, [0], 7, [10], fuel, Done(Inside(Global), Prim), Result(last, Normal(Prim), [Prim]));
    NextNodeRuns(p, host, m, [0], 1, [7, 10], fuel, Done(m, Prim), Result(last, Normal(Prim), [Prim, Prim]));
  }

  /** The file meets every condition of the soundness theorem save that `f` is reassigned. Every run that
      gets that far writes a name that no final state of the analysis shows. */
  lemma ReassignmentEscapes(host: Host, fuel: nat, s: State)
    requires Calm(host) && fuel > 5 && Final(File(), s)
    ensures Followable(File()) && SeparateVars(File()) && NamesAreSeen(File()) && !StableDeclarations(File())
    ensures Problems(File(), s) == {} && Exports(File(), s) == {}
    ensures "leak" in RunModule(File(), host, fuel).m.written
  {
    hide Fitting, FileOf, File, Layout, WellFormed, Final, Followable, StableDeclarations, NamesAreSeen;
    hide SeparateVars, Exports, Problems, RunModule;
    FileIsFollowable();
    OtherConditionsHold();
    FunctionIsReassigned();
    GuessIsClosed();
    AllIsQuiet();
    NothingSeen(Layout(), s, Guess());
    ModuleRuns(host, fuel);
  }
}

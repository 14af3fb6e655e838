/**
 Why soundness asks that host code hands no objects to the functions of a module. In

     function f(x) { x.a.leak = 1; }
     f.call(null, { a: window });

 the host function `call` passes the object on to `f`. The analysis finds no function behind
 `f.call`, so nothing flows into the parameter, and an object that holds the browser global
 is not the browser global, so the call is not complained about.
 */
module ForwardedObject {
  import opened Wrappers
  import opened Syntax
  import opened AbstractValues
  import opened GuardedEvaluation
  import opened FlowEquations
  import opened Fixpoint
  import opened Report
  import opened RunSemantics
  import opened Soundness
  import opened RendererSource
  import opened SmallFiles
  import opened SmallRuns

  const SIZE: nat := 21

  function NodeAt(n: nat): Node {
    match n
    case 0 => Program([1, 12])
    case 1 => Function(FunctionKind.Declaration, Some("f"), [2], 3, false, false)
    case 2 => Identifier("x")
    case 3 => Block(Statements, None, [4])
    case 4 => ExpressionStatement(5)
    case 5 => Assignment(true, 6, 11)
    case 6 => Member(7, 10, false)
    case 7 => Member(8, 9, false)
    case 8 => Identifier("x")
    case 9 => Identifier("a")
    case 10 => Identifier("leak")
    case 11 => Literal(true, "1")
    case 12 => ExpressionStatement(13)
    case 13 => Call(14, [17, 18])
    case 14 => Member(15, 16, false)
    case 15 => Identifier("f")
    case 16 => Identifier("call")
    case 17 => Literal(false, "null")
    case 18 => Object([Property(19, false, 20, Init)])
    case 19 => Identifier("a")
    case _ => Identifier("window")
  }

  function ParentAt(n: nat): NodeId {
    match n
    case 2 => 1
    case 3 => 1
    case 4 => 3
    case 5 => 4
    case 6 => 5
    case 7 => 6
    case 8 => 7
    case 9 => 7
    case 10 => 6
    case 11 => 5
    case 13 => 12
    case 14 => 13
    case 15 => 14
    case 16 => 14
    case 17 => 13
    case 18 => 13
    case 19 => 18
    case 20 => 18
    case _ => 0
  }

  function ChildrenAt(n: nat): seq<NodeId> {
    match n
    case 0 => [1, 12]
    case 1 => [2, 3]
    case 3 => [4]
    case 4 => [5]
    case 5 => [6, 11]
    case 6 => [7, 10]
    case 7 => [8, 9]
    case 12 => [13]
    case 13 => [14, 17, 18]
    case 14 => [15, 16]
    case 18 => [19, 20]
    case _ => []
  }

  function ScopeAt(n: nat): NodeId {
    if 1 <= n <= 2 then 1 else if 3 <= n <= 11 then 3 else 0
  }

  ghost function Layout(): Shape {
    Shape(SIZE, NodeAt, ParentAt, ChildrenAt, ScopeAt)
  }

  lemma NodeIsInFront(n: nat, k: NodeId)
    requires n < SIZE
    ensures InFront(Layout(), n, k)
  {
  }

  lemma NodeHasKids(n: nat)
    requires n < SIZE
    ensures HasKids(Layout(), n)
  {
    hide Flatten;
    if n == 18 { ChildrenOfOne(Declarator(0, None), Property(19, false, 20, Init)); }
  }

  lemma NodeIsAttached(n: nat)
    requires n < SIZE
    ensures Attached(Layout(), n)
  {
  }

  lemma NodeIsScoped(n: nat)
    requires n < SIZE
    ensures Scoped(Layout(), n)
  {
  }

  lemma NodeIsSimple(n: nat)
    requires n < SIZE
    ensures Simple(Layout(), n) && Placed(Layout(), n)
  {
  }

  ghost function File(): File
    ensures |File().nodes| == SIZE && File().isModule && Fitting(Layout()) && File() == FileOf(Layout())
    ensures forall n {:trigger File().nodes[n]} :: 0 <= n < SIZE ==> File().nodes[n] == NodeAt(n)
    ensures forall n {:trigger File().parent[n]} :: 0 <= n < SIZE ==> File().parent[n] == ParentAt(n)
  {
    assert Fitting(Layout()) by {
      hide HasKids, InFront, Attached, Scoped, Simple, Placed;
      forall n: nat | n < SIZE ensures Fits(Layout(), n) {
        NodeHasKids(n);
        forall k: NodeId ensures InFront(Layout(), n, k) { NodeIsInFront(n, k); }
        NodeIsAttached(n);
        NodeIsScoped(n);
        NodeIsSimple(n);
      }
    }
    FileOf(Layout())
  }

  lemma FileIsFollowable()
    ensures Followable(File())
  {
    hide Fitting, FileOf, File, Layout, Followable;
    assert |File().nodes| == SIZE;
    FittingIsFollowable(Layout());
  }

  lemma NothingDeclared(n: NodeId)
    requires n < SIZE && !NodeAt(n).Function? && !NodeAt(n).VariableDeclaration?
    ensures PlainNames(File(), n) == {} && SelfNames(File(), n) == {}
    ensures NodeFlows(File(), n) == {} && NodeReturns(File(), n) == {}
  {
    hide Fitting, FileOf, File, NodeAt, WellFormed, PlainNames, SelfNames, NodeFlows, NodeReturns;
    assert |File().nodes| == SIZE;
    DeclaresNothing(Layout(), n);
  }

  lemma ModuleNodes()
    ensures NodeAt(0) == Program([1, 12]) && NodeAt(1).Function? && NodeAt(1).fkind == FunctionKind.Declaration
    ensures NodeAt(1).fnName == Some("f") && NodeAt(12) == ExpressionStatement(13)
  {
  }

  lemma FunctionNodes()
    ensures NodeAt(1) == Function(FunctionKind.Declaration, Some("f"), [2], 3, false, false) &&
      NodeAt(2) == Identifier("x")
    ensures NodeAt(3) == Block(Statements, None, [4]) && NodeAt(4) == ExpressionStatement(5)
  {
  }

  lemma WriteNodes()
    ensures NodeAt(4) == ExpressionStatement(5) && NodeAt(5) == Assignment(true, 6, 11) &&
      NodeAt(6) == Member(7, 10, false)
    ensures NodeAt(7) == Member(8, 9, false) && NodeAt(8) == Identifier("x") && NodeAt(9) == Identifier("a")
    ensures NodeAt(10) == Identifier("leak") && NodeAt(11).Literal?
  {
  }

  lemma CallNodes()
    ensures NodeAt(12) == ExpressionStatement(13) && NodeAt(13) == Call(14, [17, 18])
    ensures NodeAt(14) == Member(15, 16, false) && NodeAt(15) == Identifier("f") && NodeAt(16) == Identifier("call")
    ensures NodeAt(17).Literal?
  {
  }

  lemma ObjectNodes()
    ensures NodeAt(18) == Object([Property(19, false, 20, Init)])
    ensures NodeAt(19) == Identifier("a") && NodeAt(20) == Identifier("window")
  {
  }

  // ---- Names ----------------------------------------------------------------------------------

  const OUTER := Binding(0, "f")
  const INNER := Binding(1, "f")
  const PARAMETER := Binding(1, "x")

  lemma Scopes(n: NodeId)
    requires n < SIZE
    ensures ScopeOf(File(), n) == ScopeAt(n)
  {
    hide Fitting, FileOf, File;
    assert |File().nodes| == SIZE;
    ScopesAre(Layout(), n);
  }

  lemma FunctionDeclares()
    ensures PlainNames(File(), 1) == {OUTER, PARAMETER} && NodeFlows(File(), 1) == {}
  {
    hide Fitting, FileOf, File, Layout, WellFormed;
    var p := File();
    Scopes(0);
    var bounds := NodePatterns(p, 1).1;
    assert bounds == [Bound(2, None, [])];
    assert PatternNames(p, 1, bounds[0]) == {PARAMETER};
    assert PatternFlows(p, 1, bounds[0]) == {};
  }

  lemma NodeDeclares(n: NodeId)
    requires n < SIZE
    ensures PlainNames(File(), n) == (if n == 1 then {OUTER, PARAMETER} else {})
    ensures SelfNames(File(), n) == (if n == 1 then {INNER} else {})
    ensures NodeFlows(File(), n) == {} && NodeReturns(File(), n) == {}
  {
    hide Fitting, FileOf, File, Layout, WellFormed, PlainNames, NodeFlows;
    if n == 1 { FunctionDeclares(); } else { NothingDeclared(n); }
  }

  lemma NamesAre()
    ensures Plain(File()) == {OUTER, PARAMETER} && Names(File()) == {OUTER, INNER, PARAMETER}
    ensures Flows(File()) == {} && Returns(File()) == {}
  {
    hide Fitting, FileOf, File, Layout, WellFormed, PlainNames, SelfNames, NodeFlows, NodeReturns;
    var p := File();
    forall n: NodeId | n < SIZE
      ensures PlainNames(p, n) == (if n == 1 then {OUTER, PARAMETER} else {})
      ensures SelfNames(p, n) == (if n == 1 then {INNER} else {})
      ensures NodeFlows(p, n) == {} && NodeReturns(p, n) == {}
    {
      NodeDeclares(n);
    }
    assert OUTER in PlainNames(p, 1) && PARAMETER in PlainNames(p, 1);
    assert OUTER in PlainNames(p, 1) + SelfNames(p, 1) && PARAMETER in PlainNames(p, 1) + SelfNames(p, 1);
    assert INNER in PlainNames(p, 1) + SelfNames(p, 1);
  }

  lemma ScopesNest()
    ensures OpensScope(File().nodes[0]) && OpensScope(File().nodes[1]) && OpensScope(File().nodes[3])
    ensures OuterScope(File(), 1) == 0 && OuterScope(File(), 3) == 1
  {
    hide Fitting, FileOf, File, Layout, WellFormed, ScopeOf;
    assert OpensScope(NodeAt(0)) && OpensScope(NodeAt(1)) && OpensScope(NodeAt(3));
    assert ParentAt(1) == 0 && ParentAt(3) == 1;
    Scopes(0);
    Scopes(1);
  }

  /** The parameter is looked up from the body, and the callee from the module. */
  lemma LookedUp()
    ensures OpensScope(File().nodes[0]) && OpensScope(File().nodes[3])
    ensures Lookup(File(), Names(File()), 0, "f") == Some(OUTER)
    ensures Lookup(File(), Names(File()), 3, "x") == Some(PARAMETER)
  {
    hide Fitting, FileOf, File, Layout, WellFormed, Names, OuterScope, NodeAt, ParentAt, Lookup, BodyVars;
    var p := File();
    ScopesNest();
    assert OUTER in Names(p) && PARAMETER in Names(p) && forall b :: b in Names(p) ==> b.scope < 2 by { NamesAre(); }
    FoundHere(p, 0, "f");
    FoundHere(p, 1, "x");
    FoundOutside(p, 3, "x");
  }

  // ---- The analysis ---------------------------------------------------------------------------

  /** A closed state in which nothing is known of the parameter. */
  ghost function Guess(): State {
    AbstractValues.State(map[OUTER := {NodeValue(1)}, INNER := {NodeValue(1)}, PARAMETER := {}], map[1 := {}])
  }

  lemma NamesEvaluate()
    ensures ValuesAt(File(), Guess(), 8) == {} && ValuesAt(File(), Guess(), 15) == {NodeValue(1)}
  {
    hide Fitting, FileOf, File, Layout, WellFormed, Lookup, Names, ValuesAt, ScopeOf;
    CallNodes();
    WriteNodes();
    hide NodeAt, ParentAt;
    Scopes(8);
    Scopes(15);
    LookedUp();
    NameEvaluates(File(), Guess(), 8, Some(PARAMETER));
    NameEvaluates(File(), Guess(), 15, Some(OUTER));
  }

  /** Nothing is known of the callee, and nothing of the object written. */
  lemma MembersEvaluate()
    ensures ValuesAt(File(), Guess(), 7) == {} && ValuesAt(File(), Guess(), 14) == {}
  {
    hide Fitting, FileOf, File, Layout, WellFormed, ValuesAt, FlatHeld, NonComputed;
    FileIsFollowable();
    NamesEvaluate();
    CallNodes();
    WriteNodes();
    ModuleNodes();
    hide NodeAt, ParentAt;
    MemberEvaluates(File(), Guess(), 7);
    MemberEvaluates(File(), Guess(), 14);
  }

  lemma NothingAssigned(n: NodeId)
    requires n < SIZE
    ensures AssignedBinding(File(), n) == None && AssignmentMet(File(), Guess(), EvaluateBy(File(), Guess()), n)
    ensures PassesNothing(File(), Guess(), n)
  {
    hide Fitting, FileOf, File, Layout, WellFormed, Lookup, Names, ValuesAt, Guarded;
    MembersEvaluate();
  }

  lemma DeclarationsHold()
    ensures DeclarationsMet(File(), Guess())
  {
    hide Fitting, FileOf, File, Layout, WellFormed, ScopeOf;
    Scopes(0);
  }

  lemma GuessIsClosed()
    ensures Closed(File(), Guess())
  {
    hide Fitting, FileOf, File, Layout, WellFormed, Guarded, Names, Flows, Returns, AssignmentMet;
    hide PassesNothing, DeclarationsMet, NodeAt;
    hide ParentAt, File;
    var p, s := File(), Guess();
    NamesAre();
    DeclarationsHold();
    forall n: NodeId | n < SIZE
      ensures AssignmentMet(p, s, EvaluateBy(p, s), n) && PassesNothing(p, s, n)
    {
      NothingAssigned(n);
    }
    ArgumentlessClosed(p, s);
  }

  lemma NodeIsQuiet(n: NodeId)
    requires n < SIZE
    ensures Quiet(File(), Guess(), n)
  {
    hide Fitting, FileOf, File, Layout, WellFormed, ValuesAt, Lookup, Names, ScopeOf, Quiet;
    var p, s := File(), Guess();
    if n == 5 {
      WriteNodes();
      MembersEvaluate();
      LiteralEvaluates(p, s, 11);
      QuietMemberWrite(p, s, n);
    } else {
      QuietWithoutWrite(p, s, n);
    }
  }

  lemma AllIsQuiet()
    ensures forall n: NodeId :: n < SIZE ==> Quiet(File(), Guess(), n)
  {
    hide Fitting, FileOf, File, Layout, WellFormed, Quiet, NodeAt, ParentAt;
    forall n: NodeId | n < SIZE ensures Quiet(File(), Guess(), n) { NodeIsQuiet(n); }
  }

  // ---- The conditions ---------------------------------------------------------------------------

  lemma DeclaresWhere(d: NodeId)
    requires d < SIZE && DeclaredBinding(File(), d).Some?
    ensures d == 1 && DeclaredBinding(File(), d) == Some(OUTER)
  {
    hide Fitting, FileOf, File, Layout, WellFormed, ScopeOf;
    Scopes(0);
  }

  lemma DeclarationsAreStable()
    ensures StableDeclarations(File())
  {
    hide Fitting, FileOf, File, Layout, WellFormed, ScopeOf, PlainNames, AssignedBinding, NodeAt, ParentAt;
    var p := File();
    forall d: NodeId | d < SIZE && DeclaredBinding(p, d).Some? ensures StableDeclaration(p, d) {
      forall n: NodeId | n < SIZE
        ensures PlainNames(p, n) == (if n == 1 then {OUTER, PARAMETER} else {}) && AssignedBinding(p, n) == None
      {
        NodeDeclares(n);
        NothingAssigned(n);
      }
      DeclaresWhere(d);
    }
  }

  lemma VarsAre()
    ensures BodyVars(File(), 1) == {} && ParamNames(File(), 1) == {"x"}
  {
    hide Fitting, FileOf, File, Layout, WellFormed, PlainNames, NodeAt, ParentAt;
    var p := File();
    forall n: NodeId | n < SIZE ensures PlainNames(p, n) ==
      (if n == 1 then {OUTER, PARAMETER} else {}) { NodeDeclares(n); }
    assert PARAMETER in PlainNames(p, 1) && PARAMETER.scope == 1;
    assert forall b | b in PlainNames(p, 1) && b.scope == 1 :: b == PARAMETER;
  }

  lemma FramesAre()
    ensures FrameNames(File(), 0) == {"f"} && FrameNames(File(), 1) == {"x"} && FrameNames(File(), 3) == {}
    ensures !IsBody(File(), 0) && !IsBody(File(), 1) && IsBody(File(), 3)
  {
    hide Fitting, FileOf, File, Layout, WellFormed, PlainNames, BodyVars, ParamNames, Names, Plain;
    var p := File();
    NamesAre();
    VarsAre();
    assert IsBody(p, 3) && ParentAt(3) == 1;
    assert !IsBody(p, 0) && !IsBody(p, 1);
    assert OUTER in Plain(p);
  }

  lemma BlocksAreInside()
    ensures forall b: NodeId :: IsBody(File(), b) ==> b > 1
    ensures forall f: NodeId :: f < SIZE && NodeAt(f).Function? ==> f == 1
  {
    hide Fitting, FileOf, File, Layout, WellFormed;
  }

  lemma OtherConditionsHold()
    ensures SeparateVars(File()) && NamesAreSeen(File())
  {
    hide Fitting, FileOf, File, Layout, WellFormed, BodyVars, ParamNames, Names, Plain, NodeAt, ParentAt;
    hide IsBody, SeesVariable;
    var p := File();
    assert forall b :: b in Plain(p) ==> b.scope < 2 by { NamesAre(); }
    BlocksAreInside();
    VarsAre();
    forall n: NodeId | n < SIZE && NodeAt(n).Identifier? ensures SeesVariable(p, ScopeOf(p, n), NodeAt(n).name) {
      NoVarIsSeen(p, ScopeOf(p, n), NodeAt(n).name);
    }
  }

  // ---- The run ------------------------------------------------------------------------------------

  const FUNCTION := Cell(1, [0], map[], map[])
  const OBJECT := Cell(18, [], map["a" := Global], map[])

  /** The machine when the module body starts. */
  ghost function Start(): Machine {
    EMPTY.(frames := [Frame(0, map["f" := Ref(0)])], heap := [FUNCTION])
  }

  /** The machine when the host calls `f`. */
  ghost function Calling(): Machine {
    Start().(heap := [FUNCTION, OBJECT], clock := 1)
  }

  /** The machine in the body of `f`. */
  ghost function Inside(): Machine {
    Given().(frames := [Frame(0, map["f" := Ref(0)]), Frame(1, map["x" := Ref(1)]), Frame(3, map[])])
  }

  /** When `f.call` is called, the host calls `f` with the object, which is all it hands to the module. */
  ghost predicate Forwards(host: Host) {
    && Elsewhere(host) && !host.recalls && (forall t :: host.answer(t) == Prim)
    && (forall t, fuel, after :: !host.throws(t, 13, fuel, after))
    && forall t, fuel :: host.acts(t, 13, fuel) == [Invocation(Ref(0), [Ref(1)])]
  }

  /** Nothing else happens. */
  ghost predicate Elsewhere(host: Host) {
    host.earlier == [] && host.later == [] && forall n: NodeId :: n != 13 ==> Idle(host, n)
  }

  lemma Started()
    ensures Hoist(File(), NewFrame(File(), EMPTY, [], 0), [0], 0, [1, 12]) == Start()
  {
    hide Fitting, FileOf, File, Layout, WellFormed, FrameNames, ParentAt, Plain, BodyVars, ParamNames, IsBody, NodeAt;
    var p := File();
    FramesAre();
    ModuleNodes();
    FrameStarts(p, EMPTY, [], 0, map["f" := Prim]);
    var m := NewFrame(p, EMPTY, [], 0);
    assert m.frames == [Frame(0, map["f" := Prim])];
    assert map["f" := Prim]["f" := Ref(0)] == map["f" := Ref(0)];
    assert [1, 12][1..] == [12] && [12][1..] == [];
    assert Hoist(p, Start(), [0], 0, [12]) == Start();
  }

  /** The machine in which the parameter is bound to the object. */
  ghost function Given(): Machine {
    Tick(Calling()).(frames := [Frame(0, map["f" := Ref(0)]), Frame(1, map["x" := Ref(1)])])
  }

  lemma ParameterBound(host: Host, fuel: nat)
    requires Elsewhere(host) && fuel > 0
    ensures BindParameters(File(), host, NewFrame(File(), Tick(Calling()), [0], 1), [1, 0], 1, [2], [Ref(1)], fuel) ==
      Done(Given(), Prim)
  {
    hide Fitting, FileOf, File, Layout, WellFormed, FrameNames, ParentAt, NodeAt, BodyVars, ParamNames, IsBody, Run;
    var p, m, env := File(), Tick(Calling()), [1, 0];
    FunctionNodes();
    FramesAre();
    FrameStarts(p, m, [0], 1, map["x" := Prim]);
    var entered := NewFrame(p, m, [0], 1);
    assert entered.frames == [Frame(0, map["f" := Ref(0)]), Frame(1, map["x" := Prim])];
    assert map["x" := Prim]["x" := Ref(1)] == map["x" := Ref(1)];
    assert SetVar(entered, 1, "x", Ref(1)).frames == Given().frames;
    ArgumentBound(p, host, entered, env, 1, 2, fuel, Ref(1));
  }

  lemma BodyStarted()
    ensures Hoist(File(), NewFrame(File(), Given(), [1, 0], 3), [2, 1, 0], 2, [4]) == Inside()
  {
    hide Fitting, FileOf, File, Layout, WellFormed, FrameNames, Plain, BodyVars, ParamNames, IsBody, NodeAt;
    var p, m := File(), Given();
    FramesAre();
    FunctionNodes();
    VarsAre();
    assert ParentAt(3) == 1;
    FrameStarts(p, m, [1, 0], 3, map[]);
    assert NewFrame(p, m, [1, 0], 3) == Inside();
    assert [4][1..] == [];
  }

  lemma ParameterRead(host: Host)
    ensures ReadName(host, Inside(), [2, 1, 0], "x") == Done(Inside(), Ref(1))
  {
    assert [2, 1, 0][1..] == [1, 0];
    FoundBeyond(host, Inside(), [2, 1, 0], "x");
    FoundInFrame(host, Inside(), [1, 0], "x");
  }

  /** The object's field is the global. */
  lemma ReceiverRuns(host: Host, fuel: nat)
    requires Elsewhere(host) && fuel > 1
    ensures Run(File(), host, Inside(), [2, 1, 0], 7, fuel) == Done(Inside(), Global)
  {
    hide Fitting, FileOf, File, Layout, WellFormed, Run, NodeAt, ParentAt, ReadName, ReadMember;
    var p, m, env := File(), Inside(), [2, 1, 0];
    WriteNodes();
    ParameterRead(host);
    NameRuns(p, host, m, env, 8, fuel - 1);
    FieldRead(host, m, 1, "a");
    MemberRuns(p, host, m, env, 7, fuel, Done(m, Ref(1)));
  }

  lemma WriteRuns(host: Host, fuel: nat)
    requires Elsewhere(host) && fuel > 3
    ensures Run(File(), host, Inside(), [2, 1, 0], 4, fuel) == Done(WriteGlobal(Inside(), "leak", Prim), Prim)
  {
    hide Fitting, FileOf, File, Layout, WellFormed, Run, NodeAt, ParentAt, WriteGlobal, Inside;
    var p, m, env := File(), Inside(), [2, 1, 0];
    WriteNodes();
    ReceiverRuns(host, fuel - 2);
    LiteralRuns(p, host, m, env, 11, fuel - 2);
    GlobalWriteRuns(p, host, m, env, 5, fuel - 1, Done(m, Global), Prim);
    StatementRuns(p, host, m, env, 4, fuel, Done(WriteGlobal(m, "leak", Prim), Prim));
  }

  lemma BodyRuns(host: Host, fuel: nat)
    requires Elsewhere(host) && fuel > 4
    ensures
      var r := Run(File(), host, Given(), [1, 0], 3, fuel);
      r.out.Normal? && "leak" in r.m.written
  {
    hide Fitting, FileOf, File, Layout, WellFormed, Run, ParentAt, NodeAt, NewFrame, Hoist, RunList, Inside;
    var p, env := File(), [2, 1, 0];
    BodyStarted();
    FunctionNodes();
    assert [2] + [1, 0] == env;
    BlockRuns(p, host, Given(), [1, 0], 3, fuel);
    WriteRuns(host, fuel - 1);
    LastNodeRuns(p, host, Inside(), env, 4, fuel - 1, Done(WriteGlobal(Inside(), "leak", Prim), Prim));
  }

  /** The host calls the function with the object. */
  lemma InvocationRuns(host: Host, fuel: nat)
    requires Elsewhere(host) && fuel > 4
    ensures IsFunction(File(), Calling(), Ref(0))
    ensures "leak" in Apply(File(), host, Calling(), Ref(0), [Ref(1)], fuel).m.written
  {
    hide Fitting, FileOf, File, Layout, WellFormed, Run, ParentAt, NodeAt, NewFrame, RunList, Apply, ReadName;
    hide BindParameters, Given;
    var p, m := File(), Calling();
    FunctionNodes();
    assert [1] + [0] == [1, 0];
    ParameterBound(host, fuel);
    BodyRuns(host, fuel);
    InvokeRuns(p, host, m, Ref(0), [Ref(1)], fuel, Given(), Run(p, host, Given(), [1, 0], 3, fuel));
  }

  lemma CalleeRuns(host: Host, fuel: nat)
    requires Elsewhere(host) && fuel > 1
    ensures Run(File(), host, Start(), [0], 14, fuel) == Done(Start(), Prim)
  {
    hide Fitting, FileOf, File, Layout, WellFormed, Run, NodeAt, ParentAt, ReadName;
    var p, m := File(), Start();
    CallNodes();
    FoundInFrame(host, m, [0], "f");
    NameRuns(p, host, m, [0], 15, fuel - 1);
    MemberRuns(p, host, m, [0], 14, fuel, Done(m, Ref(0)));
  }

  lemma ObjectMade(host: Host, fuel: nat)
    requires Elsewhere(host) && fuel > 1
    ensures Run(File(), host, Start(), [0], 18, fuel) == Done(Start().(heap := [FUNCTION, OBJECT]), Ref(1))
  {
    hide Fitting, FileOf, File, Layout, WellFormed, Run, NodeAt, ParentAt, ReadName;
    var p, m := File(), Start();
    ObjectNodes();
    assert |"window"| == 6 && |"f"| == 1;
    WindowIsGlobal(host, m, [0]);
    NameRuns(p, host, m, [0], 20, fuel - 1);
    ObjectRuns(p, host, m, [0], 18, Property(19, false, 20, Init), "a", fuel, Global);
  }

  lemma CallRuns(host: Host, fuel: nat)
    requires Forwards(host) && fuel > 7
    ensures
      var r := Run(File(), host, Start(), [0], 12, fuel);
      r.out.Normal? && "leak" in r.m.written
  {
    hide Fitting, FileOf, File, Layout, WellFormed, Run, ParentAt, NodeAt, RunList, Apply, IsFunction;
    var p, m := File(), Start();
    var made := m.(heap := [FUNCTION, OBJECT]);
    CallNodes();
    CalleeRuns(host, fuel - 2);
    LiteralRuns(p, host, m, [0], 17, fuel - 2);
    ObjectMade(host, fuel - 2);
    assert [17] + [18] == [17, 18] && [Prim] + [Ref(1)] == [Prim, Ref(1)];
    assert [14] + [17, 18] == [14, 17, 18];
    LastNodeRuns(p, host, m, [0], 18, fuel - 2, Done(made, Ref(1)));
    NextNodeRuns(p, host, m, [0], 17, [18], fuel - 2, Done(m, Prim), Result(made, Normal(Prim), [Ref(1)]));
    NextNodeRuns(p, host, m, [0], 14, [17, 18], fuel - 2, Done(m, Prim), Result(made, Normal(Prim), [Prim, Ref(1)]));
    var values := [Prim] + [Prim, Ref(1)];
    assert Tick(made) == Calling();
    InvocationRuns(host, fuel - 3);
    HostRuns(p, host, m, [0], 13, fuel - 1, Result(made, Normal(Prim), values));
    HostCalls(p, host, Tick(made), Ref(0), [Ref(1)], fuel - 2);
    StatementRuns(p, host, m, [0], 12, fuel, Run(p, host, m, [0], 13, fuel - 1));
  }

  lemma ModuleRuns(host: Host, fuel: nat)
    requires Forwards(host) && fuel > 7
    ensures "leak" in RunModule(File(), host, fuel).m.written
  {
    hide Fitting, FileOf, File, Layout, WellFormed, Run, ParentAt, NodeAt, NewFrame, Hoist, RunList;
    var p, m := File(), Start();
    Started();
    ModuleNodes();
    LiteralRuns(p, host, m, [0], 1, fuel);
    CallRuns(host, fuel);
    assert [1] + [12] == [1, 12];
    var r := Run(p, host, m, [0], 12, fuel);
    LastNodeRuns(p, host, m, [0], 12, fuel, r);
    NextNodeRuns(p, host, m, [0], 1, [12], fuel, Done(m, Prim), Result(r.m, Normal(Prim), [r.out.value]));
  }

  lemma ForwardsAnObject(host: Host)
    requires Forwards(host)
    ensures !Tame(host) && Reserved(host)
  {
    var a := Invocation(Ref(0), [Ref(1)]);
    assert a in host.acts(0, 13, 0) && Ref(1) in [Ref(1)];
    assert !HarmlessAct(Goal({}, true), a);
    forall t, n: NodeId, fuel ensures n == 13 || host.acts(t, n, fuel) == [] { assert n == 13 || Idle(host, n); }
  }

  /** The object holds the global. */
  lemma GlobalIsHeld(s: State)
    ensures !Confined(File(), s)
  {
    hide Fitting, FileOf, File, Layout, WellFormed, Lookup, Names, ValuesAt, ScopeOf;
    ObjectNodes();
    assert File().nodes[18].properties[0].value == 20;
    hide NodeAt, ParentAt;
    Scopes(20);
    assert |"window"| == 6;
    assert forall b :: b in Names(File()) ==> |b.name| == 1 by { NamesAre(); }
    ScopesNest();
    FoundOutside(File(), 0, "window");
    WindowIsFree();
    NameEvaluates(File(), s, 20, None);
  }

  /** The file is in the fragment. With a host that passes the object on, as `call` does, every run writes a
      name that no final state of the analysis shows. */
  lemma ForwardedObjectEscapes(host: Host, fuel: nat, s: State)
    requires Forwards(host) && fuel > 7 && Final(File(), s)
    ensures InFragment(File()) && !Tame(host) && Reserved(host) && !Confined(File(), s)
    ensures Problems(File(), s) == {} && Exports(File(), s) == {}
    ensures "leak" in RunModule(File(), host, fuel).m.written
  {
    hide Fitting, FileOf, File, Layout, WellFormed, Final, Followable, StableDeclarations, NamesAreSeen;
    hide SeparateVars, Exports, Problems;
    hide RunModule, Forwards, Tame;
    FileIsFollowable();
    OtherConditionsHold();
    DeclarationsAreStable();
    ForwardsAnObject(host);
    GlobalIsHeld(s);
    GuessIsClosed();
    AllIsQuiet();
    NothingSeen(Layout(), s, Guess());
    ModuleRuns(host, fuel);
  }
}

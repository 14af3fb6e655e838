/**
 Why soundness asks that a function declares no `var` with the name of a function in its body. In

     function g() { var f = window; function f() {} f.leak = 1; }
     g();

 `f` is one variable: the function at first, and the browser global when its member is
 written. The analysis declares the `var` in the scope of `g` and the function in the scope
 of its body, where the last statement looks `f` up, and takes it for the function.
 */
module SharedVariable {
  import opened Wrappers
  import opened Syntax
  import opened AbstractValues
  import opened GuardedEvaluation
  import opened FlowEquations
  import opened Fixpoint
  import opened Report
  import opened RunSemantics
  import opened Soundness
  import opened RendererSource
  import opened SmallFiles
  import opened SmallRuns

  const SIZE: nat := 17

  function NodeAt(n: nat): Node {
    match n
    case 0 => Program([1, 14])
    case 1 => Function(FunctionKind.Declaration, Some("g"), [], 2, false, false)
    case 2 => Block(Statements, None, [3, 6, 8])
    case 3 => VariableDeclaration(true, [Declarator(4, Some(5))])
    case 4 => Identifier("f")
    case 5 => Identifier("window")
    case 6 => Function(FunctionKind.Declaration, Some("f"), [], 7, false, false)
    case 7 => Block(Statements, None, [])
    case 8 => ExpressionStatement(9)
    case 9 => Assignment(true, 10, 13)
    case 10 => Member(11, 12, false)
    case 11 => Identifier("f")
    case 12 => Identifier("leak")
    case 13 => Literal(true, "1")
    case 14 => ExpressionStatement(15)
    case 15 => Call(16, [])
    case _ => Identifier("g")
  }

  function ParentAt(n: nat): NodeId {
    match n
    case 2 => 1
    case 3 => 2
    case 4 => 3
    case 5 => 3
    case 6 => 2
    case 7 => 6
    case 8 => 2
    case 9 => 8
    case 10 => 9
    case 11 => 10
    case 12 => 10
    case 13 => 9
    case 15 => 14
    case 16 => 15
    case _ => 0
  }

  function ChildrenAt(n: nat): seq<NodeId> {
    match n
    case 0 => [1, 14]
    case 1 => [2]
    case 2 => [3, 6, 8]
    case 3 => [4, 5]
    case 6 => [7]
    case 8 => [9]
    case 9 => [10, 13]
    case 10 => [11, 12]
    case 14 => [15]
    case 15 => [16]
    case _ => []
  }

  function ScopeAt(n: nat): NodeId {
    if n == 0 || n >= 14 then 0 else if n == 1 then 1 else if n == 6 then 6 else if n == 7 then 7 else 2
  }

  ghost function Layout(): Shape {
    Shape(SIZE, NodeAt, ParentAt, ChildrenAt, ScopeAt)
  }

  lemma NodeIsInFront(n: nat, k: NodeId)
    requires n < SIZE
    ensures InFront(Layout(), n, k)
  {
  }

  lemma NodeHasKids(n: nat)
    requires n < SIZE
    ensures HasKids(Layout(), n)
  {
    hide Flatten;
    if n == 3 { ChildrenOfOne(Declarator(4, Some(5)), Property(0, false, 0, Init)); }
  }

  lemma NodeIsAttached(n: nat)
    requires n < SIZE
    ensures Attached(Layout(), n)
  {
  }

  lemma NodeIsScoped(n: nat)
    requires n < SIZE
    ensures Scoped(Layout(), n)
  {
  }

  lemma NodeIsSimple(n: nat)
    requires n < SIZE
    ensures Simple(Layout(), n) && Placed(Layout(), n)
  {
  }

  ghost function File(): File
    ensures |File().nodes| == SIZE && File().isModule && Fitting(Layout()) && File() == FileOf(Layout())
    ensures forall n {:trigger File().nodes[n]} :: 0 <= n < SIZE ==> File().nodes[n] == NodeAt(n)
    ensures forall n {:trigger File().parent[n]} :: 0 <= n < SIZE ==> File().parent[n] == ParentAt(n)
  {
    assert Fitting(Layout()) by {
      hide HasKids, InFront, Attached, Scoped, Simple, Placed;
      forall n: nat | n < SIZE ensures Fits(Layout(), n) {
        NodeHasKids(n);
        forall k: NodeId ensures InFront(Layout(), n, k) { NodeIsInFront(n, k); }
        NodeIsAttached(n);
        NodeIsScoped(n);
        NodeIsSimple(n);
      }
    }
    FileOf(Layout())
  }

  lemma FileIsFollowable()
    ensures Followable(File())
  {
    hide Fitting, FileOf, File, Layout, Followable;
    assert |File().nodes| == SIZE;
    FittingIsFollowable(Layout());
  }

  lemma NothingDeclared(n: NodeId)
    requires n < SIZE && !NodeAt(n).Function? && !NodeAt(n).VariableDeclaration?
    ensures PlainNames(File(), n) == {} && SelfNames(File(), n) == {}
    ensures NodeFlows(File(), n) == {} && NodeReturns(File(), n) == {}
  {
    hide Fitting, FileOf, File, NodeAt, WellFormed, PlainNames, SelfNames, NodeFlows, NodeReturns;
    assert |File().nodes| == SIZE;
    DeclaresNothing(Layout(), n);
  }

  lemma NodesOfStatements()
    ensures NodeAt(3) == VariableDeclaration(true, [Declarator(4, Some(5))]) && NodeAt(4) == Identifier("f")
    ensures NodeAt(5) == Identifier("window")
    ensures NodeAt(8) == ExpressionStatement(9) && NodeAt(9) == Assignment(true, 10, 13) &&
      NodeAt(10) == Member(11, 12, false)
    ensures NodeAt(11) == Identifier("f") && NodeAt(12) == Identifier("leak") && NodeAt(13).Literal?
  {
  }

  // ---- Names ----------------------------------------------------------------------------------

  const G := Binding(0, "g")
  const SELF := Binding(1, "g")
  const VARIABLE := Binding(1, "f")
  const FUNCTION := Binding(2, "f")
  const INNER := Binding(6, "f")

  lemma Scopes(n: NodeId)
    requires n < SIZE
    ensures ScopeOf(File(), n) == ScopeAt(n)
  {
    hide Fitting, FileOf, File;
    assert |File().nodes| == SIZE;
    ScopesAre(Layout(), n);
  }

  function PlainAt(n: NodeId): set<Binding> {
    if n == 1 then {G} else if n == 3 then {VARIABLE} else if n == 6 then {FUNCTION} else {}
  }

  function SelfAt(n: NodeId): set<Binding> {
    if n == 1 then {SELF} else if n == 6 then {INNER} else {}
  }

  lemma FunctionDeclares(n: NodeId)
    requires n == 1 || n == 6
    ensures PlainNames(File(), n) == PlainAt(n) && NodeFlows(File(), n) == {}
  {
    hide Fitting, FileOf, File, Layout, WellFormed, PatternNames, PatternFlows;
    Scopes(0);
    Scopes(2);
    assert NodePatterns(File(), n).1 == [];
  }

  lemma VarDeclares()
    ensures PlainNames(File(), 3) == {VARIABLE} && NodeFlows(File(), 3) == {Flow(VARIABLE, 5, [])}
  {
    hide Fitting, FileOf, File, Layout, WellFormed, SubPatterns;
    var p := File();
    Scopes(3);
    Scopes(1);
    assert VarScope(p, 2) == 1;
    var bounds := NodePatterns(p, 3).1;
    assert bounds == [Bound(4, Some(5), [])];
    assert PatternNames(p, 1, bounds[0]) == {VARIABLE};
    assert PatternFlows(p, 1, bounds[0]) == {Flow(VARIABLE, 5, [])};
  }

  lemma NodeDeclares(n: NodeId)
    requires n < SIZE
    ensures PlainNames(File(), n) == PlainAt(n) && SelfNames(File(), n) == SelfAt(n)
    ensures NodeFlows(File(), n) == (if n == 3 then {Flow(VARIABLE, 5, [])} else {}) && NodeReturns(File(), n) == {}
  {
    hide Fitting, FileOf, File, Layout, WellFormed, PlainNames, NodeFlows;
    if n == 1 || n == 6 { FunctionDeclares(n); } else if n == 3 { VarDeclares(); } else { NothingDeclared(n); }
  }

  lemma NamesAre()
    ensures var p := File();
      && Plain(p) == {G, VARIABLE, FUNCTION} && Names(p) == {G, SELF, VARIABLE, FUNCTION, INNER}
      && Flows(p) == {Flow(VARIABLE, 5, [])} && Returns(p) == {}
  {
    hide Fitting, FileOf, File, Layout, WellFormed, PlainNames, SelfNames, NodeFlows, NodeReturns;
    var p := File();
    forall n: NodeId | n < SIZE
      ensures PlainNames(p, n) == PlainAt(n) && SelfNames(p, n) == SelfAt(n)
      ensures NodeFlows(p, n) == (if n == 3 then {Flow(VARIABLE, 5, [])} else {}) && NodeReturns(p, n) == {}
    {
      NodeDeclares(n);
    }
    assert G in PlainNames(p, 1) && VARIABLE in PlainNames(p, 3) && FUNCTION in PlainNames(p, 6);
    assert G in PlainNames(p, 1) + SelfNames(p, 1) && SELF in PlainNames(p, 1) + SelfNames(p, 1);
    assert VARIABLE in PlainNames(p, 3) + SelfNames(p, 3);
    assert FUNCTION in PlainNames(p, 6) + SelfNames(p, 6) && INNER in PlainNames(p, 6) + SelfNames(p, 6);
    assert Flow(VARIABLE, 5, []) in NodeFlows(p, 3);
  }

  lemma ScopesNest()
    ensures OpensScope(File().nodes[0]) && OpensScope(File().nodes[1]) && OpensScope(File().nodes[2])
    ensures OuterScope(File(), 1) == 0 && OuterScope(File(), 2) == 1
  {
    hide Fitting, FileOf, File, Layout, WellFormed, ScopeOf;
    assert OpensScope(NodeAt(0)) && OpensScope(NodeAt(1)) && OpensScope(NodeAt(2));
    assert ParentAt(1) == 0 && ParentAt(2) == 1;
    Scopes(0);
    Scopes(1);
  }

  lemma LongNamesAreFree(scope: NodeId, x: string)
    requires |x| > 1
    ensures Binding(scope, x) !in Names(File()) && forall f: NodeId :: x !in BodyVars(File(), f)
  {
    hide Fitting, FileOf, File, Layout, WellFormed, Names, PlainNames, SelfNames;
    var p := File();
    NamesAre();
    assert forall b :: b in Names(p) ==> |b.name| == 1;
    forall n: NodeId, b | n < SIZE && b in PlainNames(p, n) ensures |b.name| == 1 { NodeDeclares(n); }
  }

  /** What the names of the last statements and of the initializer are looked up as. */
  lemma LookedUp()
    ensures OpensScope(File().nodes[0]) && OpensScope(File().nodes[2])
    ensures Lookup(File(), Names(File()), 2, "f") == Some(FUNCTION)
    ensures Lookup(File(), Names(File()), 2, "window") == None
  {
    hide Fitting, FileOf, File, Layout, WellFormed, Names, OuterScope, NodeAt, ParentAt, Lookup, BodyVars;
    var p := File();
    ScopesNest();
    assert FUNCTION in Names(p) by { NamesAre(); }
    FoundHere(p, 2, "f");
    LongNamesAreFree(2, "window");
    LongNamesAreFree(1, "window");
    LongNamesAreFree(0, "window");
    FoundOutside(p, 2, "window");
    FoundOutside(p, 1, "window");
    FoundOutside(p, 0, "window");
  }

  // ---- The analysis ---------------------------------------------------------------------------

  /** A closed state in which only the `var` holds the global. */
  ghost function Guess(): State {
    AbstractValues.State(
      map[G := {NodeValue(1)}, SELF := {NodeValue(1)}, VARIABLE := {Root}, FUNCTION := {NodeValue(6)},
          INNER := {NodeValue(6)}],
      map[1 := {}, 6 := {}])
  }

  lemma NameValuesAre()
    ensures ValuesAt(File(), Guess(), 5) == {Root} && ValuesAt(File(), Guess(), 11) == {NodeValue(6)}
  {
    hide Fitting, FileOf, File, Layout, WellFormed, Lookup, Names, ValuesAt, ScopeOf;
    NodesOfStatements();
    hide NodeAt, ParentAt;
    Scopes(5);
    Scopes(11);
    LookedUp();
    WindowIsFree();
    NameEvaluates(File(), Guess(), 5, None);
    NameEvaluates(File(), Guess(), 11, Some(FUNCTION));
  }

  lemma NothingAssigned(n: NodeId)
    requires n < SIZE
    ensures AssignedBinding(File(), n) == None && AssignmentMet(File(), Guess(), EvaluateBy(File(), Guess()), n)
    ensures PassesNothing(File(), Guess(), n)
  {
    hide Fitting, FileOf, File, Layout, WellFormed, Lookup, Names, Guarded;
  }

  lemma FlowsHold()
    ensures Returns(File()) == {}
    ensures forall f :: f in Flows(File()) ==>
              f.path == [] && ValuesAt(File(), Guess(), f.init) <= BindingValues(Guess(), f.target)
  {
    hide Fitting, FileOf, File, Layout, WellFormed, ValuesAt, Names, Plain, Flows, Returns;
    NamesAre();
    NameValuesAre();
  }

  lemma GuessIsClosed()
    ensures Closed(File(), Guess())
  {
    hide Fitting, FileOf, File, Layout, WellFormed, Guarded, Names, Flows, Returns, AssignmentMet;
    hide PassesNothing, DeclarationsMet, NodeAt;
    hide ParentAt, File;
    var p, s := File(), Guess();
    FlowsHold();
    DeclarationsHold();
    forall n: NodeId | n < SIZE
      ensures AssignmentMet(p, s, EvaluateBy(p, s), n) && PassesNothing(p, s, n)
    {
      NothingAssigned(n);
    }
    ArgumentlessClosed(p, s);
  }

  lemma DeclarationsHold()
    ensures DeclarationsMet(File(), Guess())
  {
    hide Fitting, FileOf, File, Layout, WellFormed, ScopeOf;
    Scopes(0);
    Scopes(2);
  }

  /** The analysis takes `f` in the last statement of `g` for the function. */
  lemma NodeIsQuiet(n: NodeId)
    requires n < SIZE
    ensures Quiet(File(), Guess(), n)
  {
    hide Fitting, FileOf, File, Layout, WellFormed, ValuesAt, Lookup, Names, ScopeOf, Quiet;
    var p, s := File(), Guess();
    if n == 9 {
      NodesOfStatements();
      NameValuesAre();
      LiteralEvaluates(p, s, 13);
      QuietMemberWrite(p, s, n);
    } else {
      QuietWithoutWrite(p, s, n);
    }
  }

  lemma AllIsQuiet()
    ensures forall n: NodeId :: n < SIZE ==> Quiet(File(), Guess(), n)
  {
    hide Fitting, FileOf, File, Layout, WellFormed, Quiet, NodeAt, ParentAt;
    forall n: NodeId | n < SIZE ensures Quiet(File(), Guess(), n) { NodeIsQuiet(n); }
  }

  // ---- The conditions ---------------------------------------------------------------------------

  lemma DeclarationsAreStable()
    ensures StableDeclarations(File())
  {
    hide Fitting, FileOf, File, Layout, WellFormed, ScopeOf, PlainNames, AssignedBinding, NodeAt, ParentAt;
    var p := File();
    forall d: NodeId | d < SIZE && DeclaredBinding(p, d).Some? ensures StableDeclaration(p, d) {
      forall n: NodeId | n < SIZE
        ensures PlainNames(p, n) == PlainAt(n) && AssignedBinding(p, n) == None
      {
        NodeDeclares(n);
        NothingAssigned(n);
      }
      DeclaresWhere(d);
    }
  }

  lemma DeclaresWhere(d: NodeId)
    requires d < SIZE && DeclaredBinding(File(), d).Some?
    ensures DeclaredBinding(File(), d) == if d == 1 then Some(G) else Some(FUNCTION)
    ensures d == 1 || d == 6
  {
    hide Fitting, FileOf, File, Layout, WellFormed, ScopeOf;
    Scopes(0);
    Scopes(2);
  }

  lemma VarsAre()
    ensures BodyVars(File(), 1) == {"f"} && BodyVars(File(), 6) == {}
  {
    hide Fitting, FileOf, File, Layout, WellFormed, PlainNames, NodeAt, ParentAt;
    var p := File();
    forall n: NodeId | n < SIZE ensures PlainNames(p, n) == PlainAt(n) { NodeDeclares(n); }
    assert VARIABLE in PlainNames(p, 3) && VARIABLE.scope == 1;
    assert forall n: NodeId, b | n < SIZE && b in PlainAt(n) && b.scope == 1 :: b == VARIABLE;
  }

  /** The variables of the module, of a call of `g`, and of the body of `g`. */
  lemma FramesAre()
    ensures FrameNames(File(), 0) == {"g"} && FrameNames(File(), 1) == {} && FrameNames(File(), 2) == {"f"}
    ensures !IsBody(File(), 0) && !IsBody(File(), 1) && IsBody(File(), 2)
  {
    hide Fitting, FileOf, File, Layout, WellFormed, PlainNames, BodyVars, Names, Plain;
    var p := File();
    NamesAre();
    VarsAre();
    NodeDeclares(1);
    assert IsBody(p, 2);
    assert !IsBody(p, 0) && !IsBody(p, 1);
    assert G in Plain(p) && FUNCTION in Plain(p);
  }

  /** `f` is a variable of the body of `g` on both accounts. */
  lemma VariableIsShared()
    ensures !SeparateVars(File())
  {
    hide Fitting, FileOf, File, Layout, WellFormed, PlainNames, BodyVars, FrameNames, NodeAt;
    NamesAre();
    VarsAre();
    FramesAre();
    assert ParentAt(2) == 1;
    assert FUNCTION in Plain(File());
  }

  lemma NameIsSeen(n: NodeId)
    requires n < SIZE && NodeAt(n).Identifier?
    ensures SeesVariable(File(), ScopeOf(File(), n), NodeAt(n).name)
  {
    hide Fitting, FileOf, File, Layout, WellFormed, ScopeOf, FrameNames, BodyVars, Names, Plain, SeesVariable;
    var p, x := File(), NodeAt(n).name;
    Scopes(n);
    FramesAre();
    if |x| > 1 {
      LongNamesAreFree(0, x);
      NoVarIsSeen(p, ScopeOf(p, n), x);
    } else {
      VariableIsSeen(p, ScopeOf(p, n), x);
    }
  }

  lemma NamesAreVisible()
    ensures NamesAreSeen(File())
  {
    hide Fitting, FileOf, File, Layout, WellFormed, SeesVariable, NodeAt, ParentAt;
    forall n: NodeId | n < SIZE && NodeAt(n).Identifier?
      ensures SeesVariable(File(), ScopeOf(File(), n), NodeAt(n).name)
    {
      NameIsSeen(n);
    }
  }

  // ---- The run ------------------------------------------------------------------------------------

  /** The machine when the module body starts. */
  ghost function Start(): Machine {
    EMPTY.(frames := [Frame(0, map["g" := Ref(0)])], heap := [Cell(1, [0], map[], map[])])
  }

  /** The machine in the body of `g`, when `f` is `v`. */
  ghost function Inside(v: Value): Machine {
    EMPTY.(frames := [Frame(0, map["g" := Ref(0)]), Frame(1, map[]), Frame(2, map["f" := v])],
           heap := [Cell(1, [0], map[], map[]), Cell(6, [2, 1, 0], map[], map[])], clock := 1)
  }

  lemma Started()
    ensures Hoist(File(), NewFrame(File(), EMPTY, [], 0), [0], 0, [1, 14]) == Start()
  {
    hide Fitting, FileOf, File, Layout, WellFormed, FrameNames, ParentAt, Plain, BodyVars, ParamNames, IsBody;
    var p := File();
    FramesAre();
    NodesOfModule();
    FrameStarts(p, EMPTY, [], 0, map["g" := Prim]);
    var m := NewFrame(p, EMPTY, [], 0);
    assert m.frames == [Frame(0, map["g" := Prim])];
    assert map["g" := Prim]["g" := Ref(0)] == map["g" := Ref(0)];
    assert [1, 14][1..] == [14] && [14][1..] == [];
    assert Hoist(p, Start(), [0], 0, [14]) == Start();
  }

  lemma NodesOfModule()
    ensures NodeAt(1).Function? && NodeAt(1).fkind == FunctionKind.Declaration && NodeAt(1).fnName == Some("g")
    ensures NodeAt(14).ExpressionStatement?
  {
  }

  /** Declared functions are hoisted into the frame of the body before its statements run. */
  lemma BodyStarted()
    ensures
      var m := Tick(Start());
      var called := NewFrame(File(), m, [0], 1);
      var entered := NewFrame(File(), called, [1, 0], 2);
      called.frames == m.frames + [Frame(1, map[])] && called.(frames := m.frames) == m &&
      Hoist(File(), entered, [2, 1, 0], 2, [3, 6, 8]) == Inside(Ref(1))
  {
    hide Fitting, FileOf, File, Layout, WellFormed, FrameNames, ParentAt, Plain, BodyVars, ParamNames, IsBody;
    var p, m := File(), Tick(Start());
    FramesAre();
    NodesOfBody();
    FrameStarts(p, m, [0], 1, map[]);
    var called := NewFrame(p, m, [0], 1);
    NoParameterNames();
    FrameStarts(p, called, [1, 0], 2, map["f" := Prim]);
    var entered := NewFrame(p, called, [1, 0], 2);
    assert called.frames == m.frames + [Frame(1, map[])];
    assert entered.frames == m.frames + [Frame(1, map[]), Frame(2, map["f" := Prim])];
    assert map["f" := Prim]["f" := Ref(1)] == map["f" := Ref(1)];
    assert [3, 6, 8][1..] == [6, 8] && [6, 8][1..] == [8] && [8][1..] == [];
    var env := [2, 1, 0];
    var last := Inside(Ref(1));
    assert Hoist(p, last, env, 2, [8]) == last;
    assert Hoist(p, entered, env, 2, [6, 8]) == last;
  }

  lemma NoParameterNames()
    ensures ParamNames(File(), 1) == {}
  {
    hide Fitting, FileOf, File, Layout, WellFormed, PlainNames;
    NodeDeclares(1);
  }

  lemma NodesOfBody()
    ensures NodeAt(6).Function? && NodeAt(6).fkind == FunctionKind.Declaration && NodeAt(6).fnName == Some("f")
    ensures NodeAt(3).VariableDeclaration? && NodeAt(8).ExpressionStatement?
    ensures ParentAt(2) == 1
  {
  }

  lemma NamesInside(host: Host)
    ensures
      var m, env := Inside(Ref(1)), [2, 1, 0];
      ReadName(host, m, env, "window") == Done(m, Global) && VarFrame(File(), m, env) == Some(2) &&
        SetVar(m, 2, "f", Global) == Inside(Global)
  {
    hide Fitting, FileOf, File, Layout, WellFormed, Run, NodeAt, ParentAt, ReadName, IsBody, FrameNames;
    var m, env := Inside(Ref(1)), [2, 1, 0];
    FramesAre();
    assert |"window"| == 6 && |"f"| == 1 && |"g"| == 1;
    WindowIsGlobal(host, m, env);
    assert map["f" := Ref(1)]["f" := Global] == map["f" := Global];
    assert SetVar(m, 2, "f", Global).frames == Inside(Global).frames;
  }

  /** The declaration gives the one variable `f` the global. */
  lemma DeclarationRuns(host: Host, fuel: nat)
    requires Calm(host) && fuel > 1
    ensures Run(File(), host, Inside(Ref(1)), [2, 1, 0], 3, fuel) == Done(Inside(Global), Prim)
  {
    hide Fitting, FileOf, File, Layout, WellFormed, Run, NodeAt, ParentAt, ReadName, VarFrame, SetVar, Inside;
    var p, m, env := File(), Inside(Ref(1)), [2, 1, 0];
    NodesOfStatements();
    NamesInside(host);
    NameRuns(p, host, m, env, 5, fuel - 1);
    SmallRuns.DeclarationRuns(p, host, m, env, 3, 4, 5, fuel, 2, Done(m, Global));
  }

  lemma WriteRuns(host: Host, fuel: nat)
    requires Calm(host) && fuel > 2
    ensures Run(File(), host, Inside(Global), [2, 1, 0], 8, fuel) ==
      Done(WriteGlobal(Inside(Global), "leak", Prim), Prim)
  {
    hide Fitting, FileOf, File, Layout, WellFormed, Run, NodeAt, ParentAt, ReadName, WriteGlobal;
    var p, m, env := File(), Inside(Global), [2, 1, 0];
    NodesOfStatements();
    FoundInFrame(host, m, env, "f");
    NameRuns(p, host, m, env, 11, fuel - 2);
    LiteralRuns(p, host, m, env, 13, fuel - 2);
    GlobalWriteRuns(p, host, m, env, 9, fuel - 1, Done(m, Global), Prim);
    StatementRuns(p, host, m, env, 8, fuel, Done(WriteGlobal(m, "leak", Prim), Prim));
  }

  lemma BodyRuns(host: Host, fuel: nat)
    requires Calm(host) && fuel > 3
    ensures
      var r := Run(File(), host, NewFrame(File(), Tick(Start()), [0], 1), [1, 0], 2, fuel);
      r.out.Normal? && "leak" in r.m.written
  {
    hide Fitting, FileOf, File, Layout, WellFormed, Run, ParentAt, NewFrame, Hoist, RunList;
    var p, called, env := File(), NewFrame(File(), Tick(Start()), [0], 1), [2, 1, 0];
    BodyStarted();
    assert NodeAt(2) == Block(Statements, None, [3, 6, 8]) && NodeAt(6).Function? &&
      NodeAt(6).fkind == FunctionKind.Declaration;
    assert [2] + [1, 0] == env;
    BlockRuns(p, host, called, [1, 0], 2, fuel);
    DeclarationRuns(host, fuel - 1);
    WriteRuns(host, fuel - 1);
    assert [6] + [8] == [6, 8] && [3] + [6, 8] == [3, 6, 8] && [Prim] + [Prim] == [Prim, Prim];
    var m := Inside(Global);
    LiteralRuns(p, host, m, env, 6, fuel - 1);
    var last := WriteGlobal(m, "leak", Prim);
    LastNodeRuns(p, host, m, env, 8, fuel - 1, Done(last, Prim));
    NextNodeRuns(p, host, m, env, 6, [8], fuel - 1, Done(m, Prim), Result(last, Normal(Prim), [Prim]));
    NextNodeRuns(p, host, Inside(Ref(1)), env, 3, [6, 8], fuel - 1, Done(m, Prim),
                 Result(last, Normal(Prim), [Prim, Prim]));
  }

  lemma CallNodes()
    ensures NodeAt(14) == ExpressionStatement(15) && NodeAt(15) == Call(16, []) && NodeAt(16) == Identifier("g")
    ensures NodeAt(1) == Function(FunctionKind.Declaration, Some("g"), [], 2, false, false)
  {
  }

  lemma ApplyRuns(host: Host, fuel: nat)
    requires Calm(host) && fuel > 3
    ensures
      var r := Apply(File(), host, Start(), Ref(0), [], fuel);
      r.out == Normal(Prim) && r.values == [] && "leak" in r.m.written
  {
    hide Fitting, FileOf, File, Layout, WellFormed, Run, NodeAt, ParentAt, NewFrame, Apply;
    var p, m, called := File(), Start(), NewFrame(File(), Tick(Start()), [0], 1);
    CallNodes();
    assert [1] + [0] == [1, 0];
    BodyRuns(host, fuel);
    NothingBound(p, host, called, [1, 0], 1, [], fuel);
    InvokeRuns(p, host, m, Ref(0), [], fuel, called, Run(p, host, called, [1, 0], 2, fuel));
  }

  lemma CallRuns(host: Host, fuel: nat)
    requires Calm(host) && fuel > 5
    ensures
      var r := Run(File(), host, Start(), [0], 14, fuel);
      r.out.Normal? && "leak" in r.m.written
  {
    hide Fitting, FileOf, File, Layout, WellFormed, Run, NodeAt, ParentAt, RunList, Apply, ReadName;
    var p, m := File(), Start();
    CallNodes();
    FoundInFrame(host, m, [0], "g");
    NameRuns(p, host, m, [0], 16, fuel - 2);
    LastNodeRuns(p, host, m, [0], 16, fuel - 2, Done(m, Ref(0)));
    assert [16] + [] == [16] && [Ref(0)][1..] == [];
    SmallRuns.CallRuns(p, host, m, [0], 15, fuel - 1, Result(m, Normal(Prim), [Ref(0)]));
    ApplyRuns(host, fuel - 2);
    StatementRuns(p, host, m, [0], 14, fuel, Apply(p, host, m, Ref(0), [], fuel - 2));
  }

  lemma ModuleRuns(host: Host, fuel: nat)
    requires Calm(host) && fuel > 5
    ensures "leak" in RunModule(File(), host, fuel).m.written
  {
    hide Fitting, FileOf, File, Layout, WellFormed, Run, ParentAt, NewFrame, Hoist, RunList;
    var p, m := File(), Start();
    Started();
    assert NodeAt(0) == Program([1, 14]) && NodeAt(1).Function? && NodeAt(1).fkind == FunctionKind.Declaration;
    LiteralRuns(p, host, m, [0], 1, fuel);
    CallRuns(host, fuel);
    assert [1] + [14] == [1, 14];
    var r := Run(p, host, m, [0], 14, fuel);
    LastNodeRuns(p, host, m, [0], 14, fuel, r);
    NextNodeRuns(p, host, m, [0], 1, [14], fuel, Done(m, Prim), Result(r.m, Normal(Prim), [r.out.value]));
  }

  /** The file meets every condition of the soundness theorem save the one on shared variables. Every run
      that gets that far writes a name that no final state of the analysis shows. */
  lemma SharedVariableEscapes(host: Host, fuel: nat, s: State)
    requires Calm(host) && fuel > 5 && Final(File(), s)
    ensures Followable(File()) && StableDeclarations(File()) && NamesAreSeen(File()) && !SeparateVars(File())
    ensures Problems(File(), s) == {} && Exports(File(), s) == {}
    ensures "leak" in RunModule(File(), host, fuel).m.written
  {
    hide Fitting, FileOf, File, Layout, WellFormed, Final, Followable, StableDeclarations, NamesAreSeen;
    hide SeparateVars, Exports, Problems, RunModule;
    FileIsFollowable();
    DeclarationsAreStable();
    NamesAreVisible();
    VariableIsShared();
    GuessIsClosed();
    AllIsQuiet();
    NothingSeen(Layout(), s, Guess());
    ModuleRuns(host, fuel);
  }
}

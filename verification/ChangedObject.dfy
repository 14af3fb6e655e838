/**
 Why it matters, too, what host code stores. In

     const o = {};
     Reflect.set(o, "b", window);
     o.b.leak = 1;

 the property that is read was stored by a host function. The analysis knows what the object
 literal says. `Reflect.set` is a call it allows to be given the global, and it complains about
 what is written with it only if the first argument is the global.
 */
module ChangedObject {
  import opened Wrappers
  import opened Syntax
  import opened AbstractValues
  import opened GuardedEvaluation
  import opened FlowEquations
  import opened Fixpoint
  import opened Report
  import opened RunSemantics
  import opened Soundness
  import opened RendererSource
  import opened SmallFiles
  import opened SmallRuns

  const SIZE: nat := 20

  function NodeAt(n: nat): Node {
    match n
    case 0 => Program([1, 4, 12])
    case 1 => VariableDeclaration(false, [Declarator(2, Some(3))])
    case 2 => Identifier("o")
    case 3 => Object([])
    case 4 => ExpressionStatement(5)
    case 5 => Call(6, [9, 10, 11])
    case 6 => Member(7, 8, false)
    case 7 => Identifier("Reflect")
    case 8 => Identifier("set")
    case 9 => Identifier("o")
    case 10 => Literal(true, "b")
    case 11 => Identifier("window")
    case 12 => ExpressionStatement(13)
    case 13 => Assignment(true, 14, 19)
    case 14 => Member(15, 18, false)
    case 15 => Member(16, 17, false)
    case 16 => Identifier("o")
    case 17 => Identifier("b")
    case 18 => Identifier("leak")
    case _ => Literal(true, "1")
  }

  function ParentAt(n: nat): NodeId {
    match n
    case 2 => 1
    case 3 => 1
    case 5 => 4
    case 6 => 5
    case 7 => 6
    case 8 => 6
    case 9 => 5
    case 10 => 5
    case 11 => 5
    case 13 => 12
    case 14 => 13
    case 15 => 14
    case 16 => 15
    case 17 => 15
    case 18 => 14
    case 19 => 13
    case _ => 0
  }

  function ChildrenAt(n: nat): seq<NodeId> {
    match n
    case 0 => [1, 4, 12]
    case 1 => [2, 3]
    case 4 => [5]
    case 5 => [6, 9, 10, 11]
    case 6 => [7, 8]
    case 12 => [13]
    case 13 => [14, 19]
    case 14 => [15, 18]
    case 15 => [16, 17]
    case _ => []
  }

  function ScopeAt(n: nat): NodeId {
    0
  }

  ghost function Layout(): Shape {
    Shape(SIZE, NodeAt, ParentAt, ChildrenAt, ScopeAt)
  }

  lemma NodeIsInFront(n: nat, k: NodeId)
    requires n < SIZE
    ensures InFront(Layout(), n, k)
  {
  }

  lemma NodeHasKids(n: nat)
    requires n < SIZE
    ensures HasKids(Layout(), n)
  {
    hide Flatten;
    ChildrenOfOne(Declarator(2, Some(3)), Property(0, false, 0, Init));
  }

  lemma NodeIsAttached(n: nat)
    requires n < SIZE
    ensures Attached(Layout(), n)
  {
  }

  lemma NodeIsScoped(n: nat)
    requires n < SIZE
    ensures Scoped(Layout(), n)
  {
  }

  lemma NodeIsSimple(n: nat)
    requires n < SIZE
    ensures Simple(Layout(), n) && Placed(Layout(), n)
  {
  }

  ghost function File(): File
    ensures |File().nodes| == SIZE && File().isModule && Fitting(Layout()) && File() == FileOf(Layout())
    ensures forall n {:trigger File().nodes[n]} :: 0 <= n < SIZE ==> File().nodes[n] == NodeAt(n)
    ensures forall n {:trigger File().parent[n]} :: 0 <= n < SIZE ==> File().parent[n] == ParentAt(n)
  {
    assert Fitting(Layout()) by {
      hide HasKids, InFront, Attached, Scoped, Simple, Placed;
      forall n: nat | n < SIZE ensures Fits(Layout(), n) {
        NodeHasKids(n);
        forall k: NodeId ensures InFront(Layout(), n, k) { NodeIsInFront(n, k); }
        NodeIsAttached(n);
        NodeIsScoped(n);
        NodeIsSimple(n);
      }
    }
    FileOf(Layout())
  }

  lemma FileIsFollowable()
    ensures Followable(File())
  {
    hide Fitting, FileOf, File, Layout, Followable;
    assert |File().nodes| == SIZE;
    FittingIsFollowable(Layout());
  }

  lemma NothingDeclared(n: NodeId)
    requires n < SIZE && !NodeAt(n).Function? && !NodeAt(n).VariableDeclaration?
    ensures PlainNames(File(), n) == {} && SelfNames(File(), n) == {}
    ensures NodeFlows(File(), n) == {} && NodeReturns(File(), n) == {}
  {
    hide Fitting, FileOf, File, NodeAt, WellFormed, PlainNames, SelfNames, NodeFlows, NodeReturns;
    assert |File().nodes| == SIZE;
    DeclaresNothing(Layout(), n);
  }

  lemma DeclarationNodes()
    ensures NodeAt(0) == Program([1, 4, 12])
    ensures NodeAt(1) == VariableDeclaration(false, [Declarator(2, Some(3))]) && NodeAt(2) == Identifier("o")
    ensures NodeAt(3) == Object([]) && NodeAt(4) == ExpressionStatement(5) && NodeAt(12) == ExpressionStatement(13)
  {
  }

  lemma CallNodes()
    ensures NodeAt(5) == Call(6, [9, 10, 11]) && NodeAt(6) == Member(7, 8, false) && NodeAt(7) == Identifier("Reflect")
    ensures NodeAt(8) == Identifier("set") && NodeAt(9) == Identifier("o") && NodeAt(10).Literal?
    ensures NodeAt(11) == Identifier("window")
  {
  }

  lemma WriteNodes()
    ensures NodeAt(12) == ExpressionStatement(13) && NodeAt(13) == Assignment(true, 14, 19) &&
      NodeAt(14) == Member(15, 18, false)
    ensures NodeAt(15) == Member(16, 17, false) && NodeAt(16) == Identifier("o") && NodeAt(17) == Identifier("b")
    ensures NodeAt(18) == Identifier("leak") && NodeAt(19).Literal?
  {
  }

  // ---- Names ----------------------------------------------------------------------------------

  const OBJECT := Binding(0, "o")

  lemma Scopes(n: NodeId)
    requires n < SIZE
    ensures ScopeOf(File(), n) == 0
  {
    hide Fitting, FileOf, File;
    assert |File().nodes| == SIZE;
    ScopesAre(Layout(), n);
  }

  lemma VariableDeclares()
    ensures PlainNames(File(), 1) == {OBJECT} && NodeFlows(File(), 1) == {Flow(OBJECT, 3, [])}
  {
    hide Fitting, FileOf, File, Layout, WellFormed, SubPatterns;
    var p := File();
    Scopes(1);
    DeclarationNodes();
    hide NodeAt, ParentAt;
    var bounds := NodePatterns(p, 1).1;
    assert bounds == [Bound(2, Some(3), [])];
    assert PatternNames(p, 0, bounds[0]) == {OBJECT};
    assert PatternFlows(p, 0, bounds[0]) == {Flow(OBJECT, 3, [])};
  }

  lemma NoFunction(n: NodeId)
    requires n < SIZE
    ensures !NodeAt(n).Function? && !NodeAt(n).Block? && (NodeAt(n).VariableDeclaration? ==> n == 1)
    ensures NodeAt(n).Call? ==> n == 5
    ensures NodeAt(n).Assignment? ==> n == 13
  {
  }

  lemma NodeDeclares(n: NodeId)
    requires n < SIZE
    ensures PlainNames(File(), n) == (if n == 1 then {OBJECT} else {}) && SelfNames(File(), n) == {}
    ensures NodeFlows(File(), n) == (if n == 1 then {Flow(OBJECT, 3, [])} else {}) && NodeReturns(File(), n) == {}
  {
    hide Fitting, FileOf, File, Layout, WellFormed, PlainNames, NodeFlows;
    NoFunction(n);
    if n == 1 { VariableDeclares(); } else { NothingDeclared(n); }
  }

  lemma NamesAre()
    ensures Plain(File()) == Names(File()) == {OBJECT} && Flows(File()) == {Flow(OBJECT, 3, [])} &&
      Returns(File()) == {}
  {
    hide Fitting, FileOf, File, Layout, WellFormed, PlainNames, SelfNames, NodeFlows, NodeReturns;
    var p := File();
    forall n: NodeId | n < SIZE
      ensures PlainNames(p, n) == (if n == 1 then {OBJECT} else {}) && SelfNames(p, n) == {}
      ensures NodeFlows(p, n) == (if n == 1 then {Flow(OBJECT, 3, [])} else {}) && NodeReturns(p, n) == {}
    {
      NodeDeclares(n);
    }
    assert OBJECT in PlainNames(p, 1) && OBJECT in PlainNames(p, 1) + SelfNames(p, 1);
    assert Flow(OBJECT, 3, []) in NodeFlows(p, 1);
  }

  lemma LongNamesAreFree(x: string)
    requires |x| > 1
    ensures Lookup(File(), Names(File()), 0, x) == None
  {
    hide Fitting, FileOf, File, Layout, WellFormed, Names, Plain, Flows, Returns;
    NamesAre();
  }

  lemma ObjectLookedUp()
    ensures Lookup(File(), Names(File()), 0, "o") == Some(OBJECT)
  {
    hide Fitting, FileOf, File, Layout, WellFormed, Names, Plain, Flows, Returns;
    NamesAre();
  }

  // ---- The analysis ---------------------------------------------------------------------------

  /** A closed state in which the object is what its literal says. */
  ghost function Guess(): State {
    AbstractValues.State(map[OBJECT := {NodeValue(3)}], map[])
  }

  lemma NameEvaluatesToObject()
    ensures ValuesAt(File(), Guess(), 16) == {NodeValue(3)}
  {
    hide Fitting, FileOf, File, Layout, WellFormed, ValuesAt, Lookup, Names, ScopeOf;
    WriteNodes();
    hide NodeAt, ParentAt;
    Scopes(16);
    ObjectLookedUp();
    NameEvaluates(File(), Guess(), 16, Some(OBJECT));
  }

  /** The literal has no property. */
  lemma PropertyEvaluates()
    ensures ValuesAt(File(), Guess(), 15) == {}
  {
    hide Fitting, FileOf, File, Layout, WellFormed, ValuesAt, FlatHeld, NonComputed;
    DeclarationNodes();
    WriteNodes();
    hide NodeAt, ParentAt;
    FileIsFollowable();
    NameEvaluatesToObject();
    MemberEvaluates(File(), Guess(), 15);
  }

  lemma CalleeEvaluates()
    ensures forall v :: v in ValuesAt(File(), Guess(), 6) ==> !v.NodeValue?
  {
    hide Fitting, FileOf, File, Layout, WellFormed, ValuesAt, FlatHeld, NonComputed, FreeValues, Lookup, Names, ScopeOf;
    CallNodes();
    hide NodeAt, ParentAt;
    FileIsFollowable();
    Scopes(7);
    LongNamesAreFree("Reflect");
    NameEvaluates(File(), Guess(), 7, None);
    FreeIsNoNode("Reflect");
    MemberIsNoNode(File(), Guess(), 6);
  }

  lemma NodeIsMet(n: NodeId)
    requires n < SIZE
    ensures AssignmentMet(File(), Guess(), EvaluateBy(File(), Guess()), n) && PassesNothing(File(), Guess(), n)
  {
    hide Fitting, FileOf, File, Layout, WellFormed, Lookup, Names, ValuesAt, Guarded, NodeAt, ParentAt;
    hide AssignmentMet, PassesNothing, AssignedBinding, EvaluateBy;
    NoFunction(n);
    CallNodes();
    WriteNodes();
    CalleeEvaluates();
    AsksNothing(File(), Guess(), n);
  }

  lemma FlowsHold()
    ensures Returns(File()) == {}
    ensures forall f :: f in Flows(File()) ==>
              f.path == [] && ValuesAt(File(), Guess(), f.init) <= BindingValues(Guess(), f.target)
  {
    hide Fitting, FileOf, File, Layout, WellFormed, ValuesAt, Names, Plain, Flows, Returns;
    NamesAre();
    DeclarationNodes();
    hide NodeAt, ParentAt;
    ObjectEvaluates(File(), Guess(), 3);
  }

  lemma DeclarationsHold()
    ensures DeclarationsMet(File(), Guess())
  {
    hide Fitting, FileOf, File, Layout, WellFormed;
    forall n: NodeId | n < SIZE ensures !NodeAt(n).Function? { NoFunction(n); }
  }

  lemma GuessIsClosed()
    ensures Closed(File(), Guess())
  {
    hide Fitting, FileOf, File, Layout, WellFormed, Guarded, Names, Flows, Returns, AssignmentMet, PassesNothing;
    hide DeclarationsMet, NodeAt, ParentAt;
    var p, s := File(), Guess();
    FlowsHold();
    DeclarationsHold();
    forall n: NodeId | n < SIZE
      ensures AssignmentMet(p, s, EvaluateBy(p, s), n) && PassesNothing(p, s, n)
    {
      NodeIsMet(n);
    }
    ArgumentlessClosed(p, s);
  }

  lemma NodeIsQuiet(n: NodeId)
    requires n < SIZE
    ensures Quiet(File(), Guess(), n)
  {
    hide Fitting, FileOf, File, Layout, WellFormed, ValuesAt, Lookup, Names, ScopeOf, Quiet;
    var p, s := File(), Guess();
    if n == 13 {
      WriteNodes();
      PropertyEvaluates();
      LiteralEvaluates(p, s, 19);
      QuietMemberWrite(p, s, n);
    } else {
      QuietWithoutWrite(p, s, n);
    }
  }

  lemma AllIsQuiet()
    ensures forall n: NodeId :: n < SIZE ==> Quiet(File(), Guess(), n)
  {
    hide Fitting, FileOf, File, Layout, WellFormed, Quiet, NodeAt, ParentAt;
    forall n: NodeId | n < SIZE ensures Quiet(File(), Guess(), n) { NodeIsQuiet(n); }
  }

  /** The global is an argument. */
  lemma GlobalIsPassed(s: State)
    ensures !Confined(File(), s)
  {
    hide Fitting, FileOf, File, Layout, WellFormed, Lookup, Names, ValuesAt, ScopeOf;
    CallNodes();
    assert File().nodes[5].arguments[2] == 11;
    hide NodeAt, ParentAt;
    Scopes(11);
    LongNamesAreFree("window");
    WindowIsFree();
    NameEvaluates(File(), s, 11, None);
  }

  // ---- The fragment -----------------------------------------------------------------------------

  lemma FileIsInFragment()
    ensures InFragment(File())
  {
    hide Fitting, FileOf, File, Layout, WellFormed, Followable, Names, Plain, NodeAt, ParentAt, SeesVariable;
    hide BodyVars, FrameNames;
    var p := File();
    FileIsFollowable();
    forall n: NodeId | n < SIZE ensures !NodeAt(n).Function? && !NodeAt(n).Block? { NoFunction(n); }
    forall n: NodeId | n < SIZE && NodeAt(n).Identifier? ensures SeesVariable(p, ScopeOf(p, n), NodeAt(n).name) {
      NoVarIsSeen(p, ScopeOf(p, n), NodeAt(n).name);
    }
  }

  // ---- The run ------------------------------------------------------------------------------------

  /** The machine in the module, when `o` is `v` and the object's properties are stored as given. */
  ghost function Module(v: Value, stored: map<string, Value>, clock: nat): Machine {
    EMPTY.(frames := [Frame(0, map["o" := v])], heap := [Cell(3, [], map[], stored)], clock := clock)
  }

  ghost function Start(): Machine {
    EMPTY.(frames := [Frame(0, map["o" := Prim])])
  }

  /** When `Reflect.set` is called, it sets the property, which can be read back. */
  ghost predicate Reflects(host: Host) {
    && Elsewhere(host) && host.recalls
    && (forall t, fuel, after :: !host.throws(t, 5, fuel, after))
    && forall t, fuel :: host.acts(t, 5, fuel) == [Put(Ref(0), "b", Global)]
  }

  /** Nothing else happens, and only primitives are returned. */
  ghost predicate Elsewhere(host: Host) {
    && host.earlier == [] && host.later == [] && (forall t :: host.answer(t) == Prim)
    && forall n: NodeId :: n != 5 ==> Idle(host, n)
  }

  lemma FrameIs()
    ensures FrameNames(File(), 0) == {"o"} && !IsBody(File(), 0)
  {
    hide Fitting, FileOf, File, Layout, WellFormed, Names, Plain;
    NamesAre();
    assert OBJECT in Plain(File());
    NoFunction(0);
  }

  lemma Started()
    ensures Hoist(File(), NewFrame(File(), EMPTY, [], 0), [0], 0, [1, 4, 12]) == Start()
  {
    hide Fitting, FileOf, File, Layout, WellFormed, FrameNames, ParentAt, Plain, IsBody, NodeAt, Hoist, NewFrame;
    FrameIs();
    DeclarationNodes();
    FrameStarts(File(), EMPTY, [], 0, map["o" := Prim]);
    assert EMPTY.frames + [Frame(0, map["o" := Prim])] == Start().frames;
    NothingHoisted(File(), Start(), [0], 0, [1, 4, 12]);
  }

  lemma DeclarationRuns(host: Host, fuel: nat)
    requires Elsewhere(host) && fuel > 1
    ensures Run(File(), host, Start(), [0], 1, fuel) == Done(Module(Ref(0), map[], 0), Prim)
  {
    hide Fitting, FileOf, File, Layout, WellFormed, Run, NodeAt, ParentAt;
    var p, m := File(), Start();
    DeclarationNodes();
    EmptyObjectRuns(p, host, m, [0], 3, fuel - 1);
    var made := m.(heap := [Cell(3, [], map[], map[])]);
    SmallRuns.DeclarationRuns(p, host, m, [0], 1, 2, 3, fuel, 0, Done(made, Ref(0)));
    assert map["o" := Prim]["o" := Ref(0)] == map["o" := Ref(0)];
    assert SetVar(made, 0, "o", Ref(0)).frames == Module(Ref(0), map[], 0).frames;
  }

  lemma ReflectIsHost(host: Host, m: Machine)
    requires m == Module(Ref(0), map[], 0)
    ensures ReadName(host, m, [0], "Reflect") == Done(m, Prim)
  {
    assert |"Reflect"| == 7 && |"o"| == 1;
    FoundNowhere(m, [0], "Reflect");
    assert "Reflect"[0] == 'R' && forall x :: x in GLOBAL_NAMES ==> x[0] != 'R';
  }

  lemma CalleeRuns(host: Host, fuel: nat)
    requires Elsewhere(host) && fuel > 1
    ensures Run(File(), host, Module(Ref(0), map[], 0), [0], 6, fuel) == Done(Module(Ref(0), map[], 0), Prim)
  {
    hide Fitting, FileOf, File, Layout, WellFormed, Run, NodeAt, ParentAt, ReadName;
    var p, m := File(), Module(Ref(0), map[], 0);
    CallNodes();
    ReflectIsHost(host, m);
    NameRuns(p, host, m, [0], 7, fuel - 1);
    MemberRuns(p, host, m, [0], 6, fuel, Done(m, Prim));
  }

  lemma ArgumentsRun(host: Host, fuel: nat)
    requires Elsewhere(host) && fuel > 0
    ensures RunList(File(), host, Module(Ref(0), map[], 0), [0], [9, 10, 11], fuel) ==
            Result(Module(Ref(0), map[], 0), Normal(Prim), [Ref(0), Prim, Global])
  {
    hide Fitting, FileOf, File, Layout, WellFormed, Run, NodeAt, ParentAt, ReadName, RunList;
    var p, m := File(), Module(Ref(0), map[], 0);
    CallNodes();
    assert |"window"| == 6 && |"o"| == 1;
    FoundInFrame(host, m, [0], "o");
    WindowIsGlobal(host, m, [0]);
    NameRuns(p, host, m, [0], 9, fuel);
    LiteralRuns(p, host, m, [0], 10, fuel);
    NameRuns(p, host, m, [0], 11, fuel);
    assert [10] + [11] == [10, 11] && [Prim] + [Global] == [Prim, Global];
    assert [9] + [10, 11] == [9, 10, 11] && [Ref(0)] + [Prim, Global] == [Ref(0), Prim, Global];
    LastNodeRuns(p, host, m, [0], 11, fuel, Done(m, Global));
    NextNodeRuns(p, host, m, [0], 10, [11], fuel, Done(m, Prim), Result(m, Normal(Prim), [Global]));
    NextNodeRuns(p, host, m, [0], 9, [10, 11], fuel, Done(m, Ref(0)), Result(m, Normal(Prim), [Prim, Global]));
  }

  /** The call changes the object. */
  lemma CallRuns(host: Host, fuel: nat)
    requires Reflects(host) && fuel > 4
    ensures Run(File(), host, Module(Ref(0), map[], 0), [0], 4, fuel) ==
      Done(Module(Ref(0), map["b" := Global], 1), Prim)
  {
    hide Fitting, FileOf, File, Layout, WellFormed, Run, NodeAt, ParentAt, RunList, HostActs;
    var p, m := File(), Module(Ref(0), map[], 0);
    CallNodes();
    DeclarationNodes();
    CalleeRuns(host, fuel - 2);
    ArgumentsRun(host, fuel - 2);
    var values := [Prim] + [Ref(0), Prim, Global];
    NextNodeRuns(p, host, m, [0], 6, [9, 10, 11], fuel - 2, Done(m, Prim),
                 Result(m, Normal(Prim), [Ref(0), Prim, Global]));
    HostRuns(p, host, m, [0], 5, fuel - 1, Result(m, Normal(Prim), values));
    HostStores(p, host, Tick(m), Ref(0), "b", Global, fuel - 2);
    assert Store(Tick(m), Ref(0), "b", Global).heap == Module(Ref(0), map["b" := Global], 1).heap;
    StatementRuns(p, host, m, [0], 4, fuel, Done(Module(Ref(0), map["b" := Global], 1), Prim));
  }

  /** The changed property is read back. */
  lemma PropertyRuns(host: Host, fuel: nat)
    requires Reflects(host) && fuel > 1
    ensures var m := Module(Ref(0), map["b" := Global], 1); Run(File(), host, m, [0], 15, fuel) == Done(m, Global)
  {
    hide Fitting, FileOf, File, Layout, WellFormed, Run, NodeAt, ParentAt, ReadName;
    var p, m := File(), Module(Ref(0), map["b" := Global], 1);
    WriteNodes();
    FoundInFrame(host, m, [0], "o");
    NameRuns(p, host, m, [0], 16, fuel - 1);
    MemberRuns(p, host, m, [0], 15, fuel, Done(m, Ref(0)));
  }

  lemma WriteRuns(host: Host, fuel: nat)
    requires Reflects(host) && fuel > 3
    ensures var m := Module(Ref(0), map["b" := Global], 1);
            Run(File(), host, m, [0], 12, fuel) == Done(WriteGlobal(m, "leak", Prim), Prim)
  {
    hide Fitting, FileOf, File, Layout, WellFormed, Run, NodeAt, ParentAt, WriteGlobal, Module;
    var p, m := File(), Module(Ref(0), map["b" := Global], 1);
    WriteNodes();
    PropertyRuns(host, fuel - 2);
    LiteralRuns(p, host, m, [0], 19, fuel - 2);
    GlobalWriteRuns(p, host, m, [0], 13, fuel - 1, Done(m, Global), Prim);
    StatementRuns(p, host, m, [0], 12, fuel, Done(WriteGlobal(m, "leak", Prim), Prim));
  }

  lemma ModuleRuns(host: Host, fuel: nat)
    requires Reflects(host) && fuel > 4
    ensures "leak" in RunModule(File(), host, fuel).m.written
  {
    hide Fitting, FileOf, File, Layout, WellFormed, Run, ParentAt, NodeAt, NewFrame, Hoist, RunList, RunModule;
    hide Module, Start;
    var p, made, changed := File(), Module(Ref(0), map[], 0), Module(Ref(0), map["b" := Global], 1);
    Started();
    DeclarationNodes();
    ModuleStarts(p, host, Start(), fuel);
    DeclarationRuns(host, fuel);
    CallRuns(host, fuel);
    WriteRuns(host, fuel);
    var last := WriteGlobal(changed, "leak", Prim);
    assert [1] + [4, 12] == [1, 4, 12] && [4] + [12] == [4, 12] && [Prim] + [Prim] == [Prim, Prim];
    LastNodeRuns(p, host, changed, [0], 12, fuel, Done(last, Prim));
    NextNodeRuns(p, host, made, [0], 4, [12], fuel, Done(changed, Prim), Result(last, Normal(Prim), [Prim]));
    NextNodeRuns(p, host, Start(), [0], 1, [4, 12], fuel, Done(made, Prim), Result(last, Normal(Prim), [Prim, Prim]));
  }

  lemma ReadsBack(host: Host)
    requires Reflects(host)
    ensures !Tame(host)
  {
  }

  /** The file is in the fragment. With a host whose function stores the global in the object, every run writes
      a name that no final state of the analysis shows. */
  lemma ChangedObjectEscapes(host: Host, fuel: nat, s: State)
    requires Reflects(host) && fuel > 4 && Final(File(), s)
    ensures InFragment(File()) && !Tame(host) && !Confined(File(), s)
    ensures Problems(File(), s) == {} && Exports(File(), s) == {}
    ensures "leak" in RunModule(File(), host, fuel).m.written
  {
    hide Fitting, FileOf, File, Layout, WellFormed, Final, InFragment, Exports, Problems, RunModule, Careful;
    hide Quiet, Closed;
    hide Reflects, Confined;
    assert |File().nodes| == SIZE;
    FileIsInFragment();
    GuessIsClosed();
    AllIsQuiet();
    NothingSeen(Layout(), s, Guess());
    GlobalIsPassed(s);
    ReadsBack(host);
    ModuleRuns(host, fuel);
  }
}

/**
 Why soundness asks that host code returns no objects. In

     Object.freeze({ a: window }).a.leak = 1;

 the host function returns the object that it is given, which holds the browser global. The
 analysis takes nothing to be returned, so it knows nothing of the object that is written.
 */
module ReturnedObject {
  import opened Wrappers
  import opened Syntax
  import opened AbstractValues
  import opened GuardedEvaluation
  import opened FlowEquations
  import opened Fixpoint
  import opened Report
  import opened RunSemantics
  import opened Soundness
  import opened RendererSource
  import opened SmallFiles
  import opened SmallRuns

  const SIZE: nat := 15

  function NodeAt(n: nat): Node {
    match n
    case 0 => Program([1])
    case 1 => ExpressionStatement(2)
    case 2 => Assignment(true, 3, 14)
    case 3 => Member(4, 13, false)
    case 4 => Member(5, 12, false)
    case 5 => Call(6, [9])
    case 6 => Member(7, 8, false)
    case 7 => Identifier("Object")
    case 8 => Identifier("freeze")
    case 9 => Object([Property(10, false, 11, Init)])
    case 10 => Identifier("a")
    case 11 => Identifier("window")
    case 12 => Identifier("a")
    case 13 => Identifier("leak")
    case _ => Literal(true, "1")
  }

  function ParentAt(n: nat): NodeId {
    match n
    case 2 => 1
    case 3 => 2
    case 4 => 3
    case 5 => 4
    case 6 => 5
    case 7 => 6
    case 8 => 6
    case 9 => 5
    case 10 => 9
    case 11 => 9
    case 12 => 4
    case 13 => 3
    case 14 => 2
    case _ => 0
  }

  function ChildrenAt(n: nat): seq<NodeId> {
    match n
    case 0 => [1]
    case 1 => [2]
    case 2 => [3, 14]
    case 3 => [4, 13]
    case 4 => [5, 12]
    case 5 => [6, 9]
    case 6 => [7, 8]
    case 9 => [10, 11]
    case _ => []
  }

  function ScopeAt(n: nat): NodeId {
    0
  }

  ghost function Layout(): Shape {
    Shape(SIZE, NodeAt, ParentAt, ChildrenAt, ScopeAt)
  }

  lemma NodeIsInFront(n: nat, k: NodeId)
    requires n < SIZE
    ensures InFront(Layout(), n, k)
  {
  }

  lemma NodeHasKids(n: nat)
    requires n < SIZE
    ensures HasKids(Layout(), n)
  {
    hide Flatten;
    if n == 9 { ChildrenOfOne(Declarator(0, None), Property(10, false, 11, Init)); }
  }

  lemma NodeIsAttached(n: nat)
    requires n < SIZE
    ensures Attached(Layout(), n)
  {
  }

  lemma NodeIsScoped(n: nat)
    requires n < SIZE
    ensures Scoped(Layout(), n)
  {
  }

  lemma NodeIsSimple(n: nat)
    requires n < SIZE
    ensures Simple(Layout(), n) && Placed(Layout(), n)
  {
  }

  ghost function File(): File
    ensures |File().nodes| == SIZE && File().isModule && Fitting(Layout()) && File() == FileOf(Layout())
    ensures forall n {:trigger File().nodes[n]} :: 0 <= n < SIZE ==> File().nodes[n] == NodeAt(n)
    ensures forall n {:trigger File().parent[n]} :: 0 <= n < SIZE ==> File().parent[n] == ParentAt(n)
  {
    assert Fitting(Layout()) by {
      hide HasKids, InFront, Attached, Scoped, Simple, Placed;
      forall n: nat | n < SIZE ensures Fits(Layout(), n) {
        NodeHasKids(n);
        forall k: NodeId ensures InFront(Layout(), n, k) { NodeIsInFront(n, k); }
        NodeIsAttached(n);
        NodeIsScoped(n);
        NodeIsSimple(n);
      }
    }
    FileOf(Layout())
  }

  lemma NodeIsNameless(n: nat)
    requires n < SIZE
    ensures !NodeAt(n).Function? && !NodeAt(n).VariableDeclaration?
  {
  }

  lemma FileIsNameless()
    ensures Nameless(Layout()) && File() == FileOf(Layout()) && InFragment(File()) && Plain(File()) == {}
  {
    hide Fitting, FileOf, File, InFragment, Plain, NodeAt, ParentAt, ChildrenAt;
    assert |File().nodes| == SIZE;
    forall n: nat | n < SIZE ensures !NodeAt(n).Function? && !NodeAt(n).VariableDeclaration? { NodeIsNameless(n); }
    NamelessInFragment(Layout());
    NamelessNames(Layout());
  }

  lemma FileIsStatic()
    ensures NonComputed(File()) && FlatHeld(File())
  {
    hide NonComputed, FlatHeld, File, Layout, Nameless;
    FileIsNameless();
  }

  lemma WriteNodes()
    ensures NodeAt(0) == Program([1]) && NodeAt(1) == ExpressionStatement(2) && NodeAt(2) == Assignment(true, 3, 14)
    ensures NodeAt(3) == Member(4, 13, false) && NodeAt(13) == Identifier("leak") && NodeAt(14).Literal?
  {
  }

  lemma CallNodes()
    ensures NodeAt(4) == Member(5, 12, false) && NodeAt(12) == Identifier("a") && NodeAt(5) == Call(6, [9])
    ensures NodeAt(6) == Member(7, 8, false) && NodeAt(7) == Identifier("Object") && NodeAt(8) == Identifier("freeze")
  {
  }

  lemma ObjectNodes()
    ensures NodeAt(9) == Object([Property(10, false, 11, Init)])
    ensures NodeAt(10) == Identifier("a") && NodeAt(11) == Identifier("window")
  {
  }

  // ---- The analysis ---------------------------------------------------------------------------

  lemma CallEvaluates()
    ensures ValuesAt(File(), Nothing(), 5) == {}
  {
    hide Fitting, FileOf, File, Layout, WellFormed, ValuesAt, FlatHeld, NonComputed, EvaluateBy, GuardedBy;
    FileIsStatic();
    CallNodes();
    EvaluateEquation(File(), Nothing(), 5);
  }

  lemma ReceiverEvaluates()
    ensures ValuesAt(File(), Nothing(), 4) == {}
  {
    hide Fitting, FileOf, File, Layout, WellFormed, ValuesAt, FlatHeld, NonComputed;
    FileIsStatic();
    CallNodes();
    CallEvaluates();
    MemberEvaluates(File(), Nothing(), 4);
  }

  /** The only call is of a member of a builtin. */
  lemma CalleeEvaluates()
    ensures forall v :: v in ValuesAt(File(), Nothing(), 6) ==> !v.NodeValue?
  {
    hide Fitting, FileOf, File, WellFormed, ValuesAt, FlatHeld, NonComputed, FreeValues, InFragment;
    FileIsNameless();
    FileIsStatic();
    CallNodes();
    FreeName(Layout(), Nothing(), 7);
    FreeIsNoNode("Object");
    MemberIsNoNode(File(), Nothing(), 6);
  }

  lemma OneCall(n: NodeId)
    requires n < SIZE && NodeAt(n).Call?
    ensures NodeAt(n).callee == 6
  {
  }

  /** The object holds the global. */
  lemma GlobalIsHeld(s: State)
    ensures !Confined(File(), s)
  {
    hide Fitting, FileOf, File, WellFormed, ValuesAt, InFragment;
    FileIsNameless();
    ObjectNodes();
    FreeName(Layout(), s, 11);
    WindowIsFree();
    assert File().nodes[9].properties[0].value == 11;
  }

  lemma NodeIsQuiet(n: NodeId)
    requires n < SIZE
    ensures Quiet(File(), Nothing(), n)
  {
    hide Fitting, FileOf, File, Layout, WellFormed, ValuesAt, Lookup, Names, ScopeOf, Quiet;
    var p, s := File(), Nothing();
    if n == 2 {
      WriteNodes();
      ReceiverEvaluates();
      LiteralEvaluates(p, s, 14);
      QuietMemberWrite(p, s, n);
    } else {
      QuietWithoutWrite(p, s, n);
    }
  }

  lemma AllIsQuiet()
    ensures forall n: NodeId :: n < SIZE ==> Quiet(File(), Nothing(), n)
  {
    hide Fitting, FileOf, File, Layout, WellFormed, Quiet, NodeAt, ParentAt;
    forall n: NodeId | n < SIZE ensures Quiet(File(), Nothing(), n) { NodeIsQuiet(n); }
  }

  // ---- The run ------------------------------------------------------------------------------------

  const OBJECT := Cell(9, [], map["a" := Global], map[])

  /** The machine when the module body starts. */
  ghost function Start(): Machine {
    EMPTY.(frames := [Frame(0, map[])])
  }

  /** The machine after the call. */
  ghost function Frozen(): Machine {
    Start().(heap := [OBJECT], clock := 1)
  }

  /** The first thing that host code is called for, it returns the object, which is all it hands to the module. */
  ghost predicate GivesBack(host: Host) {
    Calm(host) && !host.recalls && host.answer(0) == Ref(0) && forall t :: t > 0 ==> host.answer(t) == Prim
  }

  lemma Started()
    ensures Hoist(File(), NewFrame(File(), EMPTY, [], 0), [0], 0, [1]) == Start()
  {
    hide Fitting, FileOf, File, Layout, WellFormed, ParentAt, NodeAt, Plain, Hoist, NewFrame, InFragment, Nameless;
    FileIsNameless();
    WriteNodes();
    FrameStarts(File(), EMPTY, [], 0, map[]);
    assert EMPTY.frames + [Frame(0, map[])] == Start().frames;
    NothingHoisted(File(), Start(), [0], 0, [1]);
  }

  lemma CalleeRuns(host: Host, fuel: nat)
    requires Calm(host) && fuel > 1
    ensures Run(File(), host, Start(), [0], 6, fuel) == Done(Start(), Prim)
  {
    hide Fitting, FileOf, File, Layout, WellFormed, Run, NodeAt, ParentAt, ReadName;
    var p, m := File(), Start();
    CallNodes();
    ObjectIsHost(host, m);
    NameRuns(p, host, m, [0], 7, fuel - 1);
    MemberRuns(p, host, m, [0], 6, fuel, Done(m, Prim));
  }

  lemma ObjectIsHost(host: Host, m: Machine)
    requires m == Start()
    ensures ReadName(host, m, [0], "Object") == Done(m, Prim)
  {
    FoundNowhere(m, [0], "Object");
    assert "Object"[0] == 'O' && forall x :: x in GLOBAL_NAMES ==> x[0] != 'O';
  }

  lemma ObjectMade(host: Host, fuel: nat)
    requires Calm(host) && fuel > 1
    ensures Run(File(), host, Start(), [0], 9, fuel) == Done(Start().(heap := [OBJECT]), Ref(0))
  {
    hide Fitting, FileOf, File, Layout, WellFormed, Run, NodeAt, ParentAt, ReadName;
    var p, m := File(), Start();
    ObjectNodes();
    WindowIsGlobal(host, m, [0]);
    NameRuns(p, host, m, [0], 11, fuel - 1);
    ObjectRuns(p, host, m, [0], 9, Property(10, false, 11, Init), "a", fuel, Global);
  }

  lemma CallPartsRun(host: Host, fuel: nat)
    requires Calm(host) && fuel > 1
    ensures RunList(File(), host, Start(), [0], [6] + [9], fuel) ==
            Result(Start().(heap := [OBJECT]), Normal(Prim), [Prim, Ref(0)])
  {
    hide Fitting, FileOf, File, Layout, WellFormed, Run, ParentAt, NodeAt, RunList;
    var p, m, made := File(), Start(), Start().(heap := [OBJECT]);
    CalleeRuns(host, fuel);
    ObjectMade(host, fuel);
    LastNodeRuns(p, host, m, [0], 9, fuel, Done(made, Ref(0)));
    NextNodeRuns(p, host, m, [0], 6, [9], fuel, Done(m, Prim), Result(made, Normal(Prim), [Ref(0)]));
    assert [Prim] + [Ref(0)] == [Prim, Ref(0)];
  }

  lemma CallRuns(host: Host, fuel: nat)
    requires GivesBack(host) && fuel > 2
    ensures Run(File(), host, Start(), [0], 5, fuel) == Done(Frozen(), Ref(0))
  {
    hide Fitting, FileOf, File, Layout, WellFormed, Run, ParentAt, NodeAt, RunList, Apply;
    var made := Start().(heap := [OBJECT]);
    CallNodes();
    CallPartsRun(host, fuel - 1);
    HostReturns(File(), host, made, [Ref(0)], fuel - 1);
    assert [Prim, Ref(0)][1..] == [Ref(0)];
    SmallRuns.CallRuns(File(), host, Start(), [0], 5, fuel, Result(made, Normal(Prim), [Prim, Ref(0)]));
  }

  lemma ReceiverRuns(host: Host, fuel: nat)
    requires GivesBack(host) && fuel > 3
    ensures Run(File(), host, Start(), [0], 4, fuel) == Done(Frozen(), Global)
  {
    hide Fitting, FileOf, File, Layout, WellFormed, Run, ParentAt, NodeAt, ReadMember;
    CallNodes();
    CallRuns(host, fuel - 1);
    FieldRead(host, Frozen(), 0, "a");
    MemberRuns(File(), host, Start(), [0], 4, fuel, Done(Frozen(), Ref(0)));
  }

  lemma ModuleRuns(host: Host, fuel: nat)
    requires GivesBack(host) && fuel > 6
    ensures "leak" in RunModule(File(), host, fuel).m.written
  {
    hide Fitting, FileOf, File, Layout, WellFormed, Run, ParentAt, NodeAt, NewFrame, Hoist, RunList;
    hide WriteGlobal, Start, Frozen;
    var p := File();
    Started();
    WriteNodes();
    ReceiverRuns(host, fuel - 2);
    LiteralRuns(p, host, Frozen(), [0], 14, fuel - 2);
    GlobalWriteRuns(p, host, Start(), [0], 2, fuel - 1, Done(Frozen(), Global), Prim);
    var last := WriteGlobal(Frozen(), "leak", Prim);
    StatementRuns(p, host, Start(), [0], 1, fuel, Done(last, Prim));
    LastNodeRuns(p, host, Start(), [0], 1, fuel, Done(last, Prim));
    assert "leak" in last.written by { WrittenIsWritten(Frozen()); }
  }

  lemma WrittenIsWritten(m: Machine)
    ensures "leak" in WriteGlobal(m, "leak", Prim).written
  {
  }

  lemma HandsAnObject(host: Host)
    requires GivesBack(host)
    ensures !Tame(host) && Reserved(host)
  {
    hide Calm;
    CalmIsCareful(Goal({}, false), host);
  }

  /** The file is in the fragment. With a host that returns the object, as `freeze` does, every run writes a
      name that no final state of the analysis shows. */
  lemma ReturnedObjectEscapes(host: Host, fuel: nat, s: State)
    requires GivesBack(host) && fuel > 6 && Final(File(), s)
    ensures InFragment(File()) && !Tame(host) && Reserved(host) && !Confined(File(), s)
    ensures Problems(File(), s) == {} && Exports(File(), s) == {}
    ensures "leak" in RunModule(File(), host, fuel).m.written
  {
    hide Fitting, FileOf, File, WellFormed, Final, InFragment, Exports, Problems, RunModule, Careful, Quiet;
    hide Closed, ValuesAt, Confined;
    assert |File().nodes| == SIZE;
    FileIsNameless();
    CalleeEvaluates();
    forall n: NodeId | n < SIZE && NodeAt(n).Call? ensures NodeAt(n).callee == 6 { OneCall(n); }
    NothingIsClosed(Layout());
    GlobalIsHeld(s);
    HandsAnObject(host);
    AllIsQuiet();
    NothingSeen(Layout(), s, Nothing());
    ModuleRuns(host, fuel);
  }
}

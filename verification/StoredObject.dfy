/**
 Why soundness asks that nothing stored is read back. In

     document.o = { a: window };
     document.o.a.leak = 1;

 the object that is written is read back from where the module has stored it. The analysis
 follows no stores outside of object literals. It complains if the browser global itself is
 stored there, but not about an object that holds it.
 */
module StoredObject {
  import opened Wrappers
  import opened Syntax
  import opened AbstractValues
  import opened GuardedEvaluation
  import opened FlowEquations
  import opened Fixpoint
  import opened Report
  import opened RunSemantics
  import opened Soundness
  import opened RendererSource
  import opened SmallFiles
  import opened SmallRuns

  const SIZE: nat := 19

  function NodeAt(n: nat): Node {
    match n
    case 0 => Program([1, 9])
    case 1 => ExpressionStatement(2)
    case 2 => Assignment(true, 3, 6)
    case 3 => Member(4, 5, false)
    case 4 => Identifier("document")
    case 5 => Identifier("o")
    case 6 => Object([Property(7, false, 8, Init)])
    case 7 => Identifier("a")
    case 8 => Identifier("window")
    case 9 => ExpressionStatement(10)
    case 10 => Assignment(true, 11, 18)
    case 11 => Member(12, 17, false)
    case 12 => Member(13, 16, false)
    case 13 => Member(14, 15, false)
    case 14 => Identifier("document")
    case 15 => Identifier("o")
    case 16 => Identifier("a")
    case 17 => Identifier("leak")
    case _ => Literal(true, "1")
  }

  function ParentAt(n: nat): NodeId {
    match n
    case 2 => 1
    case 3 => 2
    case 4 => 3
    case 5 => 3
    case 6 => 2
    case 7 => 6
    case 8 => 6
    case 10 => 9
    case 11 => 10
    case 12 => 11
    case 13 => 12
    case 14 => 13
    case 15 => 13
    case 16 => 12
    case 17 => 11
    case 18 => 10
    case _ => 0
  }

  function ChildrenAt(n: nat): seq<NodeId> {
    match n
    case 0 => [1, 9]
    case 1 => [2]
    case 2 => [3, 6]
    case 3 => [4, 5]
    case 6 => [7, 8]
    case 9 => [10]
    case 10 => [11, 18]
    case 11 => [12, 17]
    case 12 => [13, 16]
    case 13 => [14, 15]
    case _ => []
  }

  function ScopeAt(n: nat): NodeId {
    0
  }

  ghost function Layout(): Shape {
    Shape(SIZE, NodeAt, ParentAt, ChildrenAt, ScopeAt)
  }

  lemma NodeIsInFront(n: nat, k: NodeId)
    requires n < SIZE
    ensures InFront(Layout(), n, k)
  {
  }

  lemma NodeHasKids(n: nat)
    requires n < SIZE
    ensures HasKids(Layout(), n)
  {
    hide Flatten;
    if n == 6 { ChildrenOfOne(Declarator(0, None), Property(7, false, 8, Init)); }
  }

  lemma NodeIsAttached(n: nat)
    requires n < SIZE
    ensures Attached(Layout(), n)
  {
  }

  lemma NodeIsScoped(n: nat)
    requires n < SIZE
    ensures Scoped(Layout(), n)
  {
  }

  lemma NodeIsSimple(n: nat)
    requires n < SIZE
    ensures Simple(Layout(), n) && Placed(Layout(), n)
  {
  }

  ghost function File(): File
    ensures |File().nodes| == SIZE && File().isModule && Fitting(Layout()) && File() == FileOf(Layout())
    ensures forall n {:trigger File().nodes[n]} :: 0 <= n < SIZE ==> File().nodes[n] == NodeAt(n)
    ensures forall n {:trigger File().parent[n]} :: 0 <= n < SIZE ==> File().parent[n] == ParentAt(n)
  {
    assert Fitting(Layout()) by {
      hide HasKids, InFront, Attached, Scoped, Simple, Placed;
      forall n: nat | n < SIZE ensures Fits(Layout(), n) {
        NodeHasKids(n);
        forall k: NodeId ensures InFront(Layout(), n, k) { NodeIsInFront(n, k); }
        NodeIsAttached(n);
        NodeIsScoped(n);
        NodeIsSimple(n);
      }
    }
    FileOf(Layout())
  }

  lemma NodeIsNameless(n: nat)
    requires n < SIZE
    ensures !NodeAt(n).Function? && !NodeAt(n).VariableDeclaration?
  {
  }

  lemma FileIsNameless()
    ensures Nameless(Layout()) && File() == FileOf(Layout()) && InFragment(File()) && Plain(File()) == {}
  {
    hide Fitting, FileOf, File, InFragment, Plain, NodeAt, ParentAt, ChildrenAt;
    assert |File().nodes| == SIZE;
    forall n: nat | n < SIZE ensures !NodeAt(n).Function? && !NodeAt(n).VariableDeclaration? { NodeIsNameless(n); }
    NamelessInFragment(Layout());
    NamelessNames(Layout());
  }

  lemma FileIsStatic()
    ensures NonComputed(File()) && FlatHeld(File())
  {
    hide NonComputed, FlatHeld, File, Layout, Nameless;
    FileIsNameless();
  }

  lemma StoreNodes()
    ensures NodeAt(0) == Program([1, 9]) && NodeAt(1) == ExpressionStatement(2) && NodeAt(2) == Assignment(true, 3, 6)
    ensures NodeAt(3) == Member(4, 5, false) && NodeAt(4) == Identifier("document") && NodeAt(5) == Identifier("o")
  {
  }

  lemma ObjectNodes()
    ensures NodeAt(6) == Object([Property(7, false, 8, Init)])
    ensures NodeAt(7) == Identifier("a") && NodeAt(8) == Identifier("window")
  {
  }

  lemma ReadNodes()
    ensures NodeAt(12) == Member(13, 16, false) && NodeAt(13) == Member(14, 15, false)
    ensures NodeAt(14) == Identifier("document") && NodeAt(15) == Identifier("o") && NodeAt(16) == Identifier("a")
  {
  }

  lemma WriteNodes()
    ensures NodeAt(9) == ExpressionStatement(10) && NodeAt(10) == Assignment(true, 11, 18)
    ensures NodeAt(11) == Member(12, 17, false) && NodeAt(17) == Identifier("leak") && NodeAt(18).Literal?
  {
  }

  // ---- The analysis ---------------------------------------------------------------------------

  /** Nothing is known of host objects, nor of what is read from them. */
  lemma DocumentEvaluates()
    ensures ValuesAt(File(), Nothing(), 4) == ValuesAt(File(), Nothing(), 14) == {}
  {
    hide Fitting, FileOf, File, WellFormed, ValuesAt, FreeValues, InFragment;
    FileIsNameless();
    StoreNodes();
    ReadNodes();
    FreeName(Layout(), Nothing(), 4);
    FreeName(Layout(), Nothing(), 14);
    DocumentIsUnknown();
  }

  lemma DocumentIsUnknown()
    ensures FreeValues("document") == {}
  {
    assert "document"[0] == 'd';
    assert forall x :: x in GLOBAL_NAMES + OBJECT_BUILTINS + CODE_BUILTINS ==> x[0] != 'd';
  }

  lemma ReadsEvaluate()
    ensures ValuesAt(File(), Nothing(), 12) == {}
  {
    hide Fitting, FileOf, File, Layout, WellFormed, ValuesAt, FlatHeld, NonComputed;
    FileIsStatic();
    DocumentEvaluates();
    ReadNodes();
    MemberEvaluates(File(), Nothing(), 13);
    MemberEvaluates(File(), Nothing(), 12);
  }

  /** An object is not the global it holds. */
  lemma ObjectEvaluates()
    ensures Root !in ValuesAt(File(), Nothing(), 6)
  {
    hide Fitting, FileOf, File, Layout, WellFormed;
  }

  lemma NothingCalled(n: NodeId)
    requires n < SIZE
    ensures !NodeAt(n).Call?
  {
  }

  /** The object holds the global. */
  lemma GlobalIsHeld(s: State)
    ensures !Confined(File(), s)
  {
    hide Fitting, FileOf, File, WellFormed, ValuesAt, InFragment;
    FileIsNameless();
    ObjectNodes();
    FreeName(Layout(), s, 8);
    WindowIsFree();
    assert File().nodes[6].properties[0].value == 8;
  }

  lemma NodeIsQuiet(n: NodeId)
    requires n < SIZE
    ensures Quiet(File(), Nothing(), n)
  {
    hide Fitting, FileOf, File, Layout, WellFormed, ValuesAt, Lookup, Names, ScopeOf, Quiet;
    var p, s := File(), Nothing();
    if n == 2 {
      StoreNodes();
      DocumentEvaluates();
      ObjectEvaluates();
      QuietMemberWrite(p, s, n);
    } else if n == 10 {
      WriteNodes();
      ReadsEvaluate();
      LiteralEvaluates(p, s, 18);
      QuietMemberWrite(p, s, n);
    } else {
      QuietWithoutWrite(p, s, n);
    }
  }

  lemma AllIsQuiet()
    ensures forall n: NodeId :: n < SIZE ==> Quiet(File(), Nothing(), n)
  {
    hide Fitting, FileOf, File, Layout, WellFormed, Quiet, NodeAt, ParentAt;
    forall n: NodeId | n < SIZE ensures Quiet(File(), Nothing(), n) { NodeIsQuiet(n); }
  }

  // ---- The run ------------------------------------------------------------------------------------

  const OBJECT := Cell(6, [], map["a" := Global], map[])

  /** The machine when the module body starts. */
  ghost function Start(): Machine {
    EMPTY.(frames := [Frame(0, map[])])
  }

  /** The machine when the object is stored. */
  ghost function Stored(): Machine {
    Start().(heap := [OBJECT], lent := map["o" := Ref(0)])
  }

  /** A host that reads back what was stored, and hands nothing else to the module. */
  ghost predicate Recalls(host: Host) {
    Calm(host) && host.recalls && forall t :: host.answer(t) == Prim
  }

  lemma Started()
    ensures Hoist(File(), NewFrame(File(), EMPTY, [], 0), [0], 0, [1, 9]) == Start()
  {
    hide Fitting, FileOf, File, Layout, WellFormed, ParentAt, NodeAt, Plain, Hoist, NewFrame, InFragment, Nameless;
    FileIsNameless();
    StoreNodes();
    WriteNodes();
    FrameStarts(File(), EMPTY, [], 0, map[]);
    assert EMPTY.frames + [Frame(0, map[])] == Start().frames;
    NothingHoisted(File(), Start(), [0], 0, [1, 9]);
  }

  lemma DocumentRuns(host: Host, m: Machine, n: NodeId, fuel: nat)
    requires Recalls(host) && fuel > 0 && (n == 4 || n == 14) && m.globals == map[] && m.lent.Keys <= {"o"} &&
      m.frames == Start().frames
    ensures Run(File(), host, m, [0], n, fuel) == Done(m, Prim)
  {
    hide Fitting, FileOf, File, Layout, WellFormed, Run, NodeAt, ParentAt, ReadName;
    StoreNodes();
    ReadNodes();
    DocumentIsHost(host, m);
    NameRuns(File(), host, m, [0], n, fuel);
  }

  lemma DocumentIsHost(host: Host, m: Machine)
    requires m.globals == map[] && m.lent.Keys <= {"o"} && m.frames == Start().frames
    ensures ReadName(host, m, [0], "document") == Done(m, Prim)
  {
    FoundNowhere(m, [0], "document");
    assert |"document"| == 8 && |"o"| == 1;
    assert "document"[0] == 'd' && forall x :: x in GLOBAL_NAMES ==> x[0] != 'd';
  }

  lemma ObjectMade(host: Host, fuel: nat)
    requires Recalls(host) && fuel > 1
    ensures Run(File(), host, Start(), [0], 6, fuel) == Done(Start().(heap := [OBJECT]), Ref(0))
  {
    hide Fitting, FileOf, File, Layout, WellFormed, Run, NodeAt, ParentAt, ReadName;
    var p, m := File(), Start();
    ObjectNodes();
    WindowIsGlobal(host, m, [0]);
    NameRuns(p, host, m, [0], 8, fuel - 1);
    ObjectRuns(p, host, m, [0], 6, Property(7, false, 8, Init), "a", fuel, Global);
  }

  lemma StoreRuns(host: Host, fuel: nat)
    requires Recalls(host) && fuel > 3
    ensures Run(File(), host, Start(), [0], 1, fuel) == Done(Stored(), Prim)
  {
    hide Fitting, FileOf, File, Layout, WellFormed, Run, NodeAt, ParentAt, ReadName;
    var p, m := File(), Start();
    StoreNodes();
    DocumentRuns(host, m, 4, fuel - 2);
    ObjectMade(host, fuel - 2);
    MemberWriteRuns(p, host, m, [0], 2, fuel - 1, Done(m, Prim), Done(m.(heap := [OBJECT]), Ref(0)));
    StatementRuns(p, host, m, [0], 1, fuel, Done(Stored(), Ref(0)));
  }

  /** The object comes back. */
  lemma ReadRuns(host: Host, fuel: nat)
    requires Recalls(host) && fuel > 2
    ensures Run(File(), host, Stored(), [0], 12, fuel) == Done(Stored(), Global)
  {
    hide Fitting, FileOf, File, Layout, WellFormed, Run, NodeAt, ParentAt, ReadName;
    var p, m := File(), Stored();
    ReadNodes();
    DocumentRuns(host, m, 14, fuel - 2);
    MemberRuns(p, host, m, [0], 13, fuel - 1, Done(m, Prim));
    FieldRead(host, m, 0, "a");
    MemberRuns(p, host, m, [0], 12, fuel, Done(m, Ref(0)));
  }

  lemma WriteRuns(host: Host, fuel: nat)
    requires Recalls(host) && fuel > 4
    ensures Run(File(), host, Stored(), [0], 9, fuel) == Done(WriteGlobal(Stored(), "leak", Prim), Prim)
  {
    hide Fitting, FileOf, File, Layout, WellFormed, Run, NodeAt, ParentAt, WriteGlobal, Stored;
    var p, m := File(), Stored();
    WriteNodes();
    ReadRuns(host, fuel - 2);
    LiteralRuns(p, host, m, [0], 18, fuel - 2);
    GlobalWriteRuns(p, host, m, [0], 10, fuel - 1, Done(m, Global), Prim);
    StatementRuns(p, host, m, [0], 9, fuel, Done(WriteGlobal(m, "leak", Prim), Prim));
  }

  lemma ModuleRuns(host: Host, fuel: nat)
    requires Recalls(host) && fuel > 4
    ensures "leak" in RunModule(File(), host, fuel).m.written
  {
    hide Fitting, FileOf, File, Layout, WellFormed, Run, ParentAt, NodeAt, NewFrame, Hoist, RunList, Start, Stored;
    var p := File();
    Started();
    StoreNodes();
    StoreRuns(host, fuel);
    WriteRuns(host, fuel);
    var last := WriteGlobal(Stored(), "leak", Prim);
    assert [1] + [9] == [1, 9];
    LastNodeRuns(p, host, Stored(), [0], 9, fuel, Done(last, Prim));
    NextNodeRuns(p, host, Start(), [0], 1, [9], fuel, Done(Stored(), Prim), Result(last, Normal(Prim), [Prim]));
  }

  lemma HandsAnObject(host: Host)
    requires Recalls(host)
    ensures !Tame(host) && Reserved(host)
  {
    hide Calm;
    CalmIsCareful(Goal({}, false), host);
  }

  /** The file is in the fragment. With a host that reads back what was stored, every run writes a name that
      no final state of the analysis shows. */
  lemma StoredObjectEscapes(host: Host, fuel: nat, s: State)
    requires Recalls(host) && fuel > 4 && Final(File(), s)
    ensures InFragment(File()) && !Tame(host) && Reserved(host) && !Confined(File(), s)
    ensures Problems(File(), s) == {} && Exports(File(), s) == {}
    ensures "leak" in RunModule(File(), host, fuel).m.written
  {
    hide Fitting, FileOf, File, WellFormed, Final, InFragment, Exports, Problems, RunModule, Careful, Quiet;
    hide Closed, ValuesAt, Confined;
    assert |File().nodes| == SIZE;
    FileIsNameless();
    forall n: NodeId | n < SIZE ensures !NodeAt(n).Call? { NothingCalled(n); }
    NothingIsClosed(Layout());
    GlobalIsHeld(s);
    HandsAnObject(host);
    AllIsQuiet();
    NothingSeen(Layout(), s, Nothing());
    ModuleRuns(host, fuel);
  }
}

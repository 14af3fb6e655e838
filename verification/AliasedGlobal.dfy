/**
 Why soundness asks that the host hands out no other way to the global. In

     frames.leak = 1;

 `frames` is the browser global under a name that the analysis does not know.
 */
module AliasedGlobal {
  import opened Wrappers
  import opened Syntax
  import opened AbstractValues
  import opened GuardedEvaluation
  import opened FlowEquations
  import opened Fixpoint
  import opened Report
  import opened RunSemantics
  import opened Soundness
  import opened RendererSource
  import opened SmallFiles
  import opened SmallRuns

  const SIZE: nat := 7

  function NodeAt(n: nat): Node {
    match n
    case 0 => Program([1])
    case 1 => ExpressionStatement(2)
    case 2 => Assignment(true, 3, 6)
    case 3 => Member(4, 5, false)
    case 4 => Identifier("frames")
    case 5 => Identifier("leak")
    case _ => Literal(true, "1")
  }

  function ParentAt(n: nat): NodeId {
    match n
    case 2 => 1
    case 3 => 2
    case 4 => 3
    case 5 => 3
    case 6 => 2
    case _ => 0
  }

  function ChildrenAt(n: nat): seq<NodeId> {
    match n
    case 0 => [1]
    case 1 => [2]
    case 2 => [3, 6]
    case 3 => [4, 5]
    case _ => []
  }

  function ScopeAt(n: nat): NodeId {
    0
  }

  ghost function Layout(): Shape {
    Shape(SIZE, NodeAt, ParentAt, ChildrenAt, ScopeAt)
  }

  lemma NodeIsInFront(n: nat, k: NodeId)
    requires n < SIZE
    ensures InFront(Layout(), n, k)
  {
  }

  lemma NodeHasKids(n: nat)
    requires n < SIZE
    ensures HasKids(Layout(), n)
  {
  }

  lemma NodeIsAttached(n: nat)
    requires n < SIZE
    ensures Attached(Layout(), n)
  {
  }

  lemma NodeIsScoped(n: nat)
    requires n < SIZE
    ensures Scoped(Layout(), n)
  {
  }

  lemma NodeIsSimple(n: nat)
    requires n < SIZE
    ensures Simple(Layout(), n) && Placed(Layout(), n)
  {
  }

  ghost function File(): File
    ensures |File().nodes| == SIZE && File().isModule && Fitting(Layout()) && File() == FileOf(Layout())
    ensures forall n {:trigger File().nodes[n]} :: 0 <= n < SIZE ==> File().nodes[n] == NodeAt(n)
    ensures forall n {:trigger File().parent[n]} :: 0 <= n < SIZE ==> File().parent[n] == ParentAt(n)
  {
    assert Fitting(Layout()) by {
      hide HasKids, InFront, Attached, Scoped, Simple, Placed;
      forall n: nat | n < SIZE ensures Fits(Layout(), n) {
        NodeHasKids(n);
        forall k: NodeId ensures InFront(Layout(), n, k) { NodeIsInFront(n, k); }
        NodeIsAttached(n);
        NodeIsScoped(n);
        NodeIsSimple(n);
      }
    }
    FileOf(Layout())
  }

  lemma NodeIsNameless(n: nat)
    requires n < SIZE
    ensures !NodeAt(n).Function? && !NodeAt(n).VariableDeclaration?
  {
  }

  lemma FileIsNameless()
    ensures Nameless(Layout()) && File() == FileOf(Layout()) && InFragment(File()) && Plain(File()) == {}
  {
    hide Fitting, FileOf, File, InFragment, Plain, NodeAt, ParentAt, ChildrenAt;
    assert |File().nodes| == SIZE;
    forall n: nat | n < SIZE ensures !NodeAt(n).Function? && !NodeAt(n).VariableDeclaration? { NodeIsNameless(n); }
    NamelessInFragment(Layout());
    NamelessNames(Layout());
  }

  lemma WriteNodes()
    ensures NodeAt(0) == Program([1]) && NodeAt(1) == ExpressionStatement(2) && NodeAt(2) == Assignment(true, 3, 6)
    ensures NodeAt(3) == Member(4, 5, false) && NodeAt(4) == Identifier("frames") && NodeAt(5) == Identifier("leak")
    ensures NodeAt(6).Literal?
  {
  }

  // ---- The analysis ---------------------------------------------------------------------------

  lemma FramesIsUnknown()
    ensures FreeValues("frames") == {}
  {
    assert "frames"[0] == 'f';
    assert forall x :: x in GLOBAL_NAMES + OBJECT_BUILTINS + CODE_BUILTINS ==> x[0] != 'f';
  }

  lemma FramesEvaluates()
    ensures ValuesAt(File(), Nothing(), 4) == {}
  {
    hide Fitting, FileOf, File, WellFormed, ValuesAt, FreeValues, InFragment;
    FileIsNameless();
    WriteNodes();
    FreeName(Layout(), Nothing(), 4);
    FramesIsUnknown();
  }

  lemma NothingCalled(n: NodeId)
    requires n < SIZE
    ensures !NodeAt(n).Call?
  {
  }

  lemma NodeIsQuiet(n: NodeId)
    requires n < SIZE
    ensures Quiet(File(), Nothing(), n)
  {
    hide Fitting, FileOf, File, Layout, WellFormed, ValuesAt, Lookup, Names, ScopeOf, Quiet;
    var p, s := File(), Nothing();
    if n == 2 {
      WriteNodes();
      FramesEvaluates();
      LiteralEvaluates(p, s, 6);
      QuietMemberWrite(p, s, n);
    } else {
      QuietWithoutWrite(p, s, n);
    }
  }

  lemma AllIsQuiet()
    ensures forall n: NodeId :: n < SIZE ==> Quiet(File(), Nothing(), n)
  {
    hide Fitting, FileOf, File, Layout, WellFormed, Quiet, NodeAt, ParentAt;
    forall n: NodeId | n < SIZE ensures Quiet(File(), Nothing(), n) { NodeIsQuiet(n); }
  }

  // ---- The run ------------------------------------------------------------------------------------

  /** The machine when the module body starts: the global has a property that holds it. */
  ghost function Start(): Machine {
    EMPTY.(frames := [Frame(0, map[])], globals := map["frames" := Global])
  }

  ghost predicate Aliases(host: Host) {
    && host.earlier == [Put(Global, "frames", Global)] && host.recalls
    && forall n: NodeId :: Idle(host, n)
  }

  lemma Started(host: Host, fuel: nat)
    requires Aliases(host)
    ensures RunModule(File(), host, fuel) == RunList(File(), host, Start(), [0], [1], fuel)
  {
    hide Fitting, FileOf, File, Layout, WellFormed, ParentAt, NodeAt, Plain, Hoist, NewFrame, InFragment;
    hide Nameless, RunList, HostActs;
    var p, before := File(), EMPTY.(frames := [Frame(0, map[])]);
    FileIsNameless();
    WriteNodes();
    FrameStarts(p, EMPTY, [], 0, map[]);
    assert EMPTY.frames + [Frame(0, map[])] == before.frames;
    NothingHoisted(p, before, [0], 0, [1]);
    ModuleStarts(p, host, before, fuel);
    HostStores(p, host, before, Global, "frames", Global, fuel);
  }

  lemma FramesRuns(host: Host, fuel: nat)
    requires Aliases(host) && fuel > 0
    ensures Run(File(), host, Start(), [0], 4, fuel) == Done(Start(), Global)
  {
    hide Fitting, FileOf, File, Layout, WellFormed, Run, NodeAt, ParentAt;
    WriteNodes();
    FoundNowhere(Start(), [0], "frames");
    NameRuns(File(), host, Start(), [0], 4, fuel);
  }

  lemma ModuleRuns(host: Host, fuel: nat)
    requires Aliases(host) && fuel > 2
    ensures "leak" in RunModule(File(), host, fuel).m.written
  {
    hide Fitting, FileOf, File, Layout, WellFormed, Run, ParentAt, NodeAt, RunList, RunModule, Start;
    var p := File();
    Started(host, fuel);
    WriteNodes();
    FramesRuns(host, fuel - 2);
    LiteralRuns(p, host, Start(), [0], 6, fuel - 2);
    GlobalWriteRuns(p, host, Start(), [0], 2, fuel - 1, Done(Start(), Global), Prim);
    var last := WriteGlobal(Start(), "leak", Prim);
    StatementRuns(p, host, Start(), [0], 1, fuel, Done(last, Prim));
    LastNodeRuns(p, host, Start(), [0], 1, fuel, Done(last, Prim));
  }

  lemma HandsTheGlobal(host: Host)
    requires Aliases(host)
    ensures !Tame(host) && !Reserved(host)
  {
    assert Put(Global, "frames", Global) in host.earlier;
    assert !HarmlessAct(Goal({}, false), Put(Global, "frames", Global));
  }

  /** The file is in the fragment, and its module does nothing with the global but write on it. If the host
      has the global under another name, every run writes a name that no final state of the analysis shows. */
  lemma AliasedGlobalEscapes(host: Host, fuel: nat, s: State)
    requires Aliases(host) && fuel > 2 && Final(File(), s)
    ensures InFragment(File()) && !Tame(host) && !Reserved(host)
    ensures Problems(File(), s) == {} && Exports(File(), s) == {}
    ensures "leak" in RunModule(File(), host, fuel).m.written
  {
    hide Fitting, FileOf, File, WellFormed, Final, InFragment, Exports, Problems, RunModule, Careful, Quiet;
    hide Closed, ValuesAt;
    assert |File().nodes| == SIZE;
    FileIsNameless();
    forall n: NodeId | n < SIZE ensures !NodeAt(n).Call? { NothingCalled(n); }
    NothingIsClosed(Layout());
    AllIsQuiet();
    NothingSeen(Layout(), s, Nothing());
    HandsTheGlobal(host);
    ModuleRuns(host, fuel);
  }
}
